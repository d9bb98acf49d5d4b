# tagg — a verified model of the tag-entry core

tagg is an MP3 tagger. It guesses an album's common tags from the files it finds, lets the
user correct them field by field in a terminal editor, does the same for each track, and
writes the tags back. The write step also renames each file `"{number} - {title}.mp3"`.
This project models the core of that program in Dafny and proves properties of the model.

- **Generic session driver** (`src/editor.rs`), module `Editor`.
  - `Editor.Classify` states how a read line is classified: `:b` is back; `:q`, Ctrl-C and end of input mean exit; any other text is data, trimmed.
  - `Editor.OnePass` is one pass of the loop in `Editor::run`, and `Editor.Session` is the whole loop.
  - Rust's `State` and `OutputBuilder` traits become records of functions (`StateOps`, `BuilderOps`).
  - The terminal is replaced by a finite script of read results. A session records what it showed: each prompt with its pre-filled text, and each rejected answer.
- **Album editor** (`src/album.rs`) and **track editor** (`src/track.rs`), modules `Album` and `Track`.
  - `AlbumState`/`TrackState` are classes whose `kind` field moves through the fields.
  - `AlbumOutputBuilder`/`TrackOutputBuilder` are classes holding the answers. Numeric answers are parsed as Rust's `u32`/`i32` parsers do.
  - The editors' `Run` loops are proved to produce exactly `Editor.Session`.
  - `Album.FromFileInput` seeds the album defaults from the files' most common tags. Its loop fills a `Counter.Counter`.
- **Frequency counter** (`src/counter.rs`), module `Counter`: a class over nested maps.
- **Output record and names** (`src/file.rs`), module `Files`. It covers the merge of album and track output, the ID3 frame texts `write` adds, and the new file name and path.
- **The older Python version** (`tagg.py`).
  - Module `PyCollections`: `DefaultOrderedDict` and `Counter`, over an insertion-ordered dictionary value (`OrderedMap`), and `collections.Counter` as a list of tallies in first-counted order.
  - Module `Tagg`:
    - the item-name handling and `n/m` splitting of `ID3Reader.__getitem__`;
    - the two validators and `edit_tag`'s choice between them;
    - `get_common_tags` (an imperative method over the `Counter` class) and `get_items_tags`;
    - `copy_files`' directory and file names.
- Supporting modules:
  - `Wrappers`: `Option`, `Result`.
  - `Text`: trimming, splitting and searching strings.
  - `Numbers`:
    - Rust's `str::parse` for `u32` and `i32`, with its error kinds;
    - decimal formatting and two-digit zero padding;
    - their round trips.
  - `FileInputs`: the tags read from a file.

Integers are unbounded in Dafny. Rust's `u32` and `i32` are the subset types `Numbers.U32` and `Numbers.I32`, and the parsers reject what does not fit.

## Model

| member | source | states |
|---|---|---|
| Editor.PromptShowsLabel | src/editor.rs:27-28 | the prompt is the label in brackets followed by ` >>> `, so distinct labels give distinct prompts |
| Editor.Classify | src/editor.rs:27-38 | a line is trimmed; it means back exactly when it trims to `:b` and exit exactly when it trims to `:q`, otherwise data carrying the trimmed text; Ctrl-C and end of input mean exit; any other read failure is returned as an error |
| Editor.OnePass | src/editor.rs:42-71 | a pass that continues has consumed one line and was at a field; at a field the first event shown is that field's prompt with its pre-filled text; at an end state nothing is shown and the session returns |
| Editor.Session | src/editor.rs:41-73 | a session at a field first shows that field's prompt; at an end state it shows nothing and returns |
| Editor.RejectedAnswerRepeatsField | src/editor.rs:46-49 | an answer the builder rejects is reported, and the same state and builder read the next line, so the same field is asked again |
| Editor.AcceptedAnswerAdvances | src/editor.rs:46-51 | an accepted answer applies exactly one `next` and continues with the builder that took the answer |
| Editor.BackOnlyRetreats | src/editor.rs:53-55 | the back command applies only `prev`; the builder is handed on untouched |
| Editor.ExitOnlyInterrupts | src/editor.rs:56-58 | the quit command, Ctrl-C and end of input apply only `interrupt`; the builder is handed on untouched |
| Editor.AnswerThenBack | src/editor.rs:44-59 | an accepted answer followed by back returns to the same state with the answer kept in the builder, after two prompts |
| Editor.ReadFailureEndsSession | src/editor.rs:30-45 | a terminal failure other than Ctrl-C or end of input ends the session with `EditorError::Readline` carrying it |
| Editor.FinishedReturnsBuild | src/editor.rs:64-69 | once the state is finished, the session returns `Finished(o)` exactly when `build` gives `o`, and `BuildOutput(e)` when it fails with `e` |
| Editor.InterruptedNeverBuilds | src/editor.rs:61-63 | a session that ends interrupted never consulted `build`: replacing `build` changes neither outcome nor transcript |
| Album.Position | src/album.rs:52-60 | every field has its place in the declaration order |
| Album.LabelsDistinct | src/album.rs:62-74 | no two album fields share a prompt label |
| Album.Store | src/album.rs:93-104 | text fields always take the answer; year, total tracks and total discs take the parsed `i32`/`u32`, and fail with that field's error and the parser's reason exactly when the parse fails; no other field changes |
| Album.BuildOutput | src/album.rs:106-115 | building succeeds exactly when all six fields are set, with exactly those values; otherwise it names a missing field, and every field before it in declaration order is set |
| Album.BuildAsInput | src/album.rs:106-115 | building from the fields of a complete output gives that output back |
| Album.InputFor | src/album.rs:213-243 | a field state reads its own field, pre-filled from the state's seed; the two end states report themselves |
| Album.NextKind | src/album.rs:245-257 | from a field, `next` moves exactly one place on (to `Finished` after the last); the end states stay put |
| Album.PrevKind | src/album.rs:259-271 | `prev` always lands on a field: one place back, the first field staying and `Interrupted` restarting at it |
| Album.PrevUndoesNext | src/album.rs:245-271 | going back undoes going forward from every field |
| Album.FinishedAfterSixSteps | src/album.rs:204-257 | from the first field, the state is finished exactly after six or more `next`s, and the `n`-th step before that asks the `n`-th field |
| Album.AdvanceIndex | src/album.rs:245-257 | `n` accepted answers from a field move `n` places on, stopping at `Finished` |
| Album.ObservedYear | src/album.rs:31-32 | every year text counted is the decimal form of an `i32` |
| Album.ObservedTotal | src/album.rs:34-38 | every total counted is the decimal form of a `u32` |
| Album.YearTextsCountYears | src/album.rs:31-32 | counting years by their text counts each year exactly as often as it occurs |
| Album.MostCommonYearText | src/album.rs:31-45 | the year picked by its text is also a most frequent year by value |
| Album.CountTag | src/album.rs:22-24 | a tag the file carries is counted once under its field; nothing else changes |
| Album.CountFile | src/album.rs:21-39 | one file adds one count for each tag it carries, under its field |
| Album.CountAll | src/album.rs:20-40 | after the loop, every field's counts are the occurrences of that field's tags across the files, and a field is present exactly when some file carries it |
| Album.MostCommonOf | src/album.rs:42-44 | no value exactly when no file carries the field; otherwise a value no other occurs more often than |
| Album.MostCommonYear | src/album.rs:45 | the year is missing exactly when no file has one; otherwise its text is a most common year text, so parsing it back never fails |
| Album.MostCommonTotal | src/album.rs:46-47 | the same for the track and disc totals as `u32` |
| Album.FromFileInput | src/album.rs:19-49 | each of the six fields is missing exactly when no file carries it, and otherwise holds a most common value among the files that do |
| Album.AnswerStep | src/album.rs:212-257 | an accepted answer shows the field's seed-filled prompt, stores the answer, and moves to the next field |
| Album.AnswersToTheEnd | src/album.rs:212-257 | answering every remaining field asks exactly those fields in order, each pre-filled from the seed, and ends with what `build` makes of the stored answers |
| Album.FinishedSession | src/album.rs:106-115 | a finished album session shows nothing more and returns what `build` gives |
| Album.SixAnswersFill | src/album.rs:93-104 | six valid answers from the first field fill every field with its answer |
| Album.AskedFromFields | src/album.rs:213-257 | from any field on, the prompts are those of the remaining fields in declaration order |
| Album.SixAnswersFinish | src/album.rs:286-298 | a fresh album editor given six valid answers finishes with exactly those values |
| Album.SixFieldsAsked | src/album.rs:213-243 | a fresh album session asks the six fields in order, each pre-filled from the seed |
| Album.QuitAtFirstField | src/album.rs:204-275 | quitting at the first prompt ends the session interrupted after that single prompt |
| Album.AnswerThenBack | src/album.rs:245-271 | answering a field and going back returns to that field with the answer stored in the builder |
| Album.RevisitedFieldShowsSeedHint | src/album.rs:286-294 | a field revisited after an answer is pre-filled from the seed again, not with the answer given, because the state keeps its own copy of the input |
| Album.OpensWithPrompt | src/album.rs:213-243 | a session at a field opens with that field's seed-filled prompt, whatever the builder holds |
| Album.BadNumberAsksAgain | src/album.rs:99 | a year that does not parse is reported with `AlbumInputError::Year` and the year is asked again, nothing stored |
| Album.AlbumState.constructor | src/album.rs:204-209 | a new state holds its seed and starts at the first field |
| Album.AlbumState.Next | src/album.rs:245-257 | the kind moves as `NextKind` says; the seed is untouched |
| Album.AlbumState.Prev | src/album.rs:259-271 | the kind moves as `PrevKind` says; the seed is untouched |
| Album.AlbumState.Interrupt | src/album.rs:273-275 | the kind becomes `Interrupted` from any state |
| Album.AlbumState.Finish | src/album.rs:277-279 | the kind becomes `Finished` from any state |
| Album.AlbumOutputBuilder.constructor | src/album.rs:82-84 | the builder starts from the given input |
| Album.AlbumOutputBuilder.SetValue | src/album.rs:93-104 | an accepted answer leaves the input `Store` gives; a rejected one returns its error and changes nothing |
| Album.AlbumEditor.constructor | src/album.rs:287-294 | the state and the builder each start from the same input, the state at the first field |
| Album.AlbumEditor.Pass | src/editor.rs:42-71 | one pass over the classes ends, or moves the state and builder, as `Editor.OnePass` says |
| Album.AlbumEditor.Run | src/album.rs:296-298 | the loop returns exactly what `Editor.Session` describes for the album state and builder |
| Counter.TwiceBeatsOnce | src/counter.rs:17-31 | a fresh counter given `insert(k, a)`, `insert(k, b)`, `insert(k, a)` with `a` and `b` different answers `a` from `most_common(k)`, whatever order the table is walked in |
| Counter.Counter.constructor | src/counter.rs:8-14 | a new counter counts nothing |
| Counter.Counter.Insert | src/counter.rs:17-20 | the count of the pair goes up by exactly one, every other count is unchanged, and the key becomes present |
| Counter.Counter.MostCommon | src/counter.rs:22-31 | nothing exactly when the key was never inserted; otherwise an inserted value whose count is at least every other count under the key; the table is not changed |
| Track.Position | src/track.rs:24-29 | every field has its place in the declaration order |
| Track.LabelsDistinct | src/track.rs:31-40 | no two track fields share a prompt label |
| Track.Store | src/track.rs:59-67 | the title always takes the answer; the numbers take the parsed `u32`, and fail with that field's error exactly when the parse fails; no other field changes |
| Track.BuildOutput | src/track.rs:69-76 | building succeeds exactly when all three fields are set, with exactly those values; otherwise it names a missing field with every earlier field set |
| Track.BuildAsInput | src/track.rs:69-76 | building from the fields of a complete output gives that output back |
| Track.MissingTitleFails | src/track.rs:69-76 | with both numbers known and no title, `build` fails with `TrackOutputError::Title` |
| Track.InputFor | src/track.rs:157-176 | a field state reads its own field, pre-filled from the state's seed; the end states report themselves |
| Track.NextKind | src/track.rs:178-187 | from a field, `next` moves exactly one place on (to `Finished` after the title); the end states stay put |
| Track.PrevKind | src/track.rs:189-198 | `prev` always lands on a field: one place back, the track number staying and `Interrupted` restarting at it |
| Track.PrevUndoesNext | src/track.rs:178-198 | going back undoes going forward from every field |
| Track.FinishedAfterThreeSteps | src/track.rs:148-187 | from the track number, the state is finished exactly after three or more `next`s, and the `n`-th step before that asks the `n`-th field |
| Track.AdvanceIndex | src/track.rs:178-187 | `n` accepted answers from a field move `n` places on, stopping at `Finished` |
| Track.AnswerStep | src/track.rs:157-187 | an accepted answer shows the field's seed-filled prompt, stores the answer, and moves to the next field |
| Track.AnswersToTheEnd | src/track.rs:157-187 | answering every remaining field asks exactly those fields in order and ends with what `build` makes of the answers |
| Track.FinishedSession | src/track.rs:69-76 | a finished track session shows nothing more and returns what `build` gives |
| Track.AskedFromFields | src/track.rs:157-187 | from any field on, the prompts are those of the remaining fields in order |
| Track.ThreeAnswersFill | src/track.rs:59-67 | three valid answers from the track number fill every field with its answer |
| Track.ThreeAnswersFinish | src/track.rs:213-225 | a track editor at its first field given three valid answers finishes with exactly those values, whatever the builder held |
| Track.ThreeFieldsAsked | src/track.rs:157-176 | a fresh track session asks track number, disc number and title, each pre-filled from the seed |
| Track.QuitAtFirstField | src/track.rs:148-202 | quitting at the first prompt ends the session interrupted after that single prompt |
| Track.AnswerThenBack | src/track.rs:178-198 | answering a field and going back returns to that field with the answer stored |
| Track.BadNumberAsksAgain | src/track.rs:62-63 | a track or disc number that does not parse is reported and asked again, nothing stored |
| Track.EchoesSession | src/track.rs:213-225 | answering `1`, `1`, `Echoes` with no defaults finishes with track 1, disc 1, title `Echoes` |
| Track.OneThenBack | src/track.rs:189-198 | `1` then `:b` shows two prompts and asks the track number again with 1 stored |
| Track.BackThenAnswersSession | src/track.rs:213-225 | `1`, `:b`, `2`, `1`, `Echoes` asks the track number again pre-filled with the empty seed text and finishes with track 2 |
| Track.EmptySeedPrompt | src/editor.rs:144-148 | with no default, the track number prompt shows its label and pre-fills nothing |
| Track.FileSeededPrompts | src/track.rs:14-22 | `Track.FromFileInput` (`TrackInput::from`) and `Editor.FromOption` (`DefaultValue::from`): a track editor created from a file asks track number, disc number and title in order, each prompt pre-filled with the file's value (a number in decimal) and the cursor after it, or empty when the file has none |
| Track.TrackState.constructor | src/track.rs:149-154 | a new state holds its seed and starts at the track number |
| Track.TrackState.Next | src/track.rs:178-187 | the kind moves as `NextKind` says; the seed is untouched |
| Track.TrackState.Prev | src/track.rs:189-198 | the kind moves as `PrevKind` says; the seed is untouched |
| Track.TrackState.Interrupt | src/track.rs:200-202 | the kind becomes `Interrupted` from any state |
| Track.TrackState.Finish | src/track.rs:204-206 | the kind becomes `Finished` from any state |
| Track.TrackOutputBuilder.constructor | src/track.rs:48-50 | the builder starts from the given input |
| Track.TrackOutputBuilder.SetValue | src/track.rs:59-67 | an accepted answer leaves the input `Store` gives; a rejected one returns its error and changes nothing |
| Track.TrackEditor.constructor | src/track.rs:214-221 | the state and the builder each start from the same input, the state at the track number |
| Track.TrackEditor.Pass | src/editor.rs:42-71 | one pass over the classes ends, or moves the state and builder, as `Editor.OnePass` says |
| Track.TrackEditor.Run | src/track.rs:223-225 | the loop returns exactly what `Editor.Session` describes for the track state and builder |
| Files.MergeKeepsParts | src/file.rs:62-77 | `Files.Merge` (`FileOutput::from`): the merged record takes every album field from the album output and every track field from the track output, keeps the path, and is exactly the merge of its two parts |
| Files.PairTextReadsBack | src/file.rs:101-108 | a TRCK/TPOS text splits at `/` into the two numbers padded to at least two digits, and each parses back to its number |
| Files.FramesReadBack | src/file.rs:89-108 | `Files.Frames` (the frames `write` adds): the seven frames carry the whole record: names and title verbatim, the year as text that parses back, both number pairs split and padded |
| Files.FrameIdsDistinct | src/file.rs:89-108 | no frame identifier is added twice |
| Files.NumberPrefixReadsBack | src/file.rs:112-116 | `Files.NumberPrefix`: the prefix holds `-` exactly when there is more than one disc; then it splits into disc and track, otherwise it is the track alone, and the numbers parse back |
| Files.FileNameParts | src/file.rs:117 | `Files.FileName`: the name is the prefix, ` - `, the title verbatim, and `.mp3` |
| Files.FileNameTellsTracksApart | src/file.rs:112-117 | two files on the same disc of albums with as many discs share a name only if track number and title agree |
| Files.WithFileName | src/file.rs:118 | the last path component becomes the name, the directory kept; a path without a file name gets the name appended |
| Files.NewPath | src/file.rs:112-118 | the renamed file keeps its directory and takes the new name |
| Numbers.ParseU32 | src/album.rs:100 | `parse::<u32>` succeeds exactly on an optional `+` and digits whose value fits, with that value; the empty text is the `Empty` error |
| Numbers.ParseI32 | src/album.rs:99 | `parse::<i32>` succeeds exactly on an optional sign and digits whose signed value fits, with that value; the empty text is the `Empty` error |
| Numbers.ParseFormatU32 | src/album.rs:34-47 | `Numbers.FormatNat` (`Display` for `u32`): a `u32` written in decimal parses back to itself |
| Numbers.ParseFormatI32 | src/album.rs:31-45 | `Numbers.FormatInt` (`Display` for `i32`): an `i32` written in decimal parses back to itself |
| Numbers.Pad2Digits | src/file.rs:103 | `Numbers.Pad2` (width `02`): a field zero-padded to two digits has at least two digits standing for the number, a zero and the digit below ten |
| Numbers.ParsePad2 | src/file.rs:101-108 | a field zero-padded to two digits parses back to its `u32` |
| Numbers.FormatIntInjective | src/album.rs:31-32 | different years are written differently, so counting year texts counts years |
| Text.Trim | src/editor.rs:31 | the result is the slice of the line between leading and trailing white space, and starts and ends with non-blank characters |
| Text.Split | tagg.py:62-65 | `str.split(sep)`: at least one piece, no piece holds the separator, and joining the pieces with it gives the text back |
| PyCollections.PutKeepsOrder | tagg.py:89-101 | assignment maps the key to the value, leaves every other key alone, keeps the order of existing keys and appends a new key |
| PyCollections.PutTwice | tagg.py:154-159 | assigning a key twice is assigning the second value only |
| PyCollections.TouchedAddsDefault | tagg.py:95-101 | reading a present key changes nothing; reading a missing one stores the factory value as the last key and returns it |
| PyCollections.DefaultOrderedDict.constructor | tagg.py:91-93 | a new dictionary is empty and keeps its factory value |
| PyCollections.DefaultOrderedDict.Get | tagg.py:95-101 | returns the stored or the factory value; the dictionary becomes as `Touched` says |
| PyCollections.DefaultOrderedDict.Set | tagg.py:89-93 | assignment updates the dictionary as `Put` says |
| PyCollections.Increment | tagg.py:129 | `c[v] += 1`: the count of `v` rises by one, no other count changes, a new value goes last |
| PyCollections.CountsAreOccurrences | tagg.py:128-129 | counting a sequence from nothing gives each value the number of times it occurs, and lists exactly the values that occur |
| PyCollections.FirstMost | tagg.py:131-134 | `most_common(1)`: nothing exactly for an empty counter |
| PyCollections.MostCommonOfCounts | tagg.py:131-134 | the answer occurs at least as often as any value, and every value first counted before it occurs strictly less often |
| PyCollections.RecordAllTallies | tagg.py:128-129 | the counter kept for a key has counted exactly the values assigned to that key, in order |
| PyCollections.RecordAllKeyOrder | tagg.py:136-138 | keys are listed once each, in the order they were first assigned |
| PyCollections.Counter.constructor | tagg.py:125-126 | a new counter holds no key |
| PyCollections.Counter.Set | tagg.py:128-129 | one more count of the value under the key, the key created if missing |
| PyCollections.Counter.Get | tagg.py:131-134 | the most common value under the key, or `None`; a key never set is stored with an empty counter |
| PyCollections.Counter.Items | tagg.py:136-138 | iteration yields `Summary` of the counter, each key in first-assigned order with the most common value of its `collections.Counter`, and changes nothing |
| PyCollections.DocstringMostCommon | tagg.py:108-114 | three `v1` and five `v2` give `v2` |
| PyCollections.DocstringScenario | tagg.py:105-123 | iterating the docstring's counter yields the single key `k` with `v2` |
| Tagg.NoTagReadsNone | tagg.py:57-58 | `Tagg.ReadItem` (`ID3Reader.__getitem__`): a file without a tag, or with an empty one, reads `None` under every name |
| Tagg.NumberName | tagg.py:61-62 | `Tagg.Dispatch` (the name handling of `__getitem__`): `base_number` reads the frame of `base`, as its number part |
| Tagg.TotalName | tagg.py:63-65 | `total_bases` reads the frame of `base`, the last letter dropped, as its total part |
| Tagg.TrackNumberName | tagg.py:60-62 | `track_number` is the number part of frame TRCK |
| Tagg.TotalTracksName | tagg.py:60-65 | `total_tracks` is the total part of frame TRCK |
| Tagg.DiscNumberName | tagg.py:60-62 | `disc_number` is the number part of frame TPOS |
| Tagg.TotalDiscsName | tagg.py:60-65 | `total_discs` is the total part of frame TPOS |
| Tagg.PlainName | tagg.py:66-67 | a name neither ending in `number` nor starting with `total` is read whole from its own frame |
| Tagg.PairSplits | tagg.py:75-81 | `Tagg.SplitPart` (the `n/m` split of `__getitem__`): of an `n/m` text, a number is `n` and a total is `m` |
| Tagg.SingleSplits | tagg.py:82-85 | without a `/`, a number is the whole text and a total is empty |
| Tagg.MissingFrameReadsEmpty | tagg.py:69-73 | a frame missing from a non-empty tag reads as `''` |
| Tagg.ReadsWrittenTrackFrame | tagg.py:56-86 | reading the TRCK text the Rust version writes gives back the padded track number and total |
| Tagg.ValidatorsAccept | tagg.py:163-173 | `Tagg.Validate` (`RequiredValidator`, `DigitValidator`): the required validator accepts exactly non-empty text, the digit validator exactly non-empty digit text, which `int` then reads as the number it writes |
| Tagg.CountNameTakesDigits | tagg.py:215-218 | `Tagg.ChooseValidator` (`edit_tag`): any name containing `number` or `total` gets the digit validator |
| Tagg.NumberNamesTakeDigits | tagg.py:215-218 | `track_number` and `disc_number` get the digit validator |
| Tagg.TotalNamesTakeDigits | tagg.py:215-218 | `total_tracks` and `total_discs` get the digit validator |
| Tagg.ShortNamesTakeAnyAnswer | tagg.py:215-218 | `year`, `title` and `album` only need an answer |
| Tagg.KnownKeysRead | tagg.py:143-153 | every name the program asks for reads without an exception from every file |
| Tagg.GetCommonTags | tagg.py:141-148 | the loop over files and keys with the `Counter` class returns exactly `CommonTags` |
| Tagg.CommonKeysDistinct | tagg.py:143 | no common key is listed twice |
| Tagg.ColumnCounted | tagg.py:145-147 | the values counted for a common key are `Tagg.Column`, that key's value in each file in file order, `None` and `''` included |
| Tagg.CommonKeyOrder | tagg.py:143-148 | once a file is counted, the keys are the six common keys in their order |
| Tagg.CommonTagsAreMostCommon | tagg.py:141-148 | `Tagg.CommonTags` (`get_common_tags`): no files give no tags; otherwise the six keys in order, each with a value that occurs in the files at least as often as any other |
| Tagg.ItemsTagsWellFormed | tagg.py:151-160 | `Tagg.ItemsTags` (`get_items_tags`): the per-file dictionary is well formed |
| Tagg.ItemsTagsPaths | tagg.py:151-160 | a path has an entry exactly when some file has that path |
| Tagg.ItemsTagsLastWins | tagg.py:151-160 | a path maps to `Row(file, ItemKeys)` of the last file with that path: its title, track number and disc number, in that order |
| Tagg.CopyNameParts | tagg.py:275-279 | `Tagg.CopyName`: the name is `disc-track` when `int` reads more than one disc, else the track, then ` - `, the title and `.mp3` |
| Tagg.PyIntDigits | tagg.py:275 | `Tagg.PyInt` (`int`): a non-empty text of ASCII digits is the number it writes |
| Tagg.PyIntPadded | tagg.py:275 | white space around the digits is skipped: ASCII tab, line feed, vertical tab, form feed, carriage return and space, and the non-ASCII characters `str.isspace` accepts |
| Tagg.PyIntRefusesSeparator | tagg.py:275 | an information separator (U+001C) before the digits is not white space to `int`, so the text raises `ValueError` |
| Tagg.PyIntSigned | tagg.py:275 | a leading `+` keeps the number and a leading `-` negates it |
| Tagg.PyIntGrouped | tagg.py:275 | an underscore between two groups of digits is read as if absent |
| Tagg.PyIntRefuses | tagg.py:275 | two underscores in a row, a leading underscore, a lone sign and the empty text raise `ValueError` |
| Tagg.PlanCopiesStops | tagg.py:274-281 | a failure among the first files is the failure of the whole run |
| Tagg.CopyFiles | tagg.py:262-283 | the loop returns exactly `CopyPlan`: the album directory, then one copy per file in order, or the first error |
| Tagg.PlanCopiesPlaces | tagg.py:273-283 | `Tagg.PlanCopies` (the loop of `copy_files`): the copies succeed exactly when every file gets a name; then each file's copy lies in the album directory and each copy carries the tags of a file so named |
| Tagg.CopyPlanMissingKey | tagg.py:263-270 | `Tagg.AlbumDir`: a missing `artist`, `year` or `album`, asked for in that order, is the error of the whole run before any file is looked at |
| Tagg.CopyPlanPlaces | tagg.py:262-283 | `Tagg.CopyPlan`: with the album keys present the run succeeds exactly when every file gets a name, and every copy is `dest/artist/"year - album"/name` carrying its file's tags |

## Left out

- The rustyline line editor, its pre-filled input and its history are not modelled: reads are a supplied script of results, and a script that runs out ends the model's session as `ScriptExhausted`.
- `println!` of rejected answers is not modelled: the rejection is recorded in the transcript. The `Display` and `source` implementations of the error enums are not modelled either; the model records the variants.
- `src/app.rs` (arguments, confirmation prompt, orchestration) and `src/finder.rs` (directory walking) are I/O glue and are not part of this model.
- The effectful half of `FileOutput::write` is not modelled: removing APE and ID3 tags, opening, writing and renaming the file. Likewise `FileInput::from_path`. Only the frame texts and the new path are modelled.
- In `tagg.py`, the prompt_toolkit `CLI`, mutagen reads and writes, `os.makedirs`, `shutil.copy`, `write_tags` and `main` are not modelled; they are I/O.
- Paths are sequences of components. `os.path.join` and `PathBuf` normalisation are not modelled.
- Counter.Counter.Insert: the Rust count is a `u32` that would overflow after 2^32 inserts; the model counts without bound.
- Counter.Counter.MostCommon: among equally frequent values the Rust code returns whichever `HashMap` iteration and a stable sort put last, which the language leaves open; the model promises only some value of highest count.
- Album.FromFileInput: it inherits that tie freedom; the year and totals are counted by text, and `Album.MostCommonYearText` shows that this is the same as counting the numbers.
- Tagg.CommonTagsAreMostCommon: it does not say which of equally common values is returned. `PyCollections.MostCommonOfCounts` states that the first one counted wins.
- Tagg.ValidatorsAccept: Python's `str.isdigit` also accepts non-ASCII digits; the model treats digits as ASCII `0`-`9`.
- Tagg.PyInt: Python's `int` also reads non-ASCII decimal digits (Arabic-Indic and the like); the model reads only ASCII `0`-`9`, together with the sign, surrounding white space and single underscores `int` allows.
- Frame texts are modelled as the `str` of the frame already taken; mutagen's text frame rendering is not modelled.
- Rust's `char::is_whitespace` is modelled by its list of Unicode white-space characters; nothing beyond `trim` depends on Unicode.
- The Python and Rust file names differ: `copy_files` writes the numbers as the user typed them, while `FileOutput::write` pads them to two digits. Each is modelled as written.

## Behaviour the code shows

- Going back to a field shows the seed value as its pre-filled text, not the answer just given. The state and the builder each hold their own copy of the input (src/album.rs:287-294, src/track.rs:213-221). A later answer replaces the earlier one. `Album.RevisitedFieldShowsSeedHint` and `Track.BackThenAnswersSession` state this.
- `from_file_input` and `get_common_tags` count every value present, the empty text included. `get_common_tags` also counts `None` (`Tagg.ColumnCounted`).
- The `Counter` docstring (tagg.py:108-114) says `v1` is printed. The code returns `v2`, the value counted more often (`PyCollections.DocstringMostCommon`).
- The Rust track builder accepts an empty title (`Track.Store`).
- In the Python version the year is checked only for being non-empty (`Tagg.ShortNamesTakeAnyAnswer`).
- With no files, `copy_files` never reads `total_discs`, so an unreadable disc count is no error then.
