/**
 * `src/album.rs`: the album-level fields (artist, album artist, album, year, total tracks,
 * total discs), how they are guessed from the files' existing tags, and the six-field editor
 * session that confirms them.
 */
module Album {
  import opened Wrappers
  import opened Text
  import opened Numbers
  import opened FileInputs
  import Counter
  import Editor

  /** `AlbumInput`: the album fields known so far; each may be missing. */
  datatype AlbumInput = AlbumInput(
    artist: Option<string>,
    albumArtist: Option<string>,
    album: Option<string>,
    year: Option<I32>,
    totalTracks: Option<U32>,
    totalDiscs: Option<U32>)

  /** `AlbumKey`: the six fields, in the order the editor asks for them. */
  datatype AlbumKey = Artist | AlbumArtist | Album | Year | TotalTracks | TotalDiscs

  /** `AlbumOutput`: a complete set of album fields. */
  datatype AlbumOutput = AlbumOutput(
    artist: string,
    albumArtist: string,
    album: string,
    year: I32,
    totalTracks: U32,
    totalDiscs: U32)

  /** `AlbumInputError`: an answer for a numeric field that does not parse, with the parser's reason. */
  datatype AlbumInputError = Year(cause: IntErrorKind) | TotalTracks(cause: IntErrorKind) | TotalDiscs(cause: IntErrorKind)

  /** `AlbumOutputError`: the first field still missing when the output is built. */
  datatype AlbumOutputError = Artist | AlbumArtist | Album | Year | TotalTracks | TotalDiscs

  /** `AlbumStateKind`: the field being asked for, or one of the two ends of the session. */
  datatype AlbumStateKind = Artist | AlbumArtist | Album | Year | TotalTracks | TotalDiscs | Interrupted | Finished

  /** The order in which the fields are declared, asked for and checked by `build`. */
  const FieldOrder: seq<AlbumKey> :=
    [AlbumKey.Artist, AlbumKey.AlbumArtist, AlbumKey.Album, AlbumKey.Year, AlbumKey.TotalTracks, AlbumKey.TotalDiscs]

  function Position(key: AlbumKey): (n: nat)
    ensures n < |FieldOrder| && FieldOrder[n] == key
  {
    match key
    case Artist => 0
    case AlbumArtist => 1
    case Album => 2
    case Year => 3
    case TotalTracks => 4
    case TotalDiscs => 5
  }

  /** `get_prompt`: the label shown in the prompt for each field. */
  function Label(key: AlbumKey): string
  {
    match key
    case Artist => "ARTIST"
    case AlbumArtist => "ALBUM ARTIST"
    case Album => "ALBUM"
    case Year => "YEAR"
    case TotalTracks => "TOTAL TRACKS"
    case TotalDiscs => "TOTAL DISCS"
  }

  /** No two fields share a label, so a prompt tells the user which field is asked. */
  lemma LabelsDistinct(a: AlbumKey, b: AlbumKey)
    requires a != b
    ensures Label(a) != Label(b)
  {
  }

  /** The error `build` reports names the field that is missing. */
  function MissingKey(e: AlbumOutputError): (key: AlbumKey)
  {
    match e
    case Artist => AlbumKey.Artist
    case AlbumArtist => AlbumKey.AlbumArtist
    case Album => AlbumKey.Album
    case Year => AlbumKey.Year
    case TotalTracks => AlbumKey.TotalTracks
    case TotalDiscs => AlbumKey.TotalDiscs
  }

  predicate IsSet(input: AlbumInput, key: AlbumKey)
  {
    match key
    case Artist => input.artist.Some?
    case AlbumArtist => input.albumArtist.Some?
    case Album => input.album.Some?
    case Year => input.year.Some?
    case TotalTracks => input.totalTracks.Some?
    case TotalDiscs => input.totalDiscs.Some?
  }

  /** `a` and `b` hold the same value for `key`. */
  predicate SameField(a: AlbumInput, b: AlbumInput, key: AlbumKey)
  {
    match key
    case Artist => a.artist == b.artist
    case AlbumArtist => a.albumArtist == b.albumArtist
    case Album => a.album == b.album
    case Year => a.year == b.year
    case TotalTracks => a.totalTracks == b.totalTracks
    case TotalDiscs => a.totalDiscs == b.totalDiscs
  }

  /** The field `key` of `input` holds the value the answer `text` stands for. */
  predicate HasAnswer(input: AlbumInput, key: AlbumKey, text: string)
  {
    match key
    case Artist => input.artist == Some(text)
    case AlbumArtist => input.albumArtist == Some(text)
    case Album => input.album == Some(text)
    case Year => ParseI32(text).Ok? && input.year == Some(ParseI32(text).value)
    case TotalTracks => ParseU32(text).Ok? && input.totalTracks == Some(ParseU32(text).value)
    case TotalDiscs => ParseU32(text).Ok? && input.totalDiscs == Some(ParseU32(text).value)
  }

  /**
   * `AlbumOutputBuilder::set_value` on the builder's input: a text field takes the answer as
   * it is; a numeric field takes the parsed number, or rejects the answer with the parser's
   * reason and keeps its old value. No other field changes.
   */
  function Store(input: AlbumInput, key: AlbumKey, text: string): (r: Result<AlbumInput, AlbumInputError>)
    ensures r.Ok? ==> HasAnswer(r.value, key, text) && forall k :: k != key ==> SameField(r.value, input, k)
    ensures r.Err? <==>
      || (key == AlbumKey.Year && ParseI32(text).Err?)
      || (key == AlbumKey.TotalTracks && ParseU32(text).Err?)
      || (key == AlbumKey.TotalDiscs && ParseU32(text).Err?)
    ensures r.Err? ==>
      || (key == AlbumKey.Year && r.error == AlbumInputError.Year(ParseI32(text).error))
      || (key == AlbumKey.TotalTracks && r.error == AlbumInputError.TotalTracks(ParseU32(text).error))
      || (key == AlbumKey.TotalDiscs && r.error == AlbumInputError.TotalDiscs(ParseU32(text).error))
  {
    match key
    case Artist => Ok(input.(artist := Some(text)))
    case AlbumArtist => Ok(input.(albumArtist := Some(text)))
    case Album => Ok(input.(album := Some(text)))
    case Year =>
      (match ParseI32(text)
       case Ok(y) => Ok(input.(year := Some(y)))
       case Err(e) => Err(AlbumInputError.Year(e)))
    case TotalTracks =>
      (match ParseU32(text)
       case Ok(n) => Ok(input.(totalTracks := Some(n)))
       case Err(e) => Err(AlbumInputError.TotalTracks(e)))
    case TotalDiscs =>
      (match ParseU32(text)
       case Ok(n) => Ok(input.(totalDiscs := Some(n)))
       case Err(e) => Err(AlbumInputError.TotalDiscs(e)))
  }

  /** The input that holds exactly the fields of a complete output. */
  function AsInput(o: AlbumOutput): AlbumInput
  {
    AlbumInput(Some(o.artist), Some(o.albumArtist), Some(o.album), Some(o.year), Some(o.totalTracks), Some(o.totalDiscs))
  }

  /**
   * `AlbumOutputBuilder::build`: succeeds exactly when every field is set, with those values;
   * otherwise reports the first missing field in declaration order.
   */
  function BuildOutput(input: AlbumInput): (r: Result<AlbumOutput, AlbumOutputError>)
    ensures r.Err? ==> !IsSet(input, MissingKey(r.error))
    ensures r.Ok? <==> forall k :: IsSet(input, k)
    ensures r.Ok? ==> AsInput(r.value) == input
    ensures r.Err? ==> forall k :: Position(k) < Position(MissingKey(r.error)) ==> IsSet(input, k)
  {
    if input.artist.None? then Err(AlbumOutputError.Artist)
    else if input.albumArtist.None? then Err(AlbumOutputError.AlbumArtist)
    else if input.album.None? then Err(AlbumOutputError.Album)
    else if input.year.None? then Err(AlbumOutputError.Year)
    else if input.totalTracks.None? then Err(AlbumOutputError.TotalTracks)
    else if input.totalDiscs.None? then Err(AlbumOutputError.TotalDiscs)
    else Ok(AlbumOutput(input.artist.value, input.albumArtist.value, input.album.value,
                        input.year.value, input.totalTracks.value, input.totalDiscs.value))
  }

  /** Building from the input of a complete output gives that output back. */
  lemma BuildAsInput(o: AlbumOutput)
    ensures BuildOutput(AsInput(o)) == Ok(o)
  {
  }

  predicate IsField(kind: AlbumStateKind)
  {
    !kind.Interrupted? && !kind.Finished?
  }

  /** The field a field state asks for. */
  function KeyOf(kind: AlbumStateKind): (key: AlbumKey)
    requires IsField(kind)
    ensures Position(key) == FieldIndex(kind)
  {
    match kind
    case Artist => AlbumKey.Artist
    case AlbumArtist => AlbumKey.AlbumArtist
    case Album => AlbumKey.Album
    case Year => AlbumKey.Year
    case TotalTracks => AlbumKey.TotalTracks
    case TotalDiscs => AlbumKey.TotalDiscs
  }

  /** How far into the session a state is: 0 to 5 for the fields, 6 once finished. */
  function FieldIndex(kind: AlbumStateKind): nat
    requires !kind.Interrupted?
  {
    match kind
    case Artist => 0
    case AlbumArtist => 1
    case Album => 2
    case Year => 3
    case TotalTracks => 4
    case TotalDiscs => 5
    case Finished => 6
  }

  /** The pre-filled text for a field: the value's decimal or literal form, if the input has one. */
  function Hint(input: AlbumInput, key: AlbumKey): Editor.DefaultValue
  {
    match key
    case Artist => Editor.FromOption(input.artist, (s: string) => s)
    case AlbumArtist => Editor.FromOption(input.albumArtist, (s: string) => s)
    case Album => Editor.FromOption(input.album, (s: string) => s)
    case Year => Editor.FromOption(input.year, (y: I32) => FormatInt(y))
    case TotalTracks => Editor.FromOption(input.totalTracks, (n: U32) => FormatNat(n))
    case TotalDiscs => Editor.FromOption(input.totalDiscs, (n: U32) => FormatNat(n))
  }

  /**
   * `AlbumState::get_input` for a state holding `seed`: a field state asks for its field,
   * pre-filled from `seed`; the two end states report themselves.
   */
  function InputFor(seed: AlbumInput, kind: AlbumStateKind): (r: Editor.StateInput<AlbumKey>)
    ensures r.Read? <==> IsField(kind)
    ensures r.Read? ==> r.key == KeyOf(kind) && r.defaultValue == Hint(seed, r.key)
    ensures r.Interrupted? <==> kind.Interrupted?
  {
    if IsField(kind) then Editor.Read(KeyOf(kind), Hint(seed, KeyOf(kind)))
    else if kind.Interrupted? then Editor.StateInput.Interrupted
    else Editor.StateInput.Finished
  }

  /** `AlbumState::next`: the following field, `Finished` after the last; the end states stay put. */
  function NextKind(kind: AlbumStateKind): (r: AlbumStateKind)
    ensures IsField(kind) ==> !r.Interrupted? && FieldIndex(r) == FieldIndex(kind) + 1
    ensures !IsField(kind) ==> r == kind
  {
    match kind
    case Artist => AlbumStateKind.AlbumArtist
    case AlbumArtist => AlbumStateKind.Album
    case Album => AlbumStateKind.Year
    case Year => AlbumStateKind.TotalTracks
    case TotalTracks => AlbumStateKind.TotalDiscs
    case TotalDiscs => AlbumStateKind.Finished
    case Interrupted => AlbumStateKind.Interrupted
    case Finished => AlbumStateKind.Finished
  }

  /**
   * `AlbumState::prev`: the preceding field, staying on the first; `Finished` goes back to
   * the last field and `Interrupted` restarts at the first.
   */
  function PrevKind(kind: AlbumStateKind): (r: AlbumStateKind)
    ensures IsField(r)
    ensures !kind.Interrupted? && FieldIndex(kind) > 0 ==> FieldIndex(r) == FieldIndex(kind) - 1
    ensures kind.Interrupted? || FieldIndex(kind) == 0 ==> r == AlbumStateKind.Artist
  {
    match kind
    case Artist => AlbumStateKind.Artist
    case AlbumArtist => AlbumStateKind.Artist
    case Album => AlbumStateKind.AlbumArtist
    case Year => AlbumStateKind.Album
    case TotalTracks => AlbumStateKind.Year
    case TotalDiscs => AlbumStateKind.TotalTracks
    case Interrupted => AlbumStateKind.Artist
    case Finished => AlbumStateKind.TotalDiscs
  }

  /** Going back undoes going forward, from every field. */
  lemma PrevUndoesNext(kind: AlbumStateKind)
    requires IsField(kind)
    ensures PrevKind(NextKind(kind)) == kind
  {
  }

  /** The state `n` accepted answers after the first field. */
  function Advance(kind: AlbumStateKind, n: nat): AlbumStateKind
    decreases n
  {
    if n == 0 then kind else Advance(NextKind(kind), n - 1)
  }

  /** Starting at the first field, the session is finished after exactly six accepted answers. */
  lemma {:induction false} FinishedAfterSixSteps(n: nat)
    ensures Advance(AlbumStateKind.Artist, n).Finished? <==> n >= 6
    ensures n < 6 ==> IsField(Advance(AlbumStateKind.Artist, n)) && KeyOf(Advance(AlbumStateKind.Artist, n)) == FieldOrder[n]
  {
    AdvanceIndex(AlbumStateKind.Artist, n);
  }

  lemma {:induction false} AdvanceIndex(kind: AlbumStateKind, n: nat)
    requires !kind.Interrupted?
    ensures !Advance(kind, n).Interrupted?
    ensures FieldIndex(Advance(kind, n)) == if FieldIndex(kind) + n < 6 then FieldIndex(kind) + n else 6
    decreases n
  {
    if n > 0 {
      AdvanceIndex(NextKind(kind), n - 1);
    }
  }

  /** The album state as the driver sees it: the kind moves, the seed it was created with does not. */
  function States(seed: AlbumInput): Editor.StateOps<AlbumStateKind, AlbumKey>
  {
    Editor.StateOps(k => InputFor(seed, k), NextKind, PrevKind, k => AlbumStateKind.Interrupted)
  }

  function Builder(): Editor.BuilderOps<AlbumInput, AlbumKey, AlbumOutput, AlbumInputError, AlbumOutputError>
  {
    Editor.BuilderOps(Store, BuildOutput)
  }

  /** The text `from_file_input` counts under `key` for one file: the tag's display text, if the file has the tag. */
  function Tag(item: FileInput, key: AlbumKey): Option<string>
  {
    match key
    case Artist => item.artist
    case AlbumArtist => item.albumArtist
    case Album => item.album
    case Year => if item.year.Some? then Some(FormatInt(item.year.value)) else None
    case TotalTracks => if item.totalTracks.Some? then Some(FormatNat(item.totalTracks.value)) else None
    case TotalDiscs => if item.totalDiscs.Some? then Some(FormatNat(item.totalDiscs.value)) else None
  }

  function Seen(item: FileInput, key: AlbumKey): seq<string>
  {
    var t := Tag(item, key);
    if t.Some? then [t.value] else []
  }

  /** Everything counted under `key` for the files, in file order. */
  function Observed(items: seq<FileInput>, key: AlbumKey): seq<string>
    decreases |items|
  {
    if items == [] then [] else Observed(items[..|items| - 1], key) + Seen(items[|items| - 1], key)
  }

  /** The years the files carry, in file order. */
  function Years(items: seq<FileInput>): seq<I32>
    decreases |items|
  {
    if items == [] then []
    else Years(items[..|items| - 1]) + (var y := items[|items| - 1].year; if y.Some? then [y.value] else [])
  }

  /** Every year text counted is the display form of some `i32`. */
  lemma {:induction false} ObservedYear(items: seq<FileInput>, text: string) returns (y: I32)
    requires text in Observed(items, AlbumKey.Year)
    ensures FormatInt(y) == text
    decreases |items|
  {
    var last := items[|items| - 1];
    if text in Observed(items[..|items| - 1], AlbumKey.Year) {
      y := ObservedYear(items[..|items| - 1], text);
    } else {
      y := last.year.value;
    }
  }

  /** Every track or disc total counted is the display form of some `u32`. */
  lemma {:induction false} ObservedTotal(items: seq<FileInput>, key: AlbumKey, text: string) returns (n: U32)
    requires key == AlbumKey.TotalTracks || key == AlbumKey.TotalDiscs
    requires text in Observed(items, key)
    ensures FormatNat(n) == text
    decreases |items|
  {
    var last := items[|items| - 1];
    if text in Observed(items[..|items| - 1], key) {
      n := ObservedTotal(items[..|items| - 1], key, text);
    } else if key == AlbumKey.TotalTracks {
      n := last.totalTracks.value;
    } else {
      n := last.totalDiscs.value;
    }
  }

  /** Counting years by their display text counts each year exactly as often as it occurs. */
  lemma {:induction false} YearTextsCountYears(items: seq<FileInput>, y: I32)
    ensures multiset(Observed(items, AlbumKey.Year))[FormatInt(y)] == multiset(Years(items))[y]
    decreases |items|
  {
    if items != [] {
      var last := items[|items| - 1];
      YearTextsCountYears(items[..|items| - 1], y);
      if last.year.Some? && FormatInt(last.year.value) == FormatInt(y) {
        FormatIntInjective(last.year.value, y);
      }
    }
  }

  /** The year `from_file_input` picks by text is also a most frequent year by value. */
  lemma MostCommonYearText(items: seq<FileInput>, y: I32)
    requires Counter.IsMostCommon(Observed(items, AlbumKey.Year), FormatInt(y))
    ensures Counter.IsMostCommon(Years(items), y)
  {
    YearTextsCountYears(items, y);
    forall w: I32
      ensures multiset(Years(items))[w] <= multiset(Years(items))[y]
    {
      YearTextsCountYears(items, w);
    }
  }

  /** One `if let` of the loop in `from_file_input`: a tag the file carries is counted under its field. */
  method CountTag(counter: Counter.Counter<AlbumKey, string>, key: AlbumKey, tag: Option<string>)
    requires counter.Valid()
    modifies counter
    ensures counter.Valid()
    ensures forall k, v :: counter.Count(k, v) == old(counter.Count(k, v)) + if k == key && tag == Some(v) then 1 else 0
    ensures forall k :: k in counter.items <==> k in old(counter.items) || (k == key && tag.Some?)
  {
    if tag.Some? {
      counter.Insert(key, tag.value);
    }
  }

  /** The body of the loop in `from_file_input`: each tag the file carries is counted once under its field. */
  method CountFile(counter: Counter.Counter<AlbumKey, string>, item: FileInput)
    requires counter.Valid()
    modifies counter
    ensures counter.Valid()
    ensures forall k, v :: counter.Count(k, v) == old(counter.Count(k, v)) + if Tag(item, k) == Some(v) then 1 else 0
    ensures forall k :: k in counter.items <==> k in old(counter.items) || Tag(item, k).Some?
  {
    CountTag(counter, AlbumKey.Artist, Tag(item, AlbumKey.Artist));
    CountTag(counter, AlbumKey.AlbumArtist, Tag(item, AlbumKey.AlbumArtist));
    CountTag(counter, AlbumKey.Album, Tag(item, AlbumKey.Album));
    CountTag(counter, AlbumKey.Year, Tag(item, AlbumKey.Year));
    CountTag(counter, AlbumKey.TotalTracks, Tag(item, AlbumKey.TotalTracks));
    CountTag(counter, AlbumKey.TotalDiscs, Tag(item, AlbumKey.TotalDiscs));
  }

  /** `counter.most_common(key)` once the counter holds the tally of `seen` under `key`. */
  method MostCommonOf(counter: Counter.Counter<AlbumKey, string>, key: AlbumKey, ghost seen: seq<string>) returns (r: Option<string>)
    requires counter.Valid()
    requires forall v :: counter.Count(key, v) == multiset(seen)[v]
    requires key in counter.items <==> seen != []
    ensures r.None? <==> seen == []
    ensures r.Some? ==> Counter.IsMostCommon(seen, r.value)
  {
    r := counter.MostCommon(key);
    if r.Some? {
      forall w
        ensures multiset(seen)[w] <= multiset(seen)[r.value]
      {
        assert counter.Count(key, w) <= counter.Count(key, r.value);
      }
    }
  }

  /** One more file adds its tag, if any, to what is counted under each field. */
  lemma ObservedNext(items: seq<FileInput>, i: nat)
    requires i < |items|
    ensures forall k, v :: multiset(Observed(items[..i + 1], k))[v] == multiset(Observed(items[..i], k))[v] + if Tag(items[i], k) == Some(v) then 1 else 0
    ensures forall k :: Observed(items[..i + 1], k) != [] <==> Observed(items[..i], k) != [] || Tag(items[i], k).Some?
  {
    assert items[..i + 1][..i] == items[..i];
    forall k
      ensures Observed(items[..i + 1], k) == Observed(items[..i], k) + Seen(items[i], k)
    {
    }
  }

  /** The loop of `from_file_input`: a fresh counter holding, under each field, the tally of what the files carry. */
  method CountAll(items: seq<FileInput>) returns (counter: Counter.Counter<AlbumKey, string>)
    ensures fresh(counter) && counter.Valid()
    ensures forall k, v :: counter.Count(k, v) == multiset(Observed(items, k))[v]
    ensures forall k :: k in counter.items <==> Observed(items, k) != []
  {
    counter := new Counter.Counter<AlbumKey, string>();
    for i := 0 to |items|
      invariant counter.Valid()
      invariant forall k, v :: counter.Count(k, v) == multiset(Observed(items[..i], k))[v]
      invariant forall k :: k in counter.items <==> Observed(items[..i], k) != []
    {
      label Before:
      CountFile(counter, items[i]);
      ObservedNext(items, i);
      forall k, v
        ensures counter.Count(k, v) == multiset(Observed(items[..i + 1], k))[v]
      {
        assert old@Before(counter.Count(k, v)) == multiset(Observed(items[..i], k))[v];
      }
    }
    assert items[..|items|] == items;
  }

  /** `counter.most_common(AlbumKey::Year).and_then(|x| x.parse().ok())` once the counter holds the files' tally. */
  method MostCommonYear(counter: Counter.Counter<AlbumKey, string>, items: seq<FileInput>) returns (year: Option<I32>)
    requires counter.Valid()
    requires forall v :: counter.Count(AlbumKey.Year, v) == multiset(Observed(items, AlbumKey.Year))[v]
    requires AlbumKey.Year in counter.items <==> Observed(items, AlbumKey.Year) != []
    ensures year.None? <==> Observed(items, AlbumKey.Year) == []
    ensures year.Some? ==> Counter.IsMostCommon(Observed(items, AlbumKey.Year), FormatInt(year.value))
  {
    var text := MostCommonOf(counter, AlbumKey.Year, Observed(items, AlbumKey.Year));
    year := None;
    if text.Some? {
      var y := ObservedYear(items, text.value);
      ParseFormatI32(y);
      match ParseI32(text.value) {
        case Ok(v) => year := Some(v);
        case Err(_) =>
      }
    }
  }

  /** `counter.most_common(key).and_then(|x| x.parse().ok())` for the track or disc total. */
  method MostCommonTotal(counter: Counter.Counter<AlbumKey, string>, items: seq<FileInput>, key: AlbumKey) returns (total: Option<U32>)
    requires key == AlbumKey.TotalTracks || key == AlbumKey.TotalDiscs
    requires counter.Valid()
    requires forall v :: counter.Count(key, v) == multiset(Observed(items, key))[v]
    requires key in counter.items <==> Observed(items, key) != []
    ensures total.None? <==> Observed(items, key) == []
    ensures total.Some? ==> Counter.IsMostCommon(Observed(items, key), FormatNat(total.value))
  {
    var text := MostCommonOf(counter, key, Observed(items, key));
    total := None;
    if text.Some? {
      var n := ObservedTotal(items, key, text.value);
      ParseFormatU32(n);
      match ParseU32(text.value) {
        case Ok(v) => total := Some(v);
        case Err(_) =>
      }
    }
  }

  /**
   * `AlbumInput::from_file_input`: every tag value the files carry is counted (numbers by their
   * display text), and each field takes a most frequent value, or stays missing when no file
   * has that tag.
   */
  method FromFileInput(items: seq<FileInput>) returns (r: AlbumInput)
    ensures r.artist.None? <==> Observed(items, AlbumKey.Artist) == []
    ensures r.artist.Some? ==> Counter.IsMostCommon(Observed(items, AlbumKey.Artist), r.artist.value)
    ensures r.albumArtist.None? <==> Observed(items, AlbumKey.AlbumArtist) == []
    ensures r.albumArtist.Some? ==> Counter.IsMostCommon(Observed(items, AlbumKey.AlbumArtist), r.albumArtist.value)
    ensures r.album.None? <==> Observed(items, AlbumKey.Album) == []
    ensures r.album.Some? ==> Counter.IsMostCommon(Observed(items, AlbumKey.Album), r.album.value)
    ensures r.year.None? <==> Observed(items, AlbumKey.Year) == []
    ensures r.year.Some? ==> Counter.IsMostCommon(Observed(items, AlbumKey.Year), FormatInt(r.year.value))
    ensures r.totalTracks.None? <==> Observed(items, AlbumKey.TotalTracks) == []
    ensures r.totalTracks.Some? ==> Counter.IsMostCommon(Observed(items, AlbumKey.TotalTracks), FormatNat(r.totalTracks.value))
    ensures r.totalDiscs.None? <==> Observed(items, AlbumKey.TotalDiscs) == []
    ensures r.totalDiscs.Some? ==> Counter.IsMostCommon(Observed(items, AlbumKey.TotalDiscs), FormatNat(r.totalDiscs.value))
  {
    var counter := CountAll(items);
    var artist := MostCommonOf(counter, AlbumKey.Artist, Observed(items, AlbumKey.Artist));
    var albumArtist := MostCommonOf(counter, AlbumKey.AlbumArtist, Observed(items, AlbumKey.AlbumArtist));
    var album := MostCommonOf(counter, AlbumKey.Album, Observed(items, AlbumKey.Album));
    var year := MostCommonYear(counter, items);
    var totalTracks := MostCommonTotal(counter, items, AlbumKey.TotalTracks);
    var totalDiscs := MostCommonTotal(counter, items, AlbumKey.TotalDiscs);
    r := AlbumInput(artist, albumArtist, album, year, totalTracks, totalDiscs);
  }

  /** The album session from the field state `kind` with builder contents `input`, for a state created with `seed`. */
  function SessionFrom(seed: AlbumInput, kind: AlbumStateKind, input: AlbumInput, script: seq<Editor.ReadResult>)
    : Editor.SessionResult<AlbumOutput, AlbumOutputError, AlbumInputError>
  {
    Editor.Session(States(seed), Builder(), Label, kind, input, script)
  }

  /** The prompt shown for `key`, pre-filled from the seed. */
  function Asked(seed: AlbumInput, key: AlbumKey): Editor.Event<AlbumInputError>
  {
    Editor.Prompted(Editor.PromptText(Label(key)), Hint(seed, key))
  }

  /** An accepted answer: its prompt is shown, the builder stores it, and the session moves to the next field. */
  lemma AnswerStep(seed: AlbumInput, kind: AlbumStateKind, input: AlbumInput, line: string, rest: seq<Editor.ReadResult>)
    requires IsField(kind) && Editor.IsAnswer(line) && Store(input, KeyOf(kind), Trim(line)).Ok?
    ensures SessionFrom(seed, kind, input, [Editor.Line(line)] + rest)
      == Editor.Prepend([Asked(seed, KeyOf(kind))], SessionFrom(seed, NextKind(kind), Store(input, KeyOf(kind), Trim(line)).value, rest))
  {
    Editor.AcceptedAnswerAdvances(States(seed), Builder(), Label, kind, input, Editor.Line(line), rest);
  }

  /** Answers stored one by one from field `kind` to the last: the builder contents at the end, or `None` once one is refused. */
  function Filled(input: AlbumInput, kind: AlbumStateKind, values: seq<string>): Option<AlbumInput>
    decreases |values|
  {
    if values == [] || !IsField(kind) then Some(input)
    else
      match Store(input, KeyOf(kind), values[0])
      case Ok(next) => Filled(next, NextKind(kind), values[1..])
      case Err(_) => None
  }

  /** The prompts of the fields from `kind` to the last, each pre-filled from the seed. */
  function AskedFrom(seed: AlbumInput, kind: AlbumStateKind): seq<Editor.Event<AlbumInputError>>
    decreases if kind.Interrupted? then 0 else 6 - FieldIndex(kind)
  {
    if IsField(kind) then [Asked(seed, KeyOf(kind))] + AskedFrom(seed, NextKind(kind)) else []
  }

  /** How the session ends once the state is finished with builder contents `input`. */
  function Built(input: AlbumInput): Result<Editor.EditorOutput<AlbumOutput>, Editor.EditorError<AlbumOutputError>>
  {
    match BuildOutput(input)
    case Ok(o) => Ok(Editor.EditorOutput.Finished(o))
    case Err(e) => Err(Editor.BuildOutput(e))
  }

  /**
   * Answering every remaining field, each answer accepted, asks exactly the remaining fields in
   * order, each pre-filled from the seed, and ends with what `build` makes of the stored answers.
   */
  lemma {:induction false} AnswersToTheEnd(seed: AlbumInput, kind: AlbumStateKind, input: AlbumInput,
                                           lines: seq<string>, values: seq<string>)
    requires !kind.Interrupted? && |lines| == 6 - FieldIndex(kind)
    requires Editor.AreAnswers(lines, values) && Filled(input, kind, values).Some?
    ensures SessionFrom(seed, kind, input, Editor.Lines(lines))
      == Editor.SessionResult(Editor.Returned(Built(Filled(input, kind, values).value)), AskedFrom(seed, kind))
    decreases |lines|
  {
    if lines == [] {
      FinishedSession(seed, kind, input);
    } else {
      var next := Store(input, KeyOf(kind), values[0]).value;
      assert Filled(input, kind, values) == Filled(next, NextKind(kind), values[1..]);
      assert AskedFrom(seed, kind) == [Asked(seed, KeyOf(kind))] + AskedFrom(seed, NextKind(kind));
      assert Editor.AreAnswers(lines[1..], values[1..]);
      FirstAnswer(seed, kind, input, lines);
      AnswersToTheEnd(seed, NextKind(kind), next, lines[1..], values[1..]);
    }
  }

  /** A finished state shows nothing more and ends with what `build` makes of the builder contents. */
  lemma FinishedSession(seed: AlbumInput, kind: AlbumStateKind, input: AlbumInput)
    requires kind.Finished?
    ensures SessionFrom(seed, kind, input, []) == Editor.SessionResult(Editor.Returned(Built(input)), [])
  {
    Editor.FinishedReturnsBuild(States(seed), Builder(), Label, kind, input, []);
  }

  /** The first of several lines, when it is an accepted answer. */
  lemma FirstAnswer(seed: AlbumInput, kind: AlbumStateKind, input: AlbumInput, lines: seq<string>)
    requires IsField(kind) && lines != [] && Editor.IsAnswer(lines[0]) && Store(input, KeyOf(kind), Trim(lines[0])).Ok?
    ensures SessionFrom(seed, kind, input, Editor.Lines(lines))
      == Editor.Prepend([Asked(seed, KeyOf(kind))],
                        SessionFrom(seed, NextKind(kind), Store(input, KeyOf(kind), Trim(lines[0])).value, Editor.Lines(lines[1..])))
  {
    assert Editor.Lines(lines) == [Editor.Line(lines[0])] + Editor.Lines(lines[1..]);
    AnswerStep(seed, kind, input, lines[0], Editor.Lines(lines[1..]));
  }

  /** Storing six accepted answers from the first field fills every field with its answer. */
  lemma SixAnswersFill(seed: AlbumInput, artist: string, albumArtist: string, album: string,
                       year: string, totalTracks: string, totalDiscs: string)
    requires ParseI32(year).Ok? && ParseU32(totalTracks).Ok? && ParseU32(totalDiscs).Ok?
    ensures Filled(seed, AlbumStateKind.Artist, [artist, albumArtist, album, year, totalTracks, totalDiscs])
      == Some(AlbumInput(Some(artist), Some(albumArtist), Some(album),
                         Some(ParseI32(year).value), Some(ParseU32(totalTracks).value), Some(ParseU32(totalDiscs).value)))
  {
    var values := [artist, albumArtist, album, year, totalTracks, totalDiscs];
    var b1 := seed.(artist := Some(artist));
    var b2 := b1.(albumArtist := Some(albumArtist));
    var b3 := b2.(album := Some(album));
    var b4 := b3.(year := Some(ParseI32(year).value));
    var b5 := b4.(totalTracks := Some(ParseU32(totalTracks).value));
    var b6 := b5.(totalDiscs := Some(ParseU32(totalDiscs).value));
    FilledStep(b5, AlbumStateKind.TotalDiscs, [totalDiscs], b6);
    FilledStep(b4, AlbumStateKind.TotalTracks, [totalTracks, totalDiscs], b5);
    FilledStep(b3, AlbumStateKind.Year, [year, totalTracks, totalDiscs], b4);
    FilledStep(b2, AlbumStateKind.Album, [album, year, totalTracks, totalDiscs], b3);
    FilledStep(b1, AlbumStateKind.AlbumArtist, [albumArtist, album, year, totalTracks, totalDiscs], b2);
    FilledStep(seed, AlbumStateKind.Artist, values, b1);
  }

  /** Storing the first value at a field moves on to the next field with the rest. */
  lemma FilledStep(input: AlbumInput, kind: AlbumStateKind, values: seq<string>, next: AlbumInput)
    requires IsField(kind) && values != [] && Store(input, KeyOf(kind), values[0]) == Ok(next)
    ensures Filled(input, kind, values) == Filled(next, NextKind(kind), values[1..])
  {
  }

  /** From field `kind` on, the session asks the remaining fields in their order, each pre-filled from the seed. */
  lemma {:induction false} AskedFromFields(seed: AlbumInput, kind: AlbumStateKind)
    requires !kind.Interrupted?
    ensures |AskedFrom(seed, kind)| == 6 - FieldIndex(kind)
    ensures forall i :: 0 <= i < |AskedFrom(seed, kind)| ==> AskedFrom(seed, kind)[i] == Asked(seed, FieldOrder[FieldIndex(kind) + i])
    decreases 6 - FieldIndex(kind)
  {
    if IsField(kind) {
      var next := NextKind(kind);
      AskedFromFields(seed, next);
      var asked := AskedFrom(seed, kind);
      assert asked == [Asked(seed, KeyOf(kind))] + AskedFrom(seed, next);
      forall i | 0 <= i < |asked|
        ensures asked[i] == Asked(seed, FieldOrder[FieldIndex(kind) + i])
      {
        if i == 0 {
          assert FieldOrder[FieldIndex(kind)] == KeyOf(kind);
        } else {
          assert asked[i] == AskedFrom(seed, next)[i - 1];
          assert FieldIndex(kind) + i == FieldIndex(next) + (i - 1);
        }
      }
    }
  }

  /**
   * A fresh album editor given six lines that trim to answers valid for their fields asks the
   * six fields and finishes with exactly those answers.
   */
  lemma SixAnswersFinish(seed: AlbumInput, lines: seq<string>,
                         artist: string, albumArtist: string, album: string, year: string, totalTracks: string, totalDiscs: string)
    requires Editor.AreAnswers(lines, [artist, albumArtist, album, year, totalTracks, totalDiscs])
    requires ParseI32(year).Ok? && ParseU32(totalTracks).Ok? && ParseU32(totalDiscs).Ok?
    ensures SessionFrom(seed, AlbumStateKind.Artist, seed, Editor.Lines(lines))
      == Editor.SessionResult(
           Editor.Returned(Ok(Editor.EditorOutput.Finished(AlbumOutput(artist, albumArtist, album,
             ParseI32(year).value, ParseU32(totalTracks).value, ParseU32(totalDiscs).value)))),
           AskedFrom(seed, AlbumStateKind.Artist))
  {
    var values := [artist, albumArtist, album, year, totalTracks, totalDiscs];
    var o := AlbumOutput(artist, albumArtist, album, ParseI32(year).value, ParseU32(totalTracks).value, ParseU32(totalDiscs).value);
    SixAnswersFill(seed, artist, albumArtist, album, year, totalTracks, totalDiscs);
    assert Filled(seed, AlbumStateKind.Artist, values).value == AsInput(o);
    BuildAsInput(o);
    assert Built(AsInput(o)) == Ok(Editor.EditorOutput.Finished(o));
    AnswersToTheEnd(seed, AlbumStateKind.Artist, seed, lines, values);
  }

  /** From the first field, the session asks the six album fields in their order, each pre-filled from the seed. */
  lemma SixFieldsAsked(seed: AlbumInput)
    ensures AskedFrom(seed, AlbumStateKind.Artist)
      == [Asked(seed, AlbumKey.Artist), Asked(seed, AlbumKey.AlbumArtist), Asked(seed, AlbumKey.Album),
          Asked(seed, AlbumKey.Year), Asked(seed, AlbumKey.TotalTracks), Asked(seed, AlbumKey.TotalDiscs)]
  {
    AskedFromFields(seed, AlbumStateKind.Artist);
  }

  /** Quitting (`:q`, Ctrl-C or end of input) at the first prompt interrupts the session after that one prompt. */
  lemma QuitAtFirstField(seed: AlbumInput, line: Editor.ReadResult, rest: seq<Editor.ReadResult>)
    requires Editor.Classify(line) == Ok(Editor.Exit)
    ensures SessionFrom(seed, AlbumStateKind.Artist, seed, [line] + rest)
      == Editor.SessionResult(Editor.Returned(Ok(Editor.EditorOutput.Interrupted)), [Asked(seed, AlbumKey.Artist)])
  {
    Editor.ExitOnlyInterrupts(States(seed), Builder(), Label, AlbumStateKind.Artist, seed, line, rest);
  }

  /** Answering a field and then going back shows the two prompts and returns to that field with the answer stored. */
  lemma AnswerThenBack(seed: AlbumInput, kind: AlbumStateKind, input: AlbumInput,
                       answer: string, back: Editor.ReadResult, rest: seq<Editor.ReadResult>)
    requires IsField(kind) && kind != AlbumStateKind.TotalDiscs
    requires Editor.IsAnswer(answer) && Store(input, KeyOf(kind), Trim(answer)).Ok?
    requires Editor.Classify(back) == Ok(Editor.Back)
    ensures SessionFrom(seed, kind, input, [Editor.Line(answer), back] + rest)
      == Editor.Prepend([Asked(seed, KeyOf(kind)), Asked(seed, KeyOf(NextKind(kind)))],
                        SessionFrom(seed, kind, Store(input, KeyOf(kind), Trim(answer)).value, rest))
  {
    var next := NextKind(kind);
    PrevUndoesNext(kind);
    assert States(seed).getInput(kind) == InputFor(seed, kind);
    assert States(seed).getInput(next) == InputFor(seed, next);
    assert Editor.Shown(States(seed), Label, kind) == Asked(seed, KeyOf(kind));
    assert Editor.Shown(States(seed), Label, next) == Asked(seed, KeyOf(next));
    Editor.AnswerThenBack(States(seed), Builder(), Label, kind, input, Editor.Line(answer), back, rest);
  }

  /**
   * Going back to a field just answered shows that field's prompt again pre-filled from the
   * seed, not with the answer the builder now holds (the state keeps its own copy of the input).
   */
  lemma RevisitedFieldShowsSeedHint(seed: AlbumInput, kind: AlbumStateKind, input: AlbumInput,
                                    answer: string, back: Editor.ReadResult, rest: seq<Editor.ReadResult>)
    requires IsField(kind) && kind != AlbumStateKind.TotalDiscs
    requires Editor.IsAnswer(answer) && Store(input, KeyOf(kind), Trim(answer)).Ok?
    requires Editor.Classify(back) == Ok(Editor.Back)
    ensures var r := SessionFrom(seed, kind, input, [Editor.Line(answer), back] + rest);
      |r.transcript| >= 3 && r.transcript[0] == r.transcript[2] == Asked(seed, KeyOf(kind))
    ensures HasAnswer(Store(input, KeyOf(kind), Trim(answer)).value, KeyOf(kind), Trim(answer))
  {
    var stored := Store(input, KeyOf(kind), Trim(answer)).value;
    AnswerThenBack(seed, kind, input, answer, back, rest);
    OpensWithPrompt(seed, kind, stored, rest);
  }

  /** A session at a field state shows that field's prompt first, pre-filled from the seed, whatever the builder holds. */
  lemma OpensWithPrompt(seed: AlbumInput, kind: AlbumStateKind, input: AlbumInput, script: seq<Editor.ReadResult>)
    requires IsField(kind)
    ensures var r := SessionFrom(seed, kind, input, script);
      r.transcript != [] && r.transcript[0] == Asked(seed, KeyOf(kind))
  {
    assert States(seed).getInput(kind) == InputFor(seed, kind);
  }

  /** An answer a numeric field cannot parse is reported and the same field is asked again, nothing stored. */
  lemma BadNumberAsksAgain(seed: AlbumInput, kind: AlbumStateKind, input: AlbumInput, answer: string, rest: seq<Editor.ReadResult>)
    requires kind == AlbumStateKind.Year && Editor.IsAnswer(answer) && ParseI32(Trim(answer)).Err?
    ensures SessionFrom(seed, kind, input, [Editor.Line(answer)] + rest)
      == Editor.Prepend([Asked(seed, AlbumKey.Year), Editor.Rejected(AlbumInputError.Year(ParseI32(Trim(answer)).error))],
                        SessionFrom(seed, kind, input, rest))
  {
    Editor.RejectedAnswerRepeatsField(States(seed), Builder(), Label, kind, input, Editor.Line(answer), rest);
  }

  /** `AlbumState`: the input it was created with (only used for hints) and the current field. */
  class AlbumState {
    const albumInput: AlbumInput
    var kind: AlbumStateKind

    /** `AlbumState::new`: starts at the first field. */
    constructor (albumInput: AlbumInput)
      ensures this.albumInput == albumInput && kind == AlbumStateKind.Artist
    {
      this.albumInput := albumInput;
      kind := AlbumStateKind.Artist;
    }

    function GetInput(): Editor.StateInput<AlbumKey>
      reads this
    {
      InputFor(albumInput, kind)
    }

    method Next()
      modifies this
      ensures kind == NextKind(old(kind))
    {
      kind := match kind
        case Artist => AlbumStateKind.AlbumArtist
        case AlbumArtist => AlbumStateKind.Album
        case Album => AlbumStateKind.Year
        case Year => AlbumStateKind.TotalTracks
        case TotalTracks => AlbumStateKind.TotalDiscs
        case TotalDiscs => AlbumStateKind.Finished
        case Interrupted => AlbumStateKind.Interrupted
        case Finished => AlbumStateKind.Finished;
    }

    method Prev()
      modifies this
      ensures kind == PrevKind(old(kind))
    {
      kind := match kind
        case Artist => AlbumStateKind.Artist
        case AlbumArtist => AlbumStateKind.Artist
        case Album => AlbumStateKind.AlbumArtist
        case Year => AlbumStateKind.Album
        case TotalTracks => AlbumStateKind.Year
        case TotalDiscs => AlbumStateKind.TotalTracks
        case Interrupted => AlbumStateKind.Artist
        case Finished => AlbumStateKind.TotalDiscs;
    }

    method Interrupt()
      modifies this
      ensures kind == AlbumStateKind.Interrupted
    {
      kind := AlbumStateKind.Interrupted;
    }

    method Finish()
      modifies this
      ensures kind == AlbumStateKind.Finished
    {
      kind := AlbumStateKind.Finished;
    }
  }

  /** `AlbumOutputBuilder`: the fields answered so far, on top of the guessed input. */
  class AlbumOutputBuilder {
    var albumInput: AlbumInput

    constructor (albumInput: AlbumInput)
      ensures this.albumInput == albumInput
    {
      this.albumInput := albumInput;
    }

    /** `set_value`: stores the answer as `Store` does; a rejected answer changes nothing. */
    method SetValue(key: AlbumKey, value: string) returns (r: Result<(), AlbumInputError>)
      modifies this
      ensures match Store(old(albumInput), key, value)
        case Ok(next) => r == Ok(()) && albumInput == next
        case Err(e) => r == Err(e) && albumInput == old(albumInput)
    {
      match key {
        case Artist =>
          albumInput := albumInput.(artist := Some(value));
        case AlbumArtist =>
          albumInput := albumInput.(albumArtist := Some(value));
        case Album =>
          albumInput := albumInput.(album := Some(value));
        case Year =>
          var parsed := ParseI32(value);
          if parsed.Err? {
            return Err(AlbumInputError.Year(parsed.error));
          }
          albumInput := albumInput.(year := Some(parsed.value));
        case TotalTracks =>
          var parsed := ParseU32(value);
          if parsed.Err? {
            return Err(AlbumInputError.TotalTracks(parsed.error));
          }
          albumInput := albumInput.(totalTracks := Some(parsed.value));
        case TotalDiscs =>
          var parsed := ParseU32(value);
          if parsed.Err? {
            return Err(AlbumInputError.TotalDiscs(parsed.error));
          }
          albumInput := albumInput.(totalDiscs := Some(parsed.value));
      }
      r := Ok(());
    }

    function Build(): Result<AlbumOutput, AlbumOutputError>
      reads this
    {
      BuildOutput(albumInput)
    }
  }

  /** `AlbumEditor`: the editor driver over an album state and builder. */
  class AlbumEditor {
    const state: AlbumState
    const outputBuilder: AlbumOutputBuilder

    /** `AlbumEditor::new`: the state and the builder each start from the same guessed input. */
    constructor (albumInput: AlbumInput)
      ensures fresh(state) && fresh(outputBuilder)
      ensures state.albumInput == albumInput && state.kind == AlbumStateKind.Artist
      ensures outputBuilder.albumInput == albumInput
    {
      state := new AlbumState(albumInput);
      outputBuilder := new AlbumOutputBuilder(albumInput);
    }

    /**
     * One pass of the loop in `Editor::run` over the lines `rest` still to be read: either how
     * the session ends, or the state and builder moved on as `Editor.OnePass` says. `shown` is
     * what the pass displayed.
     */
    method Pass(rest: seq<Editor.ReadResult>)
      returns (stop: Option<Editor.RunOutcome<AlbumOutput, AlbumOutputError>>, shown: seq<Editor.Event<AlbumInputError>>)
      modifies state, outputBuilder
      ensures var p := Editor.OnePass(States(state.albumInput), Builder(), Label, old(state.kind), old(outputBuilder.albumInput), rest);
        && shown == p.shown
        && (stop.Some? <==> p.Stop?)
        && (p.Stop? ==> stop.value == p.outcome)
        && (p.Go? ==> state.kind == p.next && outputBuilder.albumInput == p.builder)
    {
      match state.GetInput() {
        case Interrupted =>
          return Some(Editor.Returned(Ok(Editor.EditorOutput.Interrupted))), [];
        case Finished =>
          var built := outputBuilder.Build();
          match built {
            case Ok(output) =>
              return Some(Editor.Returned(Ok(Editor.EditorOutput.Finished(output)))), [];
            case Err(e) =>
              return Some(Editor.Returned(Err(Editor.BuildOutput(e)))), [];
          }
        case Read(key, defaultValue) =>
          shown := [Editor.Prompted(Editor.PromptText(Label(key)), defaultValue)];
          if rest == [] {
            return Some(Editor.ScriptExhausted), shown;
          }
          match Editor.Classify(rest[0]) {
            case Err(e) =>
              return Some(Editor.Returned(Err(Editor.Readline(e)))), shown;
            case Ok(Data(value)) =>
              var accepted := outputBuilder.SetValue(key, value);
              if accepted.Err? {
                shown := shown + [Editor.Rejected(accepted.error)];
              } else {
                state.Next();
              }
            case Ok(Back) =>
              state.Prev();
            case Ok(Exit) =>
              state.Interrupt();
          }
          stop := None;
      }
    }

    /**
     * `AlbumEditor::run`, that is `Editor::run`: passes repeated until one stops, proved to
     * produce what `Editor.Session` describes.
     */
    method Run(script: seq<Editor.ReadResult>) returns (r: Editor.SessionResult<AlbumOutput, AlbumOutputError, AlbumInputError>)
      modifies state, outputBuilder
      ensures r == Editor.Session(States(state.albumInput), Builder(), Label,
                                  old(state.kind), old(outputBuilder.albumInput), script)
    {
      ghost var whole := Editor.Session(States(state.albumInput), Builder(), Label, state.kind, outputBuilder.albumInput, script);
      var transcript: seq<Editor.Event<AlbumInputError>> := [];
      var i := 0;
      assert script[i..] == script;
      while true
        invariant i <= |script|
        invariant whole == Editor.Prepend(transcript,
          Editor.Session(States(state.albumInput), Builder(), Label, state.kind, outputBuilder.albumInput, script[i..]))
        decreases |script| - i
      {
        ghost var kind, input := state.kind, outputBuilder.albumInput;
        var stop, shown := Pass(script[i..]);
        if stop.Some? {
          return Editor.SessionResult(stop.value, transcript + shown);
        }
        Editor.PassGoesOn(States(state.albumInput), Builder(), Label, kind, input, script[i..]);
        assert script[i..][1..] == script[i + 1..];
        Editor.PrependTwice(transcript, shown,
          Editor.Session(States(state.albumInput), Builder(), Label, state.kind, outputBuilder.albumInput, script[i + 1..]));
        transcript := transcript + shown;
        i := i + 1;
      }
    }
  }
}
