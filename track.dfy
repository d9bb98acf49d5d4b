/**
 * `src/track.rs`: the per-file fields (track number, disc number, title), seeded from the
 * file's own tags, and the three-field editor session that confirms them.
 */
module Track {
  import opened Wrappers
  import opened Text
  import opened Numbers
  import opened FileInputs
  import Editor

  /** `TrackInput`: the track fields known so far; each may be missing. */
  datatype TrackInput = TrackInput(trackNumber: Option<U32>, discNumber: Option<U32>, title: Option<string>)

  /** `TrackKey`: the three fields, in the order the editor asks for them. */
  datatype TrackKey = TrackNumber | DiscNumber | Title

  /** `TrackOutput`: a complete set of track fields. */
  datatype TrackOutput = TrackOutput(trackNumber: U32, discNumber: U32, title: string)

  /** `TrackInputError`: an answer for a numeric field that does not parse, with the parser's reason. */
  datatype TrackInputError = TrackNumber(cause: IntErrorKind) | DiscNumber(cause: IntErrorKind)

  /** `TrackOutputError`: the first field still missing when the output is built. */
  datatype TrackOutputError = TrackNumber | DiscNumber | Title

  /** `TrackStateKind`: the field being asked for, or one of the two ends of the session. */
  datatype TrackStateKind = TrackNumber | DiscNumber | Title | Interrupted | Finished

  /** The order in which the fields are declared, asked for and checked by `build`. */
  const FieldOrder: seq<TrackKey> := [TrackKey.TrackNumber, TrackKey.DiscNumber, TrackKey.Title]

  function Position(key: TrackKey): (n: nat)
    ensures n < |FieldOrder| && FieldOrder[n] == key
  {
    match key
    case TrackNumber => 0
    case DiscNumber => 1
    case Title => 2
  }

  /** `TrackInput::from(&FileInput)`: the file's track number, disc number and title, nothing else. */
  function FromFileInput(item: FileInput): TrackInput
  {
    TrackInput(item.trackNumber, item.discNumber, item.title)
  }

  /** `get_prompt`: the label shown in the prompt for each field. */
  function Label(key: TrackKey): string
  {
    match key
    case TrackNumber => "TRACK NUMBER"
    case DiscNumber => "DISC NUMBER"
    case Title => "TITLE"
  }

  /** No two fields share a label, so a prompt tells the user which field is asked. */
  lemma LabelsDistinct(a: TrackKey, b: TrackKey)
    requires a != b
    ensures Label(a) != Label(b)
  {
  }

  /** The field that the error `build` reports is missing. */
  function MissingKey(e: TrackOutputError): (key: TrackKey)
  {
    match e
    case TrackNumber => TrackKey.TrackNumber
    case DiscNumber => TrackKey.DiscNumber
    case Title => TrackKey.Title
  }

  predicate IsSet(input: TrackInput, key: TrackKey)
  {
    match key
    case TrackNumber => input.trackNumber.Some?
    case DiscNumber => input.discNumber.Some?
    case Title => input.title.Some?
  }

  /** `a` and `b` hold the same value for `key`. */
  predicate SameField(a: TrackInput, b: TrackInput, key: TrackKey)
  {
    match key
    case TrackNumber => a.trackNumber == b.trackNumber
    case DiscNumber => a.discNumber == b.discNumber
    case Title => a.title == b.title
  }

  /** The field `key` of `input` holds the value the answer `text` stands for. */
  predicate HasAnswer(input: TrackInput, key: TrackKey, text: string)
  {
    match key
    case TrackNumber => ParseU32(text).Ok? && input.trackNumber == Some(ParseU32(text).value)
    case DiscNumber => ParseU32(text).Ok? && input.discNumber == Some(ParseU32(text).value)
    case Title => input.title == Some(text)
  }

  /**
   * `TrackOutputBuilder::set_value` on the builder's input: the title takes the answer as it
   * is; a number field takes the parsed `u32`, or rejects the answer with the parser's reason
   * and keeps its old value. No other field changes.
   */
  function Store(input: TrackInput, key: TrackKey, text: string): (r: Result<TrackInput, TrackInputError>)
    ensures r.Ok? ==> HasAnswer(r.value, key, text) && forall k :: k != key ==> SameField(r.value, input, k)
    ensures r.Err? <==> key != TrackKey.Title && ParseU32(text).Err?
    ensures r.Err? ==>
      || (key == TrackKey.TrackNumber && r.error == TrackInputError.TrackNumber(ParseU32(text).error))
      || (key == TrackKey.DiscNumber && r.error == TrackInputError.DiscNumber(ParseU32(text).error))
  {
    match key
    case TrackNumber =>
      (match ParseU32(text)
       case Ok(n) => Ok(input.(trackNumber := Some(n)))
       case Err(e) => Err(TrackInputError.TrackNumber(e)))
    case DiscNumber =>
      (match ParseU32(text)
       case Ok(n) => Ok(input.(discNumber := Some(n)))
       case Err(e) => Err(TrackInputError.DiscNumber(e)))
    case Title => Ok(input.(title := Some(text)))
  }

  /** The input that holds exactly the fields of a complete output. */
  function AsInput(o: TrackOutput): TrackInput
  {
    TrackInput(Some(o.trackNumber), Some(o.discNumber), Some(o.title))
  }

  /**
   * `TrackOutputBuilder::build`: succeeds exactly when every field is set, with those values;
   * otherwise reports the first missing field in declaration order.
   */
  function BuildOutput(input: TrackInput): (r: Result<TrackOutput, TrackOutputError>)
    ensures r.Err? ==> !IsSet(input, MissingKey(r.error))
    ensures r.Ok? <==> forall k :: IsSet(input, k)
    ensures r.Ok? ==> AsInput(r.value) == input
    ensures r.Err? ==> forall k :: Position(k) < Position(MissingKey(r.error)) ==> IsSet(input, k)
  {
    if input.trackNumber.None? then Err(TrackOutputError.TrackNumber)
    else if input.discNumber.None? then Err(TrackOutputError.DiscNumber)
    else if input.title.None? then Err(TrackOutputError.Title)
    else Ok(TrackOutput(input.trackNumber.value, input.discNumber.value, input.title.value))
  }

  /** Building from the input of a complete output gives that output back. */
  lemma BuildAsInput(o: TrackOutput)
    ensures BuildOutput(AsInput(o)) == Ok(o)
  {
  }

  /** With both numbers known but no title, `build` fails naming the title; it never makes one up. */
  lemma MissingTitleFails(input: TrackInput)
    requires input.trackNumber.Some? && input.discNumber.Some? && input.title.None?
    ensures BuildOutput(input) == Err(TrackOutputError.Title)
  {
  }

  predicate IsField(kind: TrackStateKind)
  {
    !kind.Interrupted? && !kind.Finished?
  }

  /** The field a field state asks for. */
  function KeyOf(kind: TrackStateKind): (key: TrackKey)
    requires IsField(kind)
    ensures Position(key) == FieldIndex(kind)
  {
    match kind
    case TrackNumber => TrackKey.TrackNumber
    case DiscNumber => TrackKey.DiscNumber
    case Title => TrackKey.Title
  }

  /** How far into the session a state is: 0 to 2 for the fields, 3 once finished. */
  function FieldIndex(kind: TrackStateKind): nat
    requires !kind.Interrupted?
  {
    match kind
    case TrackNumber => 0
    case DiscNumber => 1
    case Title => 2
    case Finished => 3
  }

  /** The pre-filled text for a field: the value's decimal or literal form, if the input has one. */
  function Hint(input: TrackInput, key: TrackKey): Editor.DefaultValue
  {
    match key
    case TrackNumber => Editor.FromOption(input.trackNumber, (n: U32) => FormatNat(n))
    case DiscNumber => Editor.FromOption(input.discNumber, (n: U32) => FormatNat(n))
    case Title => Editor.FromOption(input.title, (s: string) => s)
  }

  /**
   * `TrackState::get_input` for a state holding `seed`: a field state asks for its field,
   * pre-filled from `seed`; the two end states report themselves.
   */
  function InputFor(seed: TrackInput, kind: TrackStateKind): (r: Editor.StateInput<TrackKey>)
    ensures r.Read? <==> IsField(kind)
    ensures r.Read? ==> r.key == KeyOf(kind) && r.defaultValue == Hint(seed, r.key)
    ensures r.Interrupted? <==> kind.Interrupted?
  {
    if IsField(kind) then Editor.Read(KeyOf(kind), Hint(seed, KeyOf(kind)))
    else if kind.Interrupted? then Editor.StateInput.Interrupted
    else Editor.StateInput.Finished
  }

  /** `TrackState::next`: the following field, `Finished` after the title; the end states stay put. */
  function NextKind(kind: TrackStateKind): (r: TrackStateKind)
    ensures IsField(kind) ==> !r.Interrupted? && FieldIndex(r) == FieldIndex(kind) + 1
    ensures !IsField(kind) ==> r == kind
  {
    match kind
    case TrackNumber => TrackStateKind.DiscNumber
    case DiscNumber => TrackStateKind.Title
    case Title => TrackStateKind.Finished
    case Interrupted => TrackStateKind.Interrupted
    case Finished => TrackStateKind.Finished
  }

  /**
   * `TrackState::prev`: the preceding field, staying on the first; `Finished` goes back to
   * the title and `Interrupted` restarts at the track number.
   */
  function PrevKind(kind: TrackStateKind): (r: TrackStateKind)
    ensures IsField(r)
    ensures !kind.Interrupted? && FieldIndex(kind) > 0 ==> FieldIndex(r) == FieldIndex(kind) - 1
    ensures kind.Interrupted? || FieldIndex(kind) == 0 ==> r == TrackStateKind.TrackNumber
  {
    match kind
    case TrackNumber => TrackStateKind.TrackNumber
    case DiscNumber => TrackStateKind.TrackNumber
    case Title => TrackStateKind.DiscNumber
    case Interrupted => TrackStateKind.TrackNumber
    case Finished => TrackStateKind.Title
  }

  /** Going back undoes going forward, from every field. */
  lemma PrevUndoesNext(kind: TrackStateKind)
    requires IsField(kind)
    ensures PrevKind(NextKind(kind)) == kind
  {
  }

  /** The state `n` accepted answers after `kind`. */
  function Advance(kind: TrackStateKind, n: nat): TrackStateKind
    decreases n
  {
    if n == 0 then kind else Advance(NextKind(kind), n - 1)
  }

  /** Starting at the track number, the session is finished after exactly three accepted answers. */
  lemma {:induction false} FinishedAfterThreeSteps(n: nat)
    ensures Advance(TrackStateKind.TrackNumber, n).Finished? <==> n >= 3
    ensures n < 3 ==> IsField(Advance(TrackStateKind.TrackNumber, n)) && KeyOf(Advance(TrackStateKind.TrackNumber, n)) == FieldOrder[n]
  {
    AdvanceIndex(TrackStateKind.TrackNumber, n);
  }

  lemma {:induction false} AdvanceIndex(kind: TrackStateKind, n: nat)
    requires !kind.Interrupted?
    ensures !Advance(kind, n).Interrupted?
    ensures FieldIndex(Advance(kind, n)) == if FieldIndex(kind) + n < 3 then FieldIndex(kind) + n else 3
    decreases n
  {
    if n > 0 {
      AdvanceIndex(NextKind(kind), n - 1);
    }
  }

  /** The track state as the driver sees it: the kind moves, the seed it was created with does not. */
  function States(seed: TrackInput): Editor.StateOps<TrackStateKind, TrackKey>
  {
    Editor.StateOps(k => InputFor(seed, k), NextKind, PrevKind, k => TrackStateKind.Interrupted)
  }

  function Builder(): Editor.BuilderOps<TrackInput, TrackKey, TrackOutput, TrackInputError, TrackOutputError>
  {
    Editor.BuilderOps(Store, BuildOutput)
  }

  /** The track session from the field state `kind` with builder contents `input`, for a state created with `seed`. */
  function SessionFrom(seed: TrackInput, kind: TrackStateKind, input: TrackInput, script: seq<Editor.ReadResult>)
    : Editor.SessionResult<TrackOutput, TrackOutputError, TrackInputError>
  {
    Editor.Session(States(seed), Builder(), Label, kind, input, script)
  }

  /** The prompt shown for `key`, pre-filled from the seed. */
  function Asked(seed: TrackInput, key: TrackKey): Editor.Event<TrackInputError>
  {
    Editor.Prompted(Editor.PromptText(Label(key)), Hint(seed, key))
  }

  /** An accepted answer: its prompt is shown, the builder stores it, and the session moves to the next field. */
  lemma AnswerStep(seed: TrackInput, kind: TrackStateKind, input: TrackInput, line: string, rest: seq<Editor.ReadResult>)
    requires IsField(kind) && Editor.IsAnswer(line) && Store(input, KeyOf(kind), Trim(line)).Ok?
    ensures SessionFrom(seed, kind, input, [Editor.Line(line)] + rest)
      == Editor.Prepend([Asked(seed, KeyOf(kind))], SessionFrom(seed, NextKind(kind), Store(input, KeyOf(kind), Trim(line)).value, rest))
  {
    Editor.AcceptedAnswerAdvances(States(seed), Builder(), Label, kind, input, Editor.Line(line), rest);
  }

  /** Answers stored one by one from field `kind` to the last: the builder contents at the end, or `None` once one is refused. */
  function Filled(input: TrackInput, kind: TrackStateKind, values: seq<string>): Option<TrackInput>
    decreases |values|
  {
    if values == [] || !IsField(kind) then Some(input)
    else
      match Store(input, KeyOf(kind), values[0])
      case Ok(next) => Filled(next, NextKind(kind), values[1..])
      case Err(_) => None
  }

  /** The prompts of the fields from `kind` to the last, each pre-filled from the seed. */
  function AskedFrom(seed: TrackInput, kind: TrackStateKind): seq<Editor.Event<TrackInputError>>
    decreases if kind.Interrupted? then 0 else 3 - FieldIndex(kind)
  {
    if IsField(kind) then [Asked(seed, KeyOf(kind))] + AskedFrom(seed, NextKind(kind)) else []
  }

  /** How the session ends once the state is finished with builder contents `input`. */
  function Built(input: TrackInput): Result<Editor.EditorOutput<TrackOutput>, Editor.EditorError<TrackOutputError>>
  {
    match BuildOutput(input)
    case Ok(o) => Ok(Editor.EditorOutput.Finished(o))
    case Err(e) => Err(Editor.BuildOutput(e))
  }

  /**
   * Answering every remaining field, each answer accepted, asks exactly the remaining fields in
   * order, each pre-filled from the seed, and ends with what `build` makes of the stored answers.
   */
  lemma {:induction false} AnswersToTheEnd(seed: TrackInput, kind: TrackStateKind, input: TrackInput,
                                           lines: seq<string>, values: seq<string>)
    requires !kind.Interrupted? && |lines| == 3 - FieldIndex(kind)
    requires Editor.AreAnswers(lines, values) && Filled(input, kind, values).Some?
    ensures SessionFrom(seed, kind, input, Editor.Lines(lines))
      == Editor.SessionResult(Editor.Returned(Built(Filled(input, kind, values).value)), AskedFrom(seed, kind))
    decreases |lines|
  {
    if lines == [] {
      FinishedSession(seed, kind, input);
    } else {
      var next := Store(input, KeyOf(kind), values[0]).value;
      assert Filled(input, kind, values) == Filled(next, NextKind(kind), values[1..]);
      assert AskedFrom(seed, kind) == [Asked(seed, KeyOf(kind))] + AskedFrom(seed, NextKind(kind));
      assert Editor.AreAnswers(lines[1..], values[1..]);
      FirstAnswer(seed, kind, input, lines);
      AnswersToTheEnd(seed, NextKind(kind), next, lines[1..], values[1..]);
    }
  }

  /** A finished state shows nothing more and ends with what `build` makes of the builder contents. */
  lemma FinishedSession(seed: TrackInput, kind: TrackStateKind, input: TrackInput)
    requires kind.Finished?
    ensures SessionFrom(seed, kind, input, []) == Editor.SessionResult(Editor.Returned(Built(input)), [])
  {
    Editor.FinishedReturnsBuild(States(seed), Builder(), Label, kind, input, []);
  }

  /** The first of several lines, when it is an accepted answer. */
  lemma FirstAnswer(seed: TrackInput, kind: TrackStateKind, input: TrackInput, lines: seq<string>)
    requires IsField(kind) && lines != [] && Editor.IsAnswer(lines[0]) && Store(input, KeyOf(kind), Trim(lines[0])).Ok?
    ensures SessionFrom(seed, kind, input, Editor.Lines(lines))
      == Editor.Prepend([Asked(seed, KeyOf(kind))],
                        SessionFrom(seed, NextKind(kind), Store(input, KeyOf(kind), Trim(lines[0])).value, Editor.Lines(lines[1..])))
  {
    assert Editor.Lines(lines) == [Editor.Line(lines[0])] + Editor.Lines(lines[1..]);
    AnswerStep(seed, kind, input, lines[0], Editor.Lines(lines[1..]));
  }

  /** From field `kind` on, the session asks the remaining fields in their order, each pre-filled from the seed. */
  lemma {:induction false} AskedFromFields(seed: TrackInput, kind: TrackStateKind)
    requires !kind.Interrupted?
    ensures |AskedFrom(seed, kind)| == 3 - FieldIndex(kind)
    ensures forall i :: 0 <= i < |AskedFrom(seed, kind)| ==> AskedFrom(seed, kind)[i] == Asked(seed, FieldOrder[FieldIndex(kind) + i])
    decreases 3 - FieldIndex(kind)
  {
    if IsField(kind) {
      var next := NextKind(kind);
      AskedFromFields(seed, next);
      var asked := AskedFrom(seed, kind);
      assert asked == [Asked(seed, KeyOf(kind))] + AskedFrom(seed, next);
      forall i | 0 <= i < |asked|
        ensures asked[i] == Asked(seed, FieldOrder[FieldIndex(kind) + i])
      {
        if i == 0 {
          assert FieldOrder[FieldIndex(kind)] == KeyOf(kind);
        } else {
          assert asked[i] == AskedFrom(seed, next)[i - 1];
          assert FieldIndex(kind) + i == FieldIndex(next) + (i - 1);
        }
      }
    }
  }

  /** Storing three accepted answers from the track number on fills every field with its answer. */
  lemma ThreeAnswersFill(input: TrackInput, trackNumber: string, discNumber: string, title: string)
    requires ParseU32(trackNumber).Ok? && ParseU32(discNumber).Ok?
    ensures Filled(input, TrackStateKind.TrackNumber, [trackNumber, discNumber, title])
      == Some(TrackInput(Some(ParseU32(trackNumber).value), Some(ParseU32(discNumber).value), Some(title)))
  {
    var values := [trackNumber, discNumber, title];
    var b1 := input.(trackNumber := Some(ParseU32(trackNumber).value));
    var b2 := b1.(discNumber := Some(ParseU32(discNumber).value));
    var b3 := b2.(title := Some(title));
    assert Filled(b2, TrackStateKind.Title, values[2..]) == Some(b3);
    assert Filled(b1, TrackStateKind.DiscNumber, values[1..]) == Some(b3);
  }

  /**
   * A track editor at its first field, given three lines that trim to answers valid for their
   * fields, asks the three fields and finishes with exactly those answers, whatever the builder
   * held before.
   */
  lemma ThreeAnswersFinish(seed: TrackInput, input: TrackInput, lines: seq<string>,
                           trackNumber: string, discNumber: string, title: string)
    requires Editor.AreAnswers(lines, [trackNumber, discNumber, title])
    requires ParseU32(trackNumber).Ok? && ParseU32(discNumber).Ok?
    ensures SessionFrom(seed, TrackStateKind.TrackNumber, input, Editor.Lines(lines))
      == Editor.SessionResult(
           Editor.Returned(Ok(Editor.EditorOutput.Finished(TrackOutput(ParseU32(trackNumber).value, ParseU32(discNumber).value, title)))),
           AskedFrom(seed, TrackStateKind.TrackNumber))
  {
    var values := [trackNumber, discNumber, title];
    var o := TrackOutput(ParseU32(trackNumber).value, ParseU32(discNumber).value, title);
    ThreeAnswersFill(input, trackNumber, discNumber, title);
    assert Filled(input, TrackStateKind.TrackNumber, values).value == AsInput(o);
    BuildAsInput(o);
    assert Built(AsInput(o)) == Ok(Editor.EditorOutput.Finished(o));
    AnswersToTheEnd(seed, TrackStateKind.TrackNumber, input, lines, values);
  }

  /** From the first field, the session asks the track number, the disc number and the title, each pre-filled from the seed. */
  lemma ThreeFieldsAsked(seed: TrackInput)
    ensures AskedFrom(seed, TrackStateKind.TrackNumber)
      == [Asked(seed, TrackKey.TrackNumber), Asked(seed, TrackKey.DiscNumber), Asked(seed, TrackKey.Title)]
  {
    AskedFromFields(seed, TrackStateKind.TrackNumber);
  }

  /** Quitting (`:q`, Ctrl-C or end of input) at the first prompt interrupts the session after that one prompt. */
  lemma QuitAtFirstField(seed: TrackInput, line: Editor.ReadResult, rest: seq<Editor.ReadResult>)
    requires Editor.Classify(line) == Ok(Editor.Exit)
    ensures SessionFrom(seed, TrackStateKind.TrackNumber, seed, [line] + rest)
      == Editor.SessionResult(Editor.Returned(Ok(Editor.EditorOutput.Interrupted)), [Asked(seed, TrackKey.TrackNumber)])
  {
    Editor.ExitOnlyInterrupts(States(seed), Builder(), Label, TrackStateKind.TrackNumber, seed, line, rest);
  }

  /** Answering a field and then going back shows the two prompts and returns to that field with the answer stored. */
  lemma AnswerThenBack(seed: TrackInput, kind: TrackStateKind, input: TrackInput,
                       answer: string, back: Editor.ReadResult, rest: seq<Editor.ReadResult>)
    requires IsField(kind) && kind != TrackStateKind.Title
    requires Editor.IsAnswer(answer) && Store(input, KeyOf(kind), Trim(answer)).Ok?
    requires Editor.Classify(back) == Ok(Editor.Back)
    ensures SessionFrom(seed, kind, input, [Editor.Line(answer), back] + rest)
      == Editor.Prepend([Asked(seed, KeyOf(kind)), Asked(seed, KeyOf(NextKind(kind)))],
                        SessionFrom(seed, kind, Store(input, KeyOf(kind), Trim(answer)).value, rest))
  {
    var next := NextKind(kind);
    PrevUndoesNext(kind);
    assert States(seed).getInput(kind) == InputFor(seed, kind);
    assert States(seed).getInput(next) == InputFor(seed, next);
    assert Editor.Shown(States(seed), Label, kind) == Asked(seed, KeyOf(kind));
    assert Editor.Shown(States(seed), Label, next) == Asked(seed, KeyOf(next));
    Editor.AnswerThenBack(States(seed), Builder(), Label, kind, input, Editor.Line(answer), back, rest);
  }

  /** An answer a number field cannot parse is reported and the same field is asked again, nothing stored. */
  lemma BadNumberAsksAgain(seed: TrackInput, kind: TrackStateKind, input: TrackInput, answer: string, rest: seq<Editor.ReadResult>)
    requires (kind == TrackStateKind.TrackNumber || kind == TrackStateKind.DiscNumber)
    requires Editor.IsAnswer(answer) && ParseU32(Trim(answer)).Err?
    ensures SessionFrom(seed, kind, input, [Editor.Line(answer)] + rest)
      == Editor.Prepend([Asked(seed, KeyOf(kind)), Editor.Rejected(Store(input, KeyOf(kind), Trim(answer)).error)],
                        SessionFrom(seed, kind, input, rest))
  {
    Editor.RejectedAnswerRepeatsField(States(seed), Builder(), Label, kind, input, Editor.Line(answer), rest);
  }

  /** A track seed with nothing known. */
  const NoSeed: TrackInput := TrackInput(None, None, None)

  /** The numbers typed in the two scenarios below are already trimmed. */
  lemma NumberTrims()
    ensures Trim("1") == "1" && Trim("2") == "2"
  {
    TrimKeepsTrimmed("1");
    TrimKeepsTrimmed("2");
  }

  /** The title and the back command typed in the two scenarios below are already trimmed. */
  lemma WordTrims()
    ensures Trim("Echoes") == "Echoes" && Trim(":b") == ":b"
  {
    TrimKeepsTrimmed(":b");
    TrimKeepsTrimmed("Echoes");
  }

  /** The answers of the two scenarios below are no commands. */
  lemma ScenarioLines()
    ensures Editor.AreAnswers(["1", "1", "Echoes"], ["1", "1", "Echoes"])
    ensures Editor.AreAnswers(["2", "1", "Echoes"], ["2", "1", "Echoes"])
  {
    NumberTrims();
    WordTrims();
    Editor.AnswersCons("Echoes", "Echoes", [], []);
    Editor.AnswersCons("1", "1", ["Echoes"], ["Echoes"]);
    assert ["1"] + ["Echoes"] == ["1", "Echoes"];
    Editor.AnswersCons("1", "1", ["1", "Echoes"], ["1", "Echoes"]);
    Editor.AnswersCons("2", "2", ["1", "Echoes"], ["1", "Echoes"]);
    assert ["1"] + ["1", "Echoes"] == ["1", "1", "Echoes"];
    assert ["2"] + ["1", "Echoes"] == ["2", "1", "Echoes"];
  }

  /** The numbers of the two scenarios below. */
  lemma ScenarioNumbers()
    ensures ParseU32("1") == Ok(1) && ParseU32("2") == Ok(2)
  {
  }

  /** "1", "1", "Echoes" with no defaults: the session finishes with track 1, disc 1, title "Echoes". */
  lemma EchoesSession()
    ensures SessionFrom(NoSeed, TrackStateKind.TrackNumber, NoSeed, Editor.Lines(["1", "1", "Echoes"])).outcome
      == Editor.Returned(Ok(Editor.EditorOutput.Finished(TrackOutput(1, 1, "Echoes"))))
  {
    ScenarioLines();
    ScenarioNumbers();
    ThreeAnswersFinish(NoSeed, NoSeed, ["1", "1", "Echoes"], "1", "1", "Echoes");
  }

  /** "1" then back with no defaults: two prompts, and the track number is asked again with 1 stored. */
  lemma OneThenBack(rest: seq<Editor.ReadResult>)
    ensures SessionFrom(NoSeed, TrackStateKind.TrackNumber, NoSeed, [Editor.Line("1"), Editor.Line(":b")] + rest)
      == Editor.Prepend([Asked(NoSeed, TrackKey.TrackNumber), Asked(NoSeed, TrackKey.DiscNumber)],
                        SessionFrom(NoSeed, TrackStateKind.TrackNumber, NoSeed.(trackNumber := Some(1)), rest))
  {
    NumberTrims();
    WordTrims();
    ScenarioNumbers();
    assert Editor.IsAnswer("1");
    assert Store(NoSeed, TrackKey.TrackNumber, Trim("1")) == Ok(NoSeed.(trackNumber := Some(1)));
    assert Editor.Classify(Editor.Line(":b")) == Ok(Editor.Back);
    AnswerThenBack(NoSeed, TrackStateKind.TrackNumber, NoSeed, "1", Editor.Line(":b"), rest);
  }

  /**
   * "1", back, "2", "1", "Echoes" with no defaults: the track number is asked again after the
   * back command, pre-filled with the seed's empty text rather than the "1" already given, and
   * the second answer replaces the first: the session finishes with track 2, disc 1.
   */
  lemma BackThenAnswersSession()
    ensures var r := SessionFrom(NoSeed, TrackStateKind.TrackNumber, NoSeed, Editor.Lines(["1", ":b", "2", "1", "Echoes"]));
      && r.outcome == Editor.Returned(Ok(Editor.EditorOutput.Finished(TrackOutput(2, 1, "Echoes"))))
      && |r.transcript| == 5
      && r.transcript[2] == Editor.Prompted("[TRACK NUMBER] >>> ", Editor.DefaultValue("", ""))
  {
    var tail := SessionFrom(NoSeed, TrackStateKind.TrackNumber, NoSeed.(trackNumber := Some(1)), Editor.Lines(["2", "1", "Echoes"]));
    BackThenAnswersSplits();
    SecondTryFinishes();
    EmptySeedPrompt();
    assert tail.transcript[0] == Asked(NoSeed, TrackKey.TrackNumber);
  }

  /** The five lines of the scenario above: two prompts, then the session from the track number with 1 stored. */
  lemma BackThenAnswersSplits()
    ensures SessionFrom(NoSeed, TrackStateKind.TrackNumber, NoSeed, Editor.Lines(["1", ":b", "2", "1", "Echoes"]))
      == Editor.Prepend([Asked(NoSeed, TrackKey.TrackNumber), Asked(NoSeed, TrackKey.DiscNumber)],
                        SessionFrom(NoSeed, TrackStateKind.TrackNumber, NoSeed.(trackNumber := Some(1)), Editor.Lines(["2", "1", "Echoes"])))
  {
    assert Editor.Lines(["1", ":b", "2", "1", "Echoes"]) == [Editor.Line("1"), Editor.Line(":b")] + Editor.Lines(["2", "1", "Echoes"]);
    OneThenBack(Editor.Lines(["2", "1", "Echoes"]));
  }

  /** "2", "1", "Echoes" after the back command: the three fields are asked and the session finishes with track 2. */
  lemma SecondTryFinishes()
    ensures SessionFrom(NoSeed, TrackStateKind.TrackNumber, NoSeed.(trackNumber := Some(1)), Editor.Lines(["2", "1", "Echoes"]))
      == Editor.SessionResult(Editor.Returned(Ok(Editor.EditorOutput.Finished(TrackOutput(2, 1, "Echoes")))),
                              [Asked(NoSeed, TrackKey.TrackNumber), Asked(NoSeed, TrackKey.DiscNumber), Asked(NoSeed, TrackKey.Title)])
  {
    ScenarioLines();
    ScenarioNumbers();
    ThreeAnswersFinish(NoSeed, NoSeed.(trackNumber := Some(1)), ["2", "1", "Echoes"], "2", "1", "Echoes");
    ThreeFieldsAsked(NoSeed);
  }

  /** With no defaults the track number prompt shows its label and an empty pre-filled text. */
  lemma EmptySeedPrompt()
    ensures Asked(NoSeed, TrackKey.TrackNumber) == Editor.Prompted("[TRACK NUMBER] >>> ", Editor.DefaultValue("", ""))
  {
  }

  /**
   * A track editor created from a file's tags asks for the three fields in order, each prompt
   * pre-filled with the file's value (a number in decimal) with the cursor after it, or empty
   * when the file has none; nothing else of the file shows.
   */
  lemma FileSeededPrompts(item: FileInput)
    ensures AskedFrom(FromFileInput(item), TrackStateKind.TrackNumber) == [
      Editor.Prompted("[TRACK NUMBER] >>> ",
        Editor.DefaultValue(if item.trackNumber.Some? then FormatNat(item.trackNumber.value) else "", "")),
      Editor.Prompted("[DISC NUMBER] >>> ",
        Editor.DefaultValue(if item.discNumber.Some? then FormatNat(item.discNumber.value) else "", "")),
      Editor.Prompted("[TITLE] >>> ",
        Editor.DefaultValue(if item.title.Some? then item.title.value else "", ""))]
  {
    var seed := FromFileInput(item);
    ThreeFieldsAsked(seed);
    assert Editor.PromptText("TRACK NUMBER") == "[TRACK NUMBER] >>> ";
    assert Editor.PromptText("DISC NUMBER") == "[DISC NUMBER] >>> ";
    assert Editor.PromptText("TITLE") == "[TITLE] >>> ";
  }

  /** `TrackState`: the input it was created with (only used for hints) and the current field. */
  class TrackState {
    const trackInput: TrackInput
    var kind: TrackStateKind

    /** `TrackState::new`: starts at the track number. */
    constructor (trackInput: TrackInput)
      ensures this.trackInput == trackInput && kind == TrackStateKind.TrackNumber
    {
      this.trackInput := trackInput;
      kind := TrackStateKind.TrackNumber;
    }

    function GetInput(): Editor.StateInput<TrackKey>
      reads this
    {
      InputFor(trackInput, kind)
    }

    method Next()
      modifies this
      ensures kind == NextKind(old(kind))
    {
      kind := match kind
        case TrackNumber => TrackStateKind.DiscNumber
        case DiscNumber => TrackStateKind.Title
        case Title => TrackStateKind.Finished
        case Interrupted => TrackStateKind.Interrupted
        case Finished => TrackStateKind.Finished;
    }

    method Prev()
      modifies this
      ensures kind == PrevKind(old(kind))
    {
      kind := match kind
        case TrackNumber => TrackStateKind.TrackNumber
        case DiscNumber => TrackStateKind.TrackNumber
        case Title => TrackStateKind.DiscNumber
        case Interrupted => TrackStateKind.TrackNumber
        case Finished => TrackStateKind.Title;
    }

    method Interrupt()
      modifies this
      ensures kind == TrackStateKind.Interrupted
    {
      kind := TrackStateKind.Interrupted;
    }

    method Finish()
      modifies this
      ensures kind == TrackStateKind.Finished
    {
      kind := TrackStateKind.Finished;
    }
  }

  /** `TrackOutputBuilder`: the fields answered so far, on top of the file's own tags. */
  class TrackOutputBuilder {
    var trackInput: TrackInput

    constructor (trackInput: TrackInput)
      ensures this.trackInput == trackInput
    {
      this.trackInput := trackInput;
    }

    /** `set_value`: stores the answer as `Store` does; a rejected answer changes nothing. */
    method SetValue(key: TrackKey, value: string) returns (r: Result<(), TrackInputError>)
      modifies this
      ensures match Store(old(trackInput), key, value)
        case Ok(next) => r == Ok(()) && trackInput == next
        case Err(e) => r == Err(e) && trackInput == old(trackInput)
    {
      match key {
        case TrackNumber =>
          var parsed := ParseU32(value);
          if parsed.Err? {
            return Err(TrackInputError.TrackNumber(parsed.error));
          }
          trackInput := trackInput.(trackNumber := Some(parsed.value));
        case DiscNumber =>
          var parsed := ParseU32(value);
          if parsed.Err? {
            return Err(TrackInputError.DiscNumber(parsed.error));
          }
          trackInput := trackInput.(discNumber := Some(parsed.value));
        case Title =>
          trackInput := trackInput.(title := Some(value));
      }
      r := Ok(());
    }

    function Build(): Result<TrackOutput, TrackOutputError>
      reads this
    {
      BuildOutput(trackInput)
    }
  }

  /** `TrackEditor`: the editor driver over a track state and builder. */
  class TrackEditor {
    const state: TrackState
    const outputBuilder: TrackOutputBuilder

    /** `TrackEditor::new`: the state and the builder each start from the same input. */
    constructor (trackInput: TrackInput)
      ensures fresh(state) && fresh(outputBuilder)
      ensures state.trackInput == trackInput && state.kind == TrackStateKind.TrackNumber
      ensures outputBuilder.trackInput == trackInput
    {
      state := new TrackState(trackInput);
      outputBuilder := new TrackOutputBuilder(trackInput);
    }

    /**
     * One pass of the loop in `Editor::run` over the lines `rest` still to be read: either how
     * the session ends, or the state and builder moved on as `Editor.OnePass` says. `shown` is
     * what the pass displayed.
     */
    method Pass(rest: seq<Editor.ReadResult>)
      returns (stop: Option<Editor.RunOutcome<TrackOutput, TrackOutputError>>, shown: seq<Editor.Event<TrackInputError>>)
      modifies state, outputBuilder
      ensures var p := Editor.OnePass(States(state.trackInput), Builder(), Label, old(state.kind), old(outputBuilder.trackInput), rest);
        && shown == p.shown
        && (stop.Some? <==> p.Stop?)
        && (p.Stop? ==> stop.value == p.outcome)
        && (p.Go? ==> state.kind == p.next && outputBuilder.trackInput == p.builder)
    {
      match state.GetInput() {
        case Interrupted =>
          return Some(Editor.Returned(Ok(Editor.EditorOutput.Interrupted))), [];
        case Finished =>
          var built := outputBuilder.Build();
          match built {
            case Ok(output) =>
              return Some(Editor.Returned(Ok(Editor.EditorOutput.Finished(output)))), [];
            case Err(e) =>
              return Some(Editor.Returned(Err(Editor.BuildOutput(e)))), [];
          }
        case Read(key, defaultValue) =>
          shown := [Editor.Prompted(Editor.PromptText(Label(key)), defaultValue)];
          if rest == [] {
            return Some(Editor.ScriptExhausted), shown;
          }
          match Editor.Classify(rest[0]) {
            case Err(e) =>
              return Some(Editor.Returned(Err(Editor.Readline(e)))), shown;
            case Ok(Data(value)) =>
              var accepted := outputBuilder.SetValue(key, value);
              if accepted.Err? {
                shown := shown + [Editor.Rejected(accepted.error)];
              } else {
                state.Next();
              }
            case Ok(Back) =>
              state.Prev();
            case Ok(Exit) =>
              state.Interrupt();
          }
          stop := None;
      }
    }

    /**
     * `TrackEditor::run`, that is `Editor::run`: passes repeated until one stops, proved to
     * produce what `Editor.Session` describes.
     */
    method Run(script: seq<Editor.ReadResult>) returns (r: Editor.SessionResult<TrackOutput, TrackOutputError, TrackInputError>)
      modifies state, outputBuilder
      ensures r == Editor.Session(States(state.trackInput), Builder(), Label,
                                  old(state.kind), old(outputBuilder.trackInput), script)
    {
      ghost var whole := Editor.Session(States(state.trackInput), Builder(), Label, state.kind, outputBuilder.trackInput, script);
      var transcript: seq<Editor.Event<TrackInputError>> := [];
      var i := 0;
      assert script[i..] == script;
      while true
        invariant i <= |script|
        invariant whole == Editor.Prepend(transcript,
          Editor.Session(States(state.trackInput), Builder(), Label, state.kind, outputBuilder.trackInput, script[i..]))
        decreases |script| - i
      {
        ghost var kind, input := state.kind, outputBuilder.trackInput;
        var stop, shown := Pass(script[i..]);
        if stop.Some? {
          return Editor.SessionResult(stop.value, transcript + shown);
        }
        Editor.PassGoesOn(States(state.trackInput), Builder(), Label, kind, input, script[i..]);
        assert script[i..][1..] == script[i + 1..];
        Editor.PrependTwice(transcript, shown,
          Editor.Session(States(state.trackInput), Builder(), Label, state.kind, outputBuilder.trackInput, script[i + 1..]));
        transcript := transcript + shown;
        i := i + 1;
      }
    }
  }
}
