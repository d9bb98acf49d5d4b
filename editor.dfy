/**
 * The generic tag-entry session of `src/editor.rs`: a navigable field state paired with an
 * output builder, driven by lines read from the terminal.
 *
 * The line editor is not modelled; a session consumes a finite script of read results instead,
 * and records what it showed the user (each prompt with its pre-filled text, and each rejected
 * answer). The Rust driver is generic over its `State` and `OutputBuilder` traits; here the two
 * traits are records of functions (`StateOps`, `BuilderOps`), and the driver's loop is stated
 * once, as the function `Session`, which the album and track editors' `Run` methods are proved
 * to follow.
 */
module Editor {
  import opened Wrappers
  import opened Text

  const CommandBack: string := ":b"
  const CommandQuit: string := ":q"

  /** The failures of rustyline's `readline`: `Interrupted` (Ctrl-C), `Eof`, and anything else (I/O and the like). */
  datatype ReadlineError = CtrlC | Eof | Other(detail: string)

  /** One result of a line read, as the script supplies it. */
  datatype ReadResult = Line(text: string) | Failure(error: ReadlineError)

  /** `ReadlineInput`: what a read line means to the driver. */
  datatype ReadlineInput = Data(value: string) | Back | Exit

  /** `DefaultValue`: the text pre-filled before (`left`) and after (`right`) the cursor. */
  datatype DefaultValue = DefaultValue(left: string, right: string)

  /** `StateInput`: what the field state asks of the driver next. */
  datatype StateInput<K> = Read(key: K, defaultValue: DefaultValue) | Interrupted | Finished

  /** `EditorOutput`: how a session ends normally. */
  datatype EditorOutput<O> = Finished(output: O) | Interrupted

  /** `EditorError`: the builder refused to build, or the terminal failed. */
  datatype EditorError<OE> = BuildOutput(buildError: OE) | Readline(readError: ReadlineError)

  /** What `Editor::run` returns, or `ScriptExhausted` when the script ends while a line is being read. */
  datatype RunOutcome<O, OE> = Returned(result: Result<EditorOutput<O>, EditorError<OE>>) | ScriptExhausted

  /** What the user sees: a prompt with its pre-filled text, or the message of a rejected answer. */
  datatype Event<IE> = Prompted(prompt: string, initial: DefaultValue) | Rejected(error: IE)

  datatype SessionResult<O, OE, IE> = SessionResult(outcome: RunOutcome<O, OE>, transcript: seq<Event<IE>>)

  /** The `State` trait: `get_input`, `next`, `prev` and `interrupt` (the driver never calls `finish`). */
  datatype StateOps<!S, K> = StateOps(getInput: S -> StateInput<K>, next: S -> S, prev: S -> S, interrupt: S -> S)

  /** The `OutputBuilder` trait: `set_value` yields the updated builder or a parse error; `build` the output. */
  datatype BuilderOps<!B, -K, O, IE, OE> = BuilderOps(setValue: (B, K, string) -> Result<B, IE>, build: B -> Result<O, OE>)

  /** `DefaultValue::left`: all text before the cursor. */
  function Left(left: string): (d: DefaultValue)
    ensures d.left == left && d.right == ""
  {
    DefaultValue(left, "")
  }

  /** `DefaultValue::right`: all text after the cursor. */
  function Right(right: string): (d: DefaultValue)
    ensures d.left == "" && d.right == right
  {
    DefaultValue("", right)
  }

  /** `DefaultValue::from(&Option<T>)`: a known value is pre-filled with the cursor after it; nothing otherwise. */
  function FromOption<T>(value: Option<T>, display: T -> string): DefaultValue
  {
    match value
    case Some(v) => Left(display(v))
    case None => Right("")
  }

  /** The prompt `Editor::read` shows for a field label. */
  function PromptText(name: string): string
  {
    "[" + name + "] >>> "
  }

  /** A prompt is the label in square brackets followed by ` >>> `, so different labels give different prompts. */
  lemma PromptShowsLabel(name: string, other: string)
    ensures var p := PromptText(name);
      |p| == |name| + 7 && p[..1] == "[" && p[1..|name| + 1] == name && p[|name| + 1..] == "] >>> "
    ensures PromptText(other) == PromptText(name) ==> other == name
  {
    var p, q := PromptText(name), PromptText(other);
    assert p[1..|name| + 1] == name;
    if q == p {
      assert |other| == |name|;
      assert q[1..|other| + 1] == other;
    }
  }

  /**
   * The classification in `Editor::read`: a line is trimmed and compared with the two commands;
   * Ctrl-C and end of input mean "exit"; any other failure is an error.
   */
  function Classify(r: ReadResult): (c: Result<ReadlineInput, ReadlineError>)
    ensures r.Line? ==> c.Ok?
    ensures r.Line? ==> (c.value == Back <==> Trim(r.text) == CommandBack)
    ensures r.Line? ==> (c.value == Exit <==> Trim(r.text) == CommandQuit)
    ensures r.Line? && c.value.Data? ==> c.value.value == Trim(r.text)
    ensures r.Failure? ==> (c == Ok(Exit) <==> !r.error.Other?)
    ensures r.Failure? && c.Err? ==> c.error == r.error
  {
    match r
    case Line(text) =>
      var value := Trim(text);
      if value == CommandBack then Ok(Back)
      else if value == CommandQuit then Ok(Exit)
      else Ok(Data(value))
    case Failure(CtrlC) => Ok(Exit)
    case Failure(Eof) => Ok(Exit)
    case Failure(e) => Err(e)
  }

  function Prepend<O, OE, IE>(events: seq<Event<IE>>, r: SessionResult<O, OE, IE>): SessionResult<O, OE, IE>
  {
    SessionResult(r.outcome, events + r.transcript)
  }

  /** Typed lines, as the script of a session. */
  function Lines(lines: seq<string>): (script: seq<ReadResult>)
    ensures |script| == |lines| && forall i :: 0 <= i < |lines| ==> script[i] == Line(lines[i])
  {
    seq(|lines|, i requires 0 <= i < |lines| => Line(lines[i]))
  }

  /** A line that is neither command, so that its trimmed text is an answer. */
  predicate IsAnswer(line: string)
  {
    Trim(line) != CommandBack && Trim(line) != CommandQuit
  }

  /** The typed `line` trims to the answer `value`. */
  predicate Answers(line: string, value: string)
  {
    Trim(line) == value && IsAnswer(line)
  }

  /** The typed `lines` trim to the answers `values`, none of them a command. */
  predicate AreAnswers(lines: seq<string>, values: seq<string>)
    decreases |lines|
  {
    && |lines| == |values|
    && (lines == [] || (Answers(lines[0], values[0]) && AreAnswers(lines[1..], values[1..])))
  }

  /** A line that trims to an answer, in front of lines that do. */
  lemma AnswersCons(line: string, value: string, lines: seq<string>, values: seq<string>)
    requires Answers(line, value) && AreAnswers(lines, values)
    ensures AreAnswers([line] + lines, [value] + values)
  {
    assert ([line] + lines)[1..] == lines && ([value] + values)[1..] == values;
  }

  /**
   * One pass of the loop in `Editor::run`: the events it shows, and either how the session
   * ends (`Stop`) or the state and builder the next pass starts from, one line further on (`Go`).
   */
  datatype Pass<S, B, O, OE, IE> =
    | Stop(outcome: RunOutcome<O, OE>, shown: seq<Event<IE>>)
    | Go(next: S, builder: B, shown: seq<Event<IE>>)

  /**
   * The body of the loop in `Editor::run`: ask the state what it needs; on a field, read a line
   * and either hand the answer to the builder (moving on only if it was accepted), go back, or
   * interrupt; stop with `Interrupted`, or with the built output once the state is finished.
   */
  function OnePass<S, B, K, O, IE, OE>(
    states: StateOps<S, K>, builder: BuilderOps<B, K, O, IE, OE>, labelOf: K -> string,
    s: S, b: B, script: seq<ReadResult>): (p: Pass<S, B, O, OE, IE>)
    ensures p.Go? ==> script != [] && states.getInput(s).Read?
    ensures states.getInput(s).Read? ==>
      p.shown != [] && p.shown[0] == Prompted(PromptText(labelOf(states.getInput(s).key)), states.getInput(s).defaultValue)
    ensures !states.getInput(s).Read? ==> p.Stop? && p.shown == [] && p.outcome.Returned?
  {
    match states.getInput(s)
    case Interrupted => Stop(Returned(Ok(EditorOutput.Interrupted)), [])
    case Finished =>
      (match builder.build(b)
       case Ok(output) => Stop(Returned(Ok(EditorOutput.Finished(output))), [])
       case Err(e) => Stop(Returned(Err(BuildOutput(e))), []))
    case Read(key, initial) =>
      var shown := Prompted(PromptText(labelOf(key)), initial);
      if script == [] then Stop(ScriptExhausted, [shown])
      else
        match Classify(script[0])
        case Err(e) => Stop(Returned(Err(Readline(e))), [shown])
        case Ok(Data(value)) =>
          (match builder.setValue(b, key, value)
           case Err(e) => Go(s, b, [shown, Rejected(e)])
           case Ok(b') => Go(states.next(s), b', [shown]))
        case Ok(Back) => Go(states.prev(s), b, [shown])
        case Ok(Exit) => Go(states.interrupt(s), b, [shown])
  }

  /** `Editor::run` as a whole: passes repeated until one stops, their events shown in order. */
  function Session<S, B, K, O, IE, OE>(
    states: StateOps<S, K>, builder: BuilderOps<B, K, O, IE, OE>, labelOf: K -> string,
    s: S, b: B, script: seq<ReadResult>): (r: SessionResult<O, OE, IE>)
    ensures states.getInput(s).Read? ==>
      r.transcript != [] && r.transcript[0] == Prompted(PromptText(labelOf(states.getInput(s).key)), states.getInput(s).defaultValue)
    ensures !states.getInput(s).Read? ==> r.transcript == [] && r.outcome.Returned?
    decreases |script|
  {
    match OnePass(states, builder, labelOf, s, b, script)
    case Stop(outcome, shown) => SessionResult(outcome, shown)
    case Go(next, b', shown) => Prepend(shown, Session(states, builder, labelOf, next, b', script[1..]))
  }

  /** A pass that goes on shows its events in front of the rest of the session. */
  lemma PassGoesOn<S, B, K, O, IE, OE>(
    states: StateOps<S, K>, builder: BuilderOps<B, K, O, IE, OE>, labelOf: K -> string,
    s: S, b: B, script: seq<ReadResult>)
    requires OnePass(states, builder, labelOf, s, b, script).Go?
    ensures var p := OnePass(states, builder, labelOf, s, b, script);
      Session(states, builder, labelOf, s, b, script)
        == Prepend(p.shown, Session(states, builder, labelOf, p.next, p.builder, script[1..]))
  {
  }

  /** The prompt a session shows for a state that asks for a field. */
  function Shown<S, K, IE>(states: StateOps<S, K>, labelOf: K -> string, s: S): Event<IE>
    requires states.getInput(s).Read?
  {
    Prompted(PromptText(labelOf(states.getInput(s).key)), states.getInput(s).defaultValue)
  }

  /** A rejected answer leaves both the state and the builder as they were: the same field is asked again. */
  lemma RejectedAnswerRepeatsField<S, B, K, O, IE, OE>(
    states: StateOps<S, K>, builder: BuilderOps<B, K, O, IE, OE>, labelOf: K -> string,
    s: S, b: B, line: ReadResult, rest: seq<ReadResult>)
    requires states.getInput(s).Read? && Classify(line).Ok? && Classify(line).value.Data?
    requires builder.setValue(b, states.getInput(s).key, Classify(line).value.value).Err?
    ensures Session(states, builder, labelOf, s, b, [line] + rest)
      == Prepend([Shown(states, labelOf, s),
                  Rejected(builder.setValue(b, states.getInput(s).key, Classify(line).value.value).error)],
                 Session(states, builder, labelOf, s, b, rest))
  {
    var script := [line] + rest;
    var e := builder.setValue(b, states.getInput(s).key, Classify(line).value.value).error;
    assert script[0] == line && script[1..] == rest;
    assert OnePass(states, builder, labelOf, s, b, script) == Go(s, b, [Shown(states, labelOf, s), Rejected(e)]);
    PassGoesOn(states, builder, labelOf, s, b, script);
  }

  /** An accepted answer moves the state on by exactly one `next`, with the builder that took the answer. */
  lemma AcceptedAnswerAdvances<S, B, K, O, IE, OE>(
    states: StateOps<S, K>, builder: BuilderOps<B, K, O, IE, OE>, labelOf: K -> string,
    s: S, b: B, line: ReadResult, rest: seq<ReadResult>)
    requires states.getInput(s).Read? && Classify(line).Ok? && Classify(line).value.Data?
    requires builder.setValue(b, states.getInput(s).key, Classify(line).value.value).Ok?
    ensures Session(states, builder, labelOf, s, b, [line] + rest)
      == Prepend([Shown(states, labelOf, s)],
                 Session(states, builder, labelOf, states.next(s),
                         builder.setValue(b, states.getInput(s).key, Classify(line).value.value).value, rest))
  {
    var script := [line] + rest;
    var stored := builder.setValue(b, states.getInput(s).key, Classify(line).value.value).value;
    assert script[0] == line && script[1..] == rest;
    assert OnePass(states, builder, labelOf, s, b, script) == Go(states.next(s), stored, [Shown(states, labelOf, s)]);
    PassGoesOn(states, builder, labelOf, s, b, script);
  }

  /** The back command applies only `prev`: the builder is handed on untouched. */
  lemma BackOnlyRetreats<S, B, K, O, IE, OE>(
    states: StateOps<S, K>, builder: BuilderOps<B, K, O, IE, OE>, labelOf: K -> string,
    s: S, b: B, line: ReadResult, rest: seq<ReadResult>)
    requires states.getInput(s).Read? && Classify(line) == Ok(Back)
    ensures Session(states, builder, labelOf, s, b, [line] + rest)
      == Prepend([Shown(states, labelOf, s)], Session(states, builder, labelOf, states.prev(s), b, rest))
  {
    var script := [line] + rest;
    assert script[0] == line && script[1..] == rest;
    assert OnePass(states, builder, labelOf, s, b, script) == Go(states.prev(s), b, [Shown(states, labelOf, s)]);
    PassGoesOn(states, builder, labelOf, s, b, script);
  }

  /** The quit command, Ctrl-C and end of input apply only `interrupt`: the builder is handed on untouched. */
  lemma ExitOnlyInterrupts<S, B, K, O, IE, OE>(
    states: StateOps<S, K>, builder: BuilderOps<B, K, O, IE, OE>, labelOf: K -> string,
    s: S, b: B, line: ReadResult, rest: seq<ReadResult>)
    requires states.getInput(s).Read? && Classify(line) == Ok(Exit)
    ensures Session(states, builder, labelOf, s, b, [line] + rest)
      == Prepend([Shown(states, labelOf, s)], Session(states, builder, labelOf, states.interrupt(s), b, rest))
  {
    var script := [line] + rest;
    assert script[0] == line && script[1..] == rest;
    assert OnePass(states, builder, labelOf, s, b, script) == Go(states.interrupt(s), b, [Shown(states, labelOf, s)]);
    PassGoesOn(states, builder, labelOf, s, b, script);
  }

  /**
   * An accepted answer followed by the back command returns to the same state with the answer
   * kept in the builder, after showing the two prompts.
   */
  lemma AnswerThenBack<S, B, K, O, IE, OE>(
    states: StateOps<S, K>, builder: BuilderOps<B, K, O, IE, OE>, labelOf: K -> string,
    s: S, b: B, line: ReadResult, back: ReadResult, rest: seq<ReadResult>)
    requires states.getInput(s).Read? && Classify(line).Ok? && Classify(line).value.Data?
    requires builder.setValue(b, states.getInput(s).key, Classify(line).value.value).Ok?
    requires states.getInput(states.next(s)).Read? && states.prev(states.next(s)) == s
    requires Classify(back) == Ok(Back)
    ensures Session(states, builder, labelOf, s, b, [line, back] + rest)
      == Prepend([Shown(states, labelOf, s), Shown(states, labelOf, states.next(s))],
                 Session(states, builder, labelOf, s,
                         builder.setValue(b, states.getInput(s).key, Classify(line).value.value).value, rest))
  {
    var stored := builder.setValue(b, states.getInput(s).key, Classify(line).value.value).value;
    var first, second := Shown(states, labelOf, s), Shown(states, labelOf, states.next(s));
    assert [line, back] + rest == [line] + ([back] + rest);
    assert [first] + [second] == [first, second];
    calc {
      Session(states, builder, labelOf, s, b, [line] + ([back] + rest));
    == { AcceptedAnswerAdvances(states, builder, labelOf, s, b, line, [back] + rest); }
      Prepend([first], Session(states, builder, labelOf, states.next(s), stored, [back] + rest));
    == { BackOnlyRetreats(states, builder, labelOf, states.next(s), stored, back, rest); }
      Prepend([first], Prepend([second], Session(states, builder, labelOf, s, stored, rest)));
    == { PrependTwice([first], [second], Session(states, builder, labelOf, s, stored, rest)); }
      Prepend([first, second], Session(states, builder, labelOf, s, stored, rest));
    }
  }

  /** Events shown in two stretches read as one. */
  lemma PrependTwice<O, OE, IE>(first: seq<Event<IE>>, second: seq<Event<IE>>, r: SessionResult<O, OE, IE>)
    ensures Prepend(first, Prepend(second, r)) == Prepend(first + second, r)
  {
  }

  /** A terminal failure other than Ctrl-C and end of input ends the session with `EditorError::Readline`. */
  lemma ReadFailureEndsSession<S, B, K, O, IE, OE>(
    states: StateOps<S, K>, builder: BuilderOps<B, K, O, IE, OE>, labelOf: K -> string,
    s: S, b: B, detail: string, rest: seq<ReadResult>)
    requires states.getInput(s).Read?
    ensures Session(states, builder, labelOf, s, b, [Failure(Other(detail))] + rest).outcome
      == Returned(Err(Readline(Other(detail))))
  {
  }

  /** Once the state reports `Finished`, the session ends with `Finished(o)` exactly when `build` yields `o`. */
  lemma FinishedReturnsBuild<S, B, K, O, IE, OE>(
    states: StateOps<S, K>, builder: BuilderOps<B, K, O, IE, OE>, labelOf: K -> string,
    s: S, b: B, script: seq<ReadResult>)
    requires states.getInput(s).Finished?
    ensures match builder.build(b)
      case Ok(o) => Session(states, builder, labelOf, s, b, script).outcome == Returned(Ok(EditorOutput.Finished(o)))
      case Err(e) => Session(states, builder, labelOf, s, b, script).outcome == Returned(Err(BuildOutput(e)))
  {
  }

  /**
   * A session that ends interrupted never consulted `build`: with any other `build` function the
   * same script produces the same outcome and the same transcript.
   */
  lemma {:induction false} InterruptedNeverBuilds<S, B, K, O, IE, OE>(
    states: StateOps<S, K>, builder: BuilderOps<B, K, O, IE, OE>, otherBuild: B -> Result<O, OE>,
    labelOf: K -> string, s: S, b: B, script: seq<ReadResult>)
    requires Session(states, builder, labelOf, s, b, script).outcome == Returned(Ok(EditorOutput.Interrupted))
    ensures Session(states, BuilderOps(builder.setValue, otherBuild), labelOf, s, b, script)
      == Session(states, builder, labelOf, s, b, script)
    decreases |script|
  {
    var other := BuilderOps(builder.setValue, otherBuild);
    match states.getInput(s)
    case Interrupted =>
    case Finished =>
    case Read(key, initial) =>
      if script != [] {
        match Classify(script[0])
        case Err(e) =>
        case Ok(Data(value)) =>
          match builder.setValue(b, key, value) {
            case Err(e) => InterruptedNeverBuilds(states, builder, otherBuild, labelOf, s, b, script[1..]);
            case Ok(b') => InterruptedNeverBuilds(states, builder, otherBuild, labelOf, states.next(s), b', script[1..]);
          }
        case Ok(Back) => InterruptedNeverBuilds(states, builder, otherBuild, labelOf, states.prev(s), b, script[1..]);
        case Ok(Exit) => InterruptedNeverBuilds(states, builder, otherBuild, labelOf, states.interrupt(s), b, script[1..]);
      }
  }
}
