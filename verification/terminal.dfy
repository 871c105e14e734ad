/**
  The hero-section terminal interpreter: the `typeText` reveal and the
  `handleCommand` submission handler, over any command registry (the
  site's own registry is `Hero.Registry`).

  Every write the component makes to its React state is one `Event`; a
  submission is the list of events `handleCommand` produces, applied in
  order by `Run`. Each submission runs to completion before the next key
  press (no overlapping submissions), and the per-character delays are
  discrete steps.
 */
module Terminal {
  import opened Options
  import opened Text

  /** The side effect a command may carry, run after its output is shown. */
  datatype Action = DownloadResume | ClearTerminal

  datatype Command = Command(output: seq<string>, action: Option<Action>)

  const ExecutingLine := "Executing action..."

  function NotFoundLine(command: string): string {
    "bash: " + command + ": command not found"
  }

  /** The lookup key: the input trimmed, then lower-cased. */
  function Normalise(input: string): (key: string)
    ensures NoUpper(key)
    ensures |key| > 0 ==> !IsSpace(key[0]) && !IsSpace(key[|key| - 1])
    ensures key == "" <==> AllSpace(input)
  {
    Lower(Trim(input))
  }

  /** Whitespace around the typed command is dropped and its letters are
      lower-cased: the key is exactly `core.toLowerCase()`. */
  lemma NormalisePadded(left: string, core: string, right: string)
    requires AllSpace(left) && AllSpace(right)
    requires |core| > 0 ==> !IsSpace(core[0]) && !IsSpace(core[|core| - 1])
    ensures Normalise(left + core + right) == Lower(core)
  {
    TrimPadded(left, core, right);
  }

  /** The terminal's React state. */
  datatype State = State(log: seq<string>, input: string, isTyping: bool)

  /** One state write of the component. `Append` and `WriteLast` are the two
      updaters passed to `setTerminalLines`. */
  datatype Event =
    | Append(line: string)
    | WriteLast(line: string)
    | SetTyping(on: bool)
    | SetInput(text: string)
    | Invoke(action: Action)

  /** `prev.slice(0, -1)`: everything but the last entry (nothing when empty). */
  function DropLast(log: seq<string>): (r: seq<string>)
    ensures |log| > 0 ==> |r| == |log| - 1 && r == log[..|log| - 1]
    ensures |log| == 0 ==> r == []
  {
    if |log| == 0 then [] else log[..|log| - 1]
  }

  function Apply(st: State, e: Event): State {
    match e
    case Append(line) => st.(log := st.log + [line])
    case WriteLast(line) => st.(log := DropLast(st.log) + [line])
    case SetTyping(on) => st.(isTyping := on)
    case SetInput(text) => st.(input := text)
    case Invoke(a) => if a == ClearTerminal then st.(log := []) else st
  }

  /** The state after the events of `trace`, in order. */
  function Run(st: State, trace: seq<Event>): State
    decreases |trace|
  {
    if |trace| == 0 then st else Run(Apply(st, trace[0]), trace[1..])
  }

  /** `typeText(text)`: typing on, each prefix `text[..i]` for `i` from 0 to
      `|text|` written into the last slot, the full text written once more,
      typing off. */
  function TypeText(text: string): (trace: seq<Event>)
    ensures |trace| == |text| + 4
    ensures trace[0] == SetTyping(true) && trace[|trace| - 1] == SetTyping(false)
    ensures forall k :: 0 <= k <= |text| ==> trace[k + 1] == WriteLast(text[..k])
    ensures trace[|text| + 2] == WriteLast(text)
  {
    [SetTyping(true)] + seq(|text| + 1, i requires 0 <= i <= |text| => WriteLast(text[..i]))
      + [WriteLast(text), SetTyping(false)]
  }

  /** `for (const line of output) await typeText(line)`. */
  function RevealAll(lines: seq<string>): seq<Event>
  {
    if |lines| == 0 then [] else RevealAll(lines[..|lines| - 1]) + TypeText(lines[|lines| - 1])
  }

  /** The events that run a found command: its output lines revealed in
      order, then, when it has an action, "Executing action..." revealed and
      the action invoked. */
  function Perform(cmd: Command): seq<Event> {
    RevealAll(cmd.output) +
    (match cmd.action
     case None => []
     case Some(a) => TypeText(ExecutingLine) + [Invoke(a)])
  }

  /** What the interpreter does after the echo for the normalised key `command`. */
  function Respond(reg: map<string, Command>, command: string): seq<Event> {
    if command in reg then Perform(reg[command])
    else TypeText(NotFoundLine(command))
  }

  /** `handleCommand` for a key press `key` while the input buffer holds `input`. */
  function HandleCommand(reg: map<string, Command>, key: string, input: string): seq<Event> {
    if key == "Enter" && Trim(input) != "" then
      var command := Normalise(input);
      [Append("$ " + command), SetInput("")] + Respond(reg, command)
    else
      []
  }

  /** The state once the submission triggered by `key` has run to completion. */
  function Submit(reg: map<string, Command>, st: State, key: string): (r: State)
    ensures key != "Enter" || AllSpace(st.input) ==> r == st
  {
    Run(st, HandleCommand(reg, key, st.input))
  }

  /** The rendering rule: a line starting with `$` is shown as echoed input,
      any other line as produced output after a `>` marker. */
  predicate IsEchoLine(line: string) {
    |line| > 0 && line[0] == '$'
  }

  // ----- reference outcome -------------------------------------------------

  function Last(lines: seq<string>): string
    requires |lines| > 0
  {
    lines[|lines| - 1]
  }

  /** The log a completed submission of `command` leaves, stated without
      events: `clear` empties the log; any other command leaves the old log
      plus ONE line, the last text it typed. */
  function ExpectedLog(reg: map<string, Command>, before: seq<string>, command: string): seq<string> {
    if command in reg then CommandLog(before, command, reg[command])
    else before + [NotFoundLine(command)]
  }

  function CommandLog(before: seq<string>, command: string, cmd: Command): seq<string> {
    if cmd.action == Some(ClearTerminal) then []
    else if cmd.action.Some? then before + [ExecutingLine]
    else if |cmd.output| == 0 then before + ["$ " + command]
    else before + [Last(cmd.output)]
  }

  // ----- lemmas ------------------------------------------------------------

  lemma {:induction false} RunConcat(st: State, a: seq<Event>, b: seq<Event>)
    ensures Run(st, a + b) == Run(Run(st, a), b)
    decreases |a|
  {
    if |a| == 0 {
      assert a + b == b;
    } else {
      assert (a + b)[1..] == a[1..] + b;
      RunConcat(Apply(st, a[0]), a[1..], b);
    }
  }

  lemma RunOne(st: State, e: Event)
    ensures Run(st, [e]) == Apply(st, e)
  {
    assert [e][1..] == [];
  }

  lemma RunSnoc(st: State, a: seq<Event>, e: Event)
    ensures Run(st, a + [e]) == Apply(Run(st, a), e)
  {
    RunConcat(st, a, [e]);
    RunOne(Run(st, a), e);
  }

  /** The reveal of `text`: after the first `k + 2` events the last slot holds
      the prefix `text[..k]` and typing is on; every other entry and the input
      are untouched. Successive frames therefore show `text[..0]`, ...,
      `text[..|text|]` in order. */
  lemma {:induction false} RevealFrame(st: State, text: string, k: nat)
    requires k <= |text|
    ensures Run(st, TypeText(text)[..k + 2])
         == st.(log := DropLast(st.log) + [text[..k]], isTyping := true)
  {
    var tt := TypeText(text);
    if k == 0 {
      assert tt[..2] == [SetTyping(true)] + [WriteLast(text[..0])];
      RunSnoc(st, [SetTyping(true)], WriteLast(text[..0]));
      RunOne(st, SetTyping(true));
    } else {
      RevealFrame(st, text, k - 1);
      assert tt[..k + 2] == tt[..k + 1] + [tt[k + 1]];
      RunSnoc(st, tt[..k + 1], tt[k + 1]);
      var prev := st.(log := DropLast(st.log) + [text[..k - 1]], isTyping := true);
      assert DropLast(prev.log) == DropLast(st.log);
    }
  }

  /** A finished reveal leaves `text` in the last slot and typing off. */
  lemma RevealDone(st: State, text: string)
    ensures Run(st, TypeText(text)) == st.(log := DropLast(st.log) + [text], isTyping := false)
  {
    var tt := TypeText(text);
    var n := |text|;
    var a, b := tt[..n + 2], tt[..n + 3];
    RevealFrame(st, text, n);
    assert text[..n] == text;
    var mid := st.(log := DropLast(st.log) + [text], isTyping := true);
    assert Run(st, a) == mid;
    assert b == a + [WriteLast(text)];
    RunSnoc(st, a, WriteLast(text));
    assert DropLast(mid.log) == DropLast(st.log);
    assert Run(st, b) == mid;
    assert tt == b + [SetTyping(false)];
    RunSnoc(st, b, SetTyping(false));
  }

  /** When the log was non-empty, a reveal keeps its length and every entry
      but the last. */
  lemma RevealKeepsEarlier(st: State, text: string)
    requires |st.log| > 0
    ensures var r := Run(st, TypeText(text));
            |r.log| == |st.log| && r.log[..|r.log| - 1] == st.log[..|st.log| - 1] && r.log[|r.log| - 1] == text
  {
    RevealDone(st, text);
  }

  /** Lines are revealed in order: after the reveals of the first `j + 1`
      lines the last slot holds line `j`, the rest of the log is as before
      the first reveal, and typing is off. */
  lemma {:induction false} RevealAllPrefix(st: State, lines: seq<string>, j: nat)
    requires j < |lines|
    ensures Run(st, RevealAll(lines[..j + 1]))
         == st.(log := DropLast(st.log) + [lines[j]], isTyping := false)
    decreases j
  {
    var init := lines[..j + 1];
    assert init[..j] == lines[..j];
    assert RevealAll(init) == RevealAll(lines[..j]) + TypeText(lines[j]);
    RunConcat(st, RevealAll(lines[..j]), TypeText(lines[j]));
    if j == 0 {
      assert RevealAll(lines[..0]) == [];
      RevealDone(st, lines[0]);
    } else {
      RevealAllPrefix(st, lines, j - 1);
      var mid := st.(log := DropLast(st.log) + [lines[j - 1]], isTyping := false);
      RevealDone(mid, lines[j]);
      assert DropLast(mid.log) == DropLast(st.log);
    }
  }

  /** Revealing no lines changes nothing. */
  lemma RevealAllEmpty(st: State)
    ensures Run(st, RevealAll([])) == st
  {
  }

  /** Revealing a non-empty list of lines leaves the last of them in the
      last slot and typing off. */
  lemma RevealAllDone(s: State, lines: seq<string>)
    requires |lines| > 0
    ensures Run(s, RevealAll(lines)) == s.(log := DropLast(s.log) + [Last(lines)], isTyping := false)
  {
    RevealAllPrefix(s, lines, |lines| - 1);
    assert lines[..|lines|] == lines;
  }

  /** The state after a found command's output lines, before any action. */
  function AfterLines(s: State, cmd: Command): State {
    if |cmd.output| > 0 then s.(log := DropLast(s.log) + [Last(cmd.output)], isTyping := false)
    else s
  }

  lemma LinesOutcome(s: State, cmd: Command)
    ensures Run(s, RevealAll(cmd.output)) == AfterLines(s, cmd)
  {
    if |cmd.output| > 0 {
      RevealAllDone(s, cmd.output);
    }
  }

  /** The action tail: "Executing action..." revealed, then the action. */
  lemma ActionOutcome(s: State, a: Action)
    ensures Run(s, TypeText(ExecutingLine) + [Invoke(a)])
         == if a == ClearTerminal then s.(log := [], isTyping := false)
            else s.(log := DropLast(s.log) + [ExecutingLine], isTyping := false)
  {
    RevealDone(s, ExecutingLine);
    RunSnoc(s, TypeText(ExecutingLine), Invoke(a));
  }

  /** Running a found command after its echo: the log keeps everything
      before the echo and ends with `CommandLog`'s line. */
  lemma PerformOutcome(s: State, command: string, cmd: Command)
    requires |s.log| > 0 && s.log[|s.log| - 1] == "$ " + command
    ensures var r := Run(s, Perform(cmd));
            && r.log == CommandLog(DropLast(s.log), command, cmd)
            && r.input == s.input
            && (r.isTyping <==> (s.isTyping && cmd.output == [] && cmd.action == None))
  {
    var before := DropLast(s.log);
    assert s.log == before + ["$ " + command];
    LinesOutcome(s, cmd);
    var mid := AfterLines(s, cmd);
    assert DropLast(mid.log) == before;
    if cmd.action.Some? {
      var tail := TypeText(ExecutingLine) + [Invoke(cmd.action.value)];
      assert Perform(cmd) == RevealAll(cmd.output) + tail;
      RunConcat(s, RevealAll(cmd.output), tail);
      ActionOutcome(mid, cmd.action.value);
    } else {
      assert Perform(cmd) == RevealAll(cmd.output) + [];
      assert RevealAll(cmd.output) + [] == RevealAll(cmd.output);
    }
  }

  /** Appending a line and clearing the input, ahead of any further events. */
  lemma EchoRun(st: State, echo: string, rest: seq<Event>)
    ensures Run(st, [Append(echo), SetInput("")] + rest)
         == Run(st.(log := st.log + [echo], input := ""), rest)
  {
    RunSnoc(st, [Append(echo)], SetInput(""));
    RunOne(st, Append(echo));
    assert [Append(echo), SetInput("")] == [Append(echo)] + [SetInput("")];
    RunConcat(st, [Append(echo), SetInput("")], rest);
  }

  /** The echo step: `$ key` appended and the input buffer cleared. */
  lemma EchoStep(reg: map<string, Command>, st: State)
    requires !AllSpace(st.input)
    ensures var command := Normalise(st.input);
            var echoed := st.(log := st.log + ["$ " + command], input := "");
            && HandleCommand(reg, "Enter", st.input) == [Append("$ " + command), SetInput("")] + Respond(reg, command)
            && Run(st, HandleCommand(reg, "Enter", st.input)) == Run(echoed, Respond(reg, command))
  {
    var command := Normalise(st.input);
    EnterTrace(reg, st);
    EchoRun(st, "$ " + command, Respond(reg, command));
  }

  lemma EnterTrace(reg: map<string, Command>, st: State)
    requires !AllSpace(st.input)
    ensures HandleCommand(reg, "Enter", st.input)
         == [Append("$ " + Normalise(st.input)), SetInput("")] + Respond(reg, Normalise(st.input))
  {
    assert Trim(st.input) != "";
  }

  /** THE OUTCOME OF A SUBMISSION. An Enter with non-blank input clears the
      input buffer, turns typing off if anything was typed, and leaves the log
      `ExpectedLog`: the `$ key` echo is overwritten by the typed lines, which
      overwrite each other, so one line is added (none for `clear`). */
  lemma SubmitOutcome(reg: map<string, Command>, st: State)
    requires !AllSpace(st.input)
    ensures var command := Normalise(st.input);
            var r := Submit(reg, st, "Enter");
            && r.input == ""
            && r.log == ExpectedLog(reg, st.log, command)
            && (r.isTyping <==> (st.isTyping && command in reg
                                 && reg[command].output == [] && reg[command].action == None))
  {
    var command := Normalise(st.input);
    var echoed := st.(log := st.log + ["$ " + command], input := "");
    EchoStep(reg, st);
    assert DropLast(echoed.log) == st.log;
    if command in reg {
      PerformOutcome(echoed, command, reg[command]);
    } else {
      RevealDone(echoed, NotFoundLine(command));
    }
  }

  /** A command with an action reveals all its output and then
      "Executing action...", and only then invokes the action: the invocation
      is the last event, no other event invokes anything, and the state just
      before it shows the finished "Executing action..." line. */
  lemma ActionRunsOnceAtEnd(reg: map<string, Command>, st: State)
    requires !AllSpace(st.input)
    requires Normalise(st.input) in reg && reg[Normalise(st.input)].action.Some?
    ensures var trace := HandleCommand(reg, "Enter", st.input);
            var a := reg[Normalise(st.input)].action.value;
            && |trace| > 0 && trace[|trace| - 1] == Invoke(a)
            && (forall i :: 0 <= i < |trace| - 1 ==> !trace[i].Invoke?)
            && Run(st, trace[..|trace| - 1]).log == st.log + [ExecutingLine]
            && !Run(st, trace[..|trace| - 1]).isTyping
  {
    var command := Normalise(st.input);
    var cmd := reg[command];
    EchoStep(reg, st);
    ActionTrace(st, command, cmd);
  }

  lemma ActionTrace(st: State, command: string, cmd: Command)
    requires cmd.action.Some?
    ensures var trace := [Append("$ " + command), SetInput("")] + Perform(cmd);
            && |trace| > 0 && trace[|trace| - 1] == Invoke(cmd.action.value)
            && (forall i :: 0 <= i < |trace| - 1 ==> !trace[i].Invoke?)
            && Run(st, trace[..|trace| - 1]).log == st.log + [ExecutingLine]
            && !Run(st, trace[..|trace| - 1]).isTyping
  {
    var a := cmd.action.value;
    var echo := [Append("$ " + command), SetInput("")];
    var trace := echo + Perform(cmd);
    var body := RevealAll(cmd.output) + TypeText(ExecutingLine);
    assert trace == echo + body + [Invoke(a)];
    assert trace[..|trace| - 1] == echo + body;
    NoInvokeInReveals(cmd.output);
    NoInvokeInReveal(ExecutingLine);
    var echoed := st.(log := st.log + ["$ " + command], input := "");
    EchoRun(st, "$ " + command, body);
    RunConcat(echoed, RevealAll(cmd.output), TypeText(ExecutingLine));
    LinesOutcome(echoed, cmd);
    var mid := AfterLines(echoed, cmd);
    assert DropLast(mid.log) == st.log;
    RevealDone(mid, ExecutingLine);
  }

  /** A submission invokes an action exactly when the normalised key names
      a command of the registry that carries one: an unknown key, a blank
      line or a command without an action runs nothing. */
  lemma InvokesIffAction(reg: map<string, Command>, key: string, input: string)
    ensures (exists i :: 0 <= i < |HandleCommand(reg, key, input)| && HandleCommand(reg, key, input)[i].Invoke?)
        <==> key == "Enter" && !AllSpace(input) && Normalise(input) in reg && reg[Normalise(input)].action.Some?
  {
    if key == "Enter" && !AllSpace(input) {
      EnterTrace(reg, State([], input, false));
      EchoedInvokes(reg, Normalise(input));
    } else {
      assert HandleCommand(reg, key, input) == [];
    }
  }

  /** After the echo, an action is invoked exactly when the key names a
      command that carries one. */
  lemma EchoedInvokes(reg: map<string, Command>, command: string)
    ensures var trace := [Append("$ " + command), SetInput("")] + Respond(reg, command);
            (exists i :: 0 <= i < |trace| && trace[i].Invoke?) <==> command in reg && reg[command].action.Some?
  {
    var body := Respond(reg, command);
    var trace := [Append("$ " + command), SetInput("")] + body;
    if command in reg && reg[command].action.Some? {
      assert trace[|trace| - 1] == Invoke(reg[command].action.value);
    } else {
      NoInvokeInResponse(reg, command);
      forall i | 0 <= i < |trace| ensures !trace[i].Invoke? {
        if i >= 2 { assert trace[i] == body[i - 2]; }
      }
    }
  }

  /** The response to an unknown key or to a command without an action
      invokes nothing. */
  lemma NoInvokeInResponse(reg: map<string, Command>, command: string)
    requires command !in reg || reg[command].action.None?
    ensures forall i :: 0 <= i < |Respond(reg, command)| ==> !Respond(reg, command)[i].Invoke?
  {
    if command in reg {
      NoInvokeInReveals(reg[command].output);
      assert Respond(reg, command) == RevealAll(reg[command].output) + [];
    } else {
      NoInvokeInReveal(NotFoundLine(command));
    }
  }

  lemma NoInvokeInReveal(text: string)
    ensures forall i :: 0 <= i < |TypeText(text)| ==> !TypeText(text)[i].Invoke?
  {
    var tt := TypeText(text);
    forall i | 0 <= i < |tt| ensures !tt[i].Invoke? {
      if 1 <= i <= |text| + 1 { assert tt[i] == WriteLast(text[..i - 1]); }
    }
  }

  lemma {:induction false} NoInvokeInReveals(lines: seq<string>)
    ensures forall i :: 0 <= i < |RevealAll(lines)| ==> !RevealAll(lines)[i].Invoke?
  {
    if |lines| > 0 {
      NoInvokeInReveals(lines[..|lines| - 1]);
      NoInvokeInReveal(lines[|lines| - 1]);
    }
  }
}
