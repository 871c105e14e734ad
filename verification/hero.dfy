/**
  The hero section's own command table and what the interpreter does with
  it, including the inherited-property lookup of the code as written.
 */
module Hero {
  import opened Options
  import opened Text
  import opened Terminal

  /** The `commands` object, keyed by the exact normalised input. */
  const Registry: map<string, Command> := map[
    "whoami" := Command(["Ramish Bin Siddique",
                         "Full-Stack Developer | Passionate about building scalable web solutions"], None),
    "pwd" := Command(["/home/ramish/portfolio", "Crafting innovative digital experiences"], None),
    "cat skills.txt" := Command(["Tech Stack:",
                                 "React.js, Node.js, MongoDB, Express.js, Tailwind CSS, Next.js, Three.js"], None),
    "resume" := Command(["Initiating resume download..."], Some(DownloadResume)),
    "clear" := Command([], Some(ClearTerminal)),
    "help" := Command(["Available commands:",
                       "whoami - Display my identity",
                       "pwd - Show current project context",
                       "cat skills.txt - List my tech stack",
                       "resume - Download my resume",
                       "clear - Clear the terminal",
                       "connect - Show social links"], None),
    "connect" := Command(["Connect with me:",
                          "GitHub: https://github.com/ramishbinsiddique15",
                          "LinkedIn: https://www.linkedin.com/in/ramish15/",
                          "Twitter: https://twitter.com/ramishbinsiddique"], None)
  ]

  /** The seven commands, each one whole key: `cat skills.txt` is a single
      name, not a command with an argument. */
  lemma RegistryKeys()
    ensures Registry.Keys == {"whoami", "pwd", "cat skills.txt", "resume", "clear", "help", "connect"}
    ensures "cat" !in Registry && "skills.txt" !in Registry
  {
  }

  /** Mixed case and surrounding blanks are normalised away before lookup. */
  lemma HelpMixedCase(input: string)
    requires input == "  HELP "
    ensures Normalise(input) == "help"
    ensures "help" in Registry
  {
    TrimHelp(input);
    LowerHelp("HELP");
  }

  lemma TrimHelp(input: string)
    requires input == "  HELP "
    ensures Trim(input) == "HELP"
  {
    assert input == "  " + "HELP" + " ";
    TrimPadded("  ", "HELP", " ");
  }

  lemma LowerHelp(s: string)
    requires s == "HELP"
    ensures Lower(s) == "help"
  {
  }

  lemma NormaliseFooBar(input: string)
    requires input == "FooBar"
    ensures Normalise(input) == "foobar"
  {
    TrimUnpadded(input);
  }

  /** Every command without an action prints something, so a completed
      submission always turns typing off. */
  lemma SilentCommandsHaveActions()
    ensures forall c :: c in Registry && Registry[c].action == None ==> |Registry[c].output| > 0
  {
  }

  /** The `$ key` echo renders as input; the not-found and executing lines
      render as produced output. */
  lemma LineKinds(command: string)
    ensures IsEchoLine("$ " + command)
    ensures !IsEchoLine(NotFoundLine(command))
    ensures !IsEchoLine(ExecutingLine)
  {
  }

  /** A found command without an action leaves the old log plus its last
      output line, with typing off. */
  lemma QuietOutcome(reg: map<string, Command>, st: State)
    requires !AllSpace(st.input)
    requires Normalise(st.input) in reg
    requires reg[Normalise(st.input)].action == None && |reg[Normalise(st.input)].output| > 0
    ensures Submit(reg, st, "Enter") == State(st.log + [Last(reg[Normalise(st.input)].output)], "", false)
    ensures forall i :: 0 <= i < |HandleCommand(reg, "Enter", st.input)| ==> !HandleCommand(reg, "Enter", st.input)[i].Invoke?
  {
    SubmitOutcome(reg, st);
    InvokesIffAction(reg, "Enter", st.input);
  }

  /** A command clearing the terminal leaves an empty log. */
  lemma ClearOutcome(reg: map<string, Command>, st: State)
    requires !AllSpace(st.input)
    requires Normalise(st.input) in reg && reg[Normalise(st.input)].action == Some(ClearTerminal)
    ensures Submit(reg, st, "Enter") == State([], "", false)
  {
    SubmitOutcome(reg, st);
  }

  lemma WhoamiKey(key: string)
    requires key == "whoami"
    ensures key in Registry && Registry[key].action == None && |Registry[key].output| > 0
    ensures Last(Registry[key].output) == "Full-Stack Developer | Passionate about building scalable web solutions"
  {
  }

  lemma ClearKey(key: string)
    requires key == "clear"
    ensures key in Registry && Registry[key].action == Some(ClearTerminal)
  {
  }

  lemma ResumeKey(key: string)
    requires key == "resume"
    ensures key in Registry && Registry[key].action == Some(DownloadResume)
  {
  }

  /** Submitting `whoami` leaves the old log plus only its last line. */
  lemma WhoamiScenario(st: State)
    requires Normalise(st.input) == "whoami"
    ensures Submit(Registry, st, "Enter")
         == State(st.log + ["Full-Stack Developer | Passionate about building scalable web solutions"], "", false)
  {
    WhoamiKey(Normalise(st.input));
    QuietOutcome(Registry, st);
  }

  /** Any key outside the table leaves the old log plus the error line. */
  lemma NotFoundOutcome(reg: map<string, Command>, st: State)
    requires !AllSpace(st.input) && Normalise(st.input) !in reg
    ensures Submit(reg, st, "Enter") == State(st.log + [NotFoundLine(Normalise(st.input))], "", false)
    ensures forall i :: 0 <= i < |HandleCommand(reg, "Enter", st.input)| ==> !HandleCommand(reg, "Enter", st.input)[i].Invoke?
  {
    SubmitOutcome(reg, st);
    InvokesIffAction(reg, "Enter", st.input);
  }

  lemma FooBarUnknown(key: string)
    requires key == "foobar"
    ensures key !in Registry
    ensures NotFoundLine(key) == "bash: foobar: command not found"
  {
    FooBarLine(key);
  }

  lemma FooBarLine(key: string)
    requires key == "foobar"
    ensures NotFoundLine(key) == "bash: foobar: command not found"
  {
  }

  /** An unknown command leaves the single shell-style error line, built from
      the normalised key rather than the raw input. */
  lemma UnknownScenario(st: State)
    requires st.input == "FooBar"
    ensures Submit(Registry, st, "Enter") == State(st.log + ["bash: foobar: command not found"], "", false)
  {
    NormaliseFooBar(st.input);
    FooBarUnknown(Normalise(st.input));
    NotFoundOutcome(Registry, st);
  }

  /** `clear` empties the log whatever it held, so a second `clear` on the
      emptied log changes nothing. */
  lemma ClearEmpties(st: State)
    requires Normalise(st.input) == "clear"
    ensures Submit(Registry, st, "Enter") == State([], "", false)
    ensures Submit(Registry, st.(log := []), "Enter") == State([], "", false)
  {
    ClearKey(Normalise(st.input));
    ClearOutcome(Registry, st);
    ClearOutcome(Registry, st.(log := []));
  }

  /** `resume` reveals its line and "Executing action...", and only then
      starts the download, exactly once. */
  lemma ResumeScenario(reg: map<string, Command>, st: State)
    requires reg == Registry && Normalise(st.input) == "resume"
    ensures var trace := HandleCommand(reg, "Enter", st.input);
            && |trace| > 0 && trace[|trace| - 1] == Invoke(DownloadResume)
            && (forall i :: 0 <= i < |trace| - 1 ==> !trace[i].Invoke?)
            && Run(st, trace[..|trace| - 1]).log == st.log + [ExecutingLine]
  {
    ResumeKey(Normalise(st.input));
    ActionRunsOnceAtEnd(reg, st);
  }

  // ----- the lookup as written ---------------------------------------------

  /** The names `commands[command]` also finds on a plain object literal:
      the properties inherited from `Object.prototype` spelt in lower case,
      the only ones a normalised key can match. */
  const InheritedKeys: set<string> := {"constructor", "__proto__"}

  /** `handleCommand` as written: an inherited property is truthy, so the
      found branch runs and `for (const line of cmd.output)` throws on the
      missing `output`; nothing after the echo happens. */
  function HandleCommandAsWritten(reg: map<string, Command>, key: string, input: string): seq<Event> {
    if key == "Enter" && Trim(input) != "" then
      var command := Normalise(input);
      [Append("$ " + command), SetInput("")] +
      (if command in reg then Perform(reg[command])
       else if command in InheritedKeys then []
       else TypeText(NotFoundLine(command)))
    else []
  }

  /** As written, an inherited name leaves only its echo in the log. */
  lemma InheritedEchoOnly(reg: map<string, Command>, st: State)
    requires !AllSpace(st.input)
    requires Normalise(st.input) in InheritedKeys && Normalise(st.input) !in reg
    ensures Run(st, HandleCommandAsWritten(reg, "Enter", st.input))
         == st.(log := st.log + ["$ " + Normalise(st.input)], input := "")
  {
    var command := Normalise(st.input);
    assert HandleCommandAsWritten(reg, "Enter", st.input) == [Append("$ " + command), SetInput("")] + [];
    EchoRun(st, "$ " + command, []);
  }

  lemma ConstructorKey(key: string)
    requires key == "constructor"
    ensures key !in Registry && key in InheritedKeys
    ensures "$ " + key == "$ constructor"
    ensures NotFoundLine(key) == "bash: constructor: command not found"
  {
    ConstructorLines(key);
  }

  lemma ConstructorLines(key: string)
    requires key == "constructor"
    ensures "$ " + key == "$ constructor"
    ensures NotFoundLine(key) == "bash: constructor: command not found"
  {
  }

  /** Typing `constructor`: as written the echo stays and no message
      follows; with the own-key lookup of `Terminal.HandleCommand` the
      command is reported as not found. */
  lemma InheritedKeyFinding(st: State)
    requires Normalise(st.input) == "constructor"
    ensures Run(st, HandleCommandAsWritten(Registry, "Enter", st.input))
         == st.(log := st.log + ["$ constructor"], input := "")
    ensures Submit(Registry, st, "Enter")
         == State(st.log + ["bash: constructor: command not found"], "", false)
  {
    ConstructorKey(Normalise(st.input));
    InheritedEchoOnly(Registry, st);
    NotFoundOutcome(Registry, st);
  }

  /** The two lookups agree on every key that is not an inherited name. */
  lemma AsWrittenAgreesElsewhere(reg: map<string, Command>, key: string, input: string)
    requires Normalise(input) !in InheritedKeys
    ensures HandleCommandAsWritten(reg, key, input) == HandleCommand(reg, key, input)
  {
  }
}
