/** The container command of a contract step: one shell line whose last argument is itself shell
    text, quoted once more and read by a second shell inside the container. */
module ContainerCommand {
  import opened Text
  import opened ShellQuoting

  /** A step's command is a text, taken as it is, or a list of arguments. */
  datatype Command = Script(text: string) | Arguments(list: seq<string>)

  datatype Step = Step(
    timeoutMinutes: nat,
    network: string,
    pids: nat,
    memory: string,
    cpus: string,
    buildLabel: string,
    source: string,
    workingDirectory: string,
    environment: seq<(string, string)>,
    image: string,
    command: Command)

  function ScriptOf(command: Command): string {
    match command
    case Script(text) => text
    case Arguments(list) => CommandText(list)
  }

  /** `2Gi` becomes `2g` and `512Mi` becomes `512m`; any other unit is refused. */
  function DockerMemoryLimit(value: string): Option<string> {
    if |value| >= 2 && value[|value| - 2..] == "Gi" then Some(value[..|value| - 2] + "g")
    else if |value| >= 2 && value[|value| - 2..] == "Mi" then Some(value[..|value| - 2] + "m")
    else None
  }

  const NEXT_LINE := " \\\n          "

  function B(text: string): Word { Word(" ", [Bare(text)]) }

  function Q(value: string): Word { Word(" ", [Quoted(value)]) }

  function L(text: string): Word { Word(NEXT_LINE, [Bare(text)]) }

  function EnvironmentWords(environment: seq<(string, string)>): seq<Word> {
    if environment == [] then []
    else [B("--env"), Q(environment[0].0 + "=" + environment[0].1)] + EnvironmentWords(environment[1..])
  }

  function TimeoutWords(step: Step): seq<Word> {
    [Word("", [Bare("timeout")]), B("--foreground"), B(Decimal(step.timeoutMinutes) + "m")]
  }

  function RunWords(step: Step): seq<Word> {
    [B("docker"), B("run"), B("--rm"), B("--network"), Q(step.network), B("--cap-drop"), B("ALL"),
     L("--security-opt"), B("no-new-privileges"), B("--pids-limit"), B(Decimal(step.pids))]
  }

  function LimitWords(step: Step, memoryLimit: string): seq<Word> {
    [L("--memory"), Q(memoryLimit), L("--cpus"), Q(step.cpus), L("--user"), Word(" ", [Ids]),
     L("--label"), Q(step.buildLabel), B("--tmpfs"), B("/tmp:rw,noexec,nosuid,size=256m")]
  }

  function MountWords(step: Step): seq<Word> {
    [L("--volume"), Word(" ", [Quoted(step.source), Bare(":/workspace:rw")]),
     L("--workdir"), Q("/workspace/" + step.workingDirectory)]
  }

  /** An empty environment still leaves the blank that precedes it. */
  function ScriptWords(step: Step): seq<Word> {
    [Word(if step.environment == [] then " " + NEXT_LINE else NEXT_LINE, [Quoted(step.image)]),
     B("/bin/sh"), B("-eu"), B("-c"), Q(ScriptOf(step.command))]
  }

  function StepWords(step: Step, memoryLimit: string): seq<Word> {
    TimeoutWords(step) + RunWords(step) + LimitWords(step, memoryLimit) + MountWords(step)
    + EnvironmentWords(step.environment) + ScriptWords(step)
  }

  /** The command line, or nothing when the memory value has no supported unit. */
  function StepLine(step: Step): Option<string> {
    match DockerMemoryLimit(step.memory)
    case None => None
    case Some(limit) => Some(LineText(StepWords(step, limit)))
  }

  // ---------------------------------------------------------------- what the step asks for

  function EnvironmentArguments(environment: seq<(string, string)>): seq<string> {
    if environment == [] then []
    else ["--env", environment[0].0 + "=" + environment[0].1] + EnvironmentArguments(environment[1..])
  }

  /** The argument vector the outer shell must hand to `timeout`. */
  function StepArguments(step: Step, memoryLimit: string, output: string -> string): seq<string> {
    ["timeout", "--foreground", Decimal(step.timeoutMinutes) + "m"]
    + ["docker", "run", "--rm", "--network", step.network, "--cap-drop", "ALL",
       "--security-opt", "no-new-privileges", "--pids-limit", Decimal(step.pids)]
    + ["--memory", memoryLimit, "--cpus", step.cpus, "--user", output("id -u") + ":" + output("id -g"),
       "--label", step.buildLabel, "--tmpfs", "/tmp:rw,noexec,nosuid,size=256m"]
    + ["--volume", step.source + ":/workspace:rw", "--workdir", "/workspace/" + step.workingDirectory]
    + EnvironmentArguments(step.environment)
    + [step.image, "/bin/sh", "-eu", "-c", match step.command case Script(text) => text case Arguments(list) => CommandText(list)]
  }

  // ---------------------------------------------------------------- proofs

  lemma {:induction false} ValuesConcat(a: seq<Word>, b: seq<Word>, output: string -> string)
    ensures Values(a + b, output) == Values(a, output) + Values(b, output)
  {
    if a == [] {
      assert a + b == b;
    } else {
      assert (a + b)[1..] == a[1..] + b;
      ValuesConcat(a[1..], b, output);
    }
  }

  lemma {:induction false} ValuesAt(words: seq<Word>, output: string -> string)
    ensures |Values(words, output)| == |words|
    ensures forall i :: 0 <= i < |words| ==> Values(words, output)[i] == PiecesValue(words[i].pieces, output)
  {
    if words != [] {
      ValuesAt(words[1..], output);
    }
  }

  lemma OnePiece(piece: Piece, output: string -> string)
    ensures PiecesValue([piece], output) == PieceValue(piece, output)
  {
    assert PieceValue(piece, output) + "" == PieceValue(piece, output);
  }

  lemma SimpleValues(words: seq<Word>, values: seq<string>, output: string -> string)
    requires |words| == |values|
    requires forall i :: 0 <= i < |words| ==> |words[i].pieces| == 1 && PieceValue(words[i].pieces[0], output) == values[i]
    ensures Values(words, output) == values
  {
    ValuesAt(words, output);
    forall i | 0 <= i < |words| ensures Values(words, output)[i] == values[i] {
      OnePiece(words[i].pieces[0], output);
      assert words[i].pieces == [words[i].pieces[0]];
    }
  }

  lemma {:induction false} EnvironmentValues(environment: seq<(string, string)>, output: string -> string)
    ensures Values(EnvironmentWords(environment), output) == EnvironmentArguments(environment)
  {
    if environment != [] {
      var two := [B("--env"), Q(environment[0].0 + "=" + environment[0].1)];
      SimpleValues(two, ["--env", environment[0].0 + "=" + environment[0].1], output);
      ValuesConcat(two, EnvironmentWords(environment[1..]), output);
      EnvironmentValues(environment[1..], output);
    }
  }

  lemma FixedValues(step: Step, limit: string, output: string -> string)
    ensures Values(TimeoutWords(step), output) == ["timeout", "--foreground", Decimal(step.timeoutMinutes) + "m"]
    ensures Values(RunWords(step), output) ==
            ["docker", "run", "--rm", "--network", step.network, "--cap-drop", "ALL",
             "--security-opt", "no-new-privileges", "--pids-limit", Decimal(step.pids)]
    ensures Values(LimitWords(step, limit), output) ==
            ["--memory", limit, "--cpus", step.cpus, "--user", output("id -u") + ":" + output("id -g"),
             "--label", step.buildLabel, "--tmpfs", "/tmp:rw,noexec,nosuid,size=256m"]
    ensures Values(ScriptWords(step), output) == [step.image, "/bin/sh", "-eu", "-c", ScriptOf(step.command)]
  {
    SimpleValues(TimeoutWords(step), ["timeout", "--foreground", Decimal(step.timeoutMinutes) + "m"], output);
    SimpleValues(RunWords(step),
                 ["docker", "run", "--rm", "--network", step.network, "--cap-drop", "ALL",
                  "--security-opt", "no-new-privileges", "--pids-limit", Decimal(step.pids)], output);
    SimpleValues(LimitWords(step, limit),
                 ["--memory", limit, "--cpus", step.cpus, "--user", output("id -u") + ":" + output("id -g"),
                  "--label", step.buildLabel, "--tmpfs", "/tmp:rw,noexec,nosuid,size=256m"], output);
    SimpleValues(ScriptWords(step), [step.image, "/bin/sh", "-eu", "-c", ScriptOf(step.command)], output);
  }

  lemma MountValues(step: Step, output: string -> string)
    ensures Values(MountWords(step), output) ==
            ["--volume", step.source + ":/workspace:rw", "--workdir", "/workspace/" + step.workingDirectory]
  {
    ValuesAt(MountWords(step), output);
    OnePiece(Bare("--volume"), output);
    OnePiece(Bare("--workdir"), output);
    OnePiece(Quoted("/workspace/" + step.workingDirectory), output);
    OnePiece(Bare(":/workspace:rw"), output);
    assert [Quoted(step.source), Bare(":/workspace:rw")][1..] == [Bare(":/workspace:rw")];
  }

  lemma StepValues(step: Step, limit: string, output: string -> string)
    ensures Values(StepWords(step, limit), output) == StepArguments(step, limit, output)
  {
    var t, r, l, m, e, s := TimeoutWords(step), RunWords(step), LimitWords(step, limit), MountWords(step),
                            EnvironmentWords(step.environment), ScriptWords(step);
    ValuesConcat(t, r, output);
    ValuesConcat(t + r, l, output);
    ValuesConcat(t + r + l, m, output);
    ValuesConcat(t + r + l + m, e, output);
    ValuesConcat(t + r + l + m + e, s, output);
    FixedValues(step, limit, output);
    MountValues(step, output);
    EnvironmentValues(step.environment, output);
  }

  /** Every word has a separator and readable pieces. */
  predicate AllGood(words: seq<Word>) {
    forall i :: 0 <= i < |words| ==> GoodPieces(words[i].pieces) && IsGap(words[i].gap)
  }

  lemma {:induction false} Spaces(n: nat)
    ensures IsFill(seq(n, i => ' '))
  {
    var s := seq(n, i => ' ');
    if n > 0 {
      Spaces(n - 1);
      assert s[1..] == seq(n - 1, i => ' ');
    }
  }

  lemma GapsGood()
    ensures IsGap(" ") && IsGap(NEXT_LINE) && IsGap(" " + NEXT_LINE)
  {
    var spaces := "          ";
    assert spaces == seq(10, i => ' ');
    Spaces(10);
    var joined := "\\\n" + spaces;
    assert joined[2..] == spaces;
    assert NEXT_LINE[1..] == joined;
    assert (" " + NEXT_LINE)[1..] == NEXT_LINE;
    assert " "[1..] == "";
  }

  lemma DigitsPlain(n: nat, suffix: string)
    requires suffix == "" || suffix == "m"
    ensures GoodPiece(Bare(Decimal(n) + suffix))
  {
  }

  lemma GapsGoodFor(gap: string)
    requires gap == " " || gap == NEXT_LINE || gap == " " + NEXT_LINE
    ensures IsGap(gap)
  {
    GapsGood();
  }

  lemma WordsGood(words: seq<Word>)
    requires forall i :: 0 <= i < |words| ==>
      && words[i].pieces != []
      && (forall j :: 0 <= j < |words[i].pieces| ==> GoodPiece(words[i].pieces[j]))
      && (words[i].gap == " " || words[i].gap == NEXT_LINE || words[i].gap == " " + NEXT_LINE)
    ensures AllGood(words)
  {
    forall i | 0 <= i < |words| ensures IsGap(words[i].gap) {
      GapsGoodFor(words[i].gap);
    }
  }

  lemma RunGood(step: Step)
    ensures AllGood(RunWords(step)[..7])
  {
    assert GoodPiece(Bare("docker")) && GoodPiece(Bare("run")) && GoodPiece(Bare("--rm"));
    assert GoodPiece(Bare("--network")) && GoodPiece(Bare("--cap-drop")) && GoodPiece(Bare("ALL"));
    WordsGood(RunWords(step)[..7]);
  }

  lemma HardeningGood(step: Step)
    ensures AllGood(RunWords(step)[7..])
  {
    assert GoodPiece(Bare("--security-opt")) && GoodPiece(Bare("no-new-privileges")) && GoodPiece(Bare("--pids-limit"));
    DigitsPlain(step.pids, "");
    assert Decimal(step.pids) + "" == Decimal(step.pids);
    WordsGood(RunWords(step)[7..]);
  }

  lemma TmpfsPlain()
    ensures GoodPiece(Bare("/tmp:rw,noexec,nosuid,size=256m"))
  {
  }

  lemma LimitsGood(step: Step, limit: string)
    ensures AllGood(LimitWords(step, limit))
  {
    assert GoodPiece(Bare("--memory")) && GoodPiece(Bare("--cpus")) && GoodPiece(Bare("--user"));
    assert GoodPiece(Bare("--label")) && GoodPiece(Bare("--tmpfs"));
    TmpfsPlain();
    WordsGood(LimitWords(step, limit));
  }

  lemma MountsGood(step: Step)
    ensures AllGood(MountWords(step))
  {
    assert GoodPiece(Bare("--volume")) && GoodPiece(Bare("--workdir"));
    assert GoodPiece(Bare(":/workspace:rw"));
    WordsGood(MountWords(step));
  }

  lemma ScriptGood(step: Step)
    ensures AllGood(ScriptWords(step))
  {
    assert GoodPiece(Bare("/bin/sh")) && GoodPiece(Bare("-eu")) && GoodPiece(Bare("-c"));
    WordsGood(ScriptWords(step));
  }

  lemma EnvironmentPairGood(pair: (string, string))
    ensures AllGood([B("--env"), Q(pair.0 + "=" + pair.1)])
  {
    assert GoodPiece(Bare("--env"));
    WordsGood([B("--env"), Q(pair.0 + "=" + pair.1)]);
  }

  lemma {:induction false} EnvironmentGood(environment: seq<(string, string)>)
    ensures AllGood(EnvironmentWords(environment))
  {
    if environment != [] {
      EnvironmentPairGood(environment[0]);
      EnvironmentGood(environment[1..]);
    }
  }

  lemma TimeoutGood(step: Step)
    ensures GoodLine(TimeoutWords(step), false)
  {
    assert GoodPiece(Bare("timeout"));
    assert GoodPiece(Bare("--foreground"));
    DigitsPlain(step.timeoutMinutes, "m");
    WordsGood(TimeoutWords(step)[1..]);
    assert TimeoutWords(step) == [TimeoutWords(step)[0]] + TimeoutWords(step)[1..];
  }

  lemma GoodAppend(words: seq<Word>, more: seq<Word>)
    requires GoodLine(words, false) && words != [] && AllGood(more)
    ensures GoodLine(words + more, false)
  {
  }

  lemma StepLineGood(step: Step, limit: string)
    ensures GoodLine(StepWords(step, limit), false)
  {
    var t, r, l, m, e, s := TimeoutWords(step), RunWords(step), LimitWords(step, limit), MountWords(step),
                            EnvironmentWords(step.environment), ScriptWords(step);
    TimeoutGood(step);
    RunGood(step);
    HardeningGood(step);
    assert r == r[..7] + r[7..];
    GoodAppend(t, r);
    LimitsGood(step, limit);
    GoodAppend(t + r, l);
    MountsGood(step);
    GoodAppend(t + r + l, m);
    EnvironmentGood(step.environment);
    GoodAppend(t + r + l + m, e);
    ScriptGood(step);
    GoodAppend(t + r + l + m + e, s);
  }

  /** Gibibytes and mebibytes are written in Docker's units, and there is no command line for any other unit. */
  lemma MemoryExactly(step: Step, amount: string)
    ensures step.memory == amount + "Gi" ==> DockerMemoryLimit(step.memory) == Some(amount + "g")
    ensures step.memory == amount + "Mi" ==> DockerMemoryLimit(step.memory) == Some(amount + "m")
    ensures StepLine(step).Some? <==> exists n :: step.memory == n + "Gi" || step.memory == n + "Mi"
  {
    var unit := |step.memory| - 2;
    if unit >= 0 {
      assert step.memory == step.memory[..unit] + step.memory[unit..];
    }
    if step.memory == amount + "Gi" || step.memory == amount + "Mi" {
      assert step.memory[..unit] == amount;
    }
    if n :| step.memory == n + "Gi" || step.memory == n + "Mi" {
      assert step.memory[|n|..] == "Gi" || step.memory[|n|..] == "Mi";
    }
  }

  /** The outer shell reads the line as exactly the arguments the step asks for, whatever quotes,
      blanks or newlines its values hold. */
  lemma OuterShellReadsStep(step: Step, amount: string, output: string -> string)
    requires step.memory == amount + "Gi" || step.memory == amount + "Mi"
    ensures StepLine(step).Some?
    ensures Words(StepLine(step).value, output) ==
            Some(StepArguments(step, amount + if step.memory == amount + "Gi" then "g" else "m", output))
  {
    MemoryExactly(step, amount);
    var limit := DockerMemoryLimit(step.memory).value;
    StepLineGood(step, limit);
    LexLine(StepWords(step, limit), "", false, output);
    StepValues(step, limit, output);
  }

  /** Both levels together: the last word of the outer line, read by the shell inside the
      container, is the step's own argument list. */
  lemma NestedQuotingRoundTrip(step: Step, outer: string -> string, inner: string -> string)
    requires StepLine(step).Some? && step.command.Arguments?
    ensures var words := Words(StepLine(step).value, outer);
            && words.Some? && |words.value| >= 5
            && words.value[|words.value| - 4..|words.value| - 1] == ["/bin/sh", "-eu", "-c"]
            && Words(words.value[|words.value| - 1], inner) == Some(step.command.list)
  {
    MemoryExactly(step, "");
    var amount :| step.memory == amount + "Gi" || step.memory == amount + "Mi";
    OuterShellReadsStep(step, amount, outer);
    CommandRoundTrip(step.command.list, inner);
  }
}
