// The shell lists that the Bash tool accepts: parsing, and running with
// short-circuit operators
// (src/mission_orchestrator/adapters/tools/bash_policy.py, bash_executor.py).
module ShellList {
  import opened Workplan

  const PIPE := "|"
  const AND_IF := "&&"
  const OR_IF := "||"

  // A pipeline and the operator in front of it, "" for the first.
  datatype CommandPipeline = CommandPipeline(operator: string, commands: seq<seq<string>>)

  datatype ParseResult = Parsed(pipelines: seq<CommandPipeline>) | EmptySegment

  predicate IsOperator(token: string) {
    token == PIPE || token == AND_IF || token == OR_IF
  }

  predicate Words(segment: seq<string>) {
    forall t | t in segment :: !IsOperator(t)
  }

  // ----- what a token list means -----

  predicate GoodCommands(commands: seq<seq<string>>) {
    commands != [] && forall c | c in commands :: c != [] && Words(c)
  }

  predicate GoodRest(ps: seq<CommandPipeline>) {
    forall p | p in ps :: (p.operator == AND_IF || p.operator == OR_IF) && GoodCommands(p.commands)
  }

  predicate WellFormed(ps: seq<CommandPipeline>) {
    ps != [] && ps[0].operator == "" && GoodCommands(ps[0].commands) && GoodRest(ps[1..])
  }

  function OperatorTokens(operator: string): seq<string> {
    if operator == "" then [] else [operator]
  }

  function Joined(commands: seq<seq<string>>): seq<string> {
    if commands == [] then []
    else if |commands| == 1 then commands[0]
    else commands[0] + [PIPE] + Joined(commands[1..])
  }

  function Flatten(ps: seq<CommandPipeline>): seq<string> {
    if ps == [] then [] else OperatorTokens(ps[0].operator) + Joined(ps[0].commands) + Flatten(ps[1..])
  }

  // Two operators side by side, or one at an end: an empty segment before
  // position k.
  predicate EmptyAt(tokens: seq<string>, k: nat)
    requires k <= |tokens|
  {
    (k == 0 || IsOperator(tokens[k - 1])) && (k == |tokens| || IsOperator(tokens[k]))
  }

  predicate HasEmptySegment(tokens: seq<string>) {
    exists k | 0 <= k <= |tokens| :: EmptyAt(tokens, k)
  }

  // ----- a token list has at most one reading -----

  // What is left when the first command is taken off; the next stage of the
  // same pipeline then counts as a pipeline behind the operator |.
  function Tail(ps: seq<CommandPipeline>): seq<CommandPipeline>
    requires ps != [] && ps[0].commands != []
  {
    if |ps[0].commands| == 1 then ps[1..] else [CommandPipeline(PIPE, ps[0].commands[1..])] + ps[1..]
  }

  predicate Readable(ps: seq<CommandPipeline>) {
    ps != [] ==> GoodCommands(ps[0].commands) && GoodRest(ps[1..]) && (ps[0].operator == "" || IsOperator(ps[0].operator))
  }

  lemma TailReadable(ps: seq<CommandPipeline>)
    requires ps != [] && Readable(ps)
    ensures Readable(Tail(ps)) && (Tail(ps) != [] ==> IsOperator(Tail(ps)[0].operator))
    ensures |ps[0].commands| > 1 <==> Tail(ps) != [] && Tail(ps)[0].operator == PIPE
  {
    var cs := ps[0].commands;
    if |cs| == 1 {
      if ps[1..] != [] { assert ps[1..][0] in ps[1..]; }
    } else {
      assert Tail(ps)[1..] == ps[1..];
      assert forall c | c in cs[1..] :: c in cs;
    }
  }

  lemma FirstCommand(ps: seq<CommandPipeline>)
    requires ps != [] && ps[0].commands != []
    ensures Flatten(ps) == OperatorTokens(ps[0].operator) + ps[0].commands[0] + Flatten(Tail(ps))
  {
    var cs := ps[0].commands;
    if |cs| > 1 {
      FlattenOpen(cs[1..], ps[1..]);
      Regroup(OperatorTokens(ps[0].operator), cs[0], [PIPE], Joined(cs[1..]), Flatten(ps[1..]));
    }
  }

  lemma FlattenOpen(commands: seq<seq<string>>, rest: seq<CommandPipeline>)
    ensures Flatten([CommandPipeline(PIPE, commands)] + rest) == [PIPE] + Joined(commands) + Flatten(rest)
  {
    assert ([CommandPipeline(PIPE, commands)] + rest)[1..] == rest;
  }

  lemma Regroup<T>(a: seq<T>, b: seq<T>, c: seq<T>, d: seq<T>, e: seq<T>)
    ensures a + (b + c + d) + e == a + b + (c + d + e)
  {
  }

  lemma FlattenStarts(ps: seq<CommandPipeline>)
    requires Readable(ps)
    ensures ps == [] <==> Flatten(ps) == []
    ensures ps != [] && ps[0].operator != "" ==> Flatten(ps)[0] == ps[0].operator
    ensures ps != [] && ps[0].operator == "" ==> !IsOperator(Flatten(ps)[0])
  {
    if ps != [] {
      FirstCommand(ps);
      assert ps[0].commands[0] in ps[0].commands;
      assert ps[0].commands[0][0] in ps[0].commands[0];
    }
  }

  // How many words there are before the first operator.
  function WordCount(tokens: seq<string>): nat {
    if tokens == [] || IsOperator(tokens[0]) then 0 else 1 + WordCount(tokens[1..])
  }

  lemma {:induction false} WordsEndAtOperator(words: seq<string>, rest: seq<string>)
    requires Words(words) && (rest == [] || IsOperator(rest[0]))
    ensures WordCount(words + rest) == |words|
  {
    if words == [] {
      assert words + rest == rest;
    } else {
      assert words[0] in words;
      assert (words + rest)[1..] == words[1..] + rest;
      WordsEndAtOperator(words[1..], rest);
    }
  }

  lemma SameSplit(a: seq<string>, x: seq<string>, b: seq<string>, y: seq<string>)
    requires Words(a) && Words(b) && a + x == b + y
    requires (x == [] || IsOperator(x[0])) && (y == [] || IsOperator(y[0]))
    ensures a == b && x == y
  {
    WordsEndAtOperator(a, x);
    WordsEndAtOperator(b, y);
    assert (a + x)[..|a|] == a && (b + y)[..|b|] == b;
    assert (a + x)[|a|..] == x && (b + y)[|b|..] == y;
  }

  lemma {:induction false} FlattenInjective(ps: seq<CommandPipeline>, qs: seq<CommandPipeline>)
    requires Readable(ps) && Readable(qs) && Flatten(ps) == Flatten(qs)
    ensures ps == qs
    decreases |Flatten(ps)|
  {
    FlattenStarts(ps);
    FlattenStarts(qs);
    if ps != [] {
      assert ps[0].operator == qs[0].operator;
      SameFirst(ps, qs);
      TailReadable(ps);
      TailReadable(qs);
      FlattenInjective(Tail(ps), Tail(qs));
      SameTailSame(ps, qs);
    }
  }

  lemma FirstTaken(ps: seq<CommandPipeline>)
    requires ps != [] && Readable(ps)
    ensures var skip, c, rest := |OperatorTokens(ps[0].operator)|, ps[0].commands[0], Flatten(Tail(ps));
            && skip <= |Flatten(ps)| && Flatten(ps)[skip..] == c + rest
            && c != [] && Words(c) && (rest == [] || IsOperator(rest[0]))
  {
    FirstCommand(ps);
    TailReadable(ps);
    FlattenStarts(Tail(ps));
    assert ps[0].commands[0] in ps[0].commands;
    FrontDropped(OperatorTokens(ps[0].operator), ps[0].commands[0], Flatten(Tail(ps)));
  }

  lemma FrontDropped<T>(a: seq<T>, b: seq<T>, c: seq<T>)
    ensures (a + b + c)[|a|..] == b + c
  {
  }

  lemma SameFirst(ps: seq<CommandPipeline>, qs: seq<CommandPipeline>)
    requires ps != [] && qs != [] && Readable(ps) && Readable(qs)
    requires ps[0].operator == qs[0].operator && Flatten(ps) == Flatten(qs)
    ensures ps[0].commands[0] == qs[0].commands[0] && Flatten(Tail(ps)) == Flatten(Tail(qs))
    ensures |Flatten(Tail(ps))| < |Flatten(ps)|
  {
    FirstTaken(ps);
    FirstTaken(qs);
    SameSplit(ps[0].commands[0], Flatten(Tail(ps)), qs[0].commands[0], Flatten(Tail(qs)));
  }

  lemma SameTailSame(ps: seq<CommandPipeline>, qs: seq<CommandPipeline>)
    requires ps != [] && qs != [] && Readable(ps) && Readable(qs)
    requires ps[0].operator == qs[0].operator && ps[0].commands[0] == qs[0].commands[0] && Tail(ps) == Tail(qs)
    ensures ps == qs
  {
    var cs, ds := ps[0].commands, qs[0].commands;
    TailReadable(ps);
    TailReadable(qs);
    assert ps == [ps[0]] + ps[1..] && qs == [qs[0]] + qs[1..];
    assert cs == [cs[0]] + cs[1..] && ds == [ds[0]] + ds[1..];
    if |cs| > 1 {
      assert Tail(ps)[1..] == ps[1..] && Tail(qs)[1..] == qs[1..];
      assert cs[1..] == ds[1..];
    } else {
      assert cs == [cs[0]] && ds == [ds[0]];
    }
  }

  lemma {:induction false} FlattenHasNoEmptySegment(ps: seq<CommandPipeline>, k: nat)
    requires ps != [] && Readable(ps) && k <= |Flatten(ps)| && (ps[0].operator == "" || k > 0)
    ensures !EmptyAt(Flatten(ps), k)
    decreases |Flatten(ps)|
  {
    FirstCommand(ps);
    TailReadable(ps);
    var c, rest := ps[0].commands[0], Flatten(Tail(ps));
    assert c in ps[0].commands;
    var skip := |OperatorTokens(ps[0].operator)|;
    var tokens := Flatten(ps);
    if k <= skip + |c| {
      if k > skip {
        assert tokens[k - 1] == c[k - 1 - skip] && c[k - 1 - skip] in c;
      } else {
        assert tokens[k] == c[k - skip] && c[k - skip] in c;
      }
    } else {
      var j := k - skip - |c|;
      FlattenStarts(Tail(ps));
      FlattenHasNoEmptySegment(Tail(ps), j);
      assert tokens[k - 1] == rest[j - 1] && (k < |tokens| ==> tokens[k] == rest[j]);
    }
  }

  // ----- the parser -----

  // What the four variables of the parser stand for.
  function Spelled(pipelines: seq<CommandPipeline>, operator: string, commands: seq<seq<string>>, current: seq<string>): seq<string> {
    Flatten(pipelines) + OperatorTokens(operator) + Opened(commands) + current
  }

  function Opened(commands: seq<seq<string>>): seq<string> {
    if commands == [] then [] else Opened(commands[..|commands| - 1]) + commands[|commands| - 1] + [PIPE]
  }

  lemma {:induction false} OpenedJoined(commands: seq<seq<string>>, last: seq<string>)
    ensures Opened(commands) + last == Joined(commands + [last])
  {
    if commands == [] {
      assert Opened(commands) + last == last;
    } else {
      OpenedFront(commands);
      OpenedJoined(commands[1..], last);
      var all := commands + [last];
      assert all[0] == commands[0] && all[1..] == commands[1..] + [last];
      assert Opened(commands) + last == commands[0] + [PIPE] + (Opened(commands[1..]) + last);
    }
  }

  lemma {:induction false} OpenedFront(commands: seq<seq<string>>)
    requires commands != []
    ensures Opened(commands) == commands[0] + [PIPE] + Opened(commands[1..])
  {
    var n := |commands| - 1;
    if n > 0 {
      OpenedFront(commands[..n]);
      assert commands[..n][1..] == commands[1..][..n - 1];
      assert commands[1..][..|commands[1..]| - 1] == commands[1..][..n - 1];
      assert Opened(commands) == commands[0] + [PIPE] + (Opened(commands[1..][..n - 1]) + commands[n] + [PIPE]);
    } else {
      assert commands[..0] == [] && commands[1..] == [];
    }
  }

  lemma Associates<T>(a: seq<T>, b: seq<T>, c: seq<T>)
    ensures a + (b + c) == a + b + c
  {
  }

  lemma {:induction false} FlattenConcat(ps: seq<CommandPipeline>, p: CommandPipeline)
    ensures Flatten(ps + [p]) == Flatten(ps) + (OperatorTokens(p.operator) + Joined(p.commands))
  {
    if ps == [] {
      assert ps + [p] == [p] && [p][1..] == [];
    } else {
      FlattenConcat(ps[1..], p);
      assert (ps + [p])[1..] == ps[1..] + [p];
      Associates(OperatorTokens(ps[0].operator) + Joined(ps[0].commands), Flatten(ps[1..]), OperatorTokens(p.operator) + Joined(p.commands));
    }
  }

  // The pipelines so far and the operator in front of the next one.
  predicate Begun(pipelines: seq<CommandPipeline>, operator: string) {
    if pipelines == [] then operator == "" else WellFormed(pipelines) && (operator == AND_IF || operator == OR_IF)
  }

  // Closing the pipeline that `commands` and `last` make.
  lemma PipelineClosed(pipelines: seq<CommandPipeline>, operator: string, commands: seq<seq<string>>, last: seq<string>)
    requires Begun(pipelines, operator) && last != [] && Words(last) && (commands != [] ==> GoodCommands(commands))
    ensures var more := pipelines + [CommandPipeline(operator, commands + [last])];
            WellFormed(more) && Flatten(more) == Spelled(pipelines, operator, commands, last)
  {
    var p := CommandPipeline(operator, commands + [last]);
    OpenedJoined(commands, last);
    FlattenConcat(pipelines, p);
    if pipelines != [] {
      assert (pipelines + [p])[1..] == pipelines[1..] + [p];
    } else {
      assert (pipelines + [p])[1..] == [];
    }
  }

  lemma EmptySegmentHasNoReading(tokens: seq<string>, k: nat)
    requires k <= |tokens| && EmptyAt(tokens, k)
    ensures HasEmptySegment(tokens) && forall ps | WellFormed(ps) :: Flatten(ps) != tokens
  {
    forall ps | WellFormed(ps) ensures Flatten(ps) != tokens {
      if k <= |Flatten(ps)| { FlattenHasNoEmptySegment(ps, k); }
    }
  }

  lemma OnlyReading(ps: seq<CommandPipeline>)
    requires WellFormed(ps)
    ensures forall qs | WellFormed(qs) && Flatten(qs) == Flatten(ps) :: qs == ps
  {
    forall qs | WellFormed(qs) && Flatten(qs) == Flatten(ps) ensures qs == ps {
      FlattenInjective(qs, ps);
    }
  }

  // Where the parser stands before the token at position i.
  ghost predicate At(tokens: seq<string>, i: nat, pipelines: seq<CommandPipeline>, operator: string,
                     commands: seq<seq<string>>, current: seq<string>)
    requires i <= |tokens|
  {
    && Begun(pipelines, operator) && (commands != [] ==> GoodCommands(commands)) && Words(current)
    && tokens[..i] == Spelled(pipelines, operator, commands, current)
    && (current == [] <==> i == 0 || IsOperator(tokens[i - 1]))
    && forall k :: 0 <= k < i ==> !EmptyAt(tokens, k)
  }

  lemma AtPipe(tokens: seq<string>, i: nat, pipelines: seq<CommandPipeline>, operator: string,
               commands: seq<seq<string>>, current: seq<string>)
    requires i < |tokens| && At(tokens, i, pipelines, operator, commands, current) && current != [] && tokens[i] == PIPE
    ensures At(tokens, i + 1, pipelines, operator, commands + [current], [])
  {
    CommandClosed(pipelines, operator, commands, current);
    assert tokens[..i + 1] == tokens[..i] + [PIPE];
  }

  lemma AtControl(tokens: seq<string>, i: nat, pipelines: seq<CommandPipeline>, operator: string,
                  commands: seq<seq<string>>, current: seq<string>)
    requires i < |tokens| && At(tokens, i, pipelines, operator, commands, current) && current != []
    requires tokens[i] == AND_IF || tokens[i] == OR_IF
    ensures At(tokens, i + 1, pipelines + [CommandPipeline(operator, commands + [current])], tokens[i], [], [])
  {
    PipelineClosed(pipelines, operator, commands, current);
    var more := pipelines + [CommandPipeline(operator, commands + [current])];
    assert tokens[..i + 1] == tokens[..i] + [tokens[i]];
    SpelledAnew(more, tokens[i]);
  }

  lemma SpelledAnew(pipelines: seq<CommandPipeline>, operator: string)
    requires operator != ""
    ensures Spelled(pipelines, operator, [], []) == Flatten(pipelines) + [operator]
  {
    assert Flatten(pipelines) + [operator] + [] + [] == Flatten(pipelines) + [operator];
  }

  lemma AtWord(tokens: seq<string>, i: nat, pipelines: seq<CommandPipeline>, operator: string,
               commands: seq<seq<string>>, current: seq<string>)
    requires i < |tokens| && At(tokens, i, pipelines, operator, commands, current) && !IsOperator(tokens[i])
    ensures At(tokens, i + 1, pipelines, operator, commands, current + [tokens[i]])
  {
    assert tokens[..i + 1] == tokens[..i] + [tokens[i]];
  }

  lemma AtEnd(tokens: seq<string>, pipelines: seq<CommandPipeline>, operator: string,
              commands: seq<seq<string>>, current: seq<string>)
    requires At(tokens, |tokens|, pipelines, operator, commands, current) && current != []
    ensures var ps := pipelines + [CommandPipeline(operator, commands + [current])];
            && WellFormed(ps) && Flatten(ps) == tokens && !HasEmptySegment(tokens)
            && forall qs | WellFormed(qs) && Flatten(qs) == tokens :: qs == ps
  {
    assert tokens[..|tokens|] == tokens;
    PipelineClosed(pipelines, operator, commands, current);
    OnlyReading(pipelines + [CommandPipeline(operator, commands + [current])]);
  }

  // A list of tokens is accepted exactly when it has no empty segment; the
  // result spells the tokens, and it is the only well-formed one that does.
  method Parse(tokens: seq<string>) returns (r: ParseResult)
    ensures r.EmptySegment? <==> HasEmptySegment(tokens)
    ensures r.Parsed? ==> WellFormed(r.pipelines) && Flatten(r.pipelines) == tokens
    ensures forall ps | WellFormed(ps) && Flatten(ps) == tokens :: r == Parsed(ps)
  {
    var pipelines: seq<CommandPipeline>, commands: seq<seq<string>>, current: seq<string>, operator := [], [], [], "";
    for i := 0 to |tokens|
      invariant At(tokens, i, pipelines, operator, commands, current)
    {
      var token := tokens[i];
      if token == PIPE {
        if current == [] {
          EmptySegmentHasNoReading(tokens, i);
          return EmptySegment;
        }
        AtPipe(tokens, i, pipelines, operator, commands, current);
        commands, current := commands + [current], [];
      } else if token == AND_IF || token == OR_IF {
        if current == [] {
          EmptySegmentHasNoReading(tokens, i);
          return EmptySegment;
        }
        AtControl(tokens, i, pipelines, operator, commands, current);
        pipelines := pipelines + [CommandPipeline(operator, commands + [current])];
        commands, current, operator := [], [], token;
      } else {
        AtWord(tokens, i, pipelines, operator, commands, current);
        current := current + [token];
      }
    }
    if current == [] {
      EmptySegmentHasNoReading(tokens, |tokens|);
      return EmptySegment;
    }
    AtEnd(tokens, pipelines, operator, commands, current);
    return Parsed(pipelines + [CommandPipeline(operator, commands + [current])]);
  }

  lemma CommandClosed(pipelines: seq<CommandPipeline>, operator: string, commands: seq<seq<string>>, current: seq<string>)
    ensures Spelled(pipelines, operator, commands + [current], []) == Spelled(pipelines, operator, commands, current) + [PIPE]
  {
    assert (commands + [current])[..|commands|] == commands;
  }

  // ----- running -----

  datatype CommandResult = CommandResult(stdout: string, stderr: string, returncode: int, cwd: Option<string>)

  // A command may change the world and may run out of time.
  datatype Outcome<W> = Ended(result: CommandResult, world: W) | TimedOut(world: W)

  type Runner<!W> = (seq<string>, string, string, W) -> Outcome<W>

  // The stages of a pipeline: where each one starts, what those that end come
  // to, and what is left behind.
  datatype Trace<W> = Trace(starts: seq<string>, results: seq<CommandResult>, cwd: string, world: W, timedOut: bool)

  // The trace with one more stage in front.
  function Behind<W>(start: string, r: CommandResult, t: Trace<W>): Trace<W> {
    t.(starts := [start] + t.starts, results := [r] + t.results)
  }

  // The directory that a command leaves its shell in.
  function Whereto(r: CommandResult, cwd: string): string {
    if r.cwd.Some? then r.cwd.value else cwd
  }

  // Each stage reads the output of the one before and starts where that one
  // ended up; a stage that fails is the last to run.
  function Stages<W>(run: Runner<W>, commands: seq<seq<string>>, stdin: string, cwd: string, world: W): Trace<W> {
    if commands == [] then Trace([], [], cwd, world, false)
    else
      match run(commands[0], stdin, cwd, world)
      case TimedOut(after) => Trace([cwd], [], cwd, after, true)
      case Ended(r, after) =>
        if r.returncode != 0 then Trace([cwd], [r], Whereto(r, cwd), after, false)
        else Behind(cwd, r, Stages(run, commands[1..], r.stdout, Whereto(r, cwd), after))
  }

  function Errors(results: seq<CommandResult>): string {
    if results == [] then "" else results[0].stderr + Errors(results[1..])
  }

  function LastOutput(stdin: string, results: seq<CommandResult>): string {
    if results == [] then stdin else results[|results| - 1].stdout
  }

  function LastCode(results: seq<CommandResult>): int {
    if results == [] then 0 else results[|results| - 1].returncode
  }

  function PipelineOutcome<W>(run: Runner<W>, commands: seq<seq<string>>, cwd: string, world: W): Outcome<W> {
    var t := Stages(run, commands, "", cwd, world);
    if t.timedOut then TimedOut(t.world)
    else Ended(CommandResult(LastOutput("", t.results), Errors(t.results), LastCode(t.results), Some(t.cwd)), t.world)
  }

  // A pipeline writes what its last stage wrote and the errors of all, and has
  // the status and the directory of the last stage that ran.
  lemma PipelineMeaning<W>(run: Runner<W>, commands: seq<seq<string>>, cwd: string, world: W)
    requires commands != []
    ensures var t, outcome := Stages(run, commands, "", cwd, world), PipelineOutcome(run, commands, cwd, world);
            && (t.timedOut ==> outcome == TimedOut(t.world))
            && (!t.timedOut ==>
                  && t.results != [] && outcome.Ended? && outcome.world == t.world
                  && var last := t.results[|t.results| - 1];
                     outcome.result == CommandResult(last.stdout, Errors(t.results), last.returncode, Some(t.cwd)))
  {
    PipelineStatus(run, commands, "", cwd, world);
  }

  // Status zero means that every stage ran and succeeded; any other status is
  // that of the first stage that failed, and no later stage ran.
  lemma {:induction false} PipelineStatus<W>(run: Runner<W>, commands: seq<seq<string>>, stdin: string, cwd: string, world: W)
    ensures var t := Stages(run, commands, stdin, cwd, world);
            && |t.results| <= |commands|
            && (forall k :: 0 <= k < |t.results| - 1 ==> t.results[k].returncode == 0)
            && (!t.timedOut ==> (LastCode(t.results) == 0 <==>
                  |t.results| == |commands| && forall k :: 0 <= k < |t.results| ==> t.results[k].returncode == 0))
  {
    if commands != [] {
      match run(commands[0], stdin, cwd, world)
      case TimedOut(_) =>
      case Ended(r, after) =>
        if r.returncode == 0 {
          PipelineStatus(run, commands[1..], r.stdout, Whereto(r, cwd), after);
        }
    }
  }

  // The input of the k-th stage.
  function Input(stdin: string, results: seq<CommandResult>, k: nat): string
    requires k <= |results|
  {
    if k == 0 then stdin else results[k - 1].stdout
  }

  // The k-th stage ran in that directory and world, and left the ones after it.
  ghost predicate StageRan<W>(run: Runner<W>, commands: seq<seq<string>>, stdin: string, t: Trace<W>, worlds: seq<W>, k: nat) {
    && k < |t.results| && k < |commands| && |worlds| == |t.starts| + 1 && k < |t.starts|
    && run(commands[k], Input(stdin, t.results, k), t.starts[k], worlds[k]) == Ended(t.results[k], worlds[k + 1])
    && (if k + 1 < |t.starts| then t.starts[k + 1] else t.cwd) == Whereto(t.results[k], t.starts[k])
  }

  // Stage by stage: each runs on the output of the one before, where that one
  // left off; the first that fails, or runs out of time, is the last.
  ghost predicate InTurn<W>(run: Runner<W>, commands: seq<seq<string>>, stdin: string, cwd: string, world: W, t: Trace<W>, worlds: seq<W>) {
    && |worlds| == |t.starts| + 1 && worlds[0] == world && worlds[|t.starts|] == t.world
    && Next(t) == cwd && |t.starts| <= |commands|
    && |t.starts| == |t.results| + (if t.timedOut then 1 else 0)
    && (forall k: nat :: k < |t.results| ==> StageRan(run, commands, stdin, t, worlds, k))
    && (forall k :: 0 <= k < |t.starts| - 1 ==> t.results[k].returncode == 0)
    && (!t.timedOut ==> |t.results| == |commands| || (t.results != [] && t.results[|t.results| - 1].returncode != 0))
    && (t.timedOut ==>
          var n := |t.results|;
          run(commands[n], Input(stdin, t.results, n), t.starts[n], worlds[n]) == TimedOut(t.world) && t.cwd == t.starts[n])
  }

  lemma {:induction false} StagesInTurn<W>(run: Runner<W>, commands: seq<seq<string>>, stdin: string, cwd: string, world: W) returns (worlds: seq<W>)
    ensures InTurn(run, commands, stdin, cwd, world, Stages(run, commands, stdin, cwd, world), worlds)
  {
    worlds := [world];
    if commands != [] {
      match run(commands[0], stdin, cwd, world)
      case TimedOut(after) => worlds := [world, after];
      case Ended(r, after) =>
        if r.returncode != 0 {
          worlds := [world, after];
        } else {
          var rest := Stages(run, commands[1..], r.stdout, Whereto(r, cwd), after);
          var more := StagesInTurn(run, commands[1..], r.stdout, Whereto(r, cwd), after);
          worlds := [world] + more;
          TurnBehind(run, commands, stdin, cwd, world, r, rest, more);
        }
    }
  }

  lemma TurnBehind<W>(run: Runner<W>, commands: seq<seq<string>>, stdin: string, cwd: string, world: W, r: CommandResult, rest: Trace<W>, more: seq<W>)
    requires commands != [] && more != [] && run(commands[0], stdin, cwd, world) == Ended(r, more[0]) && r.returncode == 0
    requires InTurn(run, commands[1..], r.stdout, Whereto(r, cwd), more[0], rest, more)
    ensures InTurn(run, commands, stdin, cwd, world, Behind(cwd, r, rest), [world] + more)
  {
    var t, worlds := Behind(cwd, r, rest), [world] + more;
    forall k: nat | k < |t.results| ensures StageRan(run, commands, stdin, t, worlds, k) {
      if k > 0 {
        assert StageRan(run, commands[1..], r.stdout, rest, more, k - 1);
        assert t.results[k] == rest.results[k - 1] && t.starts[k] == rest.starts[k - 1] && commands[k] == commands[1..][k - 1];
        assert Input(stdin, t.results, k) == Input(r.stdout, rest.results, k - 1);
      }
    }
    var n := |t.results|;
    assert Input(stdin, t.results, n) == Input(r.stdout, rest.results, n - 1);
  }

  // ----- against the POSIX shell -----

  // A pipeline of section 2.9.2 of the Shell Command Language whose commands
  // run, as section 2.12 has it, in subshells: every stage runs, whatever the
  // one before came to, and every one in the directory of the shell.
  function Subshells<W>(run: Runner<W>, commands: seq<seq<string>>, stdin: string, home: string, world: W): Trace<W> {
    if commands == [] then Trace([], [], home, world, false)
    else
      match run(commands[0], stdin, home, world)
      case TimedOut(after) => Trace([home], [], home, after, true)
      case Ended(r, after) => Behind(home, r, Subshells(run, commands[1..], r.stdout, home, after))
  }

  // A single command runs in the shell itself.
  function PosixPipeline<W>(run: Runner<W>, commands: seq<seq<string>>, stdin: string, cwd: string, world: W): Trace<W> {
    if |commands| == 1 then Stages(run, commands, stdin, cwd, world) else Subshells(run, commands, stdin, cwd, world)
  }

  // The code of the first stage that fails, 0 if none does.
  function FirstFailure(results: seq<CommandResult>): int {
    if results == [] then 0
    else if results[0].returncode != 0 then results[0].returncode
    else FirstFailure(results[1..])
  }

  predicate Stays(r: CommandResult, home: string) {
    Whereto(r, home) == home
  }

  // The k-th of n stages neither fails, unless it is the last, nor leaves.
  predicate Harmless(r: CommandResult, home: string, k: nat, n: nat) {
    (k + 1 < n ==> r.returncode == 0) && Stays(r, home)
  }

  predicate AllHarmless(results: seq<CommandResult>, home: string, n: nat) {
    forall k :: 0 <= k < |results| ==> Harmless(results[k], home, k, n)
  }

  lemma HarmlessBehind(r: CommandResult, results: seq<CommandResult>, home: string, n: nat)
    ensures AllHarmless([r] + results, home, n + 1) <==> Harmless(r, home, 0, n + 1) && AllHarmless(results, home, n)
  {
    var all := [r] + results;
    if AllHarmless(all, home, n + 1) {
      assert Harmless(all[0], home, 0, n + 1);
      forall k | 0 <= k < |results| ensures Harmless(results[k], home, k, n) {
        assert Harmless(all[k + 1], home, k + 1, n + 1);
      }
    }
  }

  lemma BehindTells<W>(start: string, r: CommandResult, a: Trace<W>, b: Trace<W>)
    ensures Behind(start, r, a) == Behind(start, r, b) <==> a == b
  {
    assert ([start] + a.starts)[1..] == a.starts && ([start] + b.starts)[1..] == b.starts;
    assert ([r] + a.results)[1..] == a.results && ([r] + b.results)[1..] == b.results;
  }

  // Where the next stage starts, or where the pipeline ends when there is none.
  function Next<W>(t: Trace<W>): string {
    if t.starts == [] then t.cwd else t.starts[0]
  }

  lemma StartsHere<W>(run: Runner<W>, commands: seq<seq<string>>, stdin: string, cwd: string, world: W)
    ensures Next(Stages(run, commands, stdin, cwd, world)) == cwd
    ensures Next(Subshells(run, commands, stdin, cwd, world)) == cwd
    ensures commands != [] ==> |Stages(run, commands, stdin, cwd, world).starts| > 0 && |Subshells(run, commands, stdin, cwd, world).starts| > 0
  {
  }

  // Stage by stage, the two do the same, starting places, output, directory,
  // world and all, exactly when no stage leaves the directory and every stage
  // in front of the last one succeeds.
  lemma {:induction false} SameAsSubshells<W>(run: Runner<W>, commands: seq<seq<string>>, stdin: string, home: string, world: W)
    ensures var all := Subshells(run, commands, stdin, home, world);
            Stages(run, commands, stdin, home, world) == all <==> AllHarmless(all.results, home, |commands|)
  {
    if commands != [] {
      match run(commands[0], stdin, home, world)
      case TimedOut(_) =>
      case Ended(r, after) =>
        var all := Subshells(run, commands[1..], r.stdout, home, after);
        var some := Stages(run, commands[1..], r.stdout, Whereto(r, home), after);
        HarmlessBehind(r, all.results, home, |commands| - 1);
        StartsHere(run, commands[1..], r.stdout, home, after);
        StartsHere(run, commands[1..], r.stdout, Whereto(r, home), after);
        if r.returncode == 0 {
          BehindTells(home, r, some, all);
          if Stays(r, home) { SameAsSubshells(run, commands[1..], r.stdout, home, after); }
        } else if |commands| == 1 {
          assert commands[1..] == [];
        }
    }
  }

  // A pipeline does what it does in the POSIX shell exactly when it is a single
  // command, or no stage leaves the directory and every one before the last succeeds.
  lemma SameAsPosix<W>(run: Runner<W>, commands: seq<seq<string>>, stdin: string, cwd: string, world: W)
    ensures var all := PosixPipeline(run, commands, stdin, cwd, world);
            Stages(run, commands, stdin, cwd, world) == all <==> |commands| == 1 || AllHarmless(all.results, cwd, |commands|)
  {
    SameAsSubshells(run, commands, stdin, cwd, world);
  }

  lemma {:induction false} StatusOfSubshells<W>(run: Runner<W>, commands: seq<seq<string>>, stdin: string, home: string, world: W)
    requires var all := Subshells(run, commands, stdin, home, world);
             !all.timedOut && forall k :: 0 <= k < |all.results| - 1 ==> Stays(all.results[k], home)
    ensures var t, all := Stages(run, commands, stdin, home, world), Subshells(run, commands, stdin, home, world);
            && !t.timedOut && |all.results| == |commands| && t.results <= all.results
            && LastCode(t.results) == FirstFailure(all.results)
  {
    if commands != [] {
      var outcome := run(commands[0], stdin, home, world);
      var r := outcome.result;
      var rest := Subshells(run, commands[1..], r.stdout, home, outcome.world);
      var all := [r] + rest.results;
      assert all[1..] == rest.results;
      LengthOfAll(run, commands[1..], r.stdout, home, outcome.world);
      if r.returncode == 0 {
        if |commands| > 1 {
          assert Stays(all[0], home);
          forall k | 0 <= k < |rest.results| - 1 ensures Stays(rest.results[k], home) {
            assert Stays(all[k + 1], home);
          }
          StatusOfSubshells(run, commands[1..], r.stdout, home, outcome.world);
        } else {
          assert commands[1..] == [];
        }
      }
    }
  }

  // Where every stage ends in time and none before the last leaves, the status
  // here is the first failure's; that of the POSIX shell is the last stage's.
  lemma StatusAgainstPosix<W>(run: Runner<W>, commands: seq<seq<string>>, stdin: string, cwd: string, world: W)
    requires var all := PosixPipeline(run, commands, stdin, cwd, world);
             !all.timedOut && forall k :: 0 <= k < |all.results| - 1 ==> Stays(all.results[k], cwd)
    ensures var t, all := Stages(run, commands, stdin, cwd, world), PosixPipeline(run, commands, stdin, cwd, world);
            && !t.timedOut && |all.results| == |commands| && t.results <= all.results
            && LastCode(t.results) == FirstFailure(all.results)
  {
    if |commands| == 1 {
      assert commands[1..] == [];
    } else {
      StatusOfSubshells(run, commands, stdin, cwd, world);
    }
  }

  lemma {:induction false} LengthOfAll<W>(run: Runner<W>, commands: seq<seq<string>>, stdin: string, home: string, world: W)
    ensures var all := Subshells(run, commands, stdin, home, world);
            !all.timedOut ==> |all.results| == |commands|
  {
    if commands != [] {
      match run(commands[0], stdin, home, world)
      case TimedOut(_) =>
      case Ended(r, after) => LengthOfAll(run, commands[1..], r.stdout, home, after);
    }
  }

  // `false | true` fails here and succeeds there.
  lemma FirstFailureWins<W>(run: Runner<W>, cwd: string, world: W)
    requires forall stdin, here, w: W :: run(["false"], stdin, here, w) == Ended(CommandResult("", "", 1, None), w)
    requires forall stdin, here, w: W :: run(["true"], stdin, here, w) == Ended(CommandResult("", "", 0, None), w)
    ensures LastCode(Stages(run, [["false"], ["true"]], "", cwd, world).results) == 1
    ensures LastCode(PosixPipeline(run, [["false"], ["true"]], "", cwd, world).results) == 0
  {
    TwoStages(run, ["false"], ["true"], cwd, world, CommandResult("", "", 1, None), CommandResult("", "", 0, None));
  }

  // Two commands whose outcomes are known, there.
  lemma TwoStages<W>(run: Runner<W>, first: seq<string>, second: seq<string>, cwd: string, world: W, r: CommandResult, q: CommandResult)
    requires run(first, "", cwd, world) == Ended(r, world) && run(second, r.stdout, cwd, world) == Ended(q, world)
    ensures PosixPipeline(run, [first, second], "", cwd, world) == Trace([cwd, cwd], [r, q], cwd, world, false)
  {
    assert [first, second][1..] == [second] && [second][1..] == [];
    assert Subshells(run, [second], r.stdout, cwd, world) == Behind(cwd, q, Trace([], [], cwd, world, false));
    assert [r] + ([q] + []) == [r, q] && [cwd] + ([cwd] + []) == [cwd, cwd];
  }

  // `cd src | ls` lists src and stays there; there it lists the old directory
  // and stays in that.
  lemma DirectoryIsCarried<W>(run: Runner<W>, listing: string -> string, cwd: string, src: string, world: W)
    requires forall stdin, w: W :: run(["cd", "src"], stdin, cwd, w) == Ended(CommandResult("", "", 0, Some(src)), w)
    requires forall stdin, here, w: W :: run(["ls"], stdin, here, w) == Ended(CommandResult(listing(here), "", 0, Some(here)), w)
    ensures var t := Stages(run, [["cd", "src"], ["ls"]], "", cwd, world);
            t.starts == [cwd, src] && LastOutput("", t.results) == listing(src) && t.cwd == src
    ensures var t := PosixPipeline(run, [["cd", "src"], ["ls"]], "", cwd, world);
            t.starts == [cwd, cwd] && LastOutput("", t.results) == listing(cwd) && t.cwd == cwd
  {
    TwoStages(run, ["cd", "src"], ["ls"], cwd, world, CommandResult("", "", 0, Some(src)), CommandResult(listing(cwd), "", 0, Some(cwd)));
    assert [["cd", "src"], ["ls"]][1..] == [["ls"]] && [["ls"]][1..] == [];
    var q := CommandResult(listing(src), "", 0, Some(src));
    assert Stages(run, [["ls"]], "", src, world) == Behind(src, q, Trace([], [], src, world, false));
    assert [cwd] + ([src] + []) == [cwd, src];
  }

  function OneStageMore<W>(run: Runner<W>, t: Trace<W>, stdin: string, last: seq<string>): Trace<W> {
    if t.timedOut || LastCode(t.results) != 0 then t
    else
      match run(last, LastOutput(stdin, t.results), t.cwd, t.world)
      case TimedOut(after) => Trace(t.starts + [t.cwd], t.results, t.cwd, after, true)
      case Ended(r, after) => Trace(t.starts + [t.cwd], t.results + [r], Whereto(r, t.cwd), after, false)
  }

  lemma OneStageBehind<W>(run: Runner<W>, start: string, r: CommandResult, t: Trace<W>, stdin: string, last: seq<string>)
    requires r.returncode == 0
    ensures OneStageMore(run, Behind(start, r, t), stdin, last) == Behind(start, r, OneStageMore(run, t, r.stdout, last))
  {
    if t.results == [] {
      assert [r] + t.results == [r];
    } else {
      assert LastCode([r] + t.results) == LastCode(t.results);
      assert LastOutput(stdin, [r] + t.results) == LastOutput(r.stdout, t.results);
    }
    assert [start] + (t.starts + [t.cwd]) == [start] + t.starts + [t.cwd];
    match run(last, LastOutput(r.stdout, t.results), t.cwd, t.world)
    case TimedOut(_) =>
    case Ended(s, _) => assert [r] + (t.results + [s]) == [r] + t.results + [s];
  }

  lemma {:induction false} StagesAppend<W>(run: Runner<W>, front: seq<seq<string>>, last: seq<string>, stdin: string, cwd: string, world: W)
    ensures Stages(run, front + [last], stdin, cwd, world) == OneStageMore(run, Stages(run, front, stdin, cwd, world), stdin, last)
    decreases front
  {
    var all := front + [last];
    if front == [] {
      assert all[1..] == [];
    } else {
      assert all[1..] == front[1..] + [last];
      match run(front[0], stdin, cwd, world)
      case TimedOut(_) =>
      case Ended(r, after) =>
        if r.returncode == 0 {
          StagesAppend(run, front[1..], last, r.stdout, Whereto(r, cwd), after);
          OneStageBehind(run, cwd, r, Stages(run, front[1..], r.stdout, Whereto(r, cwd), after), stdin, last);
        }
    }
  }

  lemma {:induction false} ErrorsAppend(results: seq<CommandResult>, r: CommandResult)
    ensures Errors(results + [r]) == Errors(results) + r.stderr
  {
    if results == [] {
      assert results + [r] == [r];
    } else {
      ErrorsAppend(results[1..], r);
      assert (results + [r])[1..] == results[1..] + [r];
    }
  }

  lemma {:induction false} StagesStop<W>(run: Runner<W>, commands: seq<seq<string>>, i: nat, stdin: string, cwd: string, world: W)
    requires i <= |commands|
    requires var t := Stages(run, commands[..i], stdin, cwd, world); t.timedOut || LastCode(t.results) != 0
    ensures Stages(run, commands, stdin, cwd, world) == Stages(run, commands[..i], stdin, cwd, world)
    decreases |commands| - i
  {
    if i == |commands| {
      assert commands[..i] == commands;
    } else {
      StagesAppend(run, commands[..i], commands[i], stdin, cwd, world);
      assert commands[..i + 1] == commands[..i] + [commands[i]];
      StagesStop(run, commands, i + 1, stdin, cwd, world);
    }
  }

  method RunPipeline<W>(run: Runner<W>, commands: seq<seq<string>>, cwd: string, world: W) returns (outcome: Outcome<W>)
    ensures outcome == PipelineOutcome(run, commands, cwd, world)
  {
    var stdin, stderr, here, now, code := "", "", cwd, world, 0;
    ghost var starts: seq<string>, results: seq<CommandResult> := [], [];
    for i := 0 to |commands|
      invariant Stages(run, commands[..i], "", cwd, world) == Trace(starts, results, here, now, false)
      invariant stdin == LastOutput("", results) && stderr == Errors(results) && code == LastCode(results) == 0
    {
      assert commands[..i + 1] == commands[..i] + [commands[i]];
      StagesAppend(run, commands[..i], commands[i], "", cwd, world);
      match run(commands[i], stdin, here, now)
      case TimedOut(after) =>
        StagesStop(run, commands, i + 1, "", cwd, world);
        return TimedOut(after);
      case Ended(r, after) =>
        ErrorsAppend(results, r);
        starts, results := starts + [here], results + [r];
        stdin, stderr, now, code := r.stdout, stderr + r.stderr, after, r.returncode;
        if r.cwd.Some? {
          here := r.cwd.value;
        }
        if code != 0 {
          StagesStop(run, commands, i + 1, "", cwd, world);
          break;
        }
    }
    assert code == 0 ==> commands[..|commands|] == commands;
    return Ended(CommandResult(stdin, stderr, code, Some(here)), now);
  }

  // ----- the AND-OR list of section 2.9.3 of the Shell Command Language -----

  // "&&" and "||" have the same precedence and associate to the left.
  datatype AndOr = Single(commands: seq<seq<string>>) | Both(left: AndOr, next: seq<seq<string>>) | Either(left: AndOr, otherwise: seq<seq<string>>)

  datatype Shell<W> = Shell(world: W, cwd: string, output: string, lastCode: int) | Expired(world: W)

  function RunOne<W>(run: Runner<W>, commands: seq<seq<string>>, s: Shell<W>): Shell<W>
    requires s.Shell?
  {
    match PipelineOutcome(run, commands, s.cwd, s.world)
    case TimedOut(after) => Expired(after)
    case Ended(r, after) =>
      Shell(after, if r.cwd.Some? then r.cwd.value else s.cwd, s.output + r.stdout + r.stderr, r.returncode)
  }

  function Meaning<W>(run: Runner<W>, list: AndOr, s: Shell<W>): Shell<W>
    requires s.Shell?
  {
    match list
    case Single(commands) => RunOne(run, commands, s)
    case Both(left, next) =>
      var t := Meaning(run, left, s);
      if t.Shell? && t.lastCode == 0 then RunOne(run, next, t) else t
    case Either(left, next) =>
      var t := Meaning(run, left, s);
      if t.Shell? && t.lastCode != 0 then RunOne(run, next, t) else t
  }

  function LeftAssociated(ps: seq<CommandPipeline>): AndOr
    requires WellFormed(ps)
  {
    var n := |ps| - 1;
    if n == 0 then Single(ps[0].commands)
    else
      assert ps[..n][1..] <= ps[1..] && ps[1..][n - 1] in ps[1..];
      if ps[n].operator == AND_IF then Both(LeftAssociated(ps[..n]), ps[n].commands)
      else Either(LeftAssociated(ps[..n]), ps[n].commands)
  }

  lemma FrontWellFormed(ps: seq<CommandPipeline>, i: nat)
    requires WellFormed(ps) && 0 < i <= |ps|
    ensures WellFormed(ps[..i])
    ensures i < |ps| ==> ps[i].operator == AND_IF || ps[i].operator == OR_IF
  {
    assert ps[..i][1..] == ps[1..][..i - 1];
    if i < |ps| { assert ps[i] == ps[1..][i - 1]; }
  }

  // The meaning of the first i pipelines.
  function MeaningOf<W>(run: Runner<W>, ps: seq<CommandPipeline>, i: nat, start: Shell<W>): Shell<W>
    requires WellFormed(ps) && i <= |ps| && start.Shell?
  {
    if i == 0 then start
    else
      FrontWellFormed(ps, i);
      Meaning(run, LeftAssociated(ps[..i]), start)
  }

  predicate Skipped(p: CommandPipeline, lastCode: int) {
    (p.operator == AND_IF && lastCode != 0) || (p.operator == OR_IF && lastCode == 0)
  }

  lemma MeaningStep<W>(run: Runner<W>, ps: seq<CommandPipeline>, i: nat, start: Shell<W>)
    requires WellFormed(ps) && i < |ps| && start.Shell?
    ensures var t := MeaningOf(run, ps, i, start);
            MeaningOf(run, ps, i + 1, start) ==
            if t.Expired? || Skipped(ps[i], t.lastCode) then t else RunOne(run, ps[i].commands, t)
  {
    FrontWellFormed(ps, i + 1);
    if i > 0 {
      FrontWellFormed(ps, i);
      assert ps[..i + 1][..i] == ps[..i];
    }
  }

  // ----- which pipelines of a list run, and in which state -----

  // A pipeline that ran to its end.
  datatype Ran<W> = Ran(index: nat, cwd: string, world: W, result: CommandResult, after: W)

  // The last pipeline that ran before the i-th.
  predicate LastBefore<W>(runs: seq<Ran<W>>, k: nat, i: nat) {
    k < |runs| && runs[k].index < i && (k + 1 < |runs| ==> i <= runs[k + 1].index)
  }

  predicate HasRun<W>(runs: seq<Ran<W>>, i: nat) {
    exists k :: 0 <= k < |runs| && runs[k].index == i
  }

  predicate GoesAhead(operator: string, code: int) {
    (operator == "&&" ==> code == 0) && (operator == "||" ==> code != 0)
  }

  // What one has written: its output, then its errors.
  function Output<W>(runs: seq<Ran<W>>): string {
    if runs == [] then "" else Output(runs[..|runs| - 1]) + runs[|runs| - 1].result.stdout + runs[|runs| - 1].result.stderr
  }

  function PlaceAfter<W>(runs: seq<Ran<W>>, dir: string): string {
    if runs == [] then dir else Whereto(runs[|runs| - 1].result, runs[|runs| - 1].cwd)
  }

  function WorldAfter<W>(runs: seq<Ran<W>>, world: W): W {
    if runs == [] then world else runs[|runs| - 1].after
  }

  function CodeAfter<W>(runs: seq<Ran<W>>): int {
    if runs == [] then 0 else runs[|runs| - 1].result.returncode
  }

  // Each one starts in the directory and world that the one before it left.
  ghost predicate RanRight<W>(run: Runner<W>, ps: seq<CommandPipeline>, dir: string, world: W, runs: seq<Ran<W>>, k: nat)
    requires k < |runs|
  {
    && runs[k].index < |ps| && (k > 0 ==> runs[k - 1].index < runs[k].index)
    && runs[k].cwd == PlaceAfter(runs[..k], dir) && runs[k].world == WorldAfter(runs[..k], world)
    && PipelineOutcome(run, ps[runs[k].index].commands, runs[k].cwd, runs[k].world) == Ended(runs[k].result, runs[k].after)
  }

  ghost predicate AllRanRight<W>(run: Runner<W>, ps: seq<CommandPipeline>, dir: string, world: W, runs: seq<Ran<W>>, n: nat) {
    && (forall k :: 0 <= k < |runs| ==> runs[k].index < n)
    && (forall k: nat :: k < |runs| ==> RanRight(run, ps, dir, world, runs, k))
  }

  // The first ran, and any other exactly when the status of the last one that
  // ran before it is what its operator asks for.
  ghost predicate Chosen<W>(ps: seq<CommandPipeline>, runs: seq<Ran<W>>, n: nat) {
    && n <= |ps| && (n > 0 ==> runs != [] && runs[0].index == 0)
    && (forall i: nat, k: nat :: 0 < i < n && LastBefore(runs, k, i) ==> (HasRun(runs, i) <==> GoesAhead(ps[i].operator, runs[k].result.returncode)))
  }

  ghost predicate RanInTurn<W>(run: Runner<W>, ps: seq<CommandPipeline>, dir: string, world: W, runs: seq<Ran<W>>, n: nat) {
    AllRanRight(run, ps, dir, world, runs, n) && Chosen(ps, runs, n)
  }

  // The state that the runs have led to.
  function StateAfter<W>(runs: seq<Ran<W>>, dir: string, world: W): Shell<W> {
    Shell(WorldAfter(runs, world), PlaceAfter(runs, dir), Output(runs), CodeAfter(runs))
  }

  // A pipeline whose turn it was ran out of time.
  ghost predicate RanOut<W>(run: Runner<W>, ps: seq<CommandPipeline>, dir: string, world: W, runs: seq<Ran<W>>, n: nat, after: Shell<W>) {
    && n < |ps| && (n > 0 ==> GoesAhead(ps[n].operator, CodeAfter(runs))) && after.Expired?
    && PipelineOutcome(run, ps[n].commands, PlaceAfter(runs, dir), WorldAfter(runs, world)) == TimedOut(after.world)
  }

  lemma OneMoreRan<W>(run: Runner<W>, ps: seq<CommandPipeline>, dir: string, world: W, runs: seq<Ran<W>>, n: nat, made: Ran<W>)
    requires RanInTurn(run, ps, dir, world, runs, n) && n < |ps| && (n > 0 ==> GoesAhead(ps[n].operator, CodeAfter(runs)))
    requires made.index == n && made.cwd == PlaceAfter(runs, dir) && made.world == WorldAfter(runs, world)
    requires PipelineOutcome(run, ps[n].commands, made.cwd, made.world) == Ended(made.result, made.after)
    ensures RanInTurn(run, ps, dir, world, runs + [made], n + 1)
  {
    OneMoreRight(run, ps, dir, world, runs, n, made);
    OneMoreChosen(ps, runs, n, made);
  }

  lemma OneMoreRight<W>(run: Runner<W>, ps: seq<CommandPipeline>, dir: string, world: W, runs: seq<Ran<W>>, n: nat, made: Ran<W>)
    requires AllRanRight(run, ps, dir, world, runs, n) && n < |ps|
    requires made.index == n && made.cwd == PlaceAfter(runs, dir) && made.world == WorldAfter(runs, world)
    requires PipelineOutcome(run, ps[n].commands, made.cwd, made.world) == Ended(made.result, made.after)
    ensures AllRanRight(run, ps, dir, world, runs + [made], n + 1)
  {
    var more := runs + [made];
    forall k: nat | k < |more| ensures RanRight(run, ps, dir, world, more, k) {
      if k < |runs| {
        assert RanRight(run, ps, dir, world, runs, k) && more[..k] == runs[..k];
      } else {
        assert more[..k] == runs;
      }
    }
  }

  lemma OneMoreChosen<W>(ps: seq<CommandPipeline>, runs: seq<Ran<W>>, n: nat, made: Ran<W>)
    requires Chosen(ps, runs, n) && n < |ps| && (n > 0 ==> GoesAhead(ps[n].operator, CodeAfter(runs)))
    requires made.index == n && forall k :: 0 <= k < |runs| ==> runs[k].index < n
    requires n == 0 ==> runs == []
    ensures Chosen(ps, runs + [made], n + 1)
  {
    var more := runs + [made];
    forall i: nat, k: nat | 0 < i < n + 1 && LastBefore(more, k, i)
      ensures HasRun(more, i) <==> GoesAhead(ps[i].operator, more[k].result.returncode)
    {
      if i < n {
        assert LastBefore(runs, k, i);
        SameRuns(runs, made, i);
      } else {
        assert more[|runs|].index == n;
        assert k == |runs| - 1;
      }
    }
  }

  lemma SameRuns<W>(runs: seq<Ran<W>>, made: Ran<W>, i: nat)
    requires made.index != i
    ensures HasRun(runs + [made], i) <==> HasRun(runs, i)
  {
    if HasRun(runs, i) {
      var k :| 0 <= k < |runs| && runs[k].index == i;
      assert (runs + [made])[k].index == i;
    }
  }

  lemma OneMoreSkipped<W>(run: Runner<W>, ps: seq<CommandPipeline>, dir: string, world: W, runs: seq<Ran<W>>, n: nat)
    requires RanInTurn(run, ps, dir, world, runs, n) && 0 < n < |ps| && !GoesAhead(ps[n].operator, CodeAfter(runs))
    ensures RanInTurn(run, ps, dir, world, runs, n + 1)
  {
    forall i: nat, k: nat | 0 < i < n + 1 && LastBefore(runs, k, i)
      ensures HasRun(runs, i) <==> GoesAhead(ps[i].operator, runs[k].result.returncode)
    {
      if i == n {
        assert k == |runs| - 1;
      }
    }
  }

  lemma {:induction false} ExpiredForGood<W>(run: Runner<W>, ps: seq<CommandPipeline>, i: nat, start: Shell<W>)
    requires WellFormed(ps) && i <= |ps| && start.Shell? && MeaningOf(run, ps, i, start).Expired?
    ensures MeaningOf(run, ps, |ps|, start) == MeaningOf(run, ps, i, start)
    decreases |ps| - i
  {
    if i < |ps| {
      MeaningStep(run, ps, i, start);
      ExpiredForGood(run, ps, i + 1, start);
    }
  }

  // Until now every pipeline has had its turn and none ran out of time.
  ghost predicate Reached<W>(run: Runner<W>, ps: seq<CommandPipeline>, dir: string, world: W, runs: seq<Ran<W>>, n: nat, s: Shell<W>) {
    RanInTurn(run, ps, dir, world, runs, n) && s == StateAfter(runs, dir, world)
  }

  // `runs` are the pipelines that ran to their end.  The state at the end is
  // the one that the last of them left, its status and all that was written.
  method Execute<W>(run: Runner<W>, ps: seq<CommandPipeline>, projectDir: string, world: W) returns (after: Shell<W>, ghost runs: seq<Ran<W>>)
    requires WellFormed(ps)
    ensures after == Meaning(run, LeftAssociated(ps), Shell(world, projectDir, "", 0))
    ensures after.Shell? ==> Reached(run, ps, projectDir, world, runs, |ps|, after)
    ensures after.Expired? ==>
              exists n: nat :: RanInTurn(run, ps, projectDir, world, runs, n) && RanOut(run, ps, projectDir, world, runs, n, after)
  {
    var now, cwd, output, lastCode := world, projectDir, "", 0;
    ghost var start := Shell(world, projectDir, "", 0);
    runs := [];
    assert ps[..|ps|] == ps;
    for i := 0 to |ps|
      invariant Shell(now, cwd, output, lastCode) == MeaningOf(run, ps, i, start)
      invariant Reached(run, ps, projectDir, world, runs, i, Shell(now, cwd, output, lastCode))
    {
      MeaningStep(run, ps, i, start);
      OperatorsKnown(ps, i);
      var p := ps[i];
      if p.operator == AND_IF && lastCode != 0 {
        OneMoreSkipped(run, ps, projectDir, world, runs, i);
        continue;
      }
      if p.operator == OR_IF && lastCode == 0 {
        OneMoreSkipped(run, ps, projectDir, world, runs, i);
        continue;
      }
      var outcome := RunPipeline(run, p.commands, cwd, now);
      if outcome.TimedOut? {
        ExpiredForGood(run, ps, i + 1, start);
        assert RanOut(run, ps, projectDir, world, runs, i, Expired(outcome.world));
        return Expired(outcome.world), runs;
      }
      var r := outcome.result;
      ghost var made := Ran(i, cwd, now, r, outcome.world);
      OneMoreRan(run, ps, projectDir, world, runs, i, made);
      StateGrows(runs, made, projectDir, world);
      runs := runs + [made];
      now, output, lastCode := outcome.world, output + r.stdout + r.stderr, r.returncode;
      if r.cwd.Some? {
        cwd := r.cwd.value;
      }
    }
    return Shell(now, cwd, output, lastCode), runs;
  }

  // The first pipeline has no operator, every other one of the two.
  lemma OperatorsKnown(ps: seq<CommandPipeline>, i: nat)
    requires WellFormed(ps) && i < |ps|
    ensures i == 0 ==> ps[i].operator == ""
    ensures i > 0 ==> ps[i].operator == AND_IF || ps[i].operator == OR_IF
  {
    if i > 0 { assert ps[i] == ps[1..][i - 1]; }
  }

  lemma StateGrows<W>(runs: seq<Ran<W>>, made: Ran<W>, dir: string, world: W)
    ensures StateAfter(runs + [made], dir, world) ==
            Shell(made.after, Whereto(made.result, made.cwd), Output(runs) + made.result.stdout + made.result.stderr, made.result.returncode)
  {
    assert (runs + [made])[..|runs|] == runs;
  }

  // How two commands are spelled behind each other.
  lemma TwoCommands(a: seq<string>, b: seq<string>)
    ensures Flatten([CommandPipeline("", [a, b])]) == a + ["|"] + b
    ensures Flatten([CommandPipeline("", [a]), CommandPipeline("&&", [b])]) == a + ["&&"] + b
    ensures Flatten([CommandPipeline("", [a]), CommandPipeline("||", [b])]) == a + ["||"] + b
  {
    assert Flatten([CommandPipeline("&&", [b])]) == ["&&"] + b;
    assert Flatten([CommandPipeline("||", [b])]) == ["||"] + b;
  }
}
