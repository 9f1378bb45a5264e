// The non-interactive scheduler: run every runnable task once, then mark what
// is left as blocked (src/mission_orchestrator/application/task_executor.py).
module TaskExecutor {
  import opened Workplan

  // What the phases and the review of one task came to.
  datatype Outcome = Succeeded | Refused(detail: string) | MissionAbort

  // ----- task lists that differ only in status and failure reason -----

  ghost predicate SameShape(a: seq<Task>, b: seq<Task>) {
    |a| == |b| && forall i :: 0 <= i < |a| ==> b[i] == a[i].(status := b[i].status, failureReason := b[i].failureReason)
  }

  lemma {:induction false} SameShapeSameLookup(a: seq<Task>, b: seq<Task>)
    requires SameShape(a, b)
    ensures ById(a) == ById(b)
  {
    if a != [] {
      SameShapeSameLookup(a[..|a| - 1], b[..|b| - 1]);
    }
  }

  // Task i lists, as a dependency, the id that now belongs to task j.
  ghost predicate Needs(tasks: seq<Task>, i: nat, j: nat) {
    && i < |tasks|
    && exists d :: d in tasks[i].dependencies && d in ById(tasks) && ById(tasks)[d] == j
  }

  lemma DoneMeansNeedsDone(tasks: seq<Task>, i: nat)
    requires i < |tasks|
    ensures DependenciesDone(tasks, i) <==> forall j: nat :: j < |tasks| && Needs(tasks, i, j) ==> tasks[j].status.Completed?
  {
    var byId := ById(tasks);
    if forall j: nat :: j < |tasks| && Needs(tasks, i, j) ==> tasks[j].status.Completed? {
      forall d | d in tasks[i].dependencies && d in byId ensures tasks[byId[d]].status.Completed? {
        assert Needs(tasks, i, byId[d]);
      }
    }
  }

  predicate Ran(status: TaskStatus) {
    status.Completed? || status.Failed?
  }

  // Nothing has run before all it needs was completed, and nothing is blocked:
  // what a new plan looks like, or one that an aborted run has left.
  ghost predicate Settled(tasks: seq<Task>) {
    forall i :: 0 <= i < |tasks| ==> !tasks[i].status.Blocked? && (Ran(tasks[i].status) ==> DependenciesDone(tasks, i))
  }

  // Only pending tasks may change, from `before` to `after`.
  ghost predicate Progress(before: seq<Task>, after: seq<Task>) {
    && SameShape(before, after)
    && forall i :: 0 <= i < |before| && !before[i].status.Pending? ==> after[i] == before[i]
  }

  lemma ProgressKeepsDone(before: seq<Task>, after: seq<Task>, i: nat)
    requires Progress(before, after) && i < |before| && DependenciesDone(before, i)
    ensures DependenciesDone(after, i)
  {
    SameShapeSameLookup(before, after);
  }

  function Count(tasks: seq<Task>, status: TaskStatus): nat {
    if tasks == [] then 0
    else Count(tasks[..|tasks| - 1], status) + if tasks[|tasks| - 1].status == status then 1 else 0
  }

  lemma {:induction false} CountUpdate(tasks: seq<Task>, i: nat, t: Task, status: TaskStatus)
    requires i < |tasks|
    ensures Count(tasks[i := t], status) - Count(tasks, status) ==
            (if t.status == status then 1 else 0) - (if tasks[i].status == status then 1 else 0)
  {
    var n := |tasks| - 1;
    if i == n {
      assert tasks[i := t][..n] == tasks[..n];
    } else {
      CountUpdate(tasks[..n], i, t, status);
      assert tasks[i := t][..n] == tasks[..n][i := t];
    }
  }

  // The number of tasks with that status.
  lemma {:induction false} CountMeaning(tasks: seq<Task>, status: TaskStatus)
    ensures Count(tasks, status) == |Having(tasks, status)|
  {
    if tasks != [] {
      var n := |tasks| - 1;
      CountMeaning(tasks[..n], status);
      OneMoreIndex(tasks, status);
    } else {
      assert Having(tasks, status) == {};
    }
  }

  function Having(tasks: seq<Task>, status: TaskStatus): set<int> {
    set i | 0 <= i < |tasks| && tasks[i].status == status
  }

  lemma OneMoreIndex(tasks: seq<Task>, status: TaskStatus)
    requires tasks != []
    ensures var n := |tasks| - 1;
            |Having(tasks, status)| == |Having(tasks[..n], status)| + if tasks[n].status == status then 1 else 0
  {
    var n := |tasks| - 1;
    assert n !in Having(tasks[..n], status);
    forall i ensures i in Having(tasks, status) <==> i in Having(tasks[..n], status) || (i == n && tasks[n].status == status) {
      if 0 <= i < n { assert tasks[..n][i] == tasks[i]; }
    }
    if tasks[n].status == status {
      assert Having(tasks, status) == Having(tasks[..n], status) + {n};
    } else {
      assert Having(tasks, status) == Having(tasks[..n], status);
    }
  }

  // ----- what a finished run looks like -----

  // Each start is new, and all it needs was complete before or started earlier.
  ghost predicate StartedInOrder(initial: seq<Task>, started: seq<nat>) {
    && NoRepeat(started)
    && (forall k :: 0 <= k < |started| ==> started[k] < |initial| && initial[started[k]].status.Pending?)
    && (forall k, j: nat :: 0 <= k < |started| && j < |initial| && Needs(initial, started[k], j)
          ==> initial[j].status.Completed? || j in started[..k])
  }

  // Nothing is pending any more, and of what was pending, exactly the tasks
  // that still miss a dependency are blocked.
  ghost predicate Decided(initial: seq<Task>, final: seq<Task>) {
    && Progress(initial, final)
    && forall i :: 0 <= i < |final| ==>
         && !final[i].status.Pending?
         && (initial[i].status.Pending? ==> (final[i].status.Blocked? <==> !DependenciesDone(final, i)))
  }

  // The failure reason names one of the task's own dependencies and what stopped it.
  ghost predicate NamesOwnDependency(tasks: seq<Task>, i: nat)
    requires i < |tasks|
  {
    var byId := ById(tasks);
    match tasks[i].failureReason
    case DependencyFailed(d) => d in tasks[i].dependencies && d in byId && tasks[byId[d]].status.Failed?
    case DependencyBlocked(d) => d in tasks[i].dependencies && d in byId && tasks[byId[d]].status.Blocked?
    case _ => false
  }

  // All that the started tasks need is completed.
  ghost predicate NeedsMet(tasks: seq<Task>, started: seq<nat>) {
    forall k :: 0 <= k < |started| && started[k] < |tasks| ==> DependenciesDone(tasks, started[k])
  }

  ghost predicate InDependencyOrder(tasks: seq<Task>) {
    forall i: nat, j: nat :: Needs(tasks, i, j) ==> j < i
  }

  // Task j stops its dependents before the marking loop reaches task i.
  ghost predicate StopsBefore(tasks: seq<Task>, i: nat, j: nat)
    requires j < |tasks|
  {
    Stops(tasks[j].status) || (tasks[j].status.Pending? && j < i)
  }

  // A task the marking loop has blocked: its reason names one of its own
  // dependencies, unless none of those had stopped when the loop reached it.
  ghost predicate WellMarked(before: seq<Task>, after: seq<Task>, i: nat)
    requires |before| == |after| && i < |after|
  {
    && after[i].status.Blocked?
    && (after[i].failureReason.Unresolvable? || NamesOwnDependency(after, i))
    && (after[i].failureReason.Unresolvable? <==>
          forall j: nat :: j < |before| && Needs(before, i, j) ==> !StopsBefore(before, i, j))
  }

  // The marking loop has dealt with the first `count` tasks.
  ghost predicate Marked(before: seq<Task>, after: seq<Task>, count: nat) {
    && Progress(before, after)
    && (forall i :: count <= i < |after| ==> after[i] == before[i])
    && (forall i :: 0 <= i < count && i < |after| && before[i].status.Pending? ==> WellMarked(before, after, i))
  }

  function After(t: Task, outcome: Outcome, planMode: bool): Task {
    match outcome
    case Succeeded => if planMode then t.(status := Completed, failureReason := NoReason) else t.(status := Completed)
    case Refused(detail) => t.(status := Failed, failureReason := Raised(detail))
    case MissionAbort => t
  }

  // The k-th task to start carries what the k-th round came to.
  ghost predicate Recorded(initial: seq<Task>, now: seq<Task>, started: seq<nat>, outcomes: nat -> Outcome, planMode: bool)
    requires |initial| == |now|
  {
    forall k :: 0 <= k < |started| && started[k] < |now| ==> now[started[k]] == After(initial[started[k]], outcomes(k), planMode)
  }

  // A success completes the task and a refusal fails it with its text; an
  // abort leaves it alone.  Completing clears an old reason in plan mode only.
  lemma RecordedMeaning(initial: seq<Task>, now: seq<Task>, started: seq<nat>, outcomes: nat -> Outcome, planMode: bool, k: nat)
    requires |initial| == |now| && Recorded(initial, now, started, outcomes, planMode)
    requires k < |started| && started[k] < |now|
    ensures var was, task := initial[started[k]], now[started[k]];
            && task == was.(status := task.status, failureReason := task.failureReason)
            && (outcomes(k) == Succeeded ==> task.status == Completed && task.failureReason == if planMode then NoReason else was.failureReason)
            && (outcomes(k) == MissionAbort ==> task == was)
            && (outcomes(k).Refused? ==> task.status == Failed && task.failureReason == Raised(outcomes(k).detail))
  {
  }

  // The state of the run between two rounds.
  ghost predicate Running(initial: seq<Task>, now: seq<Task>, started: seq<nat>) {
    && Progress(initial, now) && StartedInOrder(initial, started)
    && (forall i :: 0 <= i < |now| && initial[i].status.Pending? ==>
          && (Ran(now[i].status) <==> i in started)
          && if Ran(now[i].status) then DependenciesDone(now, i) else now[i] == initial[i])
  }

  // How an unaborted run ends: of the tasks that were pending, those that
  // started have run, and the others are blocked, exactly when something they
  // wait for has stopped.
  ghost predicate Concluded(initial: seq<Task>, final: seq<Task>, started: seq<nat>) {
    && Decided(initial, final)
    && (forall i :: 0 <= i < |final| && initial[i].status.Pending? ==> (Ran(final[i].status) <==> i in started))
    && (Acyclic(DependencyGraph(initial)) ==>
          forall i: nat :: i < |final| && initial[i].status.Pending? ==> (final[i].status.Blocked? <==> HeldUp(initial, final, i)))
    && (InDependencyOrder(initial) ==>
          forall i: nat :: i < |final| && initial[i].status.Pending? && final[i].status.Blocked? ==> NamesOwnDependency(final, i))
  }

  class TaskExecutor {
    var block: bool

    method Mark(tasks: array<Task>, index: nat, status: TaskStatus, reason: Reason)
      requires index < tasks.Length
      modifies tasks
      ensures tasks[..] == old(tasks[..])[index := old(tasks[index]).(status := status, failureReason := reason)]
    {
      tasks[index] := tasks[index].(status := status, failureReason := reason);
    }

    method BlockUnrunnable(tasks: array<Task>)
      modifies tasks
      ensures Marked(old(tasks[..]), tasks[..], tasks.Length)
    {
      ghost var before := tasks[..];
      var byId := ById(tasks[..]);
      for index := 0 to tasks.Length
        invariant Marked(before, tasks[..], index)
      {
        ghost var here := tasks[..];
        SameShapeSameLookup(before, here);
        if tasks[index].status.Pending? {
          var reason := BlockReason(tasks[index], tasks[..], byId);
          Mark(tasks, index, Blocked, if reason.Some? then reason.value else Unresolvable);
          MarkStep(before, here, tasks[..], index, reason);
        } else {
          MarkSkip(before, here, index);
        }
      }
    }

    method Run(tasks: array<Task>, planMode: bool, signals: nat -> bool, outcomes: nat -> Outcome)
      returns (completed: nat, ghost started: seq<nat>)
      modifies this, tasks
      ensures Progress(old(tasks[..]), tasks[..])
      ensures completed == Count(tasks[..], Completed)
      ensures StartedInOrder(old(tasks[..]), started) && NeedsMet(tasks[..], started)
      ensures !block ==> Concluded(old(tasks[..]), tasks[..], started)
      ensures !block ==> Recorded(old(tasks[..]), tasks[..], started, outcomes, planMode)
      ensures block && Settled(old(tasks[..])) ==> Settled(tasks[..])
      ensures block <==> !signals(|started|) || (started != [] && outcomes(|started| - 1).MissionAbort?)
    {
      ghost var initial := tasks[..];
      block := false;
      completed := CountCompleted(tasks[..]);
      started := [];
      var round := 0;
      while true
        invariant Running(initial, tasks[..], started)
        invariant round == |started| && Recorded(initial, tasks[..], started, outcomes, planMode)
        invariant round > 0 ==> !outcomes(round - 1).MissionAbort?
        invariant !block && completed == Count(tasks[..], Completed)
        decreases Count(tasks[..], Pending)
      {
        if !signals(round) {
          Interrupted(initial, tasks[..], started);
          block := true;
          break;
        }
        var index := NextRunnable(tasks[..]);
        if index.None? {
          ghost var stuck := tasks[..];
          BlockUnrunnable(tasks);
          Ends(initial, stuck, tasks[..], started, outcomes, planMode);
          break;
        }
        ghost var here, earlier := tasks[..], started;
        var outcome := outcomes(round);
        RunTask(tasks, index.value, outcome, planMode);
        started := started + [index.value];
        round := round + 1;
        if outcome.MissionAbort? {
          Aborted(initial, tasks[..], earlier, index.value);
          block := true;
          break;
        }
        RoundKeeps(initial, here, earlier, index.value, outcomes, planMode);
        if outcome.Succeeded? {
          completed := completed + 1;
        }
      }
    }

    // What becomes of the task that was started.
    method RunTask(tasks: array<Task>, index: nat, outcome: Outcome, planMode: bool)
      requires index < tasks.Length
      modifies tasks
      ensures tasks[..] == if outcome.MissionAbort? then old(tasks[..]) else old(tasks[..])[index := After(old(tasks[index]), outcome, planMode)]
    {
      if !outcome.MissionAbort? {
        var after := After(tasks[index], outcome, planMode);
        Mark(tasks, index, after.status, after.failureReason);
      }
    }
  }

  // What a run leaves that is stopped between two rounds.
  lemma Interrupted(initial: seq<Task>, now: seq<Task>, started: seq<nat>)
    requires Running(initial, now, started)
    ensures NeedsMet(now, started) && (Settled(initial) ==> Settled(now))
  {
    if Settled(initial) {
      forall i | 0 <= i < |now| ensures !now[i].status.Blocked? && (Ran(now[i].status) ==> DependenciesDone(now, i)) {
        if Ran(initial[i].status) { ProgressKeepsDone(initial, now, i); }
      }
    }
  }

  // What a run leaves that is aborted within a round.
  lemma Aborted(initial: seq<Task>, now: seq<Task>, earlier: seq<nat>, index: nat)
    requires Running(initial, now, earlier) && index < |now| && Runnable(now, index)
    ensures StartedInOrder(initial, earlier + [index])
    ensures NeedsMet(now, earlier + [index]) && (Settled(initial) ==> Settled(now))
  {
    StartKeepsOrder(initial, now, earlier, index);
    Interrupted(initial, now, earlier);
  }

  // What a run leaves that has nothing more to start.
  lemma Ends(initial: seq<Task>, stuck: seq<Task>, after: seq<Task>, started: seq<nat>, outcomes: nat -> Outcome, planMode: bool)
    requires Running(initial, stuck, started) && Recorded(initial, stuck, started, outcomes, planMode)
    requires Marked(stuck, after, |stuck|) && forall i: nat :: i < |stuck| ==> !Runnable(stuck, i)
    ensures Concluded(initial, after, started) && Recorded(initial, after, started, outcomes, planMode)
    ensures NeedsMet(after, started) && Count(after, Completed) == Count(stuck, Completed)
  {
    StuckConcludes(initial, stuck, after, started);
    RecordStays(initial, stuck, after, started, outcomes, planMode);
    ConcludedNeedsMet(initial, after, started);
  }

  lemma ConcludedNeedsMet(initial: seq<Task>, final: seq<Task>, started: seq<nat>)
    requires Concluded(initial, final, started) && StartedInOrder(initial, started)
    ensures NeedsMet(final, started)
  {
  }

  lemma RoundKeeps(initial: seq<Task>, here: seq<Task>, started: seq<nat>, index: nat, outcomes: nat -> Outcome, planMode: bool)
    requires Running(initial, here, started) && Recorded(initial, here, started, outcomes, planMode)
    requires index < |here| && Runnable(here, index) && !outcomes(|started|).MissionAbort?
    ensures var after := here[index := After(here[index], outcomes(|started|), planMode)];
            && Running(initial, after, started + [index]) && Recorded(initial, after, started + [index], outcomes, planMode)
            && Count(after, Pending) == Count(here, Pending) - 1
            && Count(after, Completed) == Count(here, Completed) + if outcomes(|started|).Succeeded? then 1 else 0
  {
    StepKeepsRunning(initial, here, started, index, After(here[index], outcomes(|started|), planMode));
    StepRecords(initial, here, started, index, outcomes, planMode);
  }

  method CountCompleted(tasks: seq<Task>) returns (n: nat)
    ensures n == Count(tasks, Completed)
  {
    n := 0;
    for i := 0 to |tasks|
      invariant n == Count(tasks[..i], Completed)
    {
      assert tasks[..i + 1][..i] == tasks[..i];
      if tasks[i].status.Completed? {
        n := n + 1;
      }
    }
    assert tasks[..|tasks|] == tasks;
  }

  lemma ReasonMeaning(before: seq<Task>, here: seq<Task>, index: nat, reason: Option<Reason>)
    requires Marked(before, here, index) && index < |before| && ById(here) == ById(before)
    requires IsBlockReason(here[index], here, ById(before), reason)
    ensures reason.None? <==> forall j: nat :: j < |before| && Needs(before, index, j) ==> !StopsBefore(before, index, j)
  {
    var byId := ById(before);
    forall d | d in before[index].dependencies && d in byId
      ensures Needs(before, index, byId[d])
      ensures Stops(here[byId[d]].status) <==> StopsBefore(before, index, byId[d])
    {
      assert byId[d] < index && before[byId[d]].status.Pending? ==> WellMarked(before, here, byId[d]);
    }
  }

  lemma MarkStays(before: seq<Task>, here: seq<Task>, after: seq<Task>, i: nat)
    requires |before| == |here| && Progress(here, after) && i < |here| && after[i] == here[i]
    requires WellMarked(before, here, i)
    ensures WellMarked(before, after, i)
  {
    SameShapeSameLookup(here, after);
  }

  lemma NamesIt(here: seq<Task>, after: seq<Task>, index: nat, d: string)
    requires index < |here| && here[index].status.Pending? && d in here[index].dependencies
    requires d in ById(here) && Stops(here[ById(here)[d]].status)
    requires after == here[index := here[index].(status := Blocked, failureReason := Naming(d, here[ById(here)[d]].status))]
    ensures NamesOwnDependency(after, index) && !after[index].failureReason.Unresolvable?
  {
    SameShapeSameLookup(here, after);
  }

  lemma NamedDependency(task: Task, tasks: seq<Task>, byId: map<string, nat>, reason: Option<Reason>) returns (d: string)
    requires forall d :: d in byId ==> byId[d] < |tasks|
    requires reason.Some? && IsBlockReason(task, tasks, byId, reason)
    ensures d in task.dependencies && d in byId && Stops(tasks[byId[d]].status) && reason.value == Naming(d, tasks[byId[d]].status)
  {
    var k: nat :| k < |task.dependencies| && task.dependencies[k] in byId && Stops(tasks[byId[task.dependencies[k]]].status)
                  && reason.value == Naming(task.dependencies[k], tasks[byId[task.dependencies[k]]].status);
    d := task.dependencies[k];
  }

  lemma ReasonNames(here: seq<Task>, after: seq<Task>, index: nat, reason: Option<Reason>)
    requires index < |here| && here[index].status.Pending?
    requires reason.Some? && IsBlockReason(here[index], here, ById(here), reason)
    requires after == here[index := here[index].(status := Blocked, failureReason := reason.value)]
    ensures NamesOwnDependency(after, index) && !after[index].failureReason.Unresolvable?
  {
    var d := NamedDependency(here[index], here, ById(here), reason);
    NamesIt(here, after, index, d);
  }

  lemma EarlierMarksStay(before: seq<Task>, here: seq<Task>, after: seq<Task>, index: nat)
    requires Marked(before, here, index) && index < |before| && Progress(here, after)
    requires forall i :: 0 <= i < index ==> after[i] == here[i]
    ensures forall i :: 0 <= i < index && before[i].status.Pending? ==> WellMarked(before, after, i)
  {
    forall i | 0 <= i < index && before[i].status.Pending? ensures WellMarked(before, after, i) {
      MarkStays(before, here, after, i);
    }
  }

  lemma MarkStep(before: seq<Task>, here: seq<Task>, after: seq<Task>, index: nat, reason: Option<Reason>)
    requires Marked(before, here, index) && index < |before| && before[index].status.Pending?
    requires ById(here) == ById(before)
    requires IsBlockReason(here[index], here, ById(before), reason)
    requires after == here[index := here[index].(status := Blocked, failureReason := if reason.Some? then reason.value else Unresolvable)]
    ensures Marked(before, after, index + 1)
  {
    NowMarked(before, here, after, index, reason);
    BlockingIsProgress(here, after, index);
    OneMoreMarked(before, here, after, index);
  }

  lemma BlockingIsProgress(here: seq<Task>, after: seq<Task>, index: nat)
    requires index < |here| == |after| && here[index].status.Pending? && after == here[index := after[index]]
    requires after[index] == here[index].(status := Blocked, failureReason := after[index].failureReason)
    ensures Progress(here, after)
  {
  }

  lemma OneMoreMarked(before: seq<Task>, here: seq<Task>, after: seq<Task>, index: nat)
    requires Marked(before, here, index) && index < |before| && before[index].status.Pending?
    requires Progress(here, after) && after == here[index := after[index]] && WellMarked(before, after, index)
    ensures Marked(before, after, index + 1)
  {
    EarlierMarksStay(before, here, after, index);
  }

  lemma NowMarked(before: seq<Task>, here: seq<Task>, after: seq<Task>, index: nat, reason: Option<Reason>)
    requires Marked(before, here, index) && index < |before| && before[index].status.Pending?
    requires ById(here) == ById(before)
    requires IsBlockReason(here[index], here, ById(before), reason)
    requires after == here[index := here[index].(status := Blocked, failureReason := if reason.Some? then reason.value else Unresolvable)]
    ensures WellMarked(before, after, index)
  {
    ReasonMeaning(before, here, index, reason);
    if reason.Some? { ReasonNames(here, after, index, reason); }
  }

  lemma MarkSkip(before: seq<Task>, here: seq<Task>, index: nat)
    requires Marked(before, here, index) && index < |before| && !before[index].status.Pending?
    ensures Marked(before, here, index + 1)
  {
    forall i | 0 <= i < index + 1 && before[i].status.Pending? ensures WellMarked(before, here, i) {
      assert i < index;
    }
  }

  lemma RunningIsProgress(here: seq<Task>, after: seq<Task>, index: nat)
    requires index < |here| && here[index].status.Pending?
    requires |after| == |here| && after == here[index := after[index]] && SameShape(here, after)
    ensures Progress(here, after)
    ensures forall i :: 0 <= i < |after| && DependenciesDone(here, i) ==> DependenciesDone(after, i)
  {
    forall i | 0 <= i < |after| && DependenciesDone(here, i) ensures DependenciesDone(after, i) {
      ProgressKeepsDone(here, after, i);
    }
  }

  lemma StartKeepsOrder(initial: seq<Task>, here: seq<Task>, started: seq<nat>, index: nat)
    requires Running(initial, here, started)
    requires index < |here| && Runnable(here, index)
    ensures StartedInOrder(initial, started + [index])
  {
    SameShapeSameLookup(initial, here);
    DoneMeansNeedsDone(here, index);
    var s := started + [index];
    forall k, j: nat | 0 <= k < |s| && j < |initial| && Needs(initial, s[k], j)
      ensures initial[j].status.Completed? || j in s[..k]
    {
      if k < |started| {
        assert s[..k] == started[..k];
      } else {
        assert s[..k] == started;
        assert Needs(here, index, j);
      }
    }
  }

  lemma StepKeepsRunning(initial: seq<Task>, here: seq<Task>, started: seq<nat>, index: nat, t: Task)
    requires Running(initial, here, started) && index < |here| && Runnable(here, index)
    requires t == here[index].(status := t.status, failureReason := t.failureReason) && Ran(t.status)
    ensures Running(initial, here[index := t], started + [index])
    ensures Count(here[index := t], Pending) == Count(here, Pending) - 1
    ensures Count(here[index := t], Completed) == Count(here, Completed) + if t.status.Completed? then 1 else 0
  {
    CountUpdate(here, index, t, Completed);
    CountUpdate(here, index, t, Pending);
    RunningIsProgress(here, here[index := t], index);
    StartKeepsOrder(initial, here, started, index);
  }

  lemma StepRecords(initial: seq<Task>, here: seq<Task>, started: seq<nat>, index: nat, outcomes: nat -> Outcome, planMode: bool)
    requires Running(initial, here, started) && Recorded(initial, here, started, outcomes, planMode)
    requires index < |here| && here[index].status.Pending?
    ensures Recorded(initial, here[index := After(here[index], outcomes(|started|), planMode)], started + [index], outcomes, planMode)
  {
    assert initial[index].status.Pending?;
  }

  lemma RecordStays(initial: seq<Task>, stuck: seq<Task>, after: seq<Task>, started: seq<nat>, outcomes: nat -> Outcome, planMode: bool)
    requires Running(initial, stuck, started) && Recorded(initial, stuck, started, outcomes, planMode)
    requires Progress(stuck, after)
    ensures Recorded(initial, after, started, outcomes, planMode)
  {
  }

  lemma StuckConcludes(initial: seq<Task>, stuck: seq<Task>, after: seq<Task>, started: seq<nat>)
    requires Running(initial, stuck, started) && Marked(stuck, after, |stuck|)
    requires forall i: nat :: i < |stuck| ==> !Runnable(stuck, i)
    ensures Concluded(initial, after, started) && Count(after, Completed) == Count(stuck, Completed)
  {
    StuckMeansDecided(initial, stuck, after, started);
    MarksOnlyBlock(stuck, after);
    CountSame(stuck, after);
    if Acyclic(DependencyGraph(initial)) {
      HeldUpFromTheStart(initial, after);
    }
  }

  lemma MarksOnlyBlock(stuck: seq<Task>, after: seq<Task>)
    requires Marked(stuck, after, |stuck|)
    ensures |after| == |stuck|
    ensures forall i :: 0 <= i < |stuck| ==> (Ran(after[i].status) <==> Ran(stuck[i].status))
    ensures forall i :: 0 <= i < |stuck| ==> (stuck[i].status.Completed? <==> after[i].status.Completed?)
  {
    forall i | 0 <= i < |stuck| && stuck[i].status.Pending? ensures after[i].status.Blocked? {
      assert WellMarked(stuck, after, i);
    }
  }

  lemma {:induction false} CountSame(a: seq<Task>, b: seq<Task>)
    requires |a| == |b| && forall i :: 0 <= i < |a| ==> (a[i].status.Completed? <==> b[i].status.Completed?)
    ensures Count(a, Completed) == Count(b, Completed)
  {
    if a != [] {
      CountSame(a[..|a| - 1], b[..|b| - 1]);
    }
  }

  lemma StuckMeansDecided(initial: seq<Task>, stuck: seq<Task>, after: seq<Task>, started: seq<nat>)
    requires Running(initial, stuck, started) && Marked(stuck, after, |stuck|)
    requires forall i: nat :: i < |stuck| ==> !Runnable(stuck, i)
    ensures Decided(initial, after)
    ensures InDependencyOrder(initial) ==>
              forall i: nat :: i < |after| && initial[i].status.Pending? && after[i].status.Blocked? ==> NamesOwnDependency(after, i)
  {
    SameShapeSameLookup(initial, stuck);
    SameShapeSameLookup(stuck, after);
    SameOrder(initial, stuck);
    forall i: nat | i < |after| && initial[i].status.Pending?
      ensures !after[i].status.Pending? && (after[i].status.Blocked? <==> !DependenciesDone(after, i))
      ensures InDependencyOrder(initial) && after[i].status.Blocked? ==> NamesOwnDependency(after, i)
    {
      if stuck[i].status.Pending? {
        LeftOver(stuck, after, i);
      } else {
        ProgressKeepsDone(stuck, after, i);
      }
    }
  }

  lemma SameOrder(initial: seq<Task>, stuck: seq<Task>)
    requires SameShape(initial, stuck) && ById(initial) == ById(stuck)
    ensures InDependencyOrder(initial) ==> InDependencyOrder(stuck)
  {
    if InDependencyOrder(initial) {
      forall i: nat, j: nat | Needs(stuck, i, j) ensures j < i {
        assert Needs(initial, i, j);
      }
    }
  }

  // A task that is pending when no task can run is blocked with a dependency
  // missing, and says which, if dependencies come first in the list.
  lemma LeftOver(stuck: seq<Task>, after: seq<Task>, i: nat)
    requires Marked(stuck, after, |stuck|) && ById(stuck) == ById(after)
    requires i < |stuck| && stuck[i].status.Pending? && !Runnable(stuck, i)
    ensures after[i].status.Blocked? && !DependenciesDone(after, i)
    ensures InDependencyOrder(stuck) ==> NamesOwnDependency(after, i)
  {
    MarksOnlyBlock(stuck, after);
    assert WellMarked(stuck, after, i);
    DoneMeansNeedsDone(stuck, i);
    DoneMeansNeedsDone(after, i);
    var j: nat :| j < |stuck| && Needs(stuck, i, j) && !stuck[j].status.Completed?;
    assert Needs(after, i, j);
    if InDependencyOrder(stuck) {
      assert StopsBefore(stuck, i, j);
    }
  }

  // ----- blocked exactly when something upstream failed -----

  ghost predicate IsChain(tasks: seq<Task>, q: seq<nat>) {
    && (forall k :: 0 <= k < |q| ==> q[k] < |tasks|)
    && (forall k, next :: 0 <= k < next < |q| && next == k + 1 ==> Needs(tasks, q[k], q[next]))
  }

  // Task j is a direct or transitive dependency of task i.
  ghost predicate Upstream(tasks: seq<Task>, i: nat, j: nat) {
    exists q :: |q| >= 2 && IsChain(tasks, q) && q[0] == i && q[|q| - 1] == j
  }

  lemma SubChain(tasks: seq<Task>, q: seq<nat>, from: nat)
    requires IsChain(tasks, q) && from <= |q|
    ensures IsChain(tasks, q[from..])
  {
    var r := q[from..];
    forall k, next | 0 <= k < next < |r| && next == k + 1 ensures Needs(tasks, r[k], r[next]) {
      assert r[k] == q[from + k] && r[next] == q[from + next];
    }
  }

  // All on the chain but its last task were pending when the run began.
  ghost predicate Waits(initial: seq<Task>, q: seq<nat>) {
    forall k :: 0 <= k < |q| - 1 && q[k] < |initial| ==> initial[q[k]].status.Pending?
  }

  // Task j failed, now or earlier, or was blocked before the run began.
  ghost predicate Stopper(initial: seq<Task>, final: seq<Task>, j: nat) {
    j < |initial| == |final| && (final[j].status.Failed? || initial[j].status.Blocked?)
  }

  ghost predicate HoldsUp(initial: seq<Task>, final: seq<Task>, q: seq<nat>) {
    |q| >= 2 && IsChain(final, q) && Waits(initial, q) && Stopper(initial, final, q[|q| - 1])
  }

  ghost predicate HeldUp(initial: seq<Task>, final: seq<Task>, i: nat) {
    exists q :: HoldsUp(initial, final, q) && q[0] == i
  }

  lemma {:induction false} StopperBlocksDownstream(initial: seq<Task>, final: seq<Task>, q: seq<nat>)
    requires Decided(initial, final) && HoldsUp(initial, final, q)
    ensures final[q[0]].status.Blocked?
    decreases |q|
  {
    assert Needs(final, q[0], q[1]);
    if |q| > 2 {
      SubChain(final, q, 1);
      StopperBlocksDownstream(initial, final, q[1..]);
    }
    DoneMeansNeedsDone(final, q[0]);
  }

  // A chain of tasks that returns to its start is a closed path of ids.
  lemma ChainMakesClosedPath(tasks: seq<Task>, q: seq<nat>)
    requires IsChain(tasks, q) && |q| >= 2 && q[0] == q[|q| - 1]
    ensures !Acyclic(DependencyGraph(tasks))
  {
    var g := DependencyGraph(tasks);
    var byId := ById(tasks);
    var p := seq(|q|, k requires 0 <= k < |q| => tasks[q[k]].id);
    forall k | 0 <= k < |q| ensures p[k] in byId && byId[p[k]] == q[k] {
      var target := if k == 0 then |q| - 1 else k;
      assert Needs(tasks, q[target - 1], q[target - 1 + 1]);
    }
    forall k | 0 <= k < |p| - 1 ensures Edge(g, p[k], p[k + 1]) {
      assert Needs(tasks, q[k], q[k + 1]);
      var d :| d in tasks[q[k]].dependencies && d in byId && byId[d] == q[k + 1];
      assert d == p[k + 1];
      assert tasks[q[k + 1]] in tasks && tasks[q[k]] in tasks;
    }
    assert ClosedPath(g, p);
  }

  function Indices(tasks: seq<Task>): set<int> {
    set k: int | 0 <= k < |tasks| && InRange(k)
  }

  function Members(q: seq<nat>): set<int> {
    set k: nat | k in q
  }

  predicate InRange(k: int) { true }

  // Follow unfinished dependencies until one was stopped for a reason of its own.
  lemma {:induction false} FindStopper(initial: seq<Task>, final: seq<Task>, q: seq<nat>) returns (found: seq<nat>)
    requires Decided(initial, final) && Acyclic(DependencyGraph(final))
    requires |q| >= 1 && IsChain(final, q) && forall k :: 0 <= k < |q| ==> initial[q[k]].status.Pending?
    requires final[q[|q| - 1]].status.Blocked?
    ensures HoldsUp(initial, final, found) && found[0] == q[0]
    decreases Indices(final) - Members(q)
  {
    var j := MissingDependency(final, q);
    found := q + [j];
    assert Waits(initial, found);
    if !Stopper(initial, final, j) {
      NotOnChain(final, q, j);
      assert InRange(j) && j in Indices(final) - Members(q);
      assert Members(found) == Members(q) + {j};
      found := FindStopper(initial, final, found);
    }
  }

  lemma MissingDependency(tasks: seq<Task>, q: seq<nat>) returns (j: nat)
    requires q != [] && IsChain(tasks, q) && !DependenciesDone(tasks, q[|q| - 1])
    ensures j < |tasks| && IsChain(tasks, q + [j]) && !tasks[j].status.Completed?
  {
    DoneMeansNeedsDone(tasks, q[|q| - 1]);
    j :| j < |tasks| && Needs(tasks, q[|q| - 1], j) && !tasks[j].status.Completed?;
    ChainGrows(tasks, q, j);
  }

  lemma NotOnChain(tasks: seq<Task>, q: seq<nat>, j: nat)
    requires Acyclic(DependencyGraph(tasks)) && IsChain(tasks, q + [j])
    ensures j !in q
  {
    if j in q {
      var s :| 0 <= s < |q| && q[s] == j;
      SubChain(tasks, q + [j], s);
      ChainMakesClosedPath(tasks, (q + [j])[s..]);
    }
  }

  lemma ChainGrows(tasks: seq<Task>, q: seq<nat>, j: nat)
    requires q != [] && IsChain(tasks, q) && j < |tasks| && Needs(tasks, q[|q| - 1], j)
    ensures IsChain(tasks, q + [j])
  {
  }

  // A task that was pending ends up blocked exactly when it waits, directly or
  // through others that waited too, for one that failed or was blocked before.
  lemma BlockedExactlyWhenHeldUp(initial: seq<Task>, final: seq<Task>, i: nat)
    requires Decided(initial, final) && Acyclic(DependencyGraph(initial))
    requires i < |final| && initial[i].status.Pending?
    ensures final[i].status.Blocked? <==> HeldUp(initial, final, i)
  {
    SameShapeSameGraph(initial, final);
    if final[i].status.Blocked? {
      var q := FindStopper(initial, final, [i]);
      assert HoldsUp(initial, final, q);
    }
    if HeldUp(initial, final, i) {
      var q :| HoldsUp(initial, final, q) && q[0] == i;
      StopperBlocksDownstream(initial, final, q);
    }
  }

  ghost predicate UpstreamFailed(tasks: seq<Task>, i: nat) {
    exists j: nat :: j < |tasks| && Upstream(tasks, i, j) && tasks[j].status.Failed?
  }

  lemma {:induction false} FailureHoldsUp(initial: seq<Task>, final: seq<Task>, q: seq<nat>)
    requires Settled(initial) && Decided(initial, final) && |q| >= 2 && IsChain(final, q) && final[q[|q| - 1]].status.Failed?
    ensures Waits(initial, q) && final[q[0]].status.Blocked?
    decreases |q|
  {
    assert Needs(final, q[0], q[1]);
    if |q| > 2 {
      SubChain(final, q, 1);
      FailureHoldsUp(initial, final, q[1..]);
      assert forall k :: 1 <= k < |q| ==> q[1..][k - 1] == q[k];
    }
    DoneMeansNeedsDone(final, q[0]);
    if !initial[q[0]].status.Pending? {
      ProgressKeepsDone(initial, final, q[0]);
    }
  }

  // From a settled list, a task ends up blocked exactly when a direct or
  // transitive dependency failed.
  lemma BlockedExactlyWhenUpstreamFailed(initial: seq<Task>, final: seq<Task>, i: nat)
    requires Settled(initial) && Decided(initial, final) && Acyclic(DependencyGraph(initial)) && i < |final|
    ensures final[i].status.Blocked? <==> UpstreamFailed(final, i)
  {
    if final[i].status.Blocked? {
      BlockedExactlyWhenHeldUp(initial, final, i);
      var q :| HoldsUp(initial, final, q) && q[0] == i;
      assert Upstream(final, i, q[|q| - 1]);
    }
    if j: nat :| j < |final| && Upstream(final, i, j) && final[j].status.Failed? {
      var q :| |q| >= 2 && IsChain(final, q) && q[0] == i && q[|q| - 1] == j;
      FailureHoldsUp(initial, final, q);
    }
  }

  lemma SameShapeSameGraph(a: seq<Task>, b: seq<Task>)
    requires SameShape(a, b)
    ensures DependencyGraph(a) == DependencyGraph(b)
  {
    SameShapeSameLookup(a, b);
    SameShapeSameIds(a, b);
  }

  lemma SameShapeSameIds(a: seq<Task>, b: seq<Task>)
    requires SameShape(a, b)
    ensures TaskIds(a) == TaskIds(b)
  {
    forall id ensures id in TaskIds(a) <==> id in TaskIds(b) {
      if t :| t in a && t.id == id {
        var i :| 0 <= i < |a| && a[i] == t;
        assert b[i] in b && b[i].id == id;
      }
      if t :| t in b && t.id == id {
        var i :| 0 <= i < |b| && b[i] == t;
        assert a[i] in a && a[i].id == id;
      }
    }
  }

  lemma HeldUpFromTheStart(initial: seq<Task>, final: seq<Task>)
    requires Decided(initial, final) && Acyclic(DependencyGraph(initial))
    ensures forall i: nat :: i < |final| && initial[i].status.Pending? ==> (final[i].status.Blocked? <==> HeldUp(initial, final, i))
  {
    forall i: nat | i < |final| && initial[i].status.Pending? ensures final[i].status.Blocked? <==> HeldUp(initial, final, i) {
      BlockedExactlyWhenHeldUp(initial, final, i);
    }
  }

  // ----- what a run keeps, and when it completes everything -----

  lemma {:induction false} SameShapeSameClaims(a: seq<Task>, b: seq<Task>)
    requires SameShape(a, b)
    ensures Claims(a) == Claims(b)
  {
    if a != [] {
      SameShapeSameClaims(a[..|a| - 1], b[..|b| - 1]);
    }
  }

  // A run changes no plan: if it was valid, it stays so.
  lemma SameShapeSamePlan(operationIds: seq<string>, a: seq<Task>, b: seq<Task>)
    requires SameShape(a, b) && ValidPlan(operationIds, a)
    ensures ValidPlan(operationIds, b)
  {
    SameShapeSameClaims(a, b);
    SameShapeSameIds(a, b);
    SameShapeSameGraph(a, b);
    forall t | t in b ensures DependsOnOthers(t, TaskIds(b)) {
      var i :| 0 <= i < |b| && b[i] == t;
      assert DependsOnOthers(a[i], TaskIds(a));
    }
  }

  ghost predicate AllCompleted(tasks: seq<Task>) {
    forall i :: 0 <= i < |tasks| ==> tasks[i].status.Completed?
  }

  ghost predicate NoneStoppedYet(tasks: seq<Task>) {
    forall i :: 0 <= i < |tasks| ==> !Stops(tasks[i].status)
  }

  // A concluded run completes every task exactly when none had stopped before
  // and all it started succeeded.
  lemma AllCompletedExactlyWhen(initial: seq<Task>, final: seq<Task>, started: seq<nat>, outcomes: nat -> Outcome, planMode: bool)
    requires Concluded(initial, final, started) && StartedInOrder(initial, started)
    requires Recorded(initial, final, started, outcomes, planMode)
    requires Acyclic(DependencyGraph(initial))
    ensures AllCompleted(final) <==> NoneStoppedYet(initial) && forall k: nat :: k < |started| ==> outcomes(k).Succeeded?
  {
    if AllCompleted(final) {
      forall k: nat | k < |started| ensures outcomes(k).Succeeded? {
        assert final[started[k]] == After(initial[started[k]], outcomes(k), planMode);
      }
    }
    if NoneStoppedYet(initial) && forall k: nat :: k < |started| ==> outcomes(k).Succeeded? {
      forall i: nat | i < |final| ensures !Stopper(initial, final, i) {
        if i in started {
          var k: nat :| k < |started| && started[k] == i;
          assert final[started[k]] == After(initial[started[k]], outcomes(k), planMode);
        }
      }
      NothingHeldUp(initial, final);
    }
  }

  lemma NothingHeldUp(initial: seq<Task>, final: seq<Task>)
    requires |initial| == |final| && forall j: nat :: !Stopper(initial, final, j)
    ensures forall i: nat :: !HeldUp(initial, final, i)
  {
  }
}
