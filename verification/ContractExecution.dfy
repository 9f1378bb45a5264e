// The single execution lease and the calls that interleave on it, one lock
// section at a time (src/mission_orchestrator/application/contract_execution.py).
module ContractExecution {
  import opened Workplan
  import Session

  datatype Actor = Mission | Chat | Mcp
  datatype ExecutionStatus = ActiveLease | CompletedLease | BlockedLease | AmendmentLease
  datatype ProjectChecks = NotRun | Ran(configured: bool, passed: bool)

  datatype Execution = Execution(
    id: string,
    actor: Actor,
    task: string,
    status: ExecutionStatus,
    verifier: Option<bool>,
    checks: ProjectChecks,
    patches: nat)

  type Records = seq<Execution>

  // ----- what the lock sections do to the list of executions -----

  predicate MayBegin(actor: Actor, stage: Session.Stage, status: TaskStatus) {
    if actor.Mission? then (stage.TaskReview? || stage.BlockedStage?) && (status.Pending? || status.Failed?)
    else stage.Ready? && status.Pending?
  }

  // The newest active execution; there is at most one, but the code scans.
  function ActiveIndex(records: Records): (r: Option<nat>)
    ensures r.Some? ==> r.value < |records| && records[r.value].status.ActiveLease?
    ensures r.Some? ==> forall k :: r.value < k < |records| ==> !records[k].status.ActiveLease?
    ensures r.None? ==> forall k :: 0 <= k < |records| ==> !records[k].status.ActiveLease?
  {
    if records == [] then None
    else if records[|records| - 1].status.ActiveLease? then Some(|records| - 1)
    else ActiveIndex(records[..|records| - 1])
  }

  predicate Holds(records: Records, id: string) {
    ActiveIndex(records).Some? && records[ActiveIndex(records).value].id == id
  }

  function Change(records: Records, id: string, e: Execution): Records
    requires Holds(records, id)
  {
    records[ActiveIndex(records).value := e]
  }

  function Held(records: Records, id: string): Execution
    requires Holds(records, id)
  {
    records[ActiveIndex(records).value]
  }

  // complete() lets a chat execution pass only after configured checks have passed.
  predicate ReadyToComplete(e: Execution) {
    e.actor.Chat? ==> e.checks.Ran? && e.checks.configured && e.checks.passed
  }

  datatype ExecutionError = LeaseHeld | StageForbids | NotActive | ChecksMissing | NeedsChat | CommitFailed | BlankDetail

  datatype SectionResult = Accepted | Denied(error: ExecutionError)

  // ----- interleavings of the lock sections -----

  // How far a call of complete has come, for its execution id.
  datatype CompleteCall = Entered(id: string) | Passed(id: string)

  datatype State = State(records: Records, calls: map<nat, CompleteCall>)

  datatype Event =
    | Begin(id: string, actor: Actor, task: string, stage: Session.Stage, status: TaskStatus)
    | Validate(id: string, passed: bool)
    | Enter(call: nat, id: string)
    | ValidateIn(call: nat, passed: bool)
    | Finish(call: nat, committed: bool)
    | End(id: string, blocked: bool)
    | Checks(id: string, configured: bool, passed: bool)
    | Patch(id: string)

  const EMPTY := State([], map[])

  function Validated(records: Records, id: string, passed: bool): Records {
    if Holds(records, id) then Change(records, id, Held(records, id).(verifier := Some(passed))) else records
  }

  // One lock section.  A section whose check fails raises: the records stay,
  // and a call of complete is over.
  function Step(s: State, e: Event): State {
    match e
    case Begin(id, actor, task, stage, status) =>
      if ActiveIndex(s.records).None? && MayBegin(actor, stage, status)
      then s.(records := s.records + [Execution(id, actor, task, ActiveLease, None, NotRun, 0)]) else s
    case Validate(id, passed) => s.(records := Validated(s.records, id, passed))
    case Enter(c, id) =>
      if c !in s.calls && Holds(s.records, id) && ReadyToComplete(Held(s.records, id)) then s.(calls := s.calls[c := Entered(id)]) else s
    case ValidateIn(c, passed) =>
      if c in s.calls && s.calls[c].Entered? then
        var id := s.calls[c].id;
        State(Validated(s.records, id, passed),
              if Holds(s.records, id) && passed then s.calls[c := Passed(id)] else s.calls - {c})
      else s
    case Finish(c, committed) =>
      if c in s.calls && s.calls[c].Passed? then
        State(if Holds(s.records, s.calls[c].id) && committed
              then Change(s.records, s.calls[c].id, Held(s.records, s.calls[c].id).(status := CompletedLease)) else s.records,
              s.calls - {c})
      else s
    case End(id, blocked) =>
      if Holds(s.records, id)
      then s.(records := Change(s.records, id, Held(s.records, id).(status := if blocked then BlockedLease else AmendmentLease))) else s
    case Checks(id, configured, passed) =>
      if Holds(s.records, id) && Held(s.records, id).actor.Chat?
      then s.(records := Change(s.records, id, Held(s.records, id).(checks := Ran(configured, configured && passed)))) else s
    case Patch(id) =>
      if Holds(s.records, id) && Held(s.records, id).actor.Chat?
      then s.(records := Change(s.records, id, Held(s.records, id).(patches := Held(s.records, id).patches + 1))) else s
  }

  // ----- the service: one method for each lock section -----

  class ContractExecutionService {
    var executions: Records

    constructor ()
      ensures executions == []
    {
      executions := [];
    }

    // The reversed scan of _active.
    method Active() returns (index: Option<nat>)
      ensures index == ActiveIndex(executions)
    {
      var i: nat := |executions|;
      assert executions[..i] == executions;
      while i > 0
        invariant i <= |executions|
        invariant ActiveIndex(executions) == ActiveIndex(executions[..i])
      {
        i := i - 1;
        assert executions[..i + 1][..i] == executions[..i];
        if executions[i].status.ActiveLease? {
          return Some(i);
        }
      }
      return None;
    }

    method RequireActive(id: string) returns (index: Option<nat>)
      ensures index.Some? <==> Holds(executions, id)
      ensures index.Some? ==> index == ActiveIndex(executions)
    {
      index := Active();
      if index.Some? && executions[index.value].id != id {
        return None;
      }
    }

    method Begin(id: string, actor: Actor, task: string, stage: Session.Stage, status: TaskStatus) returns (r: SectionResult)
      modifies this
      ensures r.Accepted? <==> ActiveIndex(old(executions)).None? && MayBegin(actor, stage, status)
      ensures executions == Step(State(old(executions), map[]), Event.Begin(id, actor, task, stage, status)).records
    {
      var active := Active();
      if active.Some? {
        return Denied(LeaseHeld);
      }
      if !MayBegin(actor, stage, status) {
        return Denied(StageForbids);
      }
      executions := executions + [Execution(id, actor, task, ActiveLease, None, NotRun, 0)];
      return Accepted;
    }

    // `passed` is the verdict of the contract verifier.
    method Validate(id: string, passed: bool) returns (r: SectionResult)
      modifies this
      ensures r.Accepted? <==> Holds(old(executions), id)
      ensures executions == Step(State(old(executions), map[]), Event.Validate(id, passed)).records
    {
      var index := RequireActive(id);
      if index.None? {
        return Denied(NotActive);
      }
      executions := executions[index.value := executions[index.value].(verifier := Some(passed))];
      return Accepted;
    }

    // The first section of complete.
    method CompleteEntry(id: string) returns (r: SectionResult)
      ensures r.Accepted? <==> Step(State(executions, map[]), Enter(0, id)).calls == map[0 := Entered(id)]
    {
      var index := RequireActive(id);
      if index.None? {
        return Denied(NotActive);
      }
      var e := executions[index.value];
      if e.actor.Chat? && (!e.checks.Ran? || !e.checks.configured || !e.checks.passed) {
        return Denied(ChecksMissing);
      }
      return Accepted;
    }

    // The last section of complete; `committed` says whether staging, commit
    // and the workflow updates succeeded.
    method CompleteFinish(id: string, committed: bool) returns (r: SectionResult)
      modifies this
      ensures r.Accepted? <==> Holds(old(executions), id) && committed
      ensures executions == Step(State(old(executions), map[0 := Passed(id)]), Finish(0, committed)).records
    {
      var index := RequireActive(id);
      if index.None? {
        return Denied(NotActive);
      }
      if !committed {
        return Denied(CommitFailed);
      }
      executions := executions[index.value := executions[index.value].(status := CompletedLease)];
      return Accepted;
    }

    // report_blocker and propose_amendment.
    method End(id: string, blocked: bool, blankDetail: bool) returns (r: SectionResult)
      modifies this
      ensures r.Accepted? <==> !blankDetail && Holds(old(executions), id)
      ensures executions == if blankDetail then old(executions) else Step(State(old(executions), map[]), Event.End(id, blocked)).records
    {
      if blankDetail {
        return Denied(BlankDetail);
      }
      var index := RequireActive(id);
      if index.None? {
        return Denied(NotActive);
      }
      executions := executions[index.value := executions[index.value].(status := if blocked then BlockedLease else AmendmentLease)];
      return Accepted;
    }

    method RunChecks(id: string, configured: bool, passed: bool) returns (r: SectionResult)
      modifies this
      ensures r.Accepted? <==> Holds(old(executions), id) && Held(old(executions), id).actor.Chat?
      ensures executions == Step(State(old(executions), map[]), Event.Checks(id, configured, passed)).records
    {
      var index := RequireActive(id);
      if index.None? {
        return Denied(NotActive);
      }
      if !executions[index.value].actor.Chat? {
        return Denied(NeedsChat);
      }
      executions := executions[index.value := executions[index.value].(checks := Ran(configured, configured && passed))];
      return Accepted;
    }
  }

  // ----- runs -----

  function After(events: seq<Event>): State {
    if events == [] then EMPTY else Step(After(events[..|events| - 1]), events[|events| - 1])
  }

  // ----- one lease at a time, for ever -----

  // Only the last record can be active.
  ghost predicate SingleLease(records: Records) {
    forall i :: 0 <= i < |records| - 1 ==> !records[i].status.ActiveLease?
  }

  // From one moment to a later one: records keep their identity, ended records are frozen.
  ghost predicate Later(before: Records, after: Records) {
    && |before| <= |after|
    && (forall i :: 0 <= i < |before| ==> after[i].id == before[i].id && after[i].actor == before[i].actor && after[i].task == before[i].task)
    && (forall i :: 0 <= i < |before| && !before[i].status.ActiveLease? ==> after[i] == before[i])
  }

  lemma StepKeepsLease(s: State, e: Event)
    requires SingleLease(s.records)
    ensures SingleLease(Step(s, e).records) && Later(s.records, Step(s, e).records)
  {
  }

  lemma {:induction false} AtMostOneLease(events: seq<Event>)
    ensures SingleLease(After(events).records)
  {
    if events != [] {
      AtMostOneLease(events[..|events| - 1]);
      StepKeepsLease(After(events[..|events| - 1]), events[|events| - 1]);
    }
  }

  lemma LaterTransitive(a: Records, b: Records, c: Records)
    requires Later(a, b) && Later(b, c)
    ensures Later(a, c)
  {
  }

  lemma OneStepLater(events: seq<Event>, n: nat)
    requires 0 < n <= |events|
    ensures Later(After(events[..n - 1]).records, After(events[..n]).records)
  {
    assert events[..n][..n - 1] == events[..n - 1];
    AtMostOneLease(events[..n - 1]);
    StepKeepsLease(After(events[..n - 1]), events[n - 1]);
  }

  // From the m-th event to the n-th, records are frozen once they have ended.
  ghost predicate Frozen(events: seq<Event>, m: nat, n: nat) {
    m <= |events| && n <= |events| && Later(After(events[..m]).records, After(events[..n]).records)
  }

  lemma FrozenStill(events: seq<Event>, m: nat, n: nat)
    requires m < n <= |events| && Frozen(events, m, n - 1)
    ensures Frozen(events, m, n)
  {
    OneStepLater(events, n);
    LaterTransitive(After(events[..m]).records, After(events[..n - 1]).records, After(events[..n]).records);
  }

  lemma FrozenAtOnce(events: seq<Event>, m: nat)
    requires m <= |events|
    ensures Frozen(events, m, m)
  {
  }

  lemma {:induction false} EndedStaysEnded(events: seq<Event>, m: nat, n: nat)
    requires m <= n <= |events|
    ensures Frozen(events, m, n)
    decreases n
  {
    if m < n {
      EndedStaysEnded(events, m, n - 1);
      FrozenStill(events, m, n);
    } else {
      FrozenAtOnce(events, m);
    }
  }

  // ----- what each section does to the records -----

  // A lease is opened, as a new record with nothing on it, exactly when none is
  // active and the actor may begin: the mission while its task is reviewed or
  // blocked, on a task that is pending or failed; the others while the mission
  // is ready, on a pending task.
  lemma BeginMeaning(s: State, id: string, actor: Actor, task: string, stage: Session.Stage, status: TaskStatus)
    ensures var after := Step(s, Begin(id, actor, task, stage, status)).records;
            var free := forall i :: 0 <= i < |s.records| ==> !s.records[i].status.ActiveLease?;
            var permitted := (actor == Mission && stage in {Session.TaskReview, Session.BlockedStage} && status in {Pending, Failed})
                             || (actor != Mission && stage == Session.Ready && status == Pending);
            && (free && permitted ==> after == s.records + [Execution(id, actor, task, ActiveLease, None, NotRun, 0)])
            && (!(free && permitted) ==> after == s.records)
  {
  }

  // Only the active record may change, and only if it is that execution's.
  ghost predicate ChangesActive(before: Records, after: Records, id: string, now: Execution -> Execution) {
    |after| == |before| && forall i :: 0 <= i < |before| ==>
      after[i] == if before[i].status.ActiveLease? && before[i].id == id then now(before[i]) else before[i]
  }

  // A blocker ends the execution as blocked, an amendment as amended.
  lemma EndMeaning(s: State, id: string, blocked: bool)
    requires SingleLease(s.records)
    ensures ChangesActive(s.records, Step(s, End(id, blocked)).records, id,
                          (e: Execution) => e.(status := if blocked then BlockedLease else AmendmentLease))
  {
  }

  // The other sections: the verdict, the checks, a patch, the completion.
  lemma ValidateMeaning(s: State, id: string, passed: bool)
    requires SingleLease(s.records)
    ensures ChangesActive(s.records, Step(s, Validate(id, passed)).records, id, (e: Execution) => e.(verifier := Some(passed)))
  {
  }

  lemma ChecksMeaning(s: State, id: string, configured: bool, passed: bool)
    requires SingleLease(s.records)
    ensures ChangesActive(s.records, Step(s, Checks(id, configured, passed)).records, id,
                          (e: Execution) => if e.actor == Chat then e.(checks := Ran(configured, configured && passed)) else e)
    ensures ChangesActive(s.records, Step(s, Patch(id)).records, id, (e: Execution) => if e.actor == Chat then e.(patches := e.patches + 1) else e)
  {
  }

  // A call of complete goes from its entry over its own validation to its end,
  // and is over at the first section that refuses it.
  lemma CompleteMeaning(s: State, c: nat, id: string, good: bool)
    requires SingleLease(s.records)
    ensures var held := exists i :: 0 <= i < |s.records| && s.records[i].status.ActiveLease? && s.records[i].id == id;
            && (c in s.calls && s.calls[c] == Entered(id) ==>
                  var t := Step(s, ValidateIn(c, good));
                  && ChangesActive(s.records, t.records, id, (e: Execution) => e.(verifier := Some(good)))
                  && t.calls == if held && good then s.calls[c := Passed(id)] else s.calls - {c})
            && (c in s.calls && s.calls[c] == Passed(id) ==>
                  var t := Step(s, Finish(c, good));
                  && ChangesActive(s.records, t.records, id, (e: Execution) => if good then e.(status := CompletedLease) else e)
                  && t.calls == s.calls - {c})
  {
  }

  // ----- a completed execution was held from its call's own passing validation -----

  ghost predicate DistinctIds(records: Records) {
    forall i, j :: 0 <= i < j < |records| ==> records[i].id != records[j].id
  }

  // The call's state goes back to its own passing validation.
  lemma {:induction false} PassedHasOrigin(events: seq<Event>, n: nat, c: nat) returns (m: nat)
    requires n <= |events| && c in After(events[..n]).calls && After(events[..n]).calls[c].Passed?
    ensures m < n && events[m] == ValidateIn(c, true)
    ensures var s := After(events[..m]);
            c in s.calls && s.calls[c] == Entered(After(events[..n]).calls[c].id) && Holds(s.records, After(events[..n]).calls[c].id)
  {
    assert n > 0;
    assert events[..n][..n - 1] == events[..n - 1];
    var s := After(events[..n - 1]);
    if c in s.calls && s.calls[c].Passed? && s.calls[c] == After(events[..n]).calls[c] {
      m := PassedHasOrigin(events, n - 1, c);
    } else {
      m := n - 1;
    }
  }

  // An execution active at two moments was active throughout.
  lemma HeldThroughout(events: seq<Event>, id: string, m: nat, k: nat, n: nat)
    requires m <= k <= n <= |events|
    requires Holds(After(events[..m]).records, id) && Holds(After(events[..n]).records, id)
    requires DistinctIds(After(events[..n]).records)
    ensures Holds(After(events[..k]).records, id)
  {
    var a, b, d := After(events[..m]).records, After(events[..k]).records, After(events[..n]).records;
    EndedStaysEnded(events, m, k);
    EndedStaysEnded(events, k, n);
    AtMostOneLease(events[..k]);
    var i, j := ActiveIndex(a).value, ActiveIndex(d).value;
    assert b[i].id == a[i].id && d[i].id == b[i].id;
    assert i == j;
    assert b[i].status.ActiveLease?;
  }

  lemma FinishReleases(s: State, c: nat)
    requires SingleLease(s.records) && c in s.calls && s.calls[c].Passed? && Holds(s.records, s.calls[c].id)
    ensures var t := Step(s, Finish(c, true));
            && ActiveIndex(t.records).None? && |t.records| == |s.records|
            && t.records[|t.records| - 1] == Held(s.records, s.calls[c].id).(status := CompletedLease)
  {
  }

  // If a call of complete finishes an execution, then that call itself
  // validated it with success earlier, and the lease was held at every moment
  // from then on.
  lemma CompletionWasValidated(events: seq<Event>, n: nat, c: nat) returns (m: nat)
    requires n < |events| && c in After(events[..n]).calls && After(events[..n]).calls[c].Passed?
    requires Holds(After(events[..n]).records, After(events[..n]).calls[c].id)
    requires DistinctIds(After(events[..n]).records)
    ensures var id := After(events[..n]).calls[c].id;
            && m < n && events[m] == ValidateIn(c, true)
            && c in After(events[..m]).calls && After(events[..m]).calls[c] == Entered(id)
            && (forall k :: m <= k <= n ==> Holds(After(events[..k]).records, id))
  {
    var id := After(events[..n]).calls[c].id;
    m := PassedHasOrigin(events, n, c);
    forall k | m <= k <= n ensures Holds(After(events[..k]).records, id) {
      HeldThroughout(events, id, m, k, n);
    }
  }

  // ----- whose verdict a completed execution carries -----

  // The verdict that event e writes on the active execution, if it writes one.
  function Verdict(s: State, e: Event): Option<bool> {
    match e
    case Validate(id, passed) => if Holds(s.records, id) then Some(passed) else None
    case ValidateIn(c, passed) =>
      if c in s.calls && s.calls[c].Entered? && Holds(s.records, s.calls[c].id) then Some(passed) else None
    case _ => None
  }

  // The last verdict written since the active execution began.
  function LastVerdict(events: seq<Event>): Option<bool> {
    if events == [] then None
    else
      var front := events[..|events| - 1];
      var e := events[|events| - 1];
      if Verdict(After(front), e).Some? then Verdict(After(front), e)
      else if e.Begin? && |After(events).records| > |After(front).records| then None
      else LastVerdict(front)
  }

  lemma StepCarriesVerdict(s: State, e: Event)
    requires SingleLease(s.records) && ActiveIndex(Step(s, e).records).Some?
    ensures var t := Step(s, e);
            && t.records != [] && (|t.records| > |s.records| ==> e.Begin?)
            && (Verdict(s, e).None? && |t.records| == |s.records| ==> ActiveIndex(s.records).Some?)
            && t.records[|t.records| - 1].verifier ==
               if Verdict(s, e).Some? then Verdict(s, e)
               else if |t.records| > |s.records| then None
               else s.records[|s.records| - 1].verifier
  {
    if s.records != [] && ActiveIndex(s.records).Some? {
      assert ActiveIndex(s.records).value == |s.records| - 1;
    }
  }

  ghost predicate CarriesVerdict(events: seq<Event>) {
    var records := After(events).records;
    records != [] && records[|records| - 1].verifier == LastVerdict(events)
  }

  // Any caller may overwrite the verdict: the active execution carries the last one.
  lemma {:induction false} ActiveCarriesLastVerdict(events: seq<Event>)
    requires ActiveIndex(After(events).records).Some?
    ensures CarriesVerdict(events)
  {
    var front, e := events[..|events| - 1], events[|events| - 1];
    AtMostOneLease(front);
    StepCarriesVerdict(After(front), e);
    if Verdict(After(front), e).None? && |After(events).records| == |After(front).records| {
      ActiveCarriesLastVerdict(front);
    }
    OneMoreVerdict(events);
  }

  lemma OneMoreVerdict(events: seq<Event>)
    requires events != [] && ActiveIndex(After(events).records).Some?
    requires var front, e := events[..|events| - 1], events[|events| - 1];
             Verdict(After(front), e).None? && |After(events).records| == |After(front).records| ==> CarriesVerdict(front)
    ensures CarriesVerdict(events)
  {
    var front, e := events[..|events| - 1], events[|events| - 1];
    AtMostOneLease(front);
    StepCarriesVerdict(After(front), e);
  }

  // So a completed execution is recorded as verified exactly when the last
  // validation before its completion passed, whoever asked for it.
  lemma CompletedVerdict(events: seq<Event>, c: nat)
    requires c in After(events).calls && After(events).calls[c].Passed?
    requires Holds(After(events).records, After(events).calls[c].id)
    ensures var records := After(events + [Finish(c, true)]).records;
            && records != [] && records[|records| - 1].status.CompletedLease?
            && (records[|records| - 1].verifier == Some(true) <==> LastVerdict(events) == Some(true))
  {
    assert (events + [Finish(c, true)])[..|events|] == events;
    AtMostOneLease(events);
    ActiveCarriesLastVerdict(events);
    FinishReleases(After(events), c);
  }

  // And that verdict can be a failure, although the completing call saw a pass.
  lemma CompletedWithFailedVerdict()
    ensures exists events: seq<Event>, c: nat ::
              && c in After(events).calls && After(events).calls[c].Passed? && Holds(After(events).records, After(events).calls[c].id)
              && LastVerdict(events) == Some(false)
  {
    var begin := [Begin("x", Mcp, "T1", Session.Stage.Ready, Pending)];
    var entered := begin + [Enter(0, "x")];
    var passed := entered + [ValidateIn(0, true)];
    var overruled := passed + [Validate("x", false)];
    assert begin[..0] == [] && entered[..1] == begin && passed[..2] == entered && overruled[..3] == passed;
    assert After(begin).records == [Execution("x", Mcp, "T1", ActiveLease, None, NotRun, 0)];
    assert After(entered).calls == map[0 := Entered("x")];
    assert After(passed).calls == map[0 := Passed("x")];
    assert Holds(After(overruled).records, "x");
  }

  // ----- what a completed chat execution was checked for -----

  // Only the last section of complete completes anything, and only the active execution.
  lemma OnlyFinishCompletes(s: State, e: Event, i: nat)
    requires SingleLease(s.records) && i < |s.records| && !s.records[i].status.CompletedLease?
    requires Later(s.records, Step(s, e).records) && Step(s, e).records[i].status.CompletedLease?
    ensures e.Finish? && e.committed && e.call in s.calls && s.calls[e.call] == Passed(s.records[i].id)
    ensures Holds(s.records, s.records[i].id) && ActiveIndex(s.records) == Some(i)
    ensures Step(s, e).records[i] == s.records[i].(status := CompletedLease)
  {
  }

  // The call's state goes back to a first section that it passed.
  lemma {:induction false} EnteredHasOrigin(events: seq<Event>, n: nat, c: nat) returns (m: nat)
    requires n <= |events| && c in After(events[..n]).calls && After(events[..n]).calls[c].Entered?
    ensures var id := After(events[..n]).calls[c].id;
            && m < n && events[m] == Enter(c, id)
            && Holds(After(events[..m]).records, id) && ReadyToComplete(Held(After(events[..m]).records, id))
  {
    assert n > 0;
    assert events[..n][..n - 1] == events[..n - 1];
    var s := After(events[..n - 1]);
    if c in s.calls && s.calls[c] == After(events[..n]).calls[c] {
      m := EnteredHasOrigin(events, n - 1, c);
    } else {
      m := n - 1;
    }
  }

  // What the last run of the checks of one execution came to, if there was any.
  function LastChecks(events: seq<Event>, id: string): ProjectChecks {
    if events == [] then NotRun
    else
      match events[|events| - 1]
      case Checks(checked, configured, passed) =>
        if checked == id then Ran(configured, configured && passed) else LastChecks(events[..|events| - 1], id)
      case _ => LastChecks(events[..|events| - 1], id)
  }

  // The checks a record carries that had `first` when `last` ran, if any did.
  function Carried(first: ProjectChecks, last: ProjectChecks): ProjectChecks {
    if last.NotRun? then first else last
  }

  function ChecksAfter(e: Event, id: string, last: ProjectChecks): ProjectChecks {
    if e.Checks? && e.id == id then Ran(e.configured, e.configured && e.passed) else last
  }

  lemma StepCarriesChecks(s: State, e: Event, id: string, first: ProjectChecks, last: ProjectChecks)
    requires SingleLease(s.records) && Holds(s.records, id) && Held(s.records, id).actor.Chat? && Holds(Step(s, e).records, id)
    requires Held(s.records, id).checks == Carried(first, last)
    ensures Held(Step(s, e).records, id).actor.Chat?
    ensures Held(Step(s, e).records, id).checks == Carried(first, ChecksAfter(e, id, last))
  {
  }

  lemma LastChecksGrows(events: seq<Event>, m: nat, n: nat, id: string)
    requires m < n <= |events|
    ensures LastChecks(events[m..n], id) == ChecksAfter(events[n - 1], id, LastChecks(events[m..n - 1], id))
  {
    assert events[m..n][..n - m - 1] == events[m..n - 1];
  }

  lemma AfterStep(events: seq<Event>, n: nat)
    requires 0 < n <= |events|
    ensures After(events[..n]) == Step(After(events[..n - 1]), events[n - 1]) && SingleLease(After(events[..n - 1]).records)
  {
    assert events[..n][..n - 1] == events[..n - 1];
    AtMostOneLease(events[..n - 1]);
  }

  ghost predicate HeldAt(events: seq<Event>, id: string, k: nat) {
    k <= |events| && Holds(After(events[..k]).records, id)
  }

  // Active at both moments, the chat execution carries at the second the last
  // checks that ran in between.
  ghost predicate CarriesChecks(events: seq<Event>, id: string, m: nat, n: nat) {
    && m <= n && HeldAt(events, id, m) && HeldAt(events, id, n) && Held(After(events[..n]).records, id).actor.Chat?
    && Held(After(events[..n]).records, id).checks == Carried(Held(After(events[..m]).records, id).checks, LastChecks(events[m..n], id))
  }

  ghost predicate HeldFrom(events: seq<Event>, id: string, m: nat, n: nat) {
    forall k :: m <= k <= n ==> HeldAt(events, id, k)
  }

  lemma {:induction false} ActiveCarriesChecks(events: seq<Event>, id: string, m: nat, n: nat)
    requires HeldAt(events, id, m) && Held(After(events[..m]).records, id).actor.Chat?
    requires m <= n && HeldFrom(events, id, m, n)
    ensures CarriesChecks(events, id, m, n)
    decreases n
  {
    if m < n {
      HeldShorter(events, id, m, n);
      ActiveCarriesChecks(events, id, m, n - 1);
      OneMoreCarries(events, id, m, n);
    } else {
      CarriesAtOnce(events, id, m);
    }
  }

  lemma HeldShorter(events: seq<Event>, id: string, m: nat, n: nat)
    requires m < n && HeldFrom(events, id, m, n)
    ensures HeldFrom(events, id, m, n - 1) && HeldAt(events, id, n)
  {
  }

  lemma CarriesAtOnce(events: seq<Event>, id: string, m: nat)
    requires HeldAt(events, id, m) && Held(After(events[..m]).records, id).actor.Chat?
    ensures CarriesChecks(events, id, m, m)
  {
    assert events[m..m] == [];
  }

  lemma OneMoreCarries(events: seq<Event>, id: string, m: nat, n: nat)
    requires m < n && CarriesChecks(events, id, m, n - 1) && HeldAt(events, id, n)
    ensures CarriesChecks(events, id, m, n)
  {
    AfterStep(events, n);
    LastChecksGrows(events, m, n, id);
    StepCarriesChecks(After(events[..n - 1]), events[n - 1], id, Held(After(events[..m]).records, id).checks, LastChecks(events[m..n - 1], id));
  }

  lemma SameRecord(events: seq<Event>, id: string, i: nat, m: nat, n: nat)
    requires m <= n <= |events| && Holds(After(events[..m]).records, id)
    requires ActiveIndex(After(events[..n]).records) == Some(i) && Holds(After(events[..n]).records, id)
    requires DistinctIds(After(events[..n]).records)
    ensures Held(After(events[..m]).records, id).actor == After(events[..n]).records[i].actor
  {
    EndedStaysEnded(events, m, n);
    var j := ActiveIndex(After(events[..m]).records).value;
    assert After(events[..n]).records[j].id == id;
    assert j == i;
  }

  // Whenever a chat execution becomes completed, a call of complete does it
  // that saw configured, passed checks when it began; and the record carries
  // them still, exactly unless checks ran again meanwhile and the last failed.
  lemma ChatCompletionWasChecked(events: seq<Event>, n: nat, i: nat) returns (c: nat, m: nat)
    requires n < |events| && i < |After(events[..n]).records| && DistinctIds(After(events[..n]).records)
    requires After(events[..n]).records[i].actor.Chat? && !After(events[..n]).records[i].status.CompletedLease?
    requires i < |After(events[..n + 1]).records| && After(events[..n + 1]).records[i].status.CompletedLease?
    ensures var id := After(events[..n]).records[i].id;
            && events[n] == Finish(c, true) && m < n && events[m] == Enter(c, id)
            && Holds(After(events[..m]).records, id) && Held(After(events[..m]).records, id).checks == Ran(true, true)
            && (After(events[..n + 1]).records[i].checks == Ran(true, true) <==>
                LastChecks(events[m..n], id).NotRun? || LastChecks(events[m..n], id) == Ran(true, true))
  {
    var s := After(events[..n]);
    var id := s.records[i].id;
    assert events[..n + 1][..n] == events[..n];
    AtMostOneLease(events[..n]);
    StepKeepsLease(s, events[n]);
    OnlyFinishCompletes(s, events[n], i);
    c := events[n].call;
    var v := PassedHasOrigin(events, n, c);
    m := EnteredHasOrigin(events, v, c);
    forall k | m <= k <= n ensures HeldAt(events, id, k) {
      HeldThroughout(events, id, m, k, n);
    }
    SameRecord(events, id, i, m, n);
    ActiveCarriesChecks(events, id, m, n);
  }

  function ChatRecord(status: ExecutionStatus, verifier: Option<bool>, checks: ProjectChecks, patches: nat): Execution {
    Execution("x", Chat, "T1", status, verifier, checks, patches)
  }

  const CHECKED: seq<Event> := [Begin("x", Chat, "T1", Session.Stage.Ready, Pending), Checks("x", true, true), Enter(0, "x")]

  lemma CheckedCallEnters()
    ensures After(CHECKED) == State([ChatRecord(ActiveLease, None, Ran(true, true), 0)], map[0 := Entered("x")])
  {
    assert CHECKED[..2][..1][..0] == [] && CHECKED[..2][..1] == CHECKED[..1];
    assert After(CHECKED[..1]).records == [ChatRecord(ActiveLease, None, NotRun, 0)];
    assert After(CHECKED[..2]).records == [ChatRecord(ActiveLease, None, Ran(true, true), 0)];
  }

  lemma Appended(events: seq<Event>, e: Event)
    ensures After(events + [e]) == Step(After(events), e)
  {
    assert (events + [e])[..|events|] == events;
  }

  // Such a record: the checks fail after complete has looked at them, and a
  // patch is applied after that.
  lemma CompletedWithFailedChecks()
    ensures After(CHECKED + [Checks("x", true, false)] + [Patch("x")] + [ValidateIn(0, true)] + [Finish(0, true)]).records ==
            [ChatRecord(CompletedLease, Some(true), Ran(true, false), 1)]
  {
    CheckedCallEnters();
    Appended(CHECKED, Checks("x", true, false));
    Appended(CHECKED + [Checks("x", true, false)], Patch("x"));
    Appended(CHECKED + [Checks("x", true, false)] + [Patch("x")], ValidateIn(0, true));
    Appended(CHECKED + [Checks("x", true, false)] + [Patch("x")] + [ValidateIn(0, true)], Finish(0, true));
  }
}
