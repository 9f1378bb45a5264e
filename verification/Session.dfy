// The mission session: its stages, the compare-and-set store, and the code
// points of the coordinators that save it.  Any number of calls interleave,
// each holding the copy it loaded (src/mission_orchestrator/domain/session.py,
// application/preparation_coordinator.py, application/interactive_task_coordinator.py,
// application/contract_execution.py, application/control_plane.py).
module Session {
  import opened Workplan

  datatype Stage =
    | Draft | Researching | ResearchReview | Grilling | DesignReview | Structuring | WorkplanReview
    | Ready | TaskPreparation | TaskReview | Executing | Reconciling | Paused | AmendmentReview
    | CompletedStage | BlockedStage

  function Transitions(stage: Stage): set<Stage> {
    match stage
    case Draft => {Researching, BlockedStage}
    case Researching => {ResearchReview, BlockedStage}
    case ResearchReview => {Researching, Grilling, DesignReview, BlockedStage}
    case Grilling => {DesignReview, BlockedStage}
    case DesignReview => {Grilling, Structuring, BlockedStage}
    case Structuring => {WorkplanReview, BlockedStage}
    case WorkplanReview => {Structuring, Ready, BlockedStage}
    case Ready => {TaskPreparation, AmendmentReview, CompletedStage, BlockedStage}
    case TaskPreparation => {TaskReview, BlockedStage}
    case TaskReview => {TaskPreparation, Executing, AmendmentReview, BlockedStage}
    case Executing => {Reconciling, Paused, BlockedStage}
    case Reconciling => {Ready, AmendmentReview, CompletedStage, BlockedStage}
    case Paused => {Ready, AmendmentReview, BlockedStage}
    case AmendmentReview => {Structuring, Ready, BlockedStage}
    case BlockedStage => {Draft, TaskPreparation, Paused, Executing}
    case CompletedStage => {}
  }

  // The phases whose marker "phase=..." a blocked reason may contain, which of
  // them comes first, and whether it mentions unresolved changeset issues.
  datatype Phase = ResearchPhase | GrillPhase | StructurePhase | SpecPhase | PlanPhase | ReviewPhase | OtherPhase
  datatype BlockNote = BlockNote(markers: set<Phase>, leading: Option<Phase>, unresolved: bool)

  const NO_NOTE := BlockNote({}, None, false)

  datatype MissionSession = MissionSession(
    missionId: string,
    stage: Stage,
    revision: nat,
    activePhase: string,
    activeTask: string,
    pendingInteraction: string,
    snapshot: string,
    note: BlockNote)

  function NewSession(missionId: string): MissionSession {
    MissionSession(missionId, Draft, 0, "", "", "", "", NO_NOTE)
  }

  // move_to: None where the source raises.
  function MoveTo(s: MissionSession, stage: Stage, activePhase: string, activeTask: Option<string>, snapshot: Option<string>, note: BlockNote)
    : (r: Option<MissionSession>)
    ensures r.Some? <==> stage in Transitions(s.stage)
    ensures r.Some? ==> && r.value.stage == stage && r.value.revision == s.revision + 1 && r.value.missionId == s.missionId
                        && (snapshot.None? ==> r.value.snapshot == s.snapshot)
                        && (snapshot.Some? ==> r.value.snapshot == snapshot.value)
                        && (activeTask.None? ==> r.value.activeTask == s.activeTask)
                        && (activeTask.Some? ==> r.value.activeTask == activeTask.value)
                        && r.value.activePhase == activePhase && r.value.pendingInteraction == "" && r.value.note == note
  {
    if stage !in Transitions(s.stage) then None
    else Some(s.(stage := stage, revision := s.revision + 1, activePhase := activePhase,
                 activeTask := if activeTask.None? then s.activeTask else activeTask.value,
                 pendingInteraction := "",
                 snapshot := if snapshot.None? then s.snapshot else snapshot.value,
                 note := note))
  }

  function Touch(s: MissionSession): MissionSession {
    s.(revision := s.revision + 1)
  }

  // ----- the compare-and-set store -----

  datatype SaveResult = Saved | SessionConflict(current: nat) | WrongRevision | ForeignSession

  class FilesystemMissionSessionStore {
    var stored: Option<MissionSession>

    method Load(missionId: string) returns (r: Option<MissionSession>)
      ensures stored.None? ==> r == Some(NewSession(missionId))
      ensures stored.None? ==>
                && r.value.missionId == missionId && r.value.stage.Draft? && r.value.revision == 0 && r.value.note == NO_NOTE
                && r.value.activeTask == r.value.activePhase == r.value.snapshot == r.value.pendingInteraction == ""
      ensures stored.Some? ==> r == if stored.value.missionId == missionId then stored else None
    {
      if stored.None? {
        return Some(NewSession(missionId));
      }
      if stored.value.missionId != missionId {
        return None;
      }
      return stored;
    }

    // The revision that a save must build on.
    ghost function Revision(): nat
      reads this
    {
      if stored.None? then 0 else stored.value.revision
    }

    method Save(session: MissionSession, expectedRevision: nat) returns (r: SaveResult)
      modifies this
      ensures r.Saved? <==> && (old(stored).None? || old(stored).value.missionId == session.missionId)
                            && old(Revision()) == expectedRevision && session.revision == expectedRevision + 1
      ensures stored == if r.Saved? then Some(session) else old(stored)
      ensures r.Saved? ==> Revision() == old(Revision()) + 1
      ensures r.SessionConflict? ==> r.current == old(Revision()) != expectedRevision
      ensures r.ForeignSession? <==> old(stored).Some? && old(stored).value.missionId != session.missionId
      ensures !r.Saved? && !r.ForeignSession? ==> (r.WrongRevision? <==> old(Revision()) == expectedRevision)
    {
      var current := Load(session.missionId);
      if current.None? {
        return ForeignSession;
      }
      if current.value.revision != expectedRevision {
        return SessionConflict(current.value.revision);
      }
      if session.revision != expectedRevision + 1 {
        return WrongRevision;
      }
      stored := Some(session);
      return Saved;
    }
  }

  // ----- the code points at which a coordinator saves -----

  datatype Action =
    | SaveIdea | RunResearch | RunGrill | SkipGrill | ApproveDesign | RetryDesign | RetryBlocked
    | ApproveExecution | RequestAmendment
    | PrepareNext | ExecutePrepared | RetryReview | RetryPreparation
    | CompleteContract | RecordAmendment

  datatype Point =
    | Loaded(action: Action)
    | AtResearch | AtSkippedGrill | AtGrill | AtStructure
    | AtPreparation | AtExecution | AtReconciliation | AtPause
    | Done

  const TASK_MARKERS: set<Phase> := {SpecPhase, PlanPhase, ReviewPhase}

  // The notes that a block raised before a work plan is approved may carry:
  // a parameter of everything below.
  type Notes = set<BlockNote>

  // None of them contains the marker of a task phase.
  predicate Markerless(early: Notes) {
    forall note :: note in early ==> note.markers !! TASK_MARKERS
  }

  ghost predicate Blocks(held: MissionSession, updated: MissionSession) {
    MoveTo(held, BlockedStage, "", None, None, updated.note) == Some(updated)
  }

  ghost predicate Moves(held: MissionSession, stage: Stage, updated: MissionSession) {
    MoveTo(held, stage, updated.activePhase, Some(updated.activeTask), None, NO_NOTE) == Some(updated)
  }

  // At `point`, holding `held`, the code may save `updated` and go on at `next`.
  ghost predicate Attempt(early: Notes, point: Point, held: MissionSession, updated: MissionSession, next: Point) {
    match point
    case Loaded(SaveIdea) => held.stage.Draft? && updated == Touch(held) && next == Done
    case Loaded(RunResearch) =>
      (held.stage.Draft? || held.stage.ResearchReview?) && Moves(held, Researching, updated) && next == AtResearch
    case AtResearch =>
      || (Blocks(held, updated) && updated.note in early && next == Done)
      || (Moves(held, ResearchReview, updated) && (next == Done || next == AtSkippedGrill))
    case AtSkippedGrill => Moves(held, DesignReview, updated) && next == Done
    case Loaded(RunGrill) =>
      (held.stage.ResearchReview? || held.stage.DesignReview?) && Moves(held, Grilling, updated) && next == AtGrill
    case AtGrill =>
      || (Blocks(held, updated) && updated.note in early && next == Done)
      || (Moves(held, DesignReview, updated) && next == Done)
    case Loaded(SkipGrill) => held.stage.ResearchReview? && Moves(held, DesignReview, updated) && next == Done
    case Loaded(ApproveDesign) =>
      && (held.stage.DesignReview? || held.stage.AmendmentReview?)
      && MoveTo(held, Structuring, "structure", None, Some(updated.snapshot), NO_NOTE) == Some(updated) && next == AtStructure
    case AtStructure =>
      || (Blocks(held, updated) && updated.note in early && next == Done)
      || (Moves(held, WorkplanReview, updated) && next == Done)
    case Loaded(RetryDesign) =>
      held.stage.BlockedStage? && held.note.unresolved && Moves(held, DesignReview, updated) && next == Loaded(ApproveDesign)
    case Loaded(RetryBlocked) =>
      && held.stage.BlockedStage?
      && (|| (held.note.leading == Some(ResearchPhase) && Moves(held, Draft, updated) && next == Loaded(RunResearch))
          || (held.note.leading == Some(GrillPhase) && Moves(held, ResearchReview, updated) && next == Loaded(RunGrill))
          || ((held.note.leading == Some(StructurePhase) || held.note.unresolved)
              && held.note.unresolved && Moves(held, DesignReview, updated) && next == Loaded(ApproveDesign)))
    case Loaded(ApproveExecution) => held.stage.WorkplanReview? && Moves(held, Ready, updated) && next == Done
    case Loaded(RequestAmendment) =>
      (held.stage.Ready? || held.stage.TaskReview? || held.stage.Paused?) && Moves(held, AmendmentReview, updated) && next == Done
    case Loaded(RecordAmendment) =>
      (held.stage.Ready? || held.stage.TaskReview? || held.stage.Paused?) && Moves(held, AmendmentReview, updated) && next == Done
    case Loaded(PrepareNext) =>
      && held.stage.Ready?
      && (|| (Moves(held, CompletedStage, updated) && next == Done)
          || (Blocks(held, updated) && next == Done)
          || (Moves(held, TaskPreparation, updated) && next == AtPreparation))
    case AtPreparation =>
      || (Blocks(held, updated) && next == Done)
      || (Moves(held, TaskReview, updated) && next == Done)
    case Loaded(ExecutePrepared) => held.stage.TaskReview? && Moves(held, Executing, updated) && next == AtExecution
    case AtExecution =>
      || (Blocks(held, updated) && next == Done)
      || (Moves(held, Paused, updated) && next == AtPause)
      || (Moves(held, Reconciling, updated) && next == AtReconciliation)
    case AtReconciliation =>
      || (Moves(held, Paused, updated) && next == AtPause)
      || (Blocks(held, updated) && next == Done)
      || (Moves(held, Ready, updated) && next == Done)
      || (Moves(held, CompletedStage, updated) && next == Done)
    case AtPause => Moves(held, AmendmentReview, updated) && next == Done
    case Loaded(RetryReview) =>
      held.stage.BlockedStage? && ReviewPhase in held.note.markers && Moves(held, Executing, updated) && next == AtExecution
    case Loaded(RetryPreparation) =>
      && held.stage.BlockedStage? && (SpecPhase in held.note.markers || PlanPhase in held.note.markers)
      && Moves(held, TaskPreparation, updated) && next == AtPreparation
    case Loaded(CompleteContract) => (Moves(held, CompletedStage, updated) || updated == Touch(held)) && next == Done
    case Done => false
  }

  // ----- runs: loads, saves and abandoned calls, in any interleaving -----

  datatype Call = Call(point: Point, held: MissionSession)

  // The sessions stored so far, and the copies that unfinished calls hold.
  datatype State = State(history: seq<MissionSession>, calls: map<nat, Call>)

  datatype Event = Load(call: nat, action: Action) | Save(saver: nat, updated: MissionSession, next: Point) | Drop(gone: nat)

  function Initial(missionId: string): State {
    State([NewSession(missionId)], map[])
  }

  function Stored(s: State): MissionSession
    requires s.history != []
  {
    s.history[|s.history| - 1]
  }

  // The store's condition for accepting a save.
  predicate Accepts(stored: MissionSession, held: MissionSession, updated: MissionSession) {
    stored.missionId == updated.missionId && stored.revision == held.revision && updated.revision == held.revision + 1
  }

  ghost predicate Next(early: Notes, s: State, e: Event, t: State)
    requires s.history != []
  {
    match e
    case Load(c, action) => t == State(s.history, s.calls[c := Call(Loaded(action), Stored(s))])
    case Save(c, updated, next) =>
      && c in s.calls
      && Attempt(early, s.calls[c].point, s.calls[c].held, updated, next)
      && Accepts(Stored(s), s.calls[c].held, updated)
      && t == State(s.history + [updated], s.calls[c := Call(next, updated)])
    case Drop(c) => t == State(s.history, s.calls - {c})
  }

  ghost predicate Steps(early: Notes, s: State, t: State) {
    s.history != [] && exists e :: Next(early, s, e, t)
  }

  ghost predicate IsRun(early: Notes, missionId: string, run: seq<State>) {
    && run != [] && run[0] == Initial(missionId)
    && forall i, j :: 0 <= i < j < |run| && j == i + 1 ==> Steps(early, run[i], run[j])
  }

  ghost predicate Reachable(early: Notes, missionId: string, s: State) {
    exists run :: IsRun(early, missionId, run) && run[|run| - 1] == s
  }

  // ----- what every reachable state satisfies -----

  // The snapshot that was current when execution was last approved.
  function ApprovedSnapshot(history: seq<MissionSession>): Option<string> {
    if |history| < 2 then None
    else
      var n := |history| - 1;
      if history[n].stage.Ready? && history[n - 1].stage.WorkplanReview? then Some(history[n - 1].snapshot)
      else ApprovedSnapshot(history[..n])
  }

  predicate UnderApproval(stage: Stage) {
    stage.Ready? || stage.TaskPreparation? || stage.TaskReview? || stage.Executing? || stage.Reconciling?
    || stage.Paused? || stage.CompletedStage?
  }

  ghost predicate GovernedAt(history: seq<MissionSession>, i: nat)
    requires i < |history|
  {
    UnderApproval(history[i].stage) ==> ApprovedSnapshot(history[..i + 1]) == Some(history[i].snapshot)
  }

  ghost predicate Governed(history: seq<MissionSession>) {
    forall i :: 0 <= i < |history| ==> GovernedAt(history, i)
  }

  // A blocked session that a task phase may resume still carries the approved snapshot.
  ghost predicate ResumableAt(history: seq<MissionSession>, i: nat)
    requires i < |history|
  {
    history[i].stage.BlockedStage? && !(history[i].note.markers !! TASK_MARKERS) ==>
      ApprovedSnapshot(history[..i + 1]) == Some(history[i].snapshot)
  }

  // One save: a move in the table, or a touch that changes nothing but the revision.
  predicate Follows(a: MissionSession, b: MissionSession) {
    && b.revision == a.revision + 1 && b.missionId == a.missionId
    && (b == a.(revision := a.revision + 1) || b.stage in Transitions(a.stage))
  }

  ghost predicate Chained(history: seq<MissionSession>) {
    && history != [] && history[0].revision == 0
    && (forall i :: 0 <= i < |history| ==> history[i].revision == i)
    && (forall i, j :: 0 <= i < j < |history| && j == i + 1 ==> Follows(history[i], history[j]))
  }

  // A copy is some stored session: its revision says which.
  predicate HoldsStored(history: seq<MissionSession>, held: MissionSession) {
    held.revision < |history| && history[held.revision] == held
  }

  predicate AtItsStage(c: Call) {
    match c.point
    case AtResearch => c.held.stage.Researching?
    case AtSkippedGrill => c.held.stage.ResearchReview?
    case AtGrill => c.held.stage.Grilling?
    case AtStructure => c.held.stage.Structuring?
    case AtPreparation => c.held.stage.TaskPreparation?
    case AtExecution => c.held.stage.Executing?
    case AtReconciliation => c.held.stage.Reconciling?
    case AtPause => c.held.stage.Paused?
    case _ => true
  }

  ghost predicate Sound(s: State) {
    && Chained(s.history)
    && (forall c :: c in s.calls ==> HoldsStored(s.history, s.calls[c].held) && AtItsStage(s.calls[c]))
  }

  ghost predicate Guarded(s: State) {
    Sound(s) && Governed(s.history) && forall i :: 0 <= i < |s.history| ==> ResumableAt(s.history, i)
  }

  // Whatever a call may attempt is one legal save away from its copy.
  lemma AttemptFollows(early: Notes, point: Point, held: MissionSession, updated: MissionSession, next: Point)
    requires Attempt(early, point, held, updated, next) && AtItsStage(Call(point, held))
    ensures Follows(held, updated) && AtItsStage(Call(next, updated))
  {
  }

  // A successful save was computed from the session it replaces, even though
  // other calls may have saved in between.
  lemma SavedCopyIsFresh(early: Notes, s: State, e: Event, t: State)
    requires Sound(s) && e.Save? && Next(early, s, e, t)
    ensures s.calls[e.saver].held == Stored(s)
    ensures Attempt(early, s.calls[e.saver].point, Stored(s), e.updated, e.next) && AtItsStage(s.calls[e.saver])
    ensures Follows(Stored(s), e.updated) && AtItsStage(Call(e.next, e.updated))
    ensures t.history == s.history + [e.updated]
  {
    var c := s.calls[e.saver];
    assert HoldsStored(s.history, c.held) && AtItsStage(c);
    AttemptFollows(early, c.point, c.held, e.updated, e.next);
  }

  lemma ChainGrows(history: seq<MissionSession>, updated: MissionSession)
    requires Chained(history) && Follows(history[|history| - 1], updated)
    ensures Chained(history + [updated])
  {
  }

  lemma StepKeepsSound(early: Notes, s: State, t: State)
    requires Sound(s) && Steps(early, s, t)
    ensures Sound(t) && s.history <= t.history && |t.history| <= |s.history| + 1
  {
    var e :| Next(early, s, e, t);
    if e.Save? {
      SavedCopyIsFresh(early, s, e, t);
      ChainGrows(s.history, e.updated);
      forall c | c in t.calls ensures HoldsStored(t.history, t.calls[c].held) && AtItsStage(t.calls[c]) {
        assert c != e.saver ==> HoldsStored(s.history, s.calls[c].held) && AtItsStage(s.calls[c]);
      }
    }
  }

  predicate Resumable(s: MissionSession) {
    s.stage.BlockedStage? && !(s.note.markers !! TASK_MARKERS)
  }

  // Where the stages under approval can be entered from, and when a block may be resumed.
  lemma AttemptOrigin(early: Notes, point: Point, held: MissionSession, updated: MissionSession, next: Point)
    requires Markerless(early) && Attempt(early, point, held, updated, next) && AtItsStage(Call(point, held))
    ensures UnderApproval(updated.stage) || Resumable(updated) ==>
              && updated.snapshot == held.snapshot
              && if held.stage.WorkplanReview? then updated.stage.Ready?
                 else UnderApproval(held.stage) || Resumable(held)
  {
  }

  lemma ApprovalAfterSave(history: seq<MissionSession>, updated: MissionSession)
    requires history != []
    ensures ApprovedSnapshot(history + [updated]) ==
            if updated.stage.Ready? && history[|history| - 1].stage.WorkplanReview? then Some(history[|history| - 1].snapshot)
            else ApprovedSnapshot(history)
  {
    assert (history + [updated])[..|history|] == history;
  }

  lemma SaveKeepsGoverned(early: Notes, history: seq<MissionSession>, point: Point, updated: MissionSession, next: Point)
    requires history != []
    requires GovernedAt(history, |history| - 1) && ResumableAt(history, |history| - 1)
    requires Markerless(early) && Attempt(early, point, history[|history| - 1], updated, next) && AtItsStage(Call(point, history[|history| - 1]))
    ensures GovernedAt(history + [updated], |history|) && ResumableAt(history + [updated], |history|)
  {
    AttemptOrigin(early, point, history[|history| - 1], updated, next);
    ApprovalAfterSave(history, updated);
    assert history[..|history|] == history;
    assert (history + [updated])[..|history| + 1] == history + [updated];
  }

  lemma OlderEntriesKeep(history: seq<MissionSession>, updated: MissionSession, i: nat)
    requires i < |history| && GovernedAt(history, i) && ResumableAt(history, i)
    ensures GovernedAt(history + [updated], i) && ResumableAt(history + [updated], i)
  {
    assert (history + [updated])[..i + 1] == history[..i + 1];
  }

  lemma StepKeepsGuarded(early: Notes, s: State, t: State)
    requires Markerless(early) && Guarded(s) && Steps(early, s, t)
    ensures Guarded(t)
  {
    StepKeepsSound(early, s, t);
    var e :| Next(early, s, e, t);
    if e.Save? {
      SavedCopyIsFresh(early, s, e, t);
      HistoryStaysGoverned(early, s.history, s.calls[e.saver].point, e.updated, e.next);
    }
  }

  lemma HistoryStaysGoverned(early: Notes, history: seq<MissionSession>, point: Point, updated: MissionSession, next: Point)
    requires history != [] && Governed(history) && forall i :: 0 <= i < |history| ==> ResumableAt(history, i)
    requires Markerless(early) && Attempt(early, point, history[|history| - 1], updated, next) && AtItsStage(Call(point, history[|history| - 1]))
    ensures Governed(history + [updated])
    ensures forall i :: 0 <= i < |history| + 1 ==> ResumableAt(history + [updated], i)
  {
    SaveKeepsGoverned(early, history, point, updated, next);
    forall i | 0 <= i < |history| ensures GovernedAt(history + [updated], i) && ResumableAt(history + [updated], i) {
      OlderEntriesKeep(history, updated, i);
    }
  }

  lemma {:induction false} RunStaysGuarded(early: Notes, missionId: string, run: seq<State>)
    requires Markerless(early) && IsRun(early, missionId, run)
    ensures Guarded(run[|run| - 1])
  {
    var n := |run| - 1;
    if n > 0 {
      assert IsRun(early, missionId, run[..n]);
      RunStaysGuarded(early, missionId, run[..n]);
      assert Steps(early, run[n - 1], run[n]);
      StepKeepsGuarded(early, run[n - 1], run[n]);
    }
  }

  lemma {:induction false} RunStaysSound(early: Notes, missionId: string, run: seq<State>)
    requires IsRun(early, missionId, run)
    ensures Sound(run[|run| - 1])
  {
    var n := |run| - 1;
    if n > 0 {
      assert IsRun(early, missionId, run[..n]);
      RunStaysSound(early, missionId, run[..n]);
      assert Steps(early, run[n - 1], run[n]);
      StepKeepsSound(early, run[n - 1], run[n]);
    }
  }

  // In every interleaving: the i-th stored session has revision i, each save is
  // a touch or a move in the table, and a completed mission stays completed.
  lemma RevisionsCountSaves(early: Notes, missionId: string, s: State, i: nat, j: nat)
    requires Reachable(early, missionId, s) && i < j < |s.history|
    ensures s.history[i].revision == i && s.history[j].revision == j
    ensures Follows(s.history[i], s.history[i + 1])
    ensures s.history[i].stage.CompletedStage? ==> s.history[j].stage.CompletedStage?
  {
    var run :| IsRun(early, missionId, run) && run[|run| - 1] == s;
    RunStaysSound(early, missionId, run);
    if s.history[i].stage.CompletedStage? { CompletedStays(s.history, i, j); }
  }

  lemma {:induction false} CompletedStays(history: seq<MissionSession>, i: nat, j: nat)
    requires Chained(history) && i <= j < |history| && history[i].stage.CompletedStage?
    ensures history[j].stage.CompletedStage?
    decreases j
  {
    if i < j {
      CompletedStays(history, i, j - 1);
      assert Follows(history[j - 1], history[j]);
    }
  }

  // ----- the snapshot property, and exactly when it holds -----

  ghost predicate AlwaysGoverned(early: Notes, missionId: string) {
    forall s :: Reachable(early, missionId, s) ==> Governed(s.history)
  }

  lemma {:induction false} ExtendRun(early: Notes, missionId: string, s: State, t: State)
    requires Reachable(early, missionId, s) && Steps(early, s, t)
    ensures Reachable(early, missionId, t)
  {
    var run :| IsRun(early, missionId, run) && run[|run| - 1] == s;
    var longer := run + [t];
    assert longer[|longer| - 1] == t;
    assert IsRun(early, missionId, longer);
  }

  // A state in which one call, holding the stored session, is under way.
  function Solo(history: seq<MissionSession>, point: Point): State
    requires history != []
  {
    State(history, map[0 := Call(point, history[|history| - 1])])
  }

  lemma SoloLoads(early: Notes, missionId: string, history: seq<MissionSession>, point: Point, action: Action)
    requires history != [] && Reachable(early, missionId, Solo(history, point))
    ensures Reachable(early, missionId, Solo(history, Loaded(action)))
  {
    var s, t := Solo(history, point), Solo(history, Loaded(action));
    assert t.calls == s.calls[0 := Call(Loaded(action), Stored(s))];
    assert Next(early, s, Load(0, action), t);
    ExtendRun(early, missionId, s, t);
  }

  lemma SoloSaves(early: Notes, missionId: string, history: seq<MissionSession>, point: Point, updated: MissionSession, next: Point)
    requires history != [] && Reachable(early, missionId, Solo(history, point))
    requires Attempt(early, point, history[|history| - 1], updated, next)
    requires updated.missionId == history[|history| - 1].missionId && updated.revision == history[|history| - 1].revision + 1
    ensures Reachable(early, missionId, Solo(history + [updated], next))
  {
    var s, t := Solo(history, point), Solo(history + [updated], next);
    assert t.calls == s.calls[0 := Call(next, updated)];
    assert Next(early, s, Save(0, updated, next), t);
    ExtendRun(early, missionId, s, t);
  }

  function At(missionId: string, stage: Stage, revision: nat, task: string, snapshot: string, note: BlockNote): MissionSession {
    MissionSession(missionId, stage, revision, if stage.Structuring? then "structure" else "", task, "", snapshot, note)
  }

  // ----- one call after the other, each on the session stored last -----

  lemma AttemptRevises(early: Notes, point: Point, held: MissionSession, updated: MissionSession, next: Point)
    requires Attempt(early, point, held, updated, next)
    ensures updated.missionId == held.missionId && updated.revision == held.revision + 1
  {
  }

  lemma SoloBegins(early: Notes, missionId: string, history: seq<MissionSession>, action: Action)
    requires history == [NewSession(missionId)]
    ensures Reachable(early, missionId, Solo(history, Loaded(action)))
  {
    var s, t := Initial(missionId), Solo(history, Loaded(action));
    assert IsRun(early, missionId, [s]) && [s][|[s]| - 1] == s;
    assert Next(early, s, Load(0, action), t);
    ExtendRun(early, missionId, s, t);
  }

  // The k-th save of a walk is made at before[k] and goes on at after[k];
  // either the call before it goes on, or a new one starts.
  ghost predicate WalkStep(early: Notes, history: seq<MissionSession>, before: seq<Point>, after: seq<Point>, k: nat)
    requires 0 < k < |history| == |before| == |after|
  {
    && Attempt(early, before[k], history[k - 1], history[k], after[k])
    && (before[k].Loaded? || before[k] == after[k - 1])
  }

  lemma {:induction false} WalkIsReachable(early: Notes, missionId: string, history: seq<MissionSession>, before: seq<Point>, after: seq<Point>, n: nat)
    requires n < |history| == |before| == |after|
    requires history[0] == NewSession(missionId) && after[0].Loaded?
    requires forall k :: 0 < k <= n ==> WalkStep(early, history, before, after, k)
    ensures Reachable(early, missionId, Solo(history[..n + 1], after[n]))
  {
    if n == 0 {
      SoloBegins(early, missionId, history[..1], after[0].action);
    } else {
      WalkIsReachable(early, missionId, history, before, after, n - 1);
      OneMoreSave(early, missionId, history, before, after, n);
    }
  }

  lemma OneMoreSave(early: Notes, missionId: string, history: seq<MissionSession>, before: seq<Point>, after: seq<Point>, n: nat)
    requires 0 < n < |history| == |before| == |after| && WalkStep(early, history, before, after, n)
    requires Reachable(early, missionId, Solo(history[..n], after[n - 1]))
    ensures Reachable(early, missionId, Solo(history[..n + 1], after[n]))
  {
    if before[n].Loaded? { SoloLoads(early, missionId, history[..n], after[n - 1], before[n].action); }
    AttemptRevises(early, before[n], history[n - 1], history[n], after[n]);
    SoloSaves(early, missionId, history[..n], before[n], history[n], after[n]);
    assert history[..n] + [history[n]] == history[..n + 1];
  }

  // ----- how a marked early note leads astray -----

  // The text of an execution that failed, with the marker of a preparation.
  const FAILED_NOTE := BlockNote({OtherPhase, SpecPhase}, Some(OtherPhase), false)

  // A task is prepared and fails on snapshot A; it is prepared once more, and
  // an amendment is asked for.  Structuring on snapshot B is blocked with the
  // given note, and its marker lets the old, failed task be taken up again.
  function StrayEntry(missionId: string, note: BlockNote, n: nat): MissionSession {
    match n
    case 0 => NewSession(missionId)
    case 1 => At(missionId, Researching, 1, "", "", NO_NOTE)
    case 2 => At(missionId, ResearchReview, 2, "", "", NO_NOTE)
    case 3 => At(missionId, DesignReview, 3, "", "", NO_NOTE)
    case 4 => At(missionId, Structuring, 4, "", "A", NO_NOTE)
    case 5 => At(missionId, WorkplanReview, 5, "", "A", NO_NOTE)
    case 6 => At(missionId, Ready, 6, "", "A", NO_NOTE)
    case 7 => At(missionId, TaskPreparation, 7, "T1", "A", NO_NOTE)
    case 8 => At(missionId, TaskReview, 8, "T1", "A", NO_NOTE)
    case 9 => At(missionId, Executing, 9, "T1", "A", NO_NOTE)
    case 10 => At(missionId, BlockedStage, 10, "T1", "A", FAILED_NOTE)
    case 11 => At(missionId, TaskPreparation, 11, "T1", "A", NO_NOTE)
    case 12 => At(missionId, TaskReview, 12, "T1", "A", NO_NOTE)
    case 13 => At(missionId, AmendmentReview, 13, "T1", "A", NO_NOTE)
    case 14 => At(missionId, Structuring, 14, "T1", "B", NO_NOTE)
    case 15 => At(missionId, BlockedStage, 15, "T1", "B", note)
    case _ => At(missionId, if ReviewPhase in note.markers then Executing else TaskPreparation, n, "T1", "B", NO_NOTE)
  }

  // Where the call stands that makes the n-th save, and where it goes on.
  function StrayBefore(note: BlockNote, n: nat): Point {
    match n
    case 1 => Loaded(RunResearch)
    case 2 => AtResearch
    case 3 => Loaded(SkipGrill)
    case 4 => Loaded(ApproveDesign)
    case 5 => AtStructure
    case 6 => Loaded(ApproveExecution)
    case 7 => Loaded(PrepareNext)
    case 8 => AtPreparation
    case 9 => Loaded(ExecutePrepared)
    case 10 => AtExecution
    case 11 => Loaded(RetryPreparation)
    case 12 => AtPreparation
    case 13 => Loaded(RequestAmendment)
    case 14 => Loaded(ApproveDesign)
    case 15 => AtStructure
    case _ => Loaded(if ReviewPhase in note.markers then RetryReview else RetryPreparation)
  }

  function StrayAfter(note: BlockNote, n: nat): Point {
    match n
    case 0 => Loaded(RunResearch)
    case 1 => AtResearch
    case 4 => AtStructure
    case 7 => AtPreparation
    case 9 => AtExecution
    case 11 => AtPreparation
    case 14 => AtStructure
    case 16 => if ReviewPhase in note.markers then AtExecution else AtPreparation
    case _ => Done
  }

  function StrayHistory(missionId: string, note: BlockNote): seq<MissionSession> {
    seq(17, k requires 0 <= k < 17 => StrayEntry(missionId, note, k))
  }

  ghost predicate StrayStep(early: Notes, missionId: string, note: BlockNote, n: nat)
    requires n > 0
  {
    && Attempt(early, StrayBefore(note, n), StrayEntry(missionId, note, n - 1), StrayEntry(missionId, note, n), StrayAfter(note, n))
    && (StrayBefore(note, n).Loaded? || StrayBefore(note, n) == StrayAfter(note, n - 1))
  }

  lemma StrayPreparationIsLegal(early: Notes, missionId: string, note: BlockNote, n: nat)
    requires 0 < n <= 6
    ensures StrayStep(early, missionId, note, n)
  {
  }

  lemma StrayTaskIsLegal(early: Notes, missionId: string, note: BlockNote, n: nat)
    requires 6 < n <= 10
    ensures StrayStep(early, missionId, note, n)
  {
  }

  lemma StrayAmendmentIsLegal(early: Notes, missionId: string, note: BlockNote, n: nat)
    requires 10 < n <= 14
    ensures StrayStep(early, missionId, note, n)
  {
    if n == 11 { assert SpecPhase in FAILED_NOTE.markers; }
  }

  lemma StrayEndIsLegal(early: Notes, missionId: string, note: BlockNote, n: nat)
    requires note in early && !(note.markers !! TASK_MARKERS) && 14 < n <= 16
    ensures StrayStep(early, missionId, note, n)
  {
    assert forall p :: p in TASK_MARKERS <==> p == SpecPhase || p == PlanPhase || p == ReviewPhase;
  }

  lemma StrayIsReachable(early: Notes, missionId: string, note: BlockNote)
    requires note in early && !(note.markers !! TASK_MARKERS)
    ensures Reachable(early, missionId, Solo(StrayHistory(missionId, note), StrayAfter(note, 16)))
  {
    var h := StrayHistory(missionId, note);
    var before := seq(17, k requires 0 <= k < 17 => StrayBefore(note, k));
    var after := seq(17, k requires 0 <= k < 17 => StrayAfter(note, k));
    forall k | 0 < k <= 16 ensures WalkStep(early, h, before, after, k) {
      if k <= 6 {
        StrayPreparationIsLegal(early, missionId, note, k);
      } else if k <= 10 {
        StrayTaskIsLegal(early, missionId, note, k);
      } else if k <= 14 {
        StrayAmendmentIsLegal(early, missionId, note, k);
      } else {
        StrayEndIsLegal(early, missionId, note, k);
      }
    }
    WalkIsReachable(early, missionId, h, before, after, 16);
    assert h[..17] == h;
  }

  // The walk ends at work on snapshot B, while execution was approved on A.
  lemma StrayIsUngoverned(missionId: string, note: BlockNote)
    ensures !GovernedAt(StrayHistory(missionId, note), 16)
  {
    var h := StrayHistory(missionId, note);
    forall k | 7 <= k < 17 ensures !h[k].stage.Ready? {
      assert h[k] == StrayEntry(missionId, note, k);
    }
    ApprovedLater(h, 7, 17);
    assert h[..7][6] == StrayEntry(missionId, note, 6) && h[..7][5] == StrayEntry(missionId, note, 5);
    assert ApprovedSnapshot(h[..7]) == Some("A");
    assert h[16] == StrayEntry(missionId, note, 16) && "A"[0] != "B"[0];
  }

  // Saves that do not approve leave the approved snapshot alone.
  lemma {:induction false} ApprovedLater(history: seq<MissionSession>, i: nat, j: nat)
    requires 2 <= i <= j <= |history|
    requires forall k :: i <= k < j ==> !history[k].stage.Ready?
    ensures ApprovedSnapshot(history[..j]) == ApprovedSnapshot(history[..i])
    decreases j
  {
    if i < j {
      assert history[..j][..j - 1] == history[..j - 1];
      ApprovedLater(history, i, j - 1);
    }
  }

  // Every run keeps the approved snapshot under execution if and only if no
  // early note that is allowed contains the marker of a task phase.
  lemma GovernedIffMarkerless(early: Notes, missionId: string)
    ensures AlwaysGoverned(early, missionId) <==> Markerless(early)
  {
    if Markerless(early) {
      forall s | Reachable(early, missionId, s) ensures Governed(s.history) {
        var run :| IsRun(early, missionId, run) && run[|run| - 1] == s;
        RunStaysGuarded(early, missionId, run);
      }
    } else {
      var note :| note in early && !(note.markers !! TASK_MARKERS);
      StrayIsReachable(early, missionId, note);
      StrayIsUngoverned(missionId, note);
      assert !Governed(Solo(StrayHistory(missionId, note), StrayAfter(note, 16)).history);
    }
  }

  // ----- moves the coordinators try and the table refuses -----

  // Retrying a blocked design, or a blocked grill, never saves anything.
  lemma DesignAndGrillRetriesAreRefused(early: Notes, held: MissionSession, updated: MissionSession, next: Point)
    ensures !Attempt(early, Loaded(RetryDesign), held, updated, next)
    ensures Attempt(early, Loaded(RetryBlocked), held, updated, next) ==> held.note.leading == Some(ResearchPhase) && updated.stage.Draft?
  {
  }

  // An amendment that arrives while reconciling cannot pause the mission.
  lemma ReconcilingCannotPause(early: Notes, held: MissionSession, updated: MissionSession, next: Point)
    requires held.stage.Reconciling? && Attempt(early, AtReconciliation, held, updated, next)
    ensures updated.stage.Ready? || updated.stage.CompletedStage? || updated.stage.BlockedStage?
  {
  }
}
