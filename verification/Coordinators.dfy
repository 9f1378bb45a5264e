// The coordinators' methods, as far as they load and save the session.  Other
// callers may store sessions of their own between any two accesses
// (src/mission_orchestrator/application/preparation_coordinator.py,
// interactive_task_coordinator.py, control_plane.py).
module Coordinators {
  import opened Workplan
  import opened Session

  // One accepted save: where the code stood, its copy, what it stored, where it goes on.
  datatype SaveMade = SaveMade(point: Point, held: MissionSession, updated: MissionSession, next: Point)

  // How a call ends: with a session, or with an exception.
  datatype Ending =
    | Returned(session: MissionSession, succeeded: bool)
    | Conflict
    | InvalidAction
    | MoveRefused
    | InvalidRequest

  // Which saves are allowed, as a value that every law below is stated for.
  type Law = (Point, MissionSession, MissionSession, Point) -> bool

  ghost function Protocol(early: Notes): Law {
    (point, held, updated, next) => Attempt(early, point, held, updated, next)
  }

  predicate Asked(point: Point, held: MissionSession, updated: MissionSession, next: Point) {
    true
  }

  // The law is the protocol's; `Granted` and its like look it up.
  ghost predicate IsProtocol(law: Law, early: Notes) {
    forall point, held, updated, next {:trigger Asked(point, held, updated, next)} ::
      Asked(point, held, updated, next) ==> (law(point, held, updated, next) <==> Attempt(early, point, held, updated, next))
  }

  lemma ProtocolIsProtocol(early: Notes)
    ensures IsProtocol(Protocol(early), early)
  {
  }

  // Each save is one the law allows at that point, from the copy that the
  // save before it left.
  ghost predicate Lawful(law: Law, trail: seq<SaveMade>) {
    && (forall i :: 0 <= i < |trail| ==> law(trail[i].point, trail[i].held, trail[i].updated, trail[i].next))
    && (forall i, j :: 0 <= i && j == i + 1 && j < |trail| ==> Continues(trail[i], trail[j]))
  }

  predicate Continues(a: SaveMade, b: SaveMade) {
    b.point == a.next && b.held == a.updated
  }

  // The trail of a call that began with `action` on a copy of that revision.
  ghost predicate CallOf(law: Law, action: Action, expected: nat, trail: seq<SaveMade>) {
    Lawful(law, trail) && (trail != [] ==> trail[0].point == Loaded(action) && trail[0].held.revision == expected)
  }

  predicate Succeeds(held: MissionSession, updated: MissionSession) {
    updated.missionId == held.missionId && updated.revision == held.revision + 1
  }

  function Last(trail: seq<SaveMade>): SaveMade
    requires trail != []
  {
    trail[|trail| - 1]
  }

  class SessionDesk {
    const store: FilesystemMissionSessionStore
    const missionId: string
    ghost const law: Law
    ghost const early: Notes
    // What other callers have stored by each later access, if they saved.
    var meanwhile: seq<Option<MissionSession>>
    // The saves of the current call.
    ghost var trail: seq<SaveMade>

    constructor (store: FilesystemMissionSessionStore, missionId: string, meanwhile: seq<Option<MissionSession>>, ghost early: Notes)
      ensures this.store == store && this.missionId == missionId && this.early == early && trail == []
      ensures law == Protocol(early) && IsProtocol(law, early)
    {
      this.store, this.missionId, this.meanwhile, this.trail := store, missionId, meanwhile, [];
      this.law, this.early := Protocol(early), early;
      new;
      ProtocolIsProtocol(early);
    }

    // The session that the next load would give its own mission.
    ghost function Held(): MissionSession
      reads this, store
    {
      if store.stored.Some? then store.stored.value else NewSession(missionId)
    }

    // No other caller is about to save, and `held` is the stored session.
    ghost predicate Alone(held: MissionSession)
      reads this, store
    {
      meanwhile == [] && Held() == held
    }

    // The stored session has the revision and one of the stages asked for.
    ghost predicate Offers(expected: nat, stages: set<Stage>)
      reads this, store
    {
      Held().missionId == missionId && Held().revision == expected && Held().stage in stages
    }

    // Other callers save too, and each of their saves raises the revision.
    method Meanwhile()
      modifies this`meanwhile, store
      ensures store.stored == old(store.stored) || (store.stored.Some? && store.Revision() > old(store.Revision()))
      ensures old(meanwhile) == [] ==> meanwhile == [] && store.stored == old(store.stored)
    {
      if meanwhile != [] {
        var other := meanwhile[0];
        var current := if store.stored.Some? then store.stored.value.revision else 0;
        if other.Some? && other.value.revision > current {
          store.stored := other;
        }
        meanwhile := meanwhile[1..];
      }
    }

    // The call stands at the beginning of an action: it has saved nothing yet,
    // or its last save leads to that action at that revision.
    ghost predicate Begins(action: Action, expected: nat)
      reads this, store
    {
      && IsProtocol(law, early) && Lawful(law, trail)
      && (trail != [] ==> Last(trail).next == Loaded(action) && store.Revision() >= expected == Last(trail).updated.revision
                          && (store.Revision() == expected ==> store.stored == Some(Last(trail).updated)))
    }

    ghost predicate StandsAt(point: Point, held: MissionSession)
      reads this
    {
      IsProtocol(law, early) && Lawful(law, trail) && (trail != [] ==> Last(trail).next == point && Last(trail).updated == held)
    }

    // `_expected`: the stored session, if it has the revision and one of the stages.
    method Expected(ghost action: Action, expected: nat, stages: set<Stage>) returns (current: Option<MissionSession>, failure: Ending)
      requires Begins(action, expected)
      modifies this`meanwhile, store
      ensures current.Some? ==> current.value.revision == expected && current.value.stage in stages && StandsAt(Loaded(action), current.value)
      ensures failure.Conflict? || failure.InvalidAction? || failure.InvalidRequest?
      ensures old(meanwhile) == [] ==>
                && (current.Some? <==> old(Offers(expected, stages))) && (current.Some? ==> current.value == old(Held()))
                && Alone(old(Held()))
      ensures old(meanwhile) == [] && current.None? ==>
                if old(Held()).missionId != missionId then failure.InvalidRequest?
                else if old(Held()).revision != expected then failure.Conflict? else failure.InvalidAction?
    {
      failure := InvalidRequest;
      Meanwhile();
      current := store.Load(missionId);
      if current.Some? && current.value.revision != expected {
        return None, Conflict;
      }
      if current.Some? && current.value.stage !in stages {
        return None, InvalidAction;
      }
    }

    // `_save`: goes through only when nobody else has saved meanwhile.
    method Save(ghost point: Point, held: MissionSession, updated: MissionSession, ghost next: Point) returns (ok: bool)
      requires law(point, held, updated, next) && StandsAt(point, held)
      modifies this`meanwhile, this`trail, store
      ensures trail == if ok then old(trail) + [SaveMade(point, held, updated, next)] else old(trail)
      ensures ok ==> StandsAt(next, updated) && store.stored == Some(updated)
      ensures old(Alone(held)) ==> ok && Alone(updated)
      ensures !ok ==> StandsAt(point, held)
    {
      LawRevises(law, early, point, held, updated, next);
      Meanwhile();
      var saved := store.Save(updated, held.revision);
      ok := saved.Saved?;
      if ok {
        TrailGrows(law, trail, SaveMade(point, held, updated, next));
        trail := trail + [SaveMade(point, held, updated, next)];
      }
    }

    // Save and return, or report the conflict.
    method Finish(ghost point: Point, held: MissionSession, updated: MissionSession, succeeded: bool) returns (ending: Ending)
      requires law(point, held, updated, Done) && StandsAt(point, held)
      modifies this`meanwhile, this`trail, store
      ensures ending == Conflict || ending == Returned(updated, succeeded)
      ensures trail == if ending.Returned? then old(trail) + [SaveMade(point, held, updated, Done)] else old(trail)
      ensures Lawful(law, trail)
      ensures old(Alone(held)) ==> ending.Returned? && Alone(updated)
    {
      var ok := Save(point, held, updated, Done);
      ending := if ok then Returned(updated, succeeded) else Conflict;
    }

    // `_block`.
    method Block(ghost point: Point, running: MissionSession, note: BlockNote) returns (ending: Ending)
      requires StandsAt(point, running) && BlockedStage in Transitions(running.stage)
      requires law(point, running, BlockedFrom(running, note), Done)
      modifies this`meanwhile, this`trail, store
      ensures ending == Conflict || ending == Returned(BlockedFrom(running, note), false)
      ensures trail == if ending.Returned? then old(trail) + [SaveMade(point, running, BlockedFrom(running, note), Done)] else old(trail)
      ensures Lawful(law, trail)
      ensures old(Alone(running)) ==> ending.Returned? && Alone(ending.session)
    {
      var blocked := MoveTo(running, BlockedStage, "", None, None, note);
      ending := Finish(point, running, blocked.value, false);
    }
  }

  function BlockedFrom(running: MissionSession, note: BlockNote): MissionSession
    requires BlockedStage in Transitions(running.stage)
  {
    MoveTo(running, BlockedStage, "", None, None, note).value
  }

  // How a call leaves the session; the law says the rest: mission, revision, snapshot.
  predicate EndsAs(session: MissionSession, stage: Stage, activePhase: string, activeTask: string, note: BlockNote) {
    session.stage == stage && session.activePhase == activePhase && session.activeTask == activeTask && session.note == note
  }

  // The end of a phase that goes on to a review, or blocks with a note.
  predicate EndsPhase(session: MissionSession, review: Stage, activeTask: string, block: Option<BlockNote>) {
    if block.Some? then EndsAs(session, BlockedStage, "", activeTask, block.value) else EndsAs(session, review, "", activeTask, NO_NOTE)
  }

  lemma LawRevises(law: Law, early: Notes, point: Point, held: MissionSession, updated: MissionSession, next: Point)
    requires IsProtocol(law, early) && law(point, held, updated, next)
    ensures Succeeds(held, updated)
  {
    assert Asked(point, held, updated, next);
    AttemptRevises(early, point, held, updated, next);
  }

  lemma TrailGrows(law: Law, trail: seq<SaveMade>, made: SaveMade)
    requires Lawful(law, trail) && law(made.point, made.held, made.updated, made.next)
    requires trail != [] ==> Continues(Last(trail), made)
    ensures Lawful(law, trail + [made])
  {
  }

  lemma CallGrows(law: Law, action: Action, expected: nat, before: seq<SaveMade>, grown: seq<SaveMade>, after: seq<SaveMade>)
    requires Lawful(law, after) && before < grown <= after
    requires grown[|before|].point == Loaded(action) && grown[|before|].held.revision == expected
    ensures before <= after && (before == [] ==> CallOf(law, action, expected, after))
  {
  }

  // What every action promises: only lawful saves, the first from the copy it
  // was asked to act on; what it returns is what it saved last.
  ghost predicate Keeps(law: Law, action: Action, expected: nat, before: seq<SaveMade>, after: seq<SaveMade>, ending: Ending) {
    && Lawful(law, after) && before <= after
    && (before == [] ==> CallOf(law, action, expected, after))
    && (ending.Returned? && after != [] ==> ending.session == Last(after).updated)
    && (!ending.Returned? && !ending.Conflict? ==> after == before)
  }

  // ----- the saves that the methods below make are allowed -----

  function Moved(held: MissionSession, stage: Stage, activePhase: string, activeTask: Option<string>): MissionSession
    requires stage in Transitions(held.stage)
  {
    MoveTo(held, stage, activePhase, activeTask, None, NO_NOTE).value
  }

  lemma MaySaveIdea(law: Law, early: Notes, held: MissionSession)
    requires IsProtocol(law, early) && held.stage.Draft?
    ensures law(Loaded(Action.SaveIdea), held, Touch(held), Done)
  {
    assert Asked(Loaded(Action.SaveIdea), held, Touch(held), Done);
  }

  lemma MayResearch(law: Law, early: Notes, held: MissionSession, updated: MissionSession)
    requires IsProtocol(law, early) && (held.stage.Draft? || held.stage.ResearchReview?)
    requires updated == Moved(held, Researching, "research", None)
    ensures law(Loaded(Action.RunResearch), held, updated, AtResearch)
  {
    assert Asked(Loaded(Action.RunResearch), held, updated, AtResearch);
  }

  lemma MayReview(law: Law, early: Notes, held: MissionSession, updated: MissionSession, noGrill: bool)
    requires IsProtocol(law, early) && held.stage.Researching? && updated == Moved(held, ResearchReview, "", None)
    ensures law(AtResearch, held, updated, if noGrill then AtSkippedGrill else Done)
  {
    assert Asked(AtResearch, held, updated, if noGrill then AtSkippedGrill else Done);
  }

  lemma MaySkipGrill(law: Law, early: Notes, point: Point, held: MissionSession, updated: MissionSession)
    requires IsProtocol(law, early) && (point == AtSkippedGrill || point == Loaded(Action.SkipGrill))
    requires held.stage.ResearchReview? && updated == Moved(held, DesignReview, "", None)
    ensures law(point, held, updated, Done)
  {
    assert Asked(point, held, updated, Done);
  }

  lemma MayGrill(law: Law, early: Notes, held: MissionSession, updated: MissionSession)
    requires IsProtocol(law, early) && (held.stage.ResearchReview? || held.stage.DesignReview?)
    requires updated == Moved(held, Grilling, "grill", None)
    ensures law(Loaded(Action.RunGrill), held, updated, AtGrill)
  {
    assert Asked(Loaded(Action.RunGrill), held, updated, AtGrill);
  }

  lemma MayStructure(law: Law, early: Notes, held: MissionSession, snapshot: string)
    requires IsProtocol(law, early) && (held.stage.DesignReview? || held.stage.AmendmentReview?)
    ensures law(Loaded(Action.ApproveDesign), held, MoveTo(held, Structuring, "structure", None, Some(snapshot), NO_NOTE).value, AtStructure)
  {
    assert Asked(Loaded(Action.ApproveDesign), held, MoveTo(held, Structuring, "structure", None, Some(snapshot), NO_NOTE).value, AtStructure);
  }

  lemma MayRestart(law: Law, early: Notes, held: MissionSession)
    requires IsProtocol(law, early) && held.stage.BlockedStage? && held.note.leading == Some(ResearchPhase)
    ensures law(Loaded(Action.RetryBlocked), held, Moved(held, Draft, "", None), Loaded(Action.RunResearch))
  {
    assert Asked(Loaded(Action.RetryBlocked), held, Moved(held, Draft, "", None), Loaded(Action.RunResearch));
  }

  lemma MayApprove(law: Law, early: Notes, held: MissionSession)
    requires IsProtocol(law, early) && held.stage.WorkplanReview?
    ensures law(Loaded(Action.ApproveExecution), held, Moved(held, Ready, "", None), Done)
  {
    assert Asked(Loaded(Action.ApproveExecution), held, Moved(held, Ready, "", None), Done);
  }

  lemma MayAmend(law: Law, early: Notes, point: Point, held: MissionSession)
    requires IsProtocol(law, early) && (point == Loaded(Action.RequestAmendment) || point == Loaded(Action.RecordAmendment))
    requires held.stage.Ready? || held.stage.TaskReview? || held.stage.Paused?
    ensures law(point, held, Moved(held, AmendmentReview, "amendment_review", None), Done)
  {
    assert Asked(point, held, Moved(held, AmendmentReview, "amendment_review", None), Done);
  }

  // The stage in which a phase runs.
  predicate RunsIn(point: Point, stage: Stage) {
    match point
    case AtResearch => stage.Researching?
    case AtGrill => stage.Grilling?
    case AtStructure => stage.Structuring?
    case AtPreparation => stage.TaskPreparation?
    case AtExecution => stage.Executing?
    case AtReconciliation => stage.Reconciling?
    case Loaded(PrepareNext) => stage.Ready?
    case _ => false
  }

  lemma MayBlock(law: Law, early: Notes, point: Point, held: MissionSession, note: BlockNote)
    requires IsProtocol(law, early) && RunsIn(point, held.stage)
    requires point == AtResearch || point == AtGrill || point == AtStructure ==> note in early
    ensures law(point, held, BlockedFrom(held, note), Done)
  {
    assert Asked(point, held, BlockedFrom(held, note), Done);
  }

  lemma MayEndPhase(law: Law, early: Notes, point: Point, held: MissionSession, stage: Stage, activePhase: string, activeTask: Option<string>)
    requires IsProtocol(law, early) && RunsIn(point, held.stage)
    requires || (point == AtGrill && stage == DesignReview) || (point == AtStructure && stage == WorkplanReview)
             || (point == AtPreparation && stage == TaskReview)
             || (point == AtReconciliation && (stage == Ready || stage == CompletedStage))
             || (point == Loaded(Action.PrepareNext) && stage == CompletedStage)
    ensures law(point, held, Moved(held, stage, activePhase, activeTask), Done)
  {
    assert Asked(point, held, Moved(held, stage, activePhase, activeTask), Done);
  }

  class PreparationCoordinator {
    const desk: SessionDesk

    constructor (desk: SessionDesk)
      ensures this.desk == desk
    {
      this.desk := desk;
    }

    // Also `save_brief_seed`. `saved` says whether the document was stored.
    method SaveIdea(expected: nat, blank: bool, saved: bool) returns (ending: Ending)
      requires desk.Begins(Action.SaveIdea, expected)
      modifies desk, desk.store
      ensures Keeps(desk.law, Action.SaveIdea, expected, old(desk.trail), desk.trail, ending)
      ensures ending.Returned? && ending.succeeded ==> |desk.trail| == |old(desk.trail)| + 1 && ending.session.stage.Draft?
      ensures blank || !saved ==> desk.trail == old(desk.trail)
      ensures ending.Returned? ==> ending.succeeded == saved
      ensures old(desk.meanwhile) == [] ==>
                && (ending.Returned? <==> old(desk.Offers(expected, {Draft})) && !blank)
                && (ending.Returned? ==> desk.Alone(ending.session))
    {
      if blank {
        return InvalidRequest;
      }
      var current, failure := desk.Expected(Action.SaveIdea, expected, {Draft});
      if current.None? {
        return failure;
      }
      if !saved {
        return Returned(current.value, false);
      }
      MaySaveIdea(desk.law, desk.early, current.value);
      ending := desk.Finish(Loaded(Action.SaveIdea), current.value, Touch(current.value), true);
    }

    // `block` is the note of a blocked phase; `promoted` says whether the
    // research output became the brief.
    method RunResearch(expected: nat, documented: bool, block: Option<BlockNote>, noGrill: bool, promoted: bool) returns (ending: Ending)
      requires desk.Begins(Action.RunResearch, expected)
      requires block.Some? ==> block.value in desk.early
      modifies desk, desk.store
      ensures Keeps(desk.law, Action.RunResearch, expected, old(desk.trail), desk.trail, ending)
      ensures !ending.MoveRefused?
      ensures ending.Returned? ==>
                |desk.trail| > |old(desk.trail)|
                && EndsPhase(ending.session, if noGrill && promoted then DesignReview else ResearchReview,
                             desk.trail[|old(desk.trail)|].held.activeTask, block)
      ensures old(desk.meanwhile) == [] ==>
                && (ending.Returned? <==> old(desk.Offers(expected, {Draft, ResearchReview})) && documented)
                && (ending.Returned? ==> desk.Alone(ending.session))
      ensures ending.Returned? ==> ending.succeeded == (block.None? && (noGrill ==> promoted))
    {
      var current, failure := desk.Expected(Action.RunResearch, expected, {Draft, ResearchReview});
      if current.None? {
        return failure;
      }
      if !documented {
        return InvalidRequest;
      }
      ending := Research(current.value, block, noGrill, promoted);
    }

    // The research phase, and all that follows it.
    method Research(current: MissionSession, block: Option<BlockNote>, noGrill: bool, promoted: bool) returns (ending: Ending)
      requires desk.StandsAt(Loaded(Action.RunResearch), current) && (current.stage.Draft? || current.stage.ResearchReview?)
      requires block.Some? ==> block.value in desk.early
      modifies desk, desk.store
      ensures Lawful(desk.law, desk.trail) && old(desk.trail) <= desk.trail
      ensures ending.Conflict? || (ending.Returned? && desk.trail != [] && ending.session == Last(desk.trail).updated)
      ensures |desk.trail| > |old(desk.trail)| ==>
                desk.trail[|old(desk.trail)|].point == Loaded(Action.RunResearch) && desk.trail[|old(desk.trail)|].held == current
      ensures ending.Returned? ==>
                |desk.trail| > |old(desk.trail)|
                && EndsPhase(ending.session, if noGrill && promoted then DesignReview else ResearchReview, current.activeTask, block)
      ensures old(desk.Alone(current)) ==> ending.Returned? && desk.Alone(ending.session)
      ensures ending.Returned? ==> ending.succeeded == (block.None? && (noGrill ==> promoted))
    {
      var running := MoveTo(current, Researching, "research", None, None, NO_NOTE);
      MayResearch(desk.law, desk.early, current, running.value);
      var ok := desk.Save(Loaded(Action.RunResearch), current, running.value, AtResearch);
      if !ok {
        return Conflict;
      }
      ending := AfterResearch(running.value, block, noGrill, promoted);
    }

    // Everything after the research phase has run.
    method AfterResearch(running: MissionSession, block: Option<BlockNote>, noGrill: bool, promoted: bool) returns (ending: Ending)
      requires desk.StandsAt(AtResearch, running) && desk.trail != [] && running.stage.Researching?
      requires block.Some? ==> block.value in desk.early
      modifies desk, desk.store
      ensures Lawful(desk.law, desk.trail) && old(desk.trail) <= desk.trail
      ensures ending.Conflict? || (ending.Returned? && ending.session == Last(desk.trail).updated)
      ensures ending.Returned? ==>
                EndsPhase(ending.session, if noGrill && promoted then DesignReview else ResearchReview, running.activeTask, block)
      ensures old(desk.Alone(running)) ==> ending.Returned? && desk.Alone(ending.session)
      ensures ending.Returned? ==> ending.succeeded == (block.None? && (noGrill ==> promoted))
    {
      if block.Some? {
        MayBlock(desk.law, desk.early, AtResearch, running, block.value);
        ending := desk.Block(AtResearch, running, block.value);
        return;
      }
      var review := MoveTo(running, ResearchReview, "", None, None, NO_NOTE);
      MayReview(desk.law, desk.early, running, review.value, noGrill);
      var ok := desk.Save(AtResearch, running, review.value, if noGrill then AtSkippedGrill else Done);
      if !ok {
        return Conflict;
      }
      if noGrill {
        ending := PromoteResearch(AtSkippedGrill, review.value, promoted);
        return;
      }
      ending := Returned(review.value, true);
    }

    // `_skip_grill`.
    method PromoteResearch(ghost point: Point, current: MissionSession, promoted: bool) returns (ending: Ending)
      requires desk.StandsAt(point, current) && current.stage.ResearchReview?
      requires point == AtSkippedGrill || point == Loaded(Action.SkipGrill)
      modifies desk, desk.store
      ensures Lawful(desk.law, desk.trail)
      ensures ending.Conflict? || ending.Returned?
      ensures ending.Returned? && promoted ==> EndsAs(ending.session, DesignReview, "", current.activeTask, NO_NOTE)
      ensures desk.trail == old(desk.trail) + if ending.Returned? && promoted then [SaveMade(point, current, ending.session, Done)] else []
      ensures ending.Returned? && !promoted ==> ending.session == current && !ending.succeeded
      ensures old(desk.Alone(current)) ==> ending.Returned? && desk.Alone(ending.session)
      ensures ending.Returned? ==> ending.succeeded == promoted
    {
      if !promoted {
        return Returned(current, false);
      }
      var review := MoveTo(current, DesignReview, "", None, None, NO_NOTE);
      MaySkipGrill(desk.law, desk.early, point, current, review.value);
      ending := desk.Finish(point, current, review.value, true);
    }

    method SkipGrill(expected: nat, promoted: bool) returns (ending: Ending)
      requires desk.Begins(Action.SkipGrill, expected)
      modifies desk, desk.store
      ensures Keeps(desk.law, Action.SkipGrill, expected, old(desk.trail), desk.trail, ending)
      ensures ending.Returned? ==> ending.session.stage == if promoted then DesignReview else ResearchReview
      ensures ending.Returned? && promoted ==>
                |desk.trail| > |old(desk.trail)| && EndsAs(ending.session, DesignReview, "", desk.trail[|old(desk.trail)|].held.activeTask, NO_NOTE)
      ensures old(desk.meanwhile) == [] ==>
                && (ending.Returned? <==> old(desk.Offers(expected, {ResearchReview})))
                && (ending.Returned? ==> desk.Alone(ending.session))
      ensures ending.Returned? ==> ending.succeeded == promoted
    {
      var current, failure := desk.Expected(Action.SkipGrill, expected, {ResearchReview});
      if current.None? {
        return failure;
      }
      ending := PromoteResearch(Loaded(Action.SkipGrill), current.value, promoted);
    }

    method RunGrill(expected: nat, block: Option<BlockNote>) returns (ending: Ending)
      requires desk.Begins(Action.RunGrill, expected)
      requires block.Some? ==> block.value in desk.early
      modifies desk, desk.store
      ensures Keeps(desk.law, Action.RunGrill, expected, old(desk.trail), desk.trail, ending)
      ensures !ending.MoveRefused?
      ensures ending.Returned? ==>
                |desk.trail| > |old(desk.trail)| && EndsPhase(ending.session, DesignReview, desk.trail[|old(desk.trail)|].held.activeTask, block)
      ensures old(desk.meanwhile) == [] ==>
                && (ending.Returned? <==> old(desk.Offers(expected, {ResearchReview, DesignReview})))
                && (ending.Returned? ==> desk.Alone(ending.session))
      ensures ending.Returned? ==> ending.succeeded == block.None?
    {
      var current, failure := desk.Expected(Action.RunGrill, expected, {ResearchReview, DesignReview});
      if current.None? {
        return failure;
      }
      var running := MoveTo(current.value, Grilling, "grill", None, None, NO_NOTE);
      MayGrill(desk.law, desk.early, current.value, running.value);
      var ok := desk.Save(Loaded(Action.RunGrill), current.value, running.value, AtGrill);
      if !ok {
        return Conflict;
      }
      ending := EndPhase(AtGrill, running.value, DesignReview, block);
    }

    // `approval` is the new snapshot, if the approval went through; `block` is
    // the note of a blocked phase, a faulty plan or an uncompilable contract.
    method ApproveDesignAndStructure(expected: nat, approval: Option<string>, block: Option<BlockNote>) returns (ending: Ending)
      requires desk.Begins(Action.ApproveDesign, expected)
      requires block.Some? ==> block.value in desk.early
      modifies desk, desk.store
      ensures Keeps(desk.law, Action.ApproveDesign, expected, old(desk.trail), desk.trail, ending)
      ensures !ending.MoveRefused?
      ensures approval.None? ==> desk.trail == old(desk.trail)
      ensures ending.Returned? && approval.Some? ==>
                && |desk.trail| > |old(desk.trail)| && ending.session.snapshot == approval.value
                && EndsPhase(ending.session, WorkplanReview, desk.trail[|old(desk.trail)|].held.activeTask, block)
      ensures old(desk.meanwhile) == [] ==>
                && (ending.Returned? <==> old(desk.Offers(expected, {DesignReview, AmendmentReview})))
                && (ending.Returned? ==> desk.Alone(ending.session))
      ensures ending.Returned? ==> ending.succeeded == (approval.Some? && block.None?)
    {
      var current, failure := desk.Expected(Action.ApproveDesign, expected, {DesignReview, AmendmentReview});
      if current.None? {
        return failure;
      }
      if approval.None? {
        return Returned(current.value, false);
      }
      ending := Structure(current.value, approval.value, block);
    }

    // The structure phase, under the snapshot just approved.
    method Structure(current: MissionSession, snapshot: string, block: Option<BlockNote>) returns (ending: Ending)
      requires desk.StandsAt(Loaded(Action.ApproveDesign), current) && (current.stage.DesignReview? || current.stage.AmendmentReview?)
      requires block.Some? ==> block.value in desk.early
      modifies desk, desk.store
      ensures Lawful(desk.law, desk.trail) && old(desk.trail) <= desk.trail
      ensures ending.Conflict? || (ending.Returned? && desk.trail != [] && ending.session == Last(desk.trail).updated)
      ensures |desk.trail| > |old(desk.trail)| ==>
                desk.trail[|old(desk.trail)|].point == Loaded(Action.ApproveDesign) && desk.trail[|old(desk.trail)|].held == current
      ensures ending.Returned? ==>
                |desk.trail| > |old(desk.trail)| && ending.session.snapshot == snapshot
                && EndsPhase(ending.session, WorkplanReview, current.activeTask, block)
      ensures old(desk.Alone(current)) ==> ending.Returned? && desk.Alone(ending.session)
      ensures ending.Returned? ==> ending.succeeded == block.None?
    {
      var running := MoveTo(current, Structuring, "structure", None, Some(snapshot), NO_NOTE);
      MayStructure(desk.law, desk.early, current, snapshot);
      var ok := desk.Save(Loaded(Action.ApproveDesign), current, running.value, AtStructure);
      if !ok {
        return Conflict;
      }
      ending := EndPhase(AtStructure, running.value, WorkplanReview, block);
    }

    // The move back to the design review is refused, so nothing after it runs.
    method RetryDesign(expected: nat) returns (ending: Ending)
      requires desk.Begins(Action.RetryDesign, expected) && desk.trail == []
      modifies desk, desk.store
      ensures !ending.Returned? && desk.trail == []
      ensures old(desk.meanwhile) == [] && old(desk.Offers(expected, {BlockedStage})) ==>
                ending == if old(desk.Held()).note.unresolved then MoveRefused else InvalidAction
    {
      var current, failure := desk.Expected(Action.RetryDesign, expected, {BlockedStage});
      if current.None? {
        return failure;
      }
      if !current.value.note.unresolved {
        return InvalidAction;
      }
      var review := MoveTo(current.value, DesignReview, "design_review", None, None, NO_NOTE);
      if review.None? {
        return MoveRefused;
      }
      assert false;
    }

    // Research starts again from DRAFT; the other retries never save.
    method RetryBlocked(expected: nat, documented: bool, block: Option<BlockNote>, noGrill: bool, promoted: bool) returns (ending: Ending)
      requires desk.Begins(Action.RetryBlocked, expected) && desk.trail == []
      requires block.Some? ==> block.value in desk.early
      modifies desk, desk.store
      ensures Lawful(desk.law, desk.trail)
      ensures desk.trail != [] ==> desk.trail[0].point == Loaded(Action.RetryBlocked) && desk.trail[0].held.revision == expected
                                   && desk.trail[0].held.note.leading == Some(ResearchPhase) && desk.trail[0].updated.stage.Draft?
      ensures ending.Returned? ==>
                && |desk.trail| > 1 && ending.session == Last(desk.trail).updated
                && EndsPhase(ending.session, if noGrill && promoted then DesignReview else ResearchReview, desk.trail[0].held.activeTask, block)
      ensures old(desk.meanwhile) == [] ==>
                && (ending.Returned? <==> old(desk.Offers(expected, {BlockedStage})) && old(desk.Held()).note.leading == Some(ResearchPhase) && documented)
                && (ending.Returned? ==> desk.Alone(ending.session))
      ensures ending.Returned? ==> ending.succeeded == (block.None? && (noGrill ==> promoted))
      ensures old(desk.meanwhile) == [] && old(desk.Offers(expected, {BlockedStage}) && desk.Held().note.leading != Some(ResearchPhase)) ==>
                ending == if old(desk.Held()).note.leading == Some(GrillPhase) || old(desk.Held()).note.unresolved then MoveRefused else InvalidAction
    {
      var current, failure := desk.Expected(Action.RetryBlocked, expected, {BlockedStage});
      if current.None? {
        return failure;
      }
      if current.value.note.leading == Some(ResearchPhase) {
        var draft := MoveTo(current.value, Draft, "", None, None, NO_NOTE);
        MayRestart(desk.law, desk.early, current.value);
        var ok := desk.Save(Loaded(Action.RetryBlocked), current.value, draft.value, Loaded(Action.RunResearch));
        if !ok {
          return Conflict;
        }
        ending := RunResearch(draft.value.revision, documented, block, noGrill, promoted);
        return;
      }
      if current.value.note.leading == Some(GrillPhase) {
        var review := MoveTo(current.value, ResearchReview, "", None, None, NO_NOTE);
        assert review.None?;
        return MoveRefused;
      }
      if current.value.note.leading == Some(StructurePhase) || current.value.note.unresolved {
        ending := RetryDesign(expected);
        return;
      }
      ending := InvalidAction;
    }

    // The end of a phase: blocked, or on to the review that follows it.
    method EndPhase(ghost point: Point, running: MissionSession, review: Stage, block: Option<BlockNote>) returns (ending: Ending)
      requires desk.StandsAt(point, running) && desk.trail != []
      requires (point == AtGrill && running.stage.Grilling? && review.DesignReview?)
               || (point == AtStructure && running.stage.Structuring? && review.WorkplanReview?)
      requires block.Some? ==> block.value in desk.early
      modifies desk, desk.store
      ensures Lawful(desk.law, desk.trail) && old(desk.trail) <= desk.trail
      ensures ending.Conflict? || (ending.Returned? && ending.session == Last(desk.trail).updated)
      ensures ending.Returned? ==> EndsPhase(ending.session, review, running.activeTask, block)
      ensures ending.Returned? ==> ending.session.snapshot == running.snapshot
      ensures old(desk.Alone(running)) ==> ending.Returned? && desk.Alone(ending.session)
      ensures ending.Returned? ==> ending.succeeded == block.None?
    {
      if block.Some? {
        MayBlock(desk.law, desk.early, point, running, block.value);
        ending := desk.Block(point, running, block.value);
        return;
      }
      var reviewed := MoveTo(running, review, "", None, None, NO_NOTE);
      MayEndPhase(desk.law, desk.early, point, running, review, "", None);
      ending := desk.Finish(point, running, reviewed.value, true);
    }

    method ApproveExecution(expected: nat) returns (ending: Ending)
      requires desk.Begins(Action.ApproveExecution, expected)
      modifies desk, desk.store
      ensures Keeps(desk.law, Action.ApproveExecution, expected, old(desk.trail), desk.trail, ending)
      ensures !ending.MoveRefused?
      ensures ending.Returned? ==> desk.trail != [] && EndsAs(ending.session, Ready, "", Last(desk.trail).held.activeTask, NO_NOTE)
                                   && Last(desk.trail).held.stage.WorkplanReview? && ending.session.snapshot == Last(desk.trail).held.snapshot
      ensures old(desk.meanwhile) == [] ==>
                && (ending.Returned? <==> old(desk.Offers(expected, {WorkplanReview})))
                && (ending.Returned? ==> desk.Alone(ending.session))
      ensures ending.Returned? ==> ending.succeeded
    {
      var current, failure := desk.Expected(Action.ApproveExecution, expected, {WorkplanReview});
      if current.None? {
        return failure;
      }
      var ready := MoveTo(current.value, Ready, "", None, None, NO_NOTE);
      MayApprove(desk.law, desk.early, current.value);
      ending := desk.Finish(Loaded(Action.ApproveExecution), current.value, ready.value, true);
    }

    method RequestAmendment(expected: nat) returns (ending: Ending)
      requires desk.Begins(Action.RequestAmendment, expected)
      modifies desk, desk.store
      ensures Keeps(desk.law, Action.RequestAmendment, expected, old(desk.trail), desk.trail, ending)
      ensures !ending.MoveRefused?
      ensures ending.Returned? ==>
                desk.trail != [] && EndsAs(ending.session, AmendmentReview, "amendment_review", Last(desk.trail).held.activeTask, NO_NOTE)
      ensures old(desk.meanwhile) == [] ==>
                && (ending.Returned? <==> old(desk.Offers(expected, {Ready, TaskReview, Paused})))
                && (ending.Returned? ==> desk.Alone(ending.session))
      ensures ending.Returned? ==> ending.succeeded
    {
      var current, failure := desk.Expected(Action.RequestAmendment, expected, {Ready, TaskReview, Paused});
      if current.None? {
        return failure;
      }
      var review := MoveTo(current.value, AmendmentReview, "amendment_review", None, None, NO_NOTE);
      MayAmend(desk.law, desk.early, Loaded(Action.RequestAmendment), current.value);
      ending := desk.Finish(Loaded(Action.RequestAmendment), current.value, review.value, true);
    }
  }

  // ----- the coordinator of single tasks -----

  predicate Prepares(phase: Phase) {
    phase.SpecPhase? || phase.PlanPhase?
  }

  // The first of a task's phases of one kind that blocks, as each turns out.
  function FirstBlock(pipeline: seq<Phase>, preparing: bool, outcome: Phase -> Option<BlockNote>): Option<BlockNote> {
    if pipeline == [] then None
    else if Prepares(pipeline[0]) == preparing && outcome(pipeline[0]).Some? then outcome(pipeline[0])
    else FirstBlock(pipeline[1..], preparing, outcome)
  }

  // The pipeline from its first occurrence of a phase on.
  function From(pipeline: seq<Phase>, phase: Phase): seq<Phase> {
    if pipeline == [] || pipeline[0] == phase then pipeline else From(pipeline[1..], phase)
  }

  // The phases that are run again: the pipeline from the failed phase on.
  lemma {:induction false} FromMeaning(pipeline: seq<Phase>, phase: Phase) returns (k: nat)
    ensures k <= |pipeline| && From(pipeline, phase) == pipeline[k..] && phase !in pipeline[..k]
    ensures phase in pipeline ==> k < |pipeline| && pipeline[k] == phase
  {
    k := 0;
    if pipeline != [] && pipeline[0] != phase {
      var n := FromMeaning(pipeline[1..], phase);
      k := n + 1;
      assert pipeline[1..][n..] == pipeline[k..];
      assert pipeline == [pipeline[0]] + pipeline[1..] && pipeline[..k] == [pipeline[0]] + pipeline[1..][..n];
    }
  }

  // No phase of the kind blocks, or the note is that of the first that does.
  lemma {:induction false} FirstBlockMeaning(pipeline: seq<Phase>, preparing: bool, outcome: Phase -> Option<BlockNote>)
    ensures FirstBlock(pipeline, preparing, outcome).None? <==>
            forall k :: 0 <= k < |pipeline| && Prepares(pipeline[k]) == preparing ==> outcome(pipeline[k]).None?
    ensures FirstBlock(pipeline, preparing, outcome).Some? ==>
              exists k :: 0 <= k < |pipeline| && Prepares(pipeline[k]) == preparing
                          && outcome(pipeline[k]) == FirstBlock(pipeline, preparing, outcome)
                          && forall j :: 0 <= j < k && Prepares(pipeline[j]) == preparing ==> outcome(pipeline[j]).None?
  {
    if pipeline != [] {
      FirstBlockMeaning(pipeline[1..], preparing, outcome);
      assert forall k :: 1 <= k < |pipeline| ==> pipeline[k] == pipeline[1..][k - 1];
      if !(Prepares(pipeline[0]) == preparing && outcome(pipeline[0]).Some?) && FirstBlock(pipeline, preparing, outcome).Some? {
        var k :| 0 <= k < |pipeline[1..]| && Prepares(pipeline[1..][k]) == preparing
                 && outcome(pipeline[1..][k]) == FirstBlock(pipeline[1..], preparing, outcome)
                 && forall j :: 0 <= j < k && Prepares(pipeline[1..][j]) == preparing ==> outcome(pipeline[1..][j]).None?;
        assert pipeline[k + 1] == pipeline[1..][k];
        forall j | 0 <= j < k + 1 && Prepares(pipeline[j]) == preparing ensures outcome(pipeline[j]).None? {
          if j > 0 { assert pipeline[j] == pipeline[1..][j - 1]; }
        }
      }
    }
  }

  lemma MayPrepare(law: Law, early: Notes, action: Action, held: MissionSession, task: string)
    requires IsProtocol(law, early)
    requires || (action == Action.PrepareNext && held.stage.Ready?)
             || (action == Action.RetryPreparation && held.stage.BlockedStage? && exists p :: p in held.note.markers && Prepares(p))
    ensures law(Loaded(action), held, Moved(held, TaskPreparation, "task_preparation", Some(task)), AtPreparation)
  {
    assert Asked(Loaded(action), held, Moved(held, TaskPreparation, "task_preparation", Some(task)), AtPreparation);
  }

  lemma MayExecute(law: Law, early: Notes, action: Action, held: MissionSession, phase: string, task: string)
    requires IsProtocol(law, early)
    requires || (action == Action.ExecutePrepared && held.stage.TaskReview?)
             || (action == Action.RetryReview && held.stage.BlockedStage? && ReviewPhase in held.note.markers)
    ensures law(Loaded(action), held, Moved(held, Executing, phase, Some(task)), AtExecution)
  {
    assert Asked(Loaded(action), held, Moved(held, Executing, phase, Some(task)), AtExecution);
  }

  lemma MayReconcile(law: Law, early: Notes, held: MissionSession, task: string)
    requires IsProtocol(law, early) && held.stage.Executing?
    ensures law(AtExecution, held, Moved(held, Reconciling, "reconcile", Some(task)), AtReconciliation)
  {
    assert Asked(AtExecution, held, Moved(held, Reconciling, "reconcile", Some(task)), AtReconciliation);
  }

  lemma MayPause(law: Law, early: Notes, held: MissionSession)
    requires IsProtocol(law, early) && held.stage.Executing?
    ensures law(AtExecution, held, Moved(held, Paused, "amendment_pending", None), AtPause)
    ensures var paused := Moved(held, Paused, "amendment_pending", None);
            law(AtPause, paused, Moved(paused, AmendmentReview, "amendment_review", None), Done)
  {
    var paused := Moved(held, Paused, "amendment_pending", None);
    assert Asked(AtExecution, held, paused, AtPause);
    assert Asked(AtPause, paused, Moved(paused, AmendmentReview, "amendment_review", None), Done);
  }

  // How the end of an execution turns out: a refused review, amendments seen at
  // the three places that look for one, the reasons found by reconciliation.
  datatype Closing = Closing(
    refused: Option<BlockNote>,
    amendedBefore: bool,
    amendedAfter: bool,
    divergence: Option<BlockNote>,
    pendingLeft: bool,
    amendedLast: bool,
    gateShut: Option<BlockNote>)

  // Where a reconciliation ends that no amendment interrupts: a mission is
  // completed exactly when the task did not diverge, no task is pending and
  // the merge gate has no reason against it.
  predicate EndsReconciled(closing: Closing, session: MissionSession) {
    && (session.stage.CompletedStage? <==> closing.divergence.None? && !closing.pendingLeft && closing.gateShut.None?)
    && (session.stage.Ready? <==> closing.divergence.None? && closing.pendingLeft)
    && (session.stage.BlockedStage? <==> closing.divergence.Some? || (!closing.pendingLeft && closing.gateShut.Some?))
    && (session.stage.BlockedStage? ==> Some(session.note) == if closing.divergence.Some? then closing.divergence else closing.gateShut)
  }

  // The same for a whole closing: a refused review blocks, an amendment seen
  // before reconciling leads to the amendment review.
  predicate EndsClosed(closing: Closing, session: MissionSession) {
    if closing.refused.Some? then BlockedWith(session, closing.refused.value)
    else if closing.amendedBefore then session.stage.AmendmentReview?
    else EndsReconciled(closing, session)
  }

  predicate BlockedWith(session: MissionSession, note: BlockNote) {
    session.stage.BlockedStage? && session.note == note
  }

  // The pause that reconciling refuses.
  predicate PauseRefused(closing: Closing) {
    && closing.refused.None? && !closing.amendedBefore
    && (closing.amendedAfter || (closing.divergence.None? && !closing.pendingLeft && closing.amendedLast))
  }

  // The i-th phase is the first that blocks or after which an amendment is pending.
  predicate Interrupts(pipeline: seq<Phase>, outcome: Phase -> Option<BlockNote>, amended: Phase -> bool, i: nat) {
    && i < |pipeline| && !Prepares(pipeline[i]) && (outcome(pipeline[i]).Some? || amended(pipeline[i]))
    && forall j :: 0 <= j < i && !Prepares(pipeline[j]) ==> outcome(pipeline[j]).None? && !amended(pipeline[j])
  }

  predicate Undisturbed(pipeline: seq<Phase>, outcome: Phase -> Option<BlockNote>, amended: Phase -> bool) {
    forall j :: 0 <= j < |pipeline| && !Prepares(pipeline[j]) ==> outcome(pipeline[j]).None? && !amended(pipeline[j])
  }

  ghost predicate FirstRunnable(tasks: seq<Task>, i: nat) {
    i < |tasks| && Runnable(tasks, i) && forall j: nat :: j < i ==> !Runnable(tasks, j)
  }

  predicate AllDone(tasks: seq<Task>) {
    tasks != [] && forall t :: t in tasks ==> t.status.Completed?
  }

  ghost predicate NoneRunnable(tasks: seq<Task>) {
    forall i: nat :: i < |tasks| ==> !Runnable(tasks, i)
  }

  lemma OneFirst(tasks: seq<Task>, i: nat)
    requires FirstRunnable(tasks, i)
    ensures !NoneRunnable(tasks) && forall j: nat :: FirstRunnable(tasks, j) ==> j == i
  {
  }

  // A block of one of the two preparation phases, of a task that is still planned.
  predicate CanPrepareAgain(held: MissionSession, tasks: seq<Task>) {
    (SpecPhase in held.note.markers || PlanPhase in held.note.markers) && exists t :: t in tasks && t.id == held.activeTask
  }

  // A block of the review phase, of a task that failed.
  predicate CanReviewAgain(held: MissionSession, tasks: seq<Task>) {
    ReviewPhase in held.note.markers && exists t :: t in tasks && t.id == held.activeTask && t.status.Failed?
  }

  // The task that was prepared, and is still planned.
  predicate CanExecute(held: MissionSession, task: string, tasks: seq<Task>) {
    held.activeTask == task && exists t :: t in tasks && t.id == task
  }

  predicate EndsPreparation(session: MissionSession, task: string, block: Option<BlockNote>) {
    if block.Some? then EndsAs(session, BlockedStage, "", task, block.value) else EndsAs(session, TaskReview, "task_review", task, NO_NOTE)
  }

  // A call whose first save, the n-th of the trail, takes up a task to prepare
  // it, and whose return tells how its preparation turned out.
  predicate Prepared(task: string, pipeline: seq<Phase>, outcome: Phase -> Option<BlockNote>, n: nat, trail: seq<SaveMade>, ending: Ending) {
    && (|trail| > n ==> trail[n].updated.stage.TaskPreparation? && trail[n].updated.activeTask == task)
    && (ending.Returned? ==> |trail| > n && EndsPreparation(ending.session, task, FirstBlock(pipeline, true, outcome)))
  }

  // An execution that returns ends as its first interruption says, or as the
  // closing does when there is none; only then can a pause be refused.
  ghost predicate ExecutionEnds(pipeline: seq<Phase>, outcome: Phase -> Option<BlockNote>, amended: Phase -> bool,
                                closing: Closing, ending: Ending) {
    && (ending.Returned? ==>
          && (forall i: nat :: Interrupts(pipeline, outcome, amended, i) ==>
                if outcome(pipeline[i]).Some? then BlockedWith(ending.session, outcome(pipeline[i]).value)
                else ending.session.stage.AmendmentReview?)
          && (Undisturbed(pipeline, outcome, amended) ==> EndsClosed(closing, ending.session)))
    && (ending.MoveRefused? ==> Undisturbed(pipeline, outcome, amended) && PauseRefused(closing))
    && (Undisturbed(pipeline, outcome, amended) && PauseRefused(closing) ==> !ending.Returned?)
  }

  lemma OneMoreQuiet(pipeline: seq<Phase>, outcome: Phase -> Option<BlockNote>, amended: Phase -> bool, i: nat)
    requires i < |pipeline| && Undisturbed(pipeline[..i], outcome, amended)
    requires Prepares(pipeline[i]) || (outcome(pipeline[i]).None? && !amended(pipeline[i]))
    ensures Undisturbed(pipeline[..i + 1], outcome, amended)
  {
    assert pipeline[..i + 1] == pipeline[..i] + [pipeline[i]];
  }

  lemma InterruptionDecides(pipeline: seq<Phase>, outcome: Phase -> Option<BlockNote>, amended: Phase -> bool, i: nat, closing: Closing, ending: Ending)
    requires i < |pipeline| && Undisturbed(pipeline[..i], outcome, amended) && !Prepares(pipeline[i])
    requires outcome(pipeline[i]).Some? || amended(pipeline[i])
    requires !ending.MoveRefused?
    requires ending.Returned? ==>
               if outcome(pipeline[i]).Some? then BlockedWith(ending.session, outcome(pipeline[i]).value)
               else ending.session.stage.AmendmentReview?
    ensures ExecutionEnds(pipeline, outcome, amended, closing, ending)
  {
    assert forall j :: 0 <= j < i ==> pipeline[..i][j] == pipeline[j];
    assert forall k: nat :: Interrupts(pipeline, outcome, amended, k) ==> k == i;
  }

  lemma ClosingDecides(pipeline: seq<Phase>, outcome: Phase -> Option<BlockNote>, amended: Phase -> bool, closing: Closing, ending: Ending)
    requires Undisturbed(pipeline[..|pipeline|], outcome, amended) && ReviewEnds(None, closing, ending)
    ensures ExecutionEnds(pipeline, outcome, amended, closing, ending)
  {
    assert pipeline[..|pipeline|] == pipeline;
  }

  // The same for a review that is retried, with the note of its block.
  predicate ReviewEnds(block: Option<BlockNote>, closing: Closing, ending: Ending) {
    && (ending.Returned? ==> if block.Some? then BlockedWith(ending.session, block.value) else EndsClosed(closing, ending.session))
    && (ending.MoveRefused? ==> block.None? && PauseRefused(closing))
    && (block.None? && PauseRefused(closing) ==> !ending.Returned?)
  }

  predicate Executes(session: MissionSession, phase: string, task: string) {
    session.stage.Executing? && session.activePhase == phase && session.activeTask == task
  }

  // A call that executes returns what it saved last, which settles the task;
  // only a refused pause leaves the session reconciling.
  predicate EndsExecution(trail: seq<SaveMade>, ending: Ending, task: string) {
    && (ending.Returned? ==> trail != [] && ending.session == Last(trail).updated && Settles(ending.session, task)
                              && ending.succeeded == !ending.session.stage.BlockedStage?)
    && (ending.MoveRefused? ==> trail != [] && Last(trail).updated.stage.Reconciling?)
  }

  class InteractiveTaskCoordinator {
    const desk: SessionDesk

    constructor (desk: SessionDesk)
      ensures this.desk == desk
    {
      this.desk := desk;
    }

    // `stuck` is the note that says why no task can run.
    method PrepareNext(expected: nat, tasks: seq<Task>, stuck: BlockNote, pipeline: seq<Phase>, outcome: Phase -> Option<BlockNote>)
      returns (ending: Ending)
      requires desk.Begins(Action.PrepareNext, expected)
      modifies desk, desk.store
      ensures Keeps(desk.law, Action.PrepareNext, expected, old(desk.trail), desk.trail, ending)
      ensures !ending.MoveRefused?
      ensures forall i: nat :: FirstRunnable(tasks, i) ==> Prepared(tasks[i].id, pipeline, outcome, |old(desk.trail)|, desk.trail, ending)
      ensures ending.Returned? && NoneRunnable(tasks) ==>
                |desk.trail| > |old(desk.trail)|
                && EndsPhase(ending.session, CompletedStage, desk.trail[|old(desk.trail)|].held.activeTask, if AllDone(tasks) then None else Some(stuck))
      ensures old(desk.meanwhile) == [] ==>
                && (ending.Returned? <==> old(desk.Offers(expected, {Ready})))
                && (ending.Returned? ==> desk.Alone(ending.session))
      ensures ending.Returned? ==> ending.succeeded == !ending.session.stage.BlockedStage?
    {
      var current, failure := desk.Expected(Action.PrepareNext, expected, {Ready});
      if current.None? {
        return failure;
      }
      var index := NextRunnable(tasks);
      if index.None? {
        ending := FinishOrBlock(current.value, tasks, stuck);
        return;
      }
      var task := tasks[index.value].id;
      OneFirst(tasks, index.value);
      MayPrepare(desk.law, desk.early, Action.PrepareNext, current.value, task);
      ending := PrepareTask(Action.PrepareNext, current.value, task, pipeline, outcome);
    }

    // The part that preparing and preparing again have in common.
    method PrepareTask(ghost action: Action, current: MissionSession, task: string, pipeline: seq<Phase>, outcome: Phase -> Option<BlockNote>)
      returns (ending: Ending)
      requires desk.StandsAt(Loaded(action), current) && TaskPreparation in Transitions(current.stage)
      requires desk.law(Loaded(action), current, Moved(current, TaskPreparation, "task_preparation", Some(task)), AtPreparation)
      modifies desk, desk.store
      ensures Lawful(desk.law, desk.trail) && old(desk.trail) <= desk.trail
      ensures ending.Conflict? || (ending.Returned? && desk.trail != [] && ending.session == Last(desk.trail).updated)
      ensures |desk.trail| > |old(desk.trail)| ==>
                desk.trail[|old(desk.trail)|].point == Loaded(action) && desk.trail[|old(desk.trail)|].held == current
      ensures Prepared(task, pipeline, outcome, |old(desk.trail)|, desk.trail, ending)
      ensures old(desk.Alone(current)) ==> ending.Returned? && desk.Alone(ending.session)
      ensures ending.Returned? ==> ending.succeeded == !ending.session.stage.BlockedStage?
    {
      var running := MoveTo(current, TaskPreparation, "task_preparation", Some(task), None, NO_NOTE);
      var ok := desk.Save(Loaded(action), current, running.value, AtPreparation);
      if !ok {
        return Conflict;
      }
      ending := RunPreparation(running.value, task, pipeline, outcome);
    }

    // `_finish_or_block`.
    method FinishOrBlock(current: MissionSession, tasks: seq<Task>, stuck: BlockNote) returns (ending: Ending)
      requires desk.StandsAt(Loaded(Action.PrepareNext), current) && current.stage.Ready?
      modifies desk, desk.store
      ensures Lawful(desk.law, desk.trail)
      ensures ending.Conflict? || ending.Returned?
      ensures ending.Returned? ==>
                EndsPhase(ending.session, CompletedStage, current.activeTask, if AllDone(tasks) then None else Some(stuck))
      ensures desk.trail == if ending.Returned? then old(desk.trail) + [SaveMade(Loaded(Action.PrepareNext), current, ending.session, Done)]
                            else old(desk.trail)
      ensures old(desk.Alone(current)) ==> ending.Returned? && desk.Alone(ending.session)
      ensures ending.Returned? ==> ending.succeeded == !ending.session.stage.BlockedStage?
    {
      if tasks != [] && forall t | t in tasks :: t.status.Completed? {
        var completed := MoveTo(current, CompletedStage, "", None, None, NO_NOTE);
        MayEndPhase(desk.law, desk.early, Loaded(Action.PrepareNext), current, CompletedStage, "", None);
        ending := desk.Finish(Loaded(Action.PrepareNext), current, completed.value, true);
      } else {
        MayBlock(desk.law, desk.early, Loaded(Action.PrepareNext), current, stuck);
        ending := desk.Block(Loaded(Action.PrepareNext), current, stuck);
      }
    }

    // The loop over the preparation phases.
    method RunPreparation(running: MissionSession, task: string, pipeline: seq<Phase>, outcome: Phase -> Option<BlockNote>)
      returns (ending: Ending)
      requires desk.StandsAt(AtPreparation, running) && desk.trail != [] && running.stage.TaskPreparation? && running.activeTask == task
      modifies desk, desk.store
      ensures Lawful(desk.law, desk.trail) && old(desk.trail) <= desk.trail
      ensures ending.Conflict? || (ending.Returned? && ending.session == Last(desk.trail).updated)
      ensures ending.Returned? ==> EndsPreparation(ending.session, task, FirstBlock(pipeline, true, outcome))
      ensures old(desk.Alone(running)) ==> ending.Returned? && desk.Alone(ending.session)
      ensures ending.Returned? ==> ending.succeeded == !ending.session.stage.BlockedStage?
    {
      for i := 0 to |pipeline|
        invariant FirstBlock(pipeline, true, outcome) == FirstBlock(pipeline[i..], true, outcome)
        invariant desk.trail == old(desk.trail) && desk.StandsAt(AtPreparation, running)
        invariant old(desk.Alone(running)) ==> desk.Alone(running)
      {
        var phase := pipeline[i];
        if !Prepares(phase) {
          continue;
        }
        var block := outcome(phase);
        if block.Some? {
          MayBlock(desk.law, desk.early, AtPreparation, running, block.value);
          ending := desk.Block(AtPreparation, running, block.value);
          return;
        }
      }
      var review := MoveTo(running, TaskReview, "task_review", Some(task), None, NO_NOTE);
      MayEndPhase(desk.law, desk.early, AtPreparation, running, TaskReview, "task_review", Some(task));
      ending := desk.Finish(AtPreparation, running, review.value, true);
    }

    // `planFirst` says which of two markers in one text the search meets first.
    method RetryPreparation(expected: nat, tasks: seq<Task>, planFirst: bool, pipeline: seq<Phase>, outcome: Phase -> Option<BlockNote>)
      returns (ending: Ending, failed: Phase)
      requires desk.Begins(Action.RetryPreparation, expected)
      modifies desk, desk.store
      ensures Keeps(desk.law, Action.RetryPreparation, expected, old(desk.trail), desk.trail, ending)
      ensures !ending.MoveRefused?
      ensures Prepares(failed)
      ensures |desk.trail| > |old(desk.trail)| ==>
                (failed.PlanPhase? <==> PlanPhase in desk.trail[|old(desk.trail)|].held.note.markers
                                        && (planFirst || SpecPhase !in desk.trail[|old(desk.trail)|].held.note.markers))
      ensures ending.Returned? ==> |desk.trail| > |old(desk.trail)|
      ensures |desk.trail| > |old(desk.trail)| ==> failed in desk.trail[|old(desk.trail)|].held.note.markers
      ensures |desk.trail| > |old(desk.trail)| ==>
                Prepared(desk.trail[|old(desk.trail)|].held.activeTask, From(pipeline, failed), outcome, |old(desk.trail)|, desk.trail, ending)
      ensures old(desk.meanwhile) == [] ==>
                && (ending.Returned? <==> old(desk.Offers(expected, {BlockedStage})) && CanPrepareAgain(old(desk.Held()), tasks))
                && (ending.Returned? ==> desk.Alone(ending.session))
      ensures ending.Returned? ==> ending.succeeded == !ending.session.stage.BlockedStage?
    {
      failed := SpecPhase;
      var current, failure := desk.Expected(Action.RetryPreparation, expected, {BlockedStage});
      if current.None? {
        return failure, failed;
      }
      var markers := current.value.note.markers;
      if SpecPhase !in markers && PlanPhase !in markers {
        return InvalidAction, failed;
      }
      failed := if PlanPhase in markers && (planFirst || SpecPhase !in markers) then PlanPhase else SpecPhase;
      if !exists t | t in tasks :: t.id == current.value.activeTask {
        return InvalidRequest, failed;
      }
      var task := current.value.activeTask;
      assert failed in markers && Prepares(failed);
      MayPrepare(desk.law, desk.early, Action.RetryPreparation, current.value, task);
      ending := PrepareTask(Action.RetryPreparation, current.value, task, From(pipeline, failed), outcome);
    }

    // `amended` says whether an amendment is pending after a phase; `leased`,
    // whether the lease could be had.
    method ExecutePrepared(expected: nat, task: string, tasks: seq<Task>, leased: bool, pipeline: seq<Phase>,
                           outcome: Phase -> Option<BlockNote>, amended: Phase -> bool, closing: Closing) returns (ending: Ending)
      requires desk.Begins(Action.ExecutePrepared, expected)
      modifies desk, desk.store
      ensures Lawful(desk.law, desk.trail) && old(desk.trail) <= desk.trail
      ensures old(desk.trail) == [] ==> CallOf(desk.law, Action.ExecutePrepared, expected, desk.trail)
      ensures EndsExecution(desk.trail, ending, task)
      ensures |desk.trail| > |old(desk.trail)| ==> Executes(desk.trail[|old(desk.trail)|].updated, "execute", task)
      ensures ExecutionEnds(pipeline, outcome, amended, closing, ending)
      ensures old(desk.meanwhile) == [] ==>
                && (ending.Returned? || ending.MoveRefused? <==> old(desk.Offers(expected, {TaskReview})) && CanExecute(old(desk.Held()), task, tasks) && leased)
                && (ending.Returned? ==> desk.Alone(ending.session))
    {
      var current, failure := desk.Expected(Action.ExecutePrepared, expected, {TaskReview});
      if current.None? {
        return failure;
      }
      if current.value.activeTask != task || !(exists t | t in tasks :: t.id == task) || !leased {
        return InvalidRequest;
      }
      var running := MoveTo(current.value, Executing, "execute", Some(task), None, NO_NOTE);
      MayExecute(desk.law, desk.early, Action.ExecutePrepared, current.value, "execute", task);
      var ok := desk.Save(Loaded(Action.ExecutePrepared), current.value, running.value, AtExecution);
      if !ok {
        return Conflict;
      }
      ghost var grown := desk.trail;
      ending := RunExecution(running.value, task, pipeline, outcome, amended, closing);
      CallGrows(desk.law, Action.ExecutePrepared, expected, old(desk.trail), grown, desk.trail);
    }

    // The loop over the phases that are not preparation.
    method RunExecution(running: MissionSession, task: string, pipeline: seq<Phase>, outcome: Phase -> Option<BlockNote>,
                        amended: Phase -> bool, closing: Closing) returns (ending: Ending)
      requires desk.StandsAt(AtExecution, running) && desk.trail != [] && running.stage.Executing? && running.activeTask == task
      modifies desk, desk.store
      ensures Closed(old(desk.trail), ending, task) && ExecutionEnds(pipeline, outcome, amended, closing, ending)
      ensures old(desk.Alone(running)) ==> !ending.Conflict? && (ending.Returned? ==> desk.Alone(ending.session))
    {
      for i := 0 to |pipeline|
        invariant desk.trail == old(desk.trail) && desk.StandsAt(AtExecution, running)
        invariant old(desk.Alone(running)) ==> desk.Alone(running)
        invariant Undisturbed(pipeline[..i], outcome, amended)
      {
        var phase := pipeline[i];
        if Prepares(phase) {
          OneMoreQuiet(pipeline, outcome, amended, i);
          continue;
        }
        var block := outcome(phase);
        if block.Some? {
          MayBlock(desk.law, desk.early, AtExecution, running, block.value);
          ending := desk.Block(AtExecution, running, block.value);
          InterruptionDecides(pipeline, outcome, amended, i, closing, ending);
          return;
        }
        if amended(phase) {
          ending := PauseForAmendment(running);
          InterruptionDecides(pipeline, outcome, amended, i, closing, ending);
          return;
        }
        OneMoreQuiet(pipeline, outcome, amended, i);
      }
      ending := FinishExecution(running, task, closing);
      ClosingDecides(pipeline, outcome, amended, closing, ending);
    }

    method RetryReview(expected: nat, tasks: seq<Task>, leased: bool, block: Option<BlockNote>, closing: Closing) returns (ending: Ending)
      requires desk.Begins(Action.RetryReview, expected)
      modifies desk, desk.store
      ensures Lawful(desk.law, desk.trail) && old(desk.trail) <= desk.trail
      ensures old(desk.trail) == [] ==> CallOf(desk.law, Action.RetryReview, expected, desk.trail)
      ensures ending.Returned? || ending.MoveRefused? ==> |desk.trail| > |old(desk.trail)|
      ensures |desk.trail| > |old(desk.trail)| ==>
                EndsExecution(desk.trail, ending, desk.trail[|old(desk.trail)|].held.activeTask)
                && Executes(desk.trail[|old(desk.trail)|].updated, "review", desk.trail[|old(desk.trail)|].held.activeTask)
      ensures ReviewEnds(block, closing, ending)
      ensures old(desk.meanwhile) == [] ==>
                && (ending.Returned? || ending.MoveRefused? <==> old(desk.Offers(expected, {BlockedStage})) && CanReviewAgain(old(desk.Held()), tasks) && leased)
                && (ending.Returned? ==> desk.Alone(ending.session))
    {
      var current, failure := desk.Expected(Action.RetryReview, expected, {BlockedStage});
      if current.None? {
        return failure;
      }
      if ReviewPhase !in current.value.note.markers {
        return InvalidAction;
      }
      var task := current.value.activeTask;
      if !leased || !exists t | t in tasks :: t.id == task && t.status.Failed? {
        return InvalidRequest;
      }
      ending := ReviewTask(current.value, task, block, closing);
    }

    // From the block to the end of the review.
    method ReviewTask(current: MissionSession, task: string, block: Option<BlockNote>, closing: Closing) returns (ending: Ending)
      requires desk.StandsAt(Loaded(Action.RetryReview), current) && current.stage.BlockedStage? && ReviewPhase in current.note.markers
      modifies desk, desk.store
      ensures Closed(old(desk.trail), ending, task) && ReviewEnds(block, closing, ending)
      ensures ending.Returned? || ending.MoveRefused? ==> |desk.trail| > |old(desk.trail)|
      ensures |desk.trail| > |old(desk.trail)| ==>
                && desk.trail[|old(desk.trail)|].point == Loaded(Action.RetryReview) && desk.trail[|old(desk.trail)|].held == current
                && Executes(desk.trail[|old(desk.trail)|].updated, "review", task)
      ensures old(desk.Alone(current)) ==> !ending.Conflict? && (ending.Returned? ==> desk.Alone(ending.session))
    {
      var running := MoveTo(current, Executing, "review", Some(task), None, NO_NOTE);
      MayExecute(desk.law, desk.early, Action.RetryReview, current, "review", task);
      var ok := desk.Save(Loaded(Action.RetryReview), current, running.value, AtExecution);
      if !ok {
        return Conflict;
      }
      ending := ReviewAgain(running.value, task, block, closing);
    }

    // The review phase that is retried.
    method ReviewAgain(running: MissionSession, task: string, block: Option<BlockNote>, closing: Closing) returns (ending: Ending)
      requires desk.StandsAt(AtExecution, running) && desk.trail != [] && running.stage.Executing? && running.activeTask == task
      modifies desk, desk.store
      ensures Closed(old(desk.trail), ending, task) && ReviewEnds(block, closing, ending)
      ensures old(desk.Alone(running)) ==> !ending.Conflict? && (ending.Returned? ==> desk.Alone(ending.session))
    {
      if block.Some? {
        MayBlock(desk.law, desk.early, AtExecution, running, block.value);
        ending := desk.Block(AtExecution, running, block.value);
        return;
      }
      ending := FinishExecution(running, task, closing);
    }

    // An execution that has ended, in one of three ways.
    ghost predicate Closed(before: seq<SaveMade>, ending: Ending, task: string)
      reads desk, desk.store
    {
      && Lawful(desk.law, desk.trail) && before <= desk.trail
      && (ending.Conflict? || ending.Returned? || ending.MoveRefused?) && EndsExecution(desk.trail, ending, task)
    }

    // `_finish_execution`.
    method FinishExecution(running: MissionSession, task: string, closing: Closing) returns (ending: Ending)
      requires desk.StandsAt(AtExecution, running) && desk.trail != [] && running.stage.Executing? && running.activeTask == task
      modifies desk, desk.store
      ensures Closed(old(desk.trail), ending, task) && ReviewEnds(None, closing, ending)
      ensures old(desk.Alone(running)) ==> !ending.Conflict? && (ending.Returned? ==> desk.Alone(ending.session))
    {
      if closing.refused.Some? {
        MayBlock(desk.law, desk.early, AtExecution, running, closing.refused.value);
        ending := desk.Block(AtExecution, running, closing.refused.value);
        return;
      }
      if closing.amendedBefore {
        ending := PauseForAmendment(running);
        return;
      }
      var reconciling := MoveTo(running, Reconciling, "reconcile", Some(task), None, NO_NOTE);
      MayReconcile(desk.law, desk.early, running, task);
      var ok := desk.Save(AtExecution, running, reconciling.value, AtReconciliation);
      if !ok {
        return Conflict;
      }
      ending := Reconcile(reconciling.value, closing);
    }

    // The second half of `_finish_execution`: a pause is refused from here.
    method Reconcile(reconciling: MissionSession, closing: Closing) returns (ending: Ending)
      requires desk.StandsAt(AtReconciliation, reconciling) && desk.trail != [] && reconciling.stage.Reconciling?
      modifies desk, desk.store
      ensures Closed(old(desk.trail), ending, reconciling.activeTask)
      ensures ending.MoveRefused? <==> closing.amendedAfter || (closing.divergence.None? && !closing.pendingLeft && closing.amendedLast)
      ensures ending.Returned? ==> EndsReconciled(closing, ending.session)
      ensures old(desk.Alone(reconciling)) ==> !ending.Conflict? && (ending.Returned? ==> desk.Alone(ending.session))
    {
      if closing.amendedAfter {
        return MoveRefused;
      }
      if closing.divergence.Some? {
        MayBlock(desk.law, desk.early, AtReconciliation, reconciling, closing.divergence.value);
        ending := desk.Block(AtReconciliation, reconciling, closing.divergence.value);
        return;
      }
      var next := Ready;
      if !closing.pendingLeft {
        if closing.amendedLast {
          return MoveRefused;
        }
        if closing.gateShut.Some? {
          MayBlock(desk.law, desk.early, AtReconciliation, reconciling, closing.gateShut.value);
          ending := desk.Block(AtReconciliation, reconciling, closing.gateShut.value);
          return;
        }
        next := CompletedStage;
      }
      var nextSession := MoveTo(reconciling, next, "", Some(""), None, NO_NOTE);
      MayEndPhase(desk.law, desk.early, AtReconciliation, reconciling, next, "", Some(""));
      ending := desk.Finish(AtReconciliation, reconciling, nextSession.value, true);
    }

    // `_pause_for_amendment`, where it is not refused: two saves.
    method PauseForAmendment(current: MissionSession) returns (ending: Ending)
      requires desk.StandsAt(AtExecution, current) && desk.trail != [] && current.stage.Executing?
      modifies desk, desk.store
      ensures Closed(old(desk.trail), ending, current.activeTask) && !ending.MoveRefused?
      ensures ending.Returned? ==> ending.session.stage.AmendmentReview? && |desk.trail| == |old(desk.trail)| + 2
      ensures old(desk.Alone(current)) ==> ending.Returned? && desk.Alone(ending.session)
    {
      var paused := MoveTo(current, Paused, "amendment_pending", None, None, NO_NOTE);
      MayPause(desk.law, desk.early, current);
      var ok := desk.Save(AtExecution, current, paused.value, AtPause);
      if !ok {
        return Conflict;
      }
      var review := MoveTo(paused.value, AmendmentReview, "amendment_review", None, None, NO_NOTE);
      ending := desk.Finish(AtPause, paused.value, review.value, true);
    }
  }

  // Blocked or amended with the task still active, or at rest with none.
  predicate Settles(session: MissionSession, task: string) {
    || EndsAs(session, BlockedStage, "", task, session.note) || EndsAs(session, AmendmentReview, "amendment_review", task, NO_NOTE)
    || EndsAs(session, Ready, "", "", NO_NOTE) || EndsAs(session, CompletedStage, "", "", NO_NOTE)
  }

  // ----- the control plane, on a design change -----

  datatype Amendment = PendingSafeBoundary | NotRequired | Required | ForeignMission

  class MissionControlPlane {
    const desk: SessionDesk

    constructor (desk: SessionDesk)
      ensures this.desk == desk
    {
      this.desk := desk;
    }

    // `current` is the session that was stored when the change came in.
    method RecordDesignAmendment() returns (amendment: Amendment, current: Option<MissionSession>)
      requires desk.trail == [] && IsProtocol(desk.law, desk.early)
      modifies desk, desk.store
      ensures amendment.ForeignMission? <==> current.None?
      ensures current.Some? ==> CallOf(desk.law, Action.RecordAmendment, current.value.revision, desk.trail)
      ensures current.Some? ==> (amendment.NotRequired? <==> current.value.stage !in {Executing, Reconciling, Ready, TaskReview, Paused})
      ensures amendment.Required? <==> desk.trail != []
      ensures old(desk.meanwhile) == [] && current.Some? && current.value.stage in {Ready, TaskReview, Paused} ==> amendment.Required?
      ensures amendment.Required? ==> 
                && |desk.trail| == 1 && desk.trail[0].held == current.value
                && EndsAs(desk.trail[0].updated, AmendmentReview, "amendment_review", current.value.activeTask, NO_NOTE)
    {
      desk.Meanwhile();
      current := desk.store.Load(desk.missionId);
      if current.None? {
        return ForeignMission, current;
      }
      if current.value.stage in {Executing, Reconciling} {
        return PendingSafeBoundary, current;
      }
      if current.value.stage !in {Ready, TaskReview, Paused} {
        return NotRequired, current;
      }
      var review := MoveTo(current.value, AmendmentReview, "amendment_review", None, None, NO_NOTE);
      MayAmend(desk.law, desk.early, Loaded(Action.RecordAmendment), current.value);
      var ok := desk.Save(Loaded(Action.RecordAmendment), current.value, review.value, Done);
      amendment := if ok then Required else PendingSafeBoundary;
    }
  }

  // ----- interleaved calls are runs -----

  // A call as the store saw it: its copy was a stored session, and each of its
  // saves came directly behind the session of the revision it was checked for.
  ghost predicate StoredCall(law: Law, history: seq<MissionSession>, trail: seq<SaveMade>) {
    && Lawful(law, trail)
    && (trail != [] ==> trail[0].point.Loaded? && trail[0].held in history)
    && forall k :: 0 <= k < |trail| ==> AcceptedIn(history, trail[k])
  }

  predicate AcceptedIn(history: seq<MissionSession>, made: SaveMade) {
    made.held.revision + 1 < |history| && history[made.held.revision + 1] == made.updated
  }

  // The k-th save of the t-th call is the one that follows entry i.
  predicate Follower(trails: seq<seq<SaveMade>>, i: nat, t: nat, k: nat) {
    t < |trails| && k < |trails[t]| && trails[t][k].held.revision == i
  }

  // All that was ever stored for a mission came from the saves of these calls,
  // however they took turns.
  ghost predicate Interleaved(law: Law, missionId: string, history: seq<MissionSession>, trails: seq<seq<SaveMade>>) {
    && history != [] && history[0] == NewSession(missionId)
    && (forall t {:trigger StoredCall(law, history, trails[t])} :: 0 <= t < |trails| ==> StoredCall(law, history, trails[t]))
    && (forall i: nat :: i + 1 < |history| ==> HasFollower(trails, i))
  }

  ghost predicate HasFollower(trails: seq<seq<SaveMade>>, i: nat) {
    exists t: nat, k: nat :: Follower(trails, i, t, k)
  }

  lemma LawfulSave(early: Notes, trail: seq<SaveMade>, k: nat)
    requires Lawful(Protocol(early), trail) && k < |trail|
    ensures Attempt(early, trail[k].point, trail[k].held, trail[k].updated, trail[k].next)
    ensures Succeeds(trail[k].held, trail[k].updated)
  {
    var made := trail[k];
    assert Protocol(early)(made.point, made.held, made.updated, made.next);
    AttemptRevises(early, made.point, made.held, made.updated, made.next);
  }

  lemma EntryCounts(early: Notes, missionId: string, history: seq<MissionSession>, trails: seq<seq<SaveMade>>, i: nat)
    requires Interleaved(Protocol(early), missionId, history, trails) && i < |history|
    ensures history[i].revision == i
  {
    if i > 0 {
      assert HasFollower(trails, i - 1);
      var t: nat, k: nat :| Follower(trails, i - 1, t, k);
      assert StoredCall(Protocol(early), history, trails[t]) && AcceptedIn(history, trails[t][k]);
      LawfulSave(early, trails[t], k);
    }
  }

  // The store compares revisions only; still, every save that it accepted was
  // computed from the very session it replaced.
  lemma CopyWasStored(early: Notes, missionId: string, history: seq<MissionSession>, trails: seq<seq<SaveMade>>, t: nat, k: nat)
    requires Interleaved(Protocol(early), missionId, history, trails) && t < |trails| && k < |trails[t]|
    ensures AcceptedIn(history, trails[t][k]) && history[trails[t][k].held.revision] == trails[t][k].held
    ensures Lawful(Protocol(early), trails[t])
  {
    var trail := trails[t];
    assert StoredCall(Protocol(early), history, trail) && AcceptedIn(history, trail[k]);
    if k == 0 {
      var j :| 0 <= j < |history| && history[j] == trail[0].held;
      EntryCounts(early, missionId, history, trails, j);
    } else {
      assert Continues(trail[k - 1], trail[k]) && AcceptedIn(history, trail[k - 1]);
      LawfulSave(early, trail, k - 1);
    }
  }

  ghost predicate Stands(early: Notes, missionId: string, history: seq<MissionSession>, point: Point) {
    history != [] && Reachable(early, missionId, Solo(history, point))
  }

  lemma FollowerOf(early: Notes, missionId: string, history: seq<MissionSession>, trails: seq<seq<SaveMade>>, i: nat)
    returns (t: nat, k: nat)
    requires Interleaved(Protocol(early), missionId, history, trails) && i + 1 < |history|
    ensures Follower(trails, i, t, k)
  {
    assert HasFollower(trails, i);
    t, k :| Follower(trails, i, t, k);
  }

  // A run can have stored the first n + 1 entries.
  lemma {:induction false} HistoryStands(early: Notes, missionId: string, history: seq<MissionSession>, trails: seq<seq<SaveMade>>, n: nat)
    returns (point: Point)
    requires Interleaved(Protocol(early), missionId, history, trails) && n < |history|
    ensures Stands(early, missionId, history[..n + 1], point)
    decreases n, 0
  {
    if n == 0 {
      point := Loaded(Action.RunResearch);
      SoloBegins(early, missionId, history[..1], point.action);
    } else {
      point := NextStands(early, missionId, history, trails, n - 1);
      assert history[..n - 1 + 2] == history[..n + 1];
    }
  }

  lemma {:induction false} NextStands(early: Notes, missionId: string, history: seq<MissionSession>, trails: seq<seq<SaveMade>>, n: nat)
    returns (point: Point)
    requires Interleaved(Protocol(early), missionId, history, trails) && n + 1 < |history|
    ensures Stands(early, missionId, history[..n + 2], point)
    decreases n, 2
  {
    var t, k := FollowerOf(early, missionId, history, trails, n);
    CallStands(early, missionId, history, trails, n, t, k);
    SaveStands(early, missionId, history, trails, n, t, k);
    point := trails[t][k].next;
  }

  // A run can have stored them and have the call about to make its k-th save.
  lemma {:induction false} CallStands(early: Notes, missionId: string, history: seq<MissionSession>, trails: seq<seq<SaveMade>>, n: nat, t: nat, k: nat)
    requires Interleaved(Protocol(early), missionId, history, trails) && n < |history| && Follower(trails, n, t, k)
    ensures Stands(early, missionId, history[..n + 1], trails[t][k].point)
    decreases n, 1
  {
    if k == 0 {
      var point := HistoryStands(early, missionId, history, trails, n);
      LoadStands(early, missionId, history, trails, n, t, point);
    } else {
      SaveBefore(early, missionId, history, trails, n, t, k);
      CallStands(early, missionId, history, trails, n - 1, t, k - 1);
      SaveStands(early, missionId, history, trails, n - 1, t, k - 1);
      OneEntryOn(early, missionId, history, n, trails[t][k].point);
    }
  }

  // The same prefix, counted from the entry before.
  lemma OneEntryOn(early: Notes, missionId: string, history: seq<MissionSession>, n: nat, point: Point)
    requires 0 < n < |history| && Stands(early, missionId, history[..n - 1 + 2], point)
    ensures Stands(early, missionId, history[..n + 1], point)
  {
    assert history[..n - 1 + 2] == history[..n + 1];
  }

  lemma LoadStands(early: Notes, missionId: string, history: seq<MissionSession>, trails: seq<seq<SaveMade>>, n: nat, t: nat, point: Point)
    requires Interleaved(Protocol(early), missionId, history, trails) && n < |history| && Follower(trails, n, t, 0)
    requires Stands(early, missionId, history[..n + 1], point)
    ensures Stands(early, missionId, history[..n + 1], trails[t][0].point)
  {
    assert StoredCall(Protocol(early), history, trails[t]);
    SoloLoads(early, missionId, history[..n + 1], point, trails[t][0].point.action);
  }

  lemma SaveBefore(early: Notes, missionId: string, history: seq<MissionSession>, trails: seq<seq<SaveMade>>, n: nat, t: nat, k: nat)
    requires Interleaved(Protocol(early), missionId, history, trails) && Follower(trails, n, t, k) && k > 0
    ensures n > 0 && Follower(trails, n - 1, t, k - 1) && trails[t][k - 1].next == trails[t][k].point
  {
    assert StoredCall(Protocol(early), history, trails[t]) && Continues(trails[t][k - 1], trails[t][k]);
    LawfulSave(early, trails[t], k - 1);
  }

  lemma SaveStands(early: Notes, missionId: string, history: seq<MissionSession>, trails: seq<seq<SaveMade>>, n: nat, t: nat, k: nat)
    requires Interleaved(Protocol(early), missionId, history, trails) && n < |history| && Follower(trails, n, t, k)
    requires Stands(early, missionId, history[..n + 1], trails[t][k].point)
    ensures n + 1 < |history| && Stands(early, missionId, history[..n + 2], trails[t][k].next)
  {
    CopyWasStored(early, missionId, history, trails, t, k);
    LawfulSave(early, trails[t], k);
    OneSaveStands(early, missionId, history, n, trails[t][k]);
  }

  lemma OneSaveStands(early: Notes, missionId: string, history: seq<MissionSession>, n: nat, made: SaveMade)
    requires n + 1 < |history| && history[n] == made.held && history[n + 1] == made.updated
    requires Attempt(early, made.point, made.held, made.updated, made.next) && Succeeds(made.held, made.updated)
    requires Stands(early, missionId, history[..n + 1], made.point)
    ensures Stands(early, missionId, history[..n + 2], made.next)
  {
    SoloSaves(early, missionId, history[..n + 1], made.point, made.updated, made.next);
    assert history[..n + 1] + [made.updated] == history[..n + 2];
  }

  // However lawful calls take turns, what they store is the history of a run of
  // the session protocol; so unless early texts carry a task marker, tasks are
  // always worked on under the snapshot that was approved for execution.
  lemma InterleavedCallsAreRuns(early: Notes, missionId: string, history: seq<MissionSession>, trails: seq<seq<SaveMade>>)
    requires Interleaved(Protocol(early), missionId, history, trails)
    ensures exists s :: Reachable(early, missionId, s) && s.history == history
    ensures Markerless(early) ==> Governed(history)
  {
    var point := HistoryStands(early, missionId, history, trails, |history| - 1);
    assert history[..|history|] == history;
    assert Reachable(early, missionId, Solo(history, point)) && Solo(history, point).history == history;
    GovernedIffMarkerless(early, missionId);
  }
}
