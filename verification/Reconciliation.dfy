// Comparing the approved changeset with the observed code, and the gate that
// lets the result merge (src/mission_orchestrator/domain/reconciliation.py).
module Reconciliation {
  import opened TextOrder
  import opened Workplan
  import opened Design
  import opened Changeset
  import opened ChangesetCompiler
  import opened ChangesetLaws
  import opened OperationLaws
  import TaskExecutor

  datatype OperationState = Unmaterialized | Materialized | Divergent | Unverifiable

  datatype Detail =
    | NotCovered
    | TaskUnfinished(task: string, status: TaskStatus)
    | NoLocator
    | Observed(locator: string)
    | NotObserved(locator: string)
    | VerifiedRelationship
    | RelationshipUnseen

  datatype OperationCheck = OperationCheck(operationId: string, state: OperationState, detail: Detail, blocking: bool)

  datatype Reconciled = Reconciled(snapshotId: string, observedRevision: nat, checks: seq<OperationCheck>)

  type Relationships = set<(string, string, string)>

  // The first task that covers an operation.
  function FirstCover(tasks: seq<Task>, operation: string): Option<Task> {
    if tasks == [] then None
    else if operation in tasks[0].covers then Some(tasks[0])
    else FirstCover(tasks[1..], operation)
  }

  function Check(op: ChangeOperation, task: Option<Task>, observedIds: set<string>, verified: Relationships): OperationCheck {
    var blocking := op.verification.Hard?;
    if task.None? then OperationCheck(op.id, Unmaterialized, NotCovered, blocking)
    else if !task.value.status.Completed? then
      OperationCheck(op.id, Unmaterialized, TaskUnfinished(task.value.id, task.value.status), blocking)
    else
      var locator := Text(op.locator);
      var observed := locator != "" && locator in observedIds;
      match op.kind
      case CreateNode =>
        if locator == "" then OperationCheck(op.id, Unverifiable, NoLocator, blocking)
        else if observed then OperationCheck(op.id, Materialized, Observed(locator), blocking)
        else OperationCheck(op.id, Divergent, NotObserved(locator), blocking)
      case ModifyNode =>
        if observed then OperationCheck(op.id, Materialized, Observed(locator), blocking)
        else OperationCheck(op.id, Divergent, NotObserved(locator), blocking)
      case RemoveNode =>
        if !observed then OperationCheck(op.id, Materialized, NotObserved(locator), blocking)
        else OperationCheck(op.id, Divergent, Observed(locator), blocking)
      case Connect =>
        if (op.source, op.relation, op.target) in verified then OperationCheck(op.id, Materialized, VerifiedRelationship, blocking)
        else OperationCheck(op.id, Unverifiable, RelationshipUnseen, blocking)
      case Disconnect => OperationCheck(op.id, Unverifiable, RelationshipUnseen, blocking)
  }

  function Checks(operations: seq<ChangeOperation>, tasks: seq<Task>, observedIds: set<string>, verified: Relationships): seq<OperationCheck> {
    seq(|operations|, i requires 0 <= i < |operations| =>
      Check(operations[i], FirstCover(tasks, operations[i].id), observedIds, verified))
  }

  // covering.setdefault(operation_id, task), over all tasks and what they cover
  method CoveringTasks(tasks: seq<Task>) returns (covering: map<string, Task>)
    ensures forall op :: op in covering <==> FirstCover(tasks, op).Some?
    ensures forall op :: op in covering ==> FirstCover(tasks, op) == Some(covering[op])
  {
    covering := map[];
    for i := 0 to |tasks|
      invariant forall op :: op in covering <==> FirstCover(tasks[..i], op).Some?
      invariant forall op :: op in covering ==> FirstCover(tasks[..i], op) == Some(covering[op])
    {
      ghost var before := covering;
      var covers := tasks[i].covers;
      for j := 0 to |covers|
        invariant forall op :: op in covering <==> op in before || op in covers[..j]
        invariant forall op :: op in covering ==> covering[op] == if op in before then before[op] else tasks[i]
      {
        if covers[j] !in covering {
          covering := covering[covers[j] := tasks[i]];
        }
        assert covers[..j + 1] == covers[..j] + [covers[j]];
      }
      assert covers[..|covers|] == covers;
      forall op ensures FirstCover(tasks[..i + 1], op) ==
                        if FirstCover(tasks[..i], op).Some? then FirstCover(tasks[..i], op)
                        else if op in covers then Some(tasks[i]) else None
      {
        FirstCoverStep(tasks, i, op);
      }
    }
    assert tasks[..|tasks|] == tasks;
  }

  lemma {:induction false} FirstCoverStep(tasks: seq<Task>, i: nat, op: string)
    requires i < |tasks|
    ensures FirstCover(tasks[..i + 1], op) ==
            if FirstCover(tasks[..i], op).Some? then FirstCover(tasks[..i], op)
            else if op in tasks[i].covers then Some(tasks[i]) else None
  {
    if i > 0 {
      assert tasks[..i + 1][1..] == tasks[1..][..i] && tasks[..i][1..] == tasks[1..][..i - 1];
      FirstCoverStep(tasks[1..], i - 1, op);
    }
  }

  method Reconcile(changeset: ChangeSet, tasks: seq<Task>, observedIds: set<string>, observedRevision: nat, verified: Relationships)
    returns (result: Reconciled)
    ensures result == Reconciled(changeset.snapshotId, observedRevision, Checks(changeset.operations, tasks, observedIds, verified))
  {
    var covering := CoveringTasks(tasks);
    var checks := [];
    for i := 0 to |changeset.operations|
      invariant checks == Checks(changeset.operations, tasks, observedIds, verified)[..i]
    {
      var op := changeset.operations[i];
      var task := if op.id in covering then Some(covering[op.id]) else None;
      assert task == FirstCover(tasks, op.id);
      checks := checks + [Check(op, task, observedIds, verified)];
    }
    result := Reconciled(changeset.snapshotId, observedRevision, checks);
  }

  // ----- merge_gate_reasons -----

  datatype GateReason =
    | GateTaskFailed(task: string)
    | GateTaskBlocked(task: string)
    | GateNotMaterialized(check: OperationCheck)
    | GateDivergence(check: OperationCheck)
    | GateUnverifiable(check: OperationCheck)

  predicate Holds(check: OperationCheck) {
    check.state.Materialized? || (check.state.Unverifiable? && !check.blocking)
  }

  ghost predicate GateReasonHolds(reconciled: Reconciled, tasks: seq<Task>, r: GateReason) {
    match r
    case GateTaskFailed(id) => exists t :: t in tasks && t.id == id && t.status.Failed?
    case GateTaskBlocked(id) => exists t :: t in tasks && t.id == id && t.status.Blocked?
    case GateNotMaterialized(c) => c in reconciled.checks && c.state.Unmaterialized?
    case GateDivergence(c) => c in reconciled.checks && c.state.Divergent?
    case GateUnverifiable(c) => c in reconciled.checks && c.state.Unverifiable? && c.blocking
  }

  ghost predicate NoneStopped(tasks: seq<Task>) {
    forall t :: t in tasks ==> !Stops(t.status)
  }

  ghost predicate GateOpen(reconciled: Reconciled, tasks: seq<Task>) {
    NoneStopped(tasks) && forall c :: c in reconciled.checks ==> Holds(c)
  }

  method MergeGateReasons(reconciled: Reconciled, tasks: seq<Task>) returns (reasons: seq<GateReason>)
    ensures forall r :: r in reasons <==> GateReasonHolds(reconciled, tasks, r)
    ensures reasons == [] <==> GateOpen(reconciled, tasks)
  {
    reasons := [];
    for i := 0 to |tasks|
      invariant forall r :: r in reasons <==> GateReasonHolds(Reconciled(reconciled.snapshotId, reconciled.observedRevision, []), tasks[..i], r)
    {
      ghost var before := reasons;
      if tasks[i].status.Failed? {
        reasons := reasons + [GateTaskFailed(tasks[i].id)];
      } else if tasks[i].status.Blocked? {
        reasons := reasons + [GateTaskBlocked(tasks[i].id)];
      }
      assert tasks[..i + 1] == tasks[..i] + [tasks[i]];
    }
    assert tasks[..|tasks|] == tasks;
    var checks := reconciled.checks;
    for i := 0 to |checks|
      invariant forall r :: r in reasons <==> GateReasonHolds(Reconciled(reconciled.snapshotId, reconciled.observedRevision, checks[..i]), tasks, r)
    {
      if checks[i].state.Unmaterialized? {
        reasons := reasons + [GateNotMaterialized(checks[i])];
      } else if checks[i].state.Divergent? {
        reasons := reasons + [GateDivergence(checks[i])];
      } else if checks[i].state.Unverifiable? && checks[i].blocking {
        reasons := reasons + [GateUnverifiable(checks[i])];
      }
      assert checks[..i + 1] == checks[..i] + [checks[i]];
    }
    assert checks[..|checks|] == checks;
    GateOpenMeansNoReason(reconciled, tasks);
    if reasons != [] { assert reasons[0] in reasons; }
  }

  lemma GateOpenMeansNoReason(reconciled: Reconciled, tasks: seq<Task>)
    ensures GateOpen(reconciled, tasks) <==> forall r :: !GateReasonHolds(reconciled, tasks, r)
  {
    if forall r :: !GateReasonHolds(reconciled, tasks, r) {
      forall t | t in tasks ensures !Stops(t.status) {
        assert !GateReasonHolds(reconciled, tasks, GateTaskFailed(t.id));
        assert !GateReasonHolds(reconciled, tasks, GateTaskBlocked(t.id));
      }
      forall c | c in reconciled.checks ensures Holds(c) {
        assert !GateReasonHolds(reconciled, tasks, GateNotMaterialized(c));
        assert !GateReasonHolds(reconciled, tasks, GateDivergence(c));
        assert !GateReasonHolds(reconciled, tasks, GateUnverifiable(c));
      }
    }
  }

  // ----- what an open gate means for the approved design -----

  // The design's wish for one node came true between the two observations.
  ghost predicate NodeFulfilled(rules: TextRules, nodes: Nodes, id: string, before: set<string>, now: set<string>)
    requires id in nodes
  {
    var locator := Locator(rules, nodes, id);
    match nodes[id].intent
    case Keep => true
    case Create => if locator == "" then nodes[id].location.External? else locator in before || locator in now
    case Change => locator in now
    case Remove => locator !in now
  }

  // Only edges called contains or inherits, in any case, must have come true.
  ghost predicate EdgeFulfilled(e: Edge, verified: Relationships) {
    HardRelation(e.relation) ==>
      && (e.intent.Create? ==> (e.source, e.relation, e.target) in verified)
      && !e.intent.Remove?
  }

  ghost predicate Fulfilled(rules: TextRules, snapshot: Snapshot, before: set<string>, now: set<string>, verified: Relationships) {
    var nodes := NodeMap(snapshot.nodes);
    && (forall id :: id in nodes ==> NodeFulfilled(rules, nodes, id, before, now))
    && (forall e :: e in snapshot.edges ==> EdgeFulfilled(e, verified))
  }

  ghost predicate AllCovered(operations: seq<ChangeOperation>, tasks: seq<Task>) {
    forall op :: op in operations ==> FirstCover(tasks, op.id).Some? && FirstCover(tasks, op.id).value.status.Completed?
  }

  // What the check of one covered operation asks for.
  predicate OperationFulfilled(op: ChangeOperation, now: set<string>, verified: Relationships) {
    var locator := Text(op.locator);
    match op.kind
    case CreateNode => if locator == "" then !op.verification.Hard? else locator in now
    case ModifyNode => locator != "" && locator in now
    case RemoveNode => !(locator != "" && locator in now)
    case Connect => (op.source, op.relation, op.target) in verified || !op.verification.Hard?
    case Disconnect => !op.verification.Hard?
  }

  // Which of the four states a check finds, and whether it can shut the gate.
  lemma CheckStates(op: ChangeOperation, cover: Option<Task>, now: set<string>, verified: Relationships)
    ensures var check := Check(op, cover, now, verified);
            var done := cover.Some? && cover.value.status.Completed?;
            var seen := op.locator.Some? && op.locator.value != "" && op.locator.value in now;
            && check.operationId == op.id && (check.blocking <==> op.verification.Hard?)
            && (check.state.Unmaterialized? <==> !done)
            && (check.state.Materialized? <==> done && match op.kind
                                                       case CreateNode => seen
                                                       case ModifyNode => seen
                                                       case RemoveNode => !seen
                                                       case Connect => (op.source, op.relation, op.target) in verified
                                                       case Disconnect => false)
            && (check.state.Divergent? <==> done && match op.kind
                                                    case CreateNode => op.locator.Some? && op.locator.value != "" && !seen
                                                    case ModifyNode => !seen
                                                    case RemoveNode => seen
                                                    case _ => false)
  {
  }

  // What a check says: why the operation is not done, where its code was looked
  // for and whether it was there, or whether its relationship was seen.
  lemma CheckDetails(op: ChangeOperation, cover: Option<Task>, now: set<string>, verified: Relationships)
    ensures var detail := Check(op, cover, now, verified).detail;
            var done := cover.Some? && cover.value.status.Completed?;
            var locator := if op.locator.Some? then op.locator.value else "";
            && (cover.None? ==> detail == NotCovered)
            && (cover.Some? && !done ==> detail == TaskUnfinished(cover.value.id, cover.value.status))
            && (done && op.kind in {Connect, Disconnect} ==>
                  detail == if op.kind.Connect? && (op.source, op.relation, op.target) in verified then VerifiedRelationship
                            else RelationshipUnseen)
            && (done && op.kind.CreateNode? && locator == "" ==> detail == NoLocator)
            && (done && op.kind in {CreateNode, ModifyNode, RemoveNode} && (op.kind.CreateNode? ==> locator != "") ==>
                  detail == if locator != "" && locator in now then Observed(locator) else NotObserved(locator))
  {
  }

  lemma {:induction false} FirstCoverMeaning(tasks: seq<Task>, op: string)
    ensures FirstCover(tasks, op).None? <==> forall t :: t in tasks ==> op !in t.covers
    ensures FirstCover(tasks, op).Some? ==>
              exists i :: 0 <= i < |tasks| && tasks[i] == FirstCover(tasks, op).value && op in tasks[i].covers
                          && forall j :: 0 <= j < i ==> op !in tasks[j].covers
  {
    if tasks != [] && op !in tasks[0].covers {
      FirstCoverMeaning(tasks[1..], op);
      assert tasks == [tasks[0]] + tasks[1..];
      if FirstCover(tasks, op).Some? {
        var i :| 0 <= i < |tasks[1..]| && tasks[1..][i] == FirstCover(tasks[1..], op).value && op in tasks[1..][i].covers
                 && forall j :: 0 <= j < i ==> op !in tasks[1..][j].covers;
        forall j | 0 <= j < i + 1 ensures op !in tasks[j].covers {
          if j > 0 { assert tasks[j] == tasks[1..][j - 1]; }
        }
        assert tasks[i + 1] == tasks[1..][i];
      }
    }
  }

  lemma CheckMeaning(op: ChangeOperation, tasks: seq<Task>, now: set<string>, verified: Relationships)
    ensures var cover := FirstCover(tasks, op.id);
            Holds(Check(op, cover, now, verified)) <==>
            cover.Some? && cover.value.status.Completed? && OperationFulfilled(op, now, verified)
  {
  }

  lemma EntryFulfilled(rules: TextRules, nodes: Nodes, id: string, before: set<string>, now: set<string>, verified: Relationships)
    requires id in nodes && !EntryOf(rules, nodes, before, id).Raises?
    ensures var entry := EntryOf(rules, nodes, before, id);
            (entry.Emits? ==> OperationFulfilled(entry.operation, now, verified)) <==>
            NodeFulfilled(rules, nodes, id, before, now)
  {
    EntryMeaning(rules, nodes, before, id);
  }

  lemma EdgeOperationFulfilled(nodes: Nodes, creates: map<string, string>, e: Edge, now: set<string>, verified: Relationships)
    requires e.intent.Create? || e.intent.Remove?
    ensures OperationFulfilled(EdgeOperation(nodes, creates, e), now, verified) <==> EdgeFulfilled(e, verified)
  {
    VerificationMeaning(e);
  }

  ghost function NodePart(rules: TextRules, snapshot: Snapshot, observed: set<string>): seq<ChangeOperation> {
    Collect(Operations, Entries(rules, NodeMap(snapshot.nodes), observed, NodeKeys(snapshot.nodes)))
  }

  // The operations of a changeset: one for each emitting node, one for each acting edge.
  lemma NodeOperationListed(rules: TextRules, snapshot: Snapshot, observed: set<string>, id: string)
    requires id in NodeMap(snapshot.nodes) && EntryOf(rules, NodeMap(snapshot.nodes), observed, id).Emits?
    ensures EntryOf(rules, NodeMap(snapshot.nodes), observed, id).operation in Compiled(rules, snapshot, observed).operations
  {
    var nodes := NodeMap(snapshot.nodes);
    var part := NodePart(rules, snapshot, observed);
    var op := EntryOf(rules, nodes, observed, id).operation;
    CreationIsListed(rules, nodes, observed, NodeKeys(snapshot.nodes), id);
    SortKeepsMembers(OperationId, part + EdgeOperations(PreparedNodes(rules, nodes), Creates(part), snapshot.edges), op);
  }

  lemma EdgeOperationListed(rules: TextRules, snapshot: Snapshot, observed: set<string>, e: Edge)
    requires e in snapshot.edges && (e.intent.Create? || e.intent.Remove?)
    ensures EdgeOperation(PreparedNodes(rules, NodeMap(snapshot.nodes)), Creates(NodePart(rules, snapshot, observed)), e)
            in Compiled(rules, snapshot, observed).operations
  {
    var nodes := NodeMap(snapshot.nodes);
    var part := NodePart(rules, snapshot, observed);
    var tail := EdgeOperations(PreparedNodes(rules, nodes), Creates(part), snapshot.edges);
    EdgeIsListed(PreparedNodes(rules, nodes), Creates(part), snapshot.edges, e);
    SortKeepsMembers(OperationId, part + tail, EdgeOperation(PreparedNodes(rules, nodes), Creates(part), e));
  }

  lemma OperationOrigin(rules: TextRules, snapshot: Snapshot, observed: set<string>, op: ChangeOperation) returns (e: Option<Edge>)
    requires op in Compiled(rules, snapshot, observed).operations
    ensures e.None? ==> op.targetNode in NodeMap(snapshot.nodes)
                        && EntryOf(rules, NodeMap(snapshot.nodes), observed, op.targetNode) == Emits(op)
    ensures e.Some? ==> && e.value in snapshot.edges && (e.value.intent.Create? || e.value.intent.Remove?)
                        && op == EdgeOperation(PreparedNodes(rules, NodeMap(snapshot.nodes)), Creates(NodePart(rules, snapshot, observed)), e.value)
  {
    var nodes := NodeMap(snapshot.nodes);
    var part := NodePart(rules, snapshot, observed);
    var tail := EdgeOperations(PreparedNodes(rules, nodes), Creates(part), snapshot.edges);
    SortKeepsMembers(OperationId, part + tail, op);
    if op in part {
      OperationsComeFromNodes(rules, nodes, observed, NodeKeys(snapshot.nodes), op);
      e := None;
    } else {
      EdgeOperationsAreOnEdges(PreparedNodes(rules, nodes), Creates(part), snapshot.edges, op);
      var d :| d in snapshot.edges && (d.intent.Create? || d.intent.Remove?) && op == EdgeOperation(PreparedNodes(rules, nodes), Creates(part), d);
      e := Some(d);
    }
  }

  lemma NoIssueNoRaise(rules: TextRules, snapshot: Snapshot, observed: set<string>, id: string)
    requires Compiled(rules, snapshot, observed).issues == [] && id in NodeMap(snapshot.nodes)
    ensures !EntryOf(rules, NodeMap(snapshot.nodes), observed, id).Raises?
  {
    var nodes := NodeMap(snapshot.nodes);
    var keys := NodeKeys(snapshot.nodes);
    var entries := Entries(rules, nodes, observed, keys);
    var i :| 0 <= i < |keys| && keys[i] == id;
    if entries[i].Raises? {
      CollectMember(Issues, entries, entries[i].issue);
      SortKeepsMembers(IssueTarget, Collect(Issues, entries), entries[i].issue);
    }
  }

  ghost predicate AllHold(operations: seq<ChangeOperation>, tasks: seq<Task>, now: set<string>, verified: Relationships) {
    forall op :: op in operations ==> Holds(Check(op, FirstCover(tasks, op.id), now, verified))
  }

  lemma ChecksHold(operations: seq<ChangeOperation>, tasks: seq<Task>, now: set<string>, verified: Relationships)
    ensures AllHold(operations, tasks, now, verified) <==>
            forall c :: c in Checks(operations, tasks, now, verified) ==> Holds(c)
  {
    var checks := Checks(operations, tasks, now, verified);
    if forall c :: c in checks ==> Holds(c) {
      forall op | op in operations ensures Holds(Check(op, FirstCover(tasks, op.id), now, verified)) {
        var i :| 0 <= i < |operations| && operations[i] == op;
        assert checks[i] in checks;
      }
    }
  }

  lemma OpenGateFulfils(rules: TextRules, snapshot: Snapshot, before: set<string>, now: set<string>, tasks: seq<Task>, verified: Relationships)
    requires Compiled(rules, snapshot, before).issues == []
    requires AllHold(Compiled(rules, snapshot, before).operations, tasks, now, verified)
    ensures Fulfilled(rules, snapshot, before, now, verified)
  {
    var nodes := NodeMap(snapshot.nodes);
    forall id | id in nodes ensures NodeFulfilled(rules, nodes, id, before, now) {
      NoIssueNoRaise(rules, snapshot, before, id);
      EntryFulfilled(rules, nodes, id, before, now, verified);
      if EntryOf(rules, nodes, before, id).Emits? {
        NodeOperationListed(rules, snapshot, before, id);
        CheckMeaning(EntryOf(rules, nodes, before, id).operation, tasks, now, verified);
      }
    }
    forall e | e in snapshot.edges ensures EdgeFulfilled(e, verified) {
      if e.intent.Create? || e.intent.Remove? {
        EdgeOperationListed(rules, snapshot, before, e);
        var op := EdgeOperation(PreparedNodes(rules, nodes), Creates(NodePart(rules, snapshot, before)), e);
        CheckMeaning(op, tasks, now, verified);
        EdgeOperationFulfilled(PreparedNodes(rules, nodes), Creates(NodePart(rules, snapshot, before)), e, now, verified);
      }
    }
  }

  lemma FulfilledOpensGate(rules: TextRules, snapshot: Snapshot, before: set<string>, now: set<string>, tasks: seq<Task>, verified: Relationships)
    requires Compiled(rules, snapshot, before).issues == []
    requires AllCovered(Compiled(rules, snapshot, before).operations, tasks)
    requires Fulfilled(rules, snapshot, before, now, verified)
    ensures AllHold(Compiled(rules, snapshot, before).operations, tasks, now, verified)
  {
    var nodes := NodeMap(snapshot.nodes);
    var operations := Compiled(rules, snapshot, before).operations;
    forall op | op in operations ensures Holds(Check(op, FirstCover(tasks, op.id), now, verified)) {
      CheckMeaning(op, tasks, now, verified);
      var e := OperationOrigin(rules, snapshot, before, op);
      if e.Some? {
        EdgeOperationFulfilled(PreparedNodes(rules, nodes), Creates(NodePart(rules, snapshot, before)), e.value, now, verified);
      } else {
        EntryFulfilled(rules, nodes, op.targetNode, before, now, verified);
      }
    }
  }

  // The gate opens exactly when no task stopped, every operation is covered by
  // a completed task, and the approved design is what the code now shows.
  lemma GateMeaning(rules: TextRules, snapshot: Snapshot, before: set<string>, now: set<string>, revision: nat,
                    tasks: seq<Task>, verified: Relationships)
    requires Compiled(rules, snapshot, before).issues == []
    ensures var changeset := Compiled(rules, snapshot, before);
            var reconciled := Reconciled(changeset.snapshotId, revision, Checks(changeset.operations, tasks, now, verified));
            GateOpen(reconciled, tasks) <==>
            NoneStopped(tasks) && AllCovered(changeset.operations, tasks) && Fulfilled(rules, snapshot, before, now, verified)
  {
    var operations := Compiled(rules, snapshot, before).operations;
    ChecksHold(operations, tasks, now, verified);
    if AllHold(operations, tasks, now, verified) {
      OpenGateFulfils(rules, snapshot, before, now, tasks, verified);
      forall op | op in operations ensures FirstCover(tasks, op.id).Some? && FirstCover(tasks, op.id).value.status.Completed? {
        CheckMeaning(op, tasks, now, verified);
      }
    }
    if AllCovered(operations, tasks) && Fulfilled(rules, snapshot, before, now, verified) {
      FulfilledOpensGate(rules, snapshot, before, now, tasks, verified);
    }
  }

  // A design that asks to remove a contains or inherits edge can never pass.
  lemma RemovingHardEdgeShutsGate(rules: TextRules, snapshot: Snapshot, before: set<string>, now: set<string>, revision: nat,
                                  tasks: seq<Task>, verified: Relationships, e: Edge)
    requires e in snapshot.edges && e.intent.Remove? && HardRelation(e.relation)
    ensures var changeset := Compiled(rules, snapshot, before);
            !GateOpen(Reconciled(changeset.snapshotId, revision, Checks(changeset.operations, tasks, now, verified)), tasks)
  {
    EdgeOperationListed(rules, snapshot, before, e);
    var nodes, creates := PreparedNodes(rules, NodeMap(snapshot.nodes)), Creates(NodePart(rules, snapshot, before));
    var op := EdgeOperation(nodes, creates, e);
    HardRemovalFails(nodes, creates, e, FirstCover(tasks, op.id), now, verified);
    ChecksHold(Compiled(rules, snapshot, before).operations, tasks, now, verified);
  }

  lemma HardRemovalFails(nodes: Nodes, creates: map<string, string>, e: Edge, cover: Option<Task>, now: set<string>, verified: Relationships)
    requires e.intent.Remove? && HardRelation(e.relation)
    ensures !Holds(Check(EdgeOperation(nodes, creates, e), cover, now, verified))
  {
    VerificationMeaning(e);
  }

  // The check of an edge whose operation a completed task covers: always
  // passed for any other relation; for contains and inherits only when the
  // edge is to be created and has been verified.
  lemma EdgeCheckMeaning(rules: TextRules, snapshot: Snapshot, before: set<string>, now: set<string>,
                         tasks: seq<Task>, verified: Relationships, e: Edge)
    requires e in snapshot.edges && (e.intent.Create? || e.intent.Remove?)
    ensures exists op :: op in Compiled(rules, snapshot, before).operations && IsOperationOf(op, e)
                         && (FirstCover(tasks, op.id).Some? && FirstCover(tasks, op.id).value.status.Completed? ==>
                               (Holds(Check(op, FirstCover(tasks, op.id), now, verified)) <==>
                                !HardRelation(e.relation) || (e.intent.Create? && (e.source, e.relation, e.target) in verified)))
  {
    EdgeOperationListed(rules, snapshot, before, e);
    var nodes, creates := PreparedNodes(rules, NodeMap(snapshot.nodes)), Creates(NodePart(rules, snapshot, before));
    var op := EdgeOperation(nodes, creates, e);
    EdgeColumns(nodes, creates, e);
    CheckMeaning(op, tasks, now, verified);
    EdgeOperationFulfilled(nodes, creates, e, now, verified);
    assert IsOperationOf(op, e);
  }

  predicate IsOperationOf(op: ChangeOperation, e: Edge) {
    op.source == e.source && op.target == e.target && op.relation == e.relation && op.kind == if e.intent.Create? then Connect else Disconnect
  }

  // An open gate has verified every edge that creates contains or inherits.
  lemma OpenGateVerifiesEdges(rules: TextRules, snapshot: Snapshot, before: set<string>, now: set<string>, revision: nat,
                              tasks: seq<Task>, verified: Relationships, e: Edge)
    requires e in snapshot.edges && e.intent.Create? && HardRelation(e.relation)
    requires var changeset := Compiled(rules, snapshot, before);
             GateOpen(Reconciled(changeset.snapshotId, revision, Checks(changeset.operations, tasks, now, verified)), tasks)
    ensures (e.source, e.relation, e.target) in verified
  {
    ChecksHold(Compiled(rules, snapshot, before).operations, tasks, now, verified);
    EdgeOperationListed(rules, snapshot, before, e);
    var nodes, creates := PreparedNodes(rules, NodeMap(snapshot.nodes)), Creates(NodePart(rules, snapshot, before));
    CheckMeaning(EdgeOperation(nodes, creates, e), tasks, now, verified);
    EdgeOperationFulfilled(nodes, creates, e, now, verified);
  }

  // ----- with the scheduler and the plan: plan, run, reconcile -----

  function OperationIds(operations: seq<ChangeOperation>): seq<string> {
    seq(|operations|, i requires 0 <= i < |operations| => operations[i].id)
  }

  lemma {:induction false} CoverFound(tasks: seq<Task>, op: string)
    requires exists t :: t in tasks && op in t.covers
    ensures FirstCover(tasks, op).Some? && FirstCover(tasks, op).value in tasks
  {
    if op !in tasks[0].covers {
      var t :| t in tasks && op in t.covers;
      assert tasks == [tasks[0]] + tasks[1..];
      CoverFound(tasks[1..], op);
    }
  }

  // With no task pending, under a valid plan, the gate is open exactly when
  // every task completed and the design is fulfilled.
  lemma GateAfterRun(rules: TextRules, snapshot: Snapshot, before: set<string>, now: set<string>, revision: nat,
                     tasks: seq<Task>, verified: Relationships)
    requires Compiled(rules, snapshot, before).issues == []
    requires ValidPlan(OperationIds(Compiled(rules, snapshot, before).operations), tasks)
    requires forall i :: 0 <= i < |tasks| ==> !tasks[i].status.Pending?
    ensures var changeset := Compiled(rules, snapshot, before);
            var reconciled := Reconciled(changeset.snapshotId, revision, Checks(changeset.operations, tasks, now, verified));
            GateOpen(reconciled, tasks) <==> TaskExecutor.AllCompleted(tasks) && Fulfilled(rules, snapshot, before, now, verified)
  {
    var operations := Compiled(rules, snapshot, before).operations;
    GateMeaning(rules, snapshot, before, now, revision, tasks, verified);
    NoneStoppedMeansCompleted(tasks);
    if TaskExecutor.AllCompleted(tasks) {
      forall op | op in operations ensures FirstCover(tasks, op.id).Some? && FirstCover(tasks, op.id).value.status.Completed? {
        var i :| 0 <= i < |operations| && operations[i] == op;
        assert OperationIds(operations)[i] == op.id;
        OwnersMeaning(tasks, op.id, Owners(Claims(tasks), op.id)[0]);
        CoverFound(tasks, op.id);
      }
    }
  }

  lemma NoneStoppedMeansCompleted(tasks: seq<Task>)
    requires forall i :: 0 <= i < |tasks| ==> !tasks[i].status.Pending?
    ensures NoneStopped(tasks) <==> TaskExecutor.AllCompleted(tasks)
  {
    if NoneStopped(tasks) {
      forall i | 0 <= i < |tasks| ensures tasks[i].status.Completed? {
        assert tasks[i] in tasks;
      }
    }
  }

  // The whole way: whatever a concluded run made of a valid plan, the gate is
  // open afterwards exactly when no task had stopped before, everything the run
  // started succeeded, and the design is fulfilled.
  lemma PlanRunReconcile(rules: TextRules, snapshot: Snapshot, before: set<string>, now: set<string>, revision: nat, verified: Relationships,
                         initial: seq<Task>, final: seq<Task>, started: seq<nat>,
                         outcomes: nat -> TaskExecutor.Outcome, planMode: bool)
    requires Compiled(rules, snapshot, before).issues == []
    requires ValidPlan(OperationIds(Compiled(rules, snapshot, before).operations), initial)
    requires TaskExecutor.StartedInOrder(initial, started) && TaskExecutor.Concluded(initial, final, started)
    requires TaskExecutor.Recorded(initial, final, started, outcomes, planMode)
    ensures var changeset := Compiled(rules, snapshot, before);
            var reconciled := Reconciled(changeset.snapshotId, revision, Checks(changeset.operations, final, now, verified));
            GateOpen(reconciled, final) <==>
            && TaskExecutor.NoneStoppedYet(initial) && (forall k: nat :: k < |started| ==> outcomes(k).Succeeded?)
            && Fulfilled(rules, snapshot, before, now, verified)
  {
    TaskExecutor.SameShapeSamePlan(OperationIds(Compiled(rules, snapshot, before).operations), initial, final);
    TaskExecutor.AllCompletedExactlyWhen(initial, final, started, outcomes, planMode);
    GateAfterRun(rules, snapshot, before, now, revision, final, verified);
  }
}
