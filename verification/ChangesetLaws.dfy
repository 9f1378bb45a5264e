// What holds of every compiled changeset.
module ChangesetLaws {
  import opened TextOrder
  import opened PyText
  import opened Workplan
  import opened Design
  import opened Changeset
  import opened ChangesetCompiler

  function Prefix(kind: OperationKind): string {
    match kind
    case CreateNode => "create:"
    case ModifyNode => "change:"
    case RemoveNode => "remove:"
    case Connect => "connect:"
    case Disconnect => "disconnect:"
  }

  predicate OnNode(kind: OperationKind) {
    kind.CreateNode? || kind.ModifyNode? || kind.RemoveNode?
  }

  ghost predicate WellKeyed(nodes: Nodes) {
    forall id :: id in nodes ==> nodes[id].id == id
  }

  ghost predicate ShapedFor(e: Entry, id: string) {
    && (e.Emits? ==> && OnNode(e.operation.kind) && e.operation.targetNode == id
                     && e.operation.id == Prefix(e.operation.kind) + id && e.operation.dependsOn == [])
    && (e.Skips? ==> e.skip.targetNode == id)
    && (e.Raises? ==> e.issue.targetNode == id)
  }

  lemma OperationShape(prefix: string, kind: OperationKind, node: Node)
    requires OnNode(kind) && prefix + ":" == Prefix(kind)
    ensures ShapedFor(Emits(NodeOperation(prefix, kind, node)), node.id)
  {
  }

  lemma ClassifyShape(rules: TextRules, prepared: Node, observed: set<string>)
    ensures ShapedFor(Classify(rules, prepared, observed), prepared.id)
    ensures Classify(rules, prepared, observed).Silent? <==> prepared.intent.Keep?
  {
    var node := Relocated(rules, prepared);
    assert node.id == prepared.id && node.intent == prepared.intent;
    assert ['c', 'r', 'e', 'a', 't', 'e'] + ":" == Prefix(CreateNode);
    OperationShape("create", CreateNode, node);
    OperationShape("change", ModifyNode, node);
    OperationShape("remove", RemoveNode, node);
  }

  lemma EntryShape(rules: TextRules, nodes: Nodes, observed: set<string>, id: string)
    requires id in nodes && nodes[id].id == id
    ensures ShapedFor(EntryOf(rules, nodes, observed, id), id)
    ensures EntryOf(rules, nodes, observed, id).Silent? <==> nodes[id].intent.Keep?
  {
    ClassifyShape(rules, Prepared(rules, nodes, id), observed);
  }

  // ----- the collected lists over an enumeration of the nodes -----

  ghost predicate Enumerates(keys: seq<string>, nodes: Nodes) {
    NoRepeat(keys) && forall id :: id in keys <==> id in nodes
  }

  lemma {:induction false} CollectMember<T>(pick: Entry -> seq<T>, entries: seq<Entry>, x: T)
    ensures x in Collect(pick, entries) <==> exists i :: 0 <= i < |entries| && x in pick(entries[i])
  {
    if entries != [] {
      CollectMember(pick, entries[..|entries| - 1], x);
    }
  }

  // If entries with different keys pick items with different keys, the list has no repeated key.
  lemma {:induction false} CollectDistinct<T>(pick: Entry -> seq<T>, key: T -> string, entries: seq<Entry>)
    requires forall i :: 0 <= i < |entries| ==> |pick(entries[i])| <= 1
    requires forall i, j :: 0 <= i < j < |entries| && pick(entries[i]) != [] && pick(entries[j]) != [] ==>
               key(pick(entries[i])[0]) != key(pick(entries[j])[0])
    ensures DistinctKeys(key, Collect(pick, entries))
  {
    if entries != [] {
      var n := |entries| - 1;
      var front := Collect(pick, entries[..n]);
      CollectDistinct(pick, key, entries[..n]);
      forall i | 0 <= i < |front| && pick(entries[n]) != [] ensures key(front[i]) != key(pick(entries[n])[0]) {
        CollectMember(pick, entries[..n], front[i]);
      }
    }
  }

  lemma {:induction false} CollectCount<T>(pick: Entry -> seq<T>, p: T -> bool, entries: seq<Entry>, at: nat)
    requires forall i, x :: 0 <= i < |entries| && i != at && x in pick(entries[i]) ==> !p(x)
    ensures Count(p, Collect(pick, entries)) == if at < |entries| then Count(p, pick(entries[at])) else 0
  {
    if entries != [] {
      var n := |entries| - 1;
      CollectCount(pick, p, entries[..n], at);
      CountConcat(p, Collect(pick, entries[..n]), pick(entries[n]));
      if at != n {
        CountNone(p, pick(entries[n]));
      }
    }
  }

  lemma {:induction false} CountNone<T>(p: T -> bool, s: seq<T>)
    requires forall x :: x in s ==> !p(x)
    ensures Count(p, s) == 0
  {
    if s != [] {
      assert s[0] in s;
      CountNone(p, s[1..]);
    }
  }

  // ----- the order of the snapshot's nodes does not matter -----

  lemma NodeListsDistinct(rules: TextRules, nodes: Nodes, observed: set<string>, keys: seq<string>)
    requires WellKeyed(nodes) && Enumerates(keys, nodes)
    ensures var entries := Entries(rules, nodes, observed, keys);
            && DistinctKeys(OperationId, Collect(Operations, entries))
            && DistinctKeys(SkipTarget, Collect(Skipped, entries))
            && DistinctKeys(IssueTarget, Collect(Issues, entries))
  {
    OperationsDistinct(rules, nodes, observed, keys);
    TargetsDistinct(rules, nodes, observed, keys);
  }

  lemma OperationsDistinct(rules: TextRules, nodes: Nodes, observed: set<string>, keys: seq<string>)
    requires WellKeyed(nodes) && Enumerates(keys, nodes)
    ensures DistinctKeys(OperationId, Collect(Operations, Entries(rules, nodes, observed, keys)))
  {
    var entries := Entries(rules, nodes, observed, keys);
    forall i, j | 0 <= i < j < |entries| && Operations(entries[i]) != [] && Operations(entries[j]) != []
      ensures OperationId(Operations(entries[i])[0]) != OperationId(Operations(entries[j])[0])
    {
      assert keys[i] in keys && keys[j] in keys;
      EntryShape(rules, nodes, observed, keys[i]);
      EntryShape(rules, nodes, observed, keys[j]);
      var a, b := entries[i].operation, entries[j].operation;
      if a.id == b.id { KindsDiffer(a.kind, keys[i], b.kind, keys[j]); }
    }
    CollectDistinct(Operations, OperationId, entries);
  }

  lemma TargetsDistinct(rules: TextRules, nodes: Nodes, observed: set<string>, keys: seq<string>)
    requires WellKeyed(nodes) && Enumerates(keys, nodes)
    ensures DistinctKeys(SkipTarget, Collect(Skipped, Entries(rules, nodes, observed, keys)))
    ensures DistinctKeys(IssueTarget, Collect(Issues, Entries(rules, nodes, observed, keys)))
  {
    var entries := Entries(rules, nodes, observed, keys);
    forall i | 0 <= i < |entries| ensures
        && (Skipped(entries[i]) != [] ==> SkipTarget(Skipped(entries[i])[0]) == keys[i])
        && (Issues(entries[i]) != [] ==> IssueTarget(Issues(entries[i])[0]) == keys[i])
    {
      assert keys[i] in keys;
      EntryShape(rules, nodes, observed, keys[i]);
    }
    CollectDistinct(Skipped, SkipTarget, entries);
    CollectDistinct(Issues, IssueTarget, entries);
  }

  lemma CollectSameMembers<T>(pick: Entry -> seq<T>, rules: TextRules, nodes: Nodes, observed: set<string>, a: seq<string>, b: seq<string>, x: T)
    requires Enumerates(a, nodes) && Enumerates(b, nodes)
    requires x in Collect(pick, Entries(rules, nodes, observed, a))
    ensures x in Collect(pick, Entries(rules, nodes, observed, b))
  {
    var ea, eb := Entries(rules, nodes, observed, a), Entries(rules, nodes, observed, b);
    CollectMember(pick, ea, x);
    CollectMember(pick, eb, x);
    var i :| 0 <= i < |ea| && x in pick(ea[i]);
    assert a[i] in a && a[i] in b;
    var j :| 0 <= j < |b| && b[j] == a[i];
    assert eb[j] == ea[i];
  }

  // Two orders of the same nodes give lists that sort to the same list, with
  // the same tail (the operations of the edges) appended.
  lemma ListSortsAlike<T>(pick: Entry -> seq<T>, key: T -> string, rules: TextRules, nodes: Nodes, observed: set<string>,
                          a: seq<string>, b: seq<string>, tail: seq<T>)
    requires Enumerates(a, nodes) && Enumerates(b, nodes)
    requires DistinctKeys(key, Collect(pick, Entries(rules, nodes, observed, a)))
    requires DistinctKeys(key, Collect(pick, Entries(rules, nodes, observed, b)))
    ensures SortBy(key, Collect(pick, Entries(rules, nodes, observed, a)) + tail)
         == SortBy(key, Collect(pick, Entries(rules, nodes, observed, b)) + tail)
  {
    var la, lb := Collect(pick, Entries(rules, nodes, observed, a)), Collect(pick, Entries(rules, nodes, observed, b));
    forall x ensures x in la <==> x in lb {
      if x in la { CollectSameMembers(pick, rules, nodes, observed, a, b, x); }
      if x in lb { CollectSameMembers(pick, rules, nodes, observed, b, a, x); }
    }
    forall k ensures Keyed(key, k, la + tail) == Keyed(key, k, lb + tail) {
      KeyedSameMembers(key, k, la, lb);
      KeyedConcat(key, k, la, tail);
      KeyedConcat(key, k, lb, tail);
    }
    SortIgnoresArrivalOrder(key, la + tail, lb + tail);
  }

  lemma {:induction false} CreatesMeaning(operations: seq<ChangeOperation>, id: string)
    requires DistinctKeys(OperationId, operations)
    requires forall op :: op in operations && op.kind.CreateNode? ==> op.id == Prefix(CreateNode) + op.targetNode
    ensures id in Creates(operations) <==> exists op :: op in operations && op.kind.CreateNode? && op.targetNode == id
    ensures id in Creates(operations) ==> Creates(operations)[id] == Prefix(CreateNode) + id
  {
    if operations != [] {
      var n := |operations| - 1;
      CreatesMeaning(operations[..n], id);
      assert operations == operations[..n] + [operations[n]];
      assert operations[n] in operations;
    }
  }

  lemma CreatesAgree(rules: TextRules, nodes: Nodes, observed: set<string>, keys: seq<string>, id: string)
    requires WellKeyed(nodes) && Enumerates(keys, nodes)
    ensures var creates := Creates(Collect(Operations, Entries(rules, nodes, observed, keys)));
            && (id in creates <==> id in nodes && EntryOf(rules, nodes, observed, id).Emits?
                                   && EntryOf(rules, nodes, observed, id).operation.kind.CreateNode?)
            && (id in creates ==> creates[id] == Prefix(CreateNode) + id)
  {
    var entries := Entries(rules, nodes, observed, keys);
    var ops := Collect(Operations, entries);
    NodeListsDistinct(rules, nodes, observed, keys);
    forall op | op in ops ensures op.targetNode in nodes && op.id == Prefix(op.kind) + op.targetNode
                                  && EntryOf(rules, nodes, observed, op.targetNode) == Emits(op)
    {
      CollectMember(Operations, entries, op);
      var i :| 0 <= i < |entries| && op in Operations(entries[i]);
      assert keys[i] in keys;
      EntryShape(rules, nodes, observed, keys[i]);
    }
    CreatesMeaning(ops, id);
    if id in nodes && EntryOf(rules, nodes, observed, id).Emits? {
      var i :| 0 <= i < |keys| && keys[i] == id;
      assert entries[i] == EntryOf(rules, nodes, observed, id);
      EntryShape(rules, nodes, observed, id);
      CollectMember(Operations, entries, entries[i].operation);
    }
  }

  lemma CreatesSame(rules: TextRules, nodes: Nodes, observed: set<string>, a: seq<string>, b: seq<string>)
    requires WellKeyed(nodes) && Enumerates(a, nodes) && Enumerates(b, nodes)
    ensures Creates(Collect(Operations, Entries(rules, nodes, observed, a)))
         == Creates(Collect(Operations, Entries(rules, nodes, observed, b)))
  {
    forall id ensures SameEntry(Creates(Collect(Operations, Entries(rules, nodes, observed, a))),
                                Creates(Collect(Operations, Entries(rules, nodes, observed, b))), id)
    {
      CreatesAgree(rules, nodes, observed, a, id);
      CreatesAgree(rules, nodes, observed, b, id);
    }
    SameEverywhere(Creates(Collect(Operations, Entries(rules, nodes, observed, a))),
                   Creates(Collect(Operations, Entries(rules, nodes, observed, b))));
  }

  predicate SameEntry(a: map<string, string>, b: map<string, string>, id: string) {
    (id in a <==> id in b) && (id in a ==> a[id] == b[id])
  }

  lemma SameEverywhere(a: map<string, string>, b: map<string, string>)
    requires forall id :: SameEntry(a, b, id)
    ensures a == b
  {
    forall id | id in a ensures id in b && a[id] == b[id] { assert SameEntry(a, b, id); }
    forall id | id in b ensures id in a { assert SameEntry(a, b, id); }
  }

  lemma AssembleIgnoresOrder(rules: TextRules, snapshotId: string, nodes: Nodes, observed: set<string>,
                             a: seq<string>, b: seq<string>, edges: seq<Edge>)
    requires WellKeyed(nodes) && Enumerates(a, nodes) && Enumerates(b, nodes)
    ensures Assemble(rules, snapshotId, nodes, Entries(rules, nodes, observed, a), edges)
         == Assemble(rules, snapshotId, nodes, Entries(rules, nodes, observed, b), edges)
  {
    var ea, eb := Entries(rules, nodes, observed, a), Entries(rules, nodes, observed, b);
    NodeListsDistinct(rules, nodes, observed, a);
    NodeListsDistinct(rules, nodes, observed, b);
    CreatesSame(rules, nodes, observed, a, b);
    var tail := EdgeOperations(PreparedNodes(rules, nodes), Creates(Collect(Operations, ea)), edges);
    ListSortsAlike(Operations, OperationId, rules, nodes, observed, a, b, tail);
    ListSortsAlike(Skipped, SkipTarget, rules, nodes, observed, a, b, []);
    ListSortsAlike(Issues, IssueTarget, rules, nodes, observed, a, b, []);
    assert Collect(Skipped, ea) + [] == Collect(Skipped, ea) && Collect(Skipped, eb) + [] == Collect(Skipped, eb);
    assert Collect(Issues, ea) + [] == Collect(Issues, ea) && Collect(Issues, eb) + [] == Collect(Issues, eb);
  }

  // The changeset depends on the node table, not on the order it is listed in.
  lemma OrderIndependent(rules: TextRules, a: Snapshot, b: Snapshot, observed: set<string>)
    requires NodeMap(a.nodes) == NodeMap(b.nodes)
    requires a.edges == b.edges && a.snapshotId == b.snapshotId
    ensures Compiled(rules, a, observed) == Compiled(rules, b, observed)
  {
    AssembleIgnoresOrder(rules, a.snapshotId, NodeMap(a.nodes), observed, NodeKeys(a.nodes), NodeKeys(b.nodes), a.edges);
  }

  function NodeId(node: Node): string { node.id }

  lemma {:induction false} TableOfDistinct(nodes: seq<Node>, node: Node)
    requires DistinctKeys(NodeId, nodes)
    ensures node in nodes <==> node.id in NodeMap(nodes) && NodeMap(nodes)[node.id] == node
  {
    if nodes != [] {
      var n := |nodes| - 1;
      TableOfDistinct(nodes[..n], node);
      assert nodes == nodes[..n] + [nodes[n]];
    }
  }

  // In particular, every reordering of a table with distinct ids compiles alike.
  lemma ReorderingCompilesAlike(rules: TextRules, a: Snapshot, b: Snapshot, observed: set<string>)
    requires DistinctKeys(NodeId, a.nodes) && DistinctKeys(NodeId, b.nodes)
    requires forall node :: node in a.nodes <==> node in b.nodes
    requires a.edges == b.edges && a.snapshotId == b.snapshotId
    ensures Compiled(rules, a, observed) == Compiled(rules, b, observed)
  {
    var ma, mb := NodeMap(a.nodes), NodeMap(b.nodes);
    forall id ensures (id in ma <==> id in mb) && (id in ma ==> ma[id] == mb[id]) {
      if id in ma { TableOfDistinct(a.nodes, ma[id]); TableOfDistinct(b.nodes, ma[id]); }
      if id in mb { TableOfDistinct(a.nodes, mb[id]); TableOfDistinct(b.nodes, mb[id]); }
    }
    assert ma == mb;
    OrderIndependent(rules, a, b, observed);
  }

  // ----- nothing is lost: each node lands once, each edge operation once -----

  function OperationOn(id: string): ChangeOperation -> bool {
    (op: ChangeOperation) => OnNode(op.kind) && op.targetNode == id
  }

  function SkipOf(id: string): SkippedChange -> bool {
    (s: SkippedChange) => s.targetNode == id
  }

  function IssueOf(id: string): ChangeIssue -> bool {
    (i: ChangeIssue) => i.targetNode == id
  }

  function OperationAlong(kind: OperationKind, source: string, target: string, relation: string): ChangeOperation -> bool {
    (op: ChangeOperation) => op.kind == kind && op.source == source && op.target == target && op.relation == relation
  }

  function EdgeWanting(intent: Intent, source: string, target: string, relation: string): Edge -> bool {
    (e: Edge) => e.intent == intent && e.source == source && e.target == target && e.relation == relation
  }

  lemma {:induction false} EdgeOperationsAreOnEdges(nodes: Nodes, creates: map<string, string>, edges: seq<Edge>, op: ChangeOperation)
    requires op in EdgeOperations(nodes, creates, edges)
    ensures exists e :: e in edges && (e.intent.Create? || e.intent.Remove?) && op == EdgeOperation(nodes, creates, e)
  {
    var n := |edges| - 1;
    if op in EdgeOperations(nodes, creates, edges[..n]) {
      EdgeOperationsAreOnEdges(nodes, creates, edges[..n], op);
    }
  }

  lemma {:induction false} EdgeCounts(nodes: Nodes, creates: map<string, string>, edges: seq<Edge>, source: string, target: string, relation: string)
    ensures Count(OperationAlong(Connect, source, target, relation), EdgeOperations(nodes, creates, edges))
         == Count(EdgeWanting(Create, source, target, relation), edges)
    ensures Count(OperationAlong(Disconnect, source, target, relation), EdgeOperations(nodes, creates, edges))
         == Count(EdgeWanting(Remove, source, target, relation), edges)
  {
    EdgeCountsFor(nodes, creates, edges, Connect, Create, source, target, relation);
    EdgeCountsFor(nodes, creates, edges, Disconnect, Remove, source, target, relation);
  }

  lemma {:induction false} EdgeCountsFor(nodes: Nodes, creates: map<string, string>, edges: seq<Edge>,
                                         kind: OperationKind, intent: Intent, source: string, target: string, relation: string)
    requires (kind == Connect && intent == Create) || (kind == Disconnect && intent == Remove)
    ensures Count(OperationAlong(kind, source, target, relation), EdgeOperations(nodes, creates, edges))
         == Count(EdgeWanting(intent, source, target, relation), edges)
  {
    if edges != [] {
      var n := |edges| - 1;
      var e := edges[n];
      EdgeCountsFor(nodes, creates, edges[..n], kind, intent, source, target, relation);
      var last := if e.intent.Create? || e.intent.Remove? then [EdgeOperation(nodes, creates, e)] else [];
      CountConcat(OperationAlong(kind, source, target, relation), EdgeOperations(nodes, creates, edges[..n]), last);
      CountConcat(EdgeWanting(intent, source, target, relation), edges[..n], [e]);
      assert edges == edges[..n] + [e];
    }
  }

  // Entries shaped for distinct ids put each id in at most one list, once.
  lemma ShapedCounts(entries: seq<Entry>, keys: seq<string>, at: nat)
    requires |entries| == |keys| && NoRepeat(keys) && at < |keys|
    requires forall i :: 0 <= i < |keys| ==> ShapedFor(entries[i], keys[i])
    ensures Count(OperationOn(keys[at]), Collect(Operations, entries)) == |Operations(entries[at])|
    ensures Count(SkipOf(keys[at]), Collect(Skipped, entries)) == |Skipped(entries[at])|
    ensures Count(IssueOf(keys[at]), Collect(Issues, entries)) == |Issues(entries[at])|
  {
    OtherKeys(keys, at);
    ShapedOperations(entries, keys, at);
    ShapedSkips(entries, keys, at);
    ShapedIssues(entries, keys, at);
  }

  lemma OtherKeys(keys: seq<string>, at: nat)
    requires NoRepeat(keys) && at < |keys|
    ensures forall i :: 0 <= i < |keys| && i != at ==> keys[i] != keys[at]
  {
    forall i | 0 <= i < |keys| && i != at ensures keys[i] != keys[at] {
      if i < at { assert keys[i] != keys[at]; } else { assert keys[at] != keys[i]; }
    }
  }

  lemma ShapedOperations(entries: seq<Entry>, keys: seq<string>, at: nat)
    requires |entries| == |keys| && at < |keys| && forall i :: 0 <= i < |keys| && i != at ==> keys[i] != keys[at]
    requires forall i :: 0 <= i < |keys| ==> ShapedFor(entries[i], keys[i])
    ensures Count(OperationOn(keys[at]), Collect(Operations, entries)) == |Operations(entries[at])|
  {
    CollectCount(Operations, OperationOn(keys[at]), entries, at);
  }

  lemma ShapedSkips(entries: seq<Entry>, keys: seq<string>, at: nat)
    requires |entries| == |keys| && at < |keys| && forall i :: 0 <= i < |keys| && i != at ==> keys[i] != keys[at]
    requires forall i :: 0 <= i < |keys| ==> ShapedFor(entries[i], keys[i])
    ensures Count(SkipOf(keys[at]), Collect(Skipped, entries)) == |Skipped(entries[at])|
  {
    CollectCount(Skipped, SkipOf(keys[at]), entries, at);
  }

  lemma ShapedIssues(entries: seq<Entry>, keys: seq<string>, at: nat)
    requires |entries| == |keys| && at < |keys| && forall i :: 0 <= i < |keys| && i != at ==> keys[i] != keys[at]
    requires forall i :: 0 <= i < |keys| ==> ShapedFor(entries[i], keys[i])
    ensures Count(IssueOf(keys[at]), Collect(Issues, entries)) == |Issues(entries[at])|
  {
    CollectCount(Issues, IssueOf(keys[at]), entries, at);
  }

  lemma NodeCounts(rules: TextRules, nodes: Nodes, observed: set<string>, keys: seq<string>, id: string)
    requires WellKeyed(nodes) && Enumerates(keys, nodes) && id in nodes
    ensures var entries := Entries(rules, nodes, observed, keys);
            Count(OperationOn(id), Collect(Operations, entries)) + Count(SkipOf(id), Collect(Skipped, entries))
            + Count(IssueOf(id), Collect(Issues, entries)) == if nodes[id].intent.Keep? then 0 else 1
  {
    var entries := Entries(rules, nodes, observed, keys);
    var at :| 0 <= at < |keys| && keys[at] == id;
    forall i | 0 <= i < |entries| ensures ShapedFor(entries[i], keys[i]) {
      assert keys[i] in keys;
      EntryShape(rules, nodes, observed, keys[i]);
    }
    ShapedCounts(entries, keys, at);
    EntryShape(rules, nodes, observed, id);
  }

  lemma EachNodeLandsOnce(rules: TextRules, snapshot: Snapshot, observed: set<string>, id: string)
    requires id in NodeMap(snapshot.nodes)
    ensures var changeset := Compiled(rules, snapshot, observed);
            Count(OperationOn(id), changeset.operations) + Count(SkipOf(id), changeset.skipped)
            + Count(IssueOf(id), changeset.issues) == if NodeMap(snapshot.nodes)[id].intent.Keep? then 0 else 1
  {
    var nodes := NodeMap(snapshot.nodes);
    var entries := Entries(rules, nodes, observed, NodeKeys(snapshot.nodes));
    var operations := Collect(Operations, entries);
    var tail := EdgeOperations(PreparedNodes(rules, nodes), Creates(operations), snapshot.edges);
    NodeCounts(rules, nodes, observed, NodeKeys(snapshot.nodes), id);
    forall op | op in tail ensures !OperationOn(id)(op) {
      EdgeOperationsAreOnEdges(PreparedNodes(rules, nodes), Creates(operations), snapshot.edges, op);
    }
    CountNone(OperationOn(id), tail);
    CountConcat(OperationOn(id), operations, tail);
    SortKeepsCount(OperationId, operations + tail, OperationOn(id));
    SortKeepsCount(SkipTarget, Collect(Skipped, entries), SkipOf(id));
    SortKeepsCount(IssueTarget, Collect(Issues, entries), IssueOf(id));
  }

  lemma EachEdgeActsOnce(rules: TextRules, snapshot: Snapshot, observed: set<string>, source: string, target: string, relation: string)
    ensures var changeset := Compiled(rules, snapshot, observed);
            && Count(OperationAlong(Connect, source, target, relation), changeset.operations)
               == Count(EdgeWanting(Create, source, target, relation), snapshot.edges)
            && Count(OperationAlong(Disconnect, source, target, relation), changeset.operations)
               == Count(EdgeWanting(Remove, source, target, relation), snapshot.edges)
  {
    var nodes := NodeMap(snapshot.nodes);
    var entries := Entries(rules, nodes, observed, NodeKeys(snapshot.nodes));
    var operations := Collect(Operations, entries);
    var tail := EdgeOperations(PreparedNodes(rules, nodes), Creates(operations), snapshot.edges);
    forall kind | kind == Connect || kind == Disconnect
      ensures Count(OperationAlong(kind, source, target, relation), SortBy(OperationId, operations + tail))
           == Count(OperationAlong(kind, source, target, relation), tail)
    {
      var p := OperationAlong(kind, source, target, relation);
      forall op | op in operations ensures !p(op) {
        OperationsComeFromNodes(rules, nodes, observed, NodeKeys(snapshot.nodes), op);
      }
      CountNone(p, operations);
      CountConcat(p, operations, tail);
      SortKeepsCount(OperationId, operations + tail, p);
    }
    EdgeCounts(PreparedNodes(rules, nodes), Creates(operations), snapshot.edges, source, target, relation);
  }

  lemma OperationsComeFromNodes(rules: TextRules, nodes: Nodes, observed: set<string>, keys: seq<string>, op: ChangeOperation)
    requires WellKeyed(nodes) && Enumerates(keys, nodes)
    requires op in Collect(Operations, Entries(rules, nodes, observed, keys))
    ensures op.targetNode in nodes && EntryOf(rules, nodes, observed, op.targetNode) == Emits(op)
    ensures ShapedFor(Emits(op), op.targetNode)
  {
    var entries := Entries(rules, nodes, observed, keys);
    CollectMember(Operations, entries, op);
    var i :| 0 <= i < |entries| && op in Operations(entries[i]);
    assert keys[i] in keys;
    EntryShape(rules, nodes, observed, keys[i]);
  }

  // The creation of one end of an edge, in the same changeset.
  ghost predicate CreatesEnd(changeset: ChangeSet, op: ChangeOperation, d: string) {
    exists c :: c in changeset.operations && c.kind.CreateNode? && c.id == d && (c.targetNode == op.source || c.targetNode == op.target)
  }

  // A CONNECT depends on exactly the creations of its ends, and nothing else
  // depends on anything.
  lemma DependsOnCreations(rules: TextRules, snapshot: Snapshot, observed: set<string>, op: ChangeOperation, d: string)
    requires op in Compiled(rules, snapshot, observed).operations
    ensures d in op.dependsOn <==> op.kind.Connect? && CreatesEnd(Compiled(rules, snapshot, observed), op, d)
  {
    var nodes := NodeMap(snapshot.nodes);
    var keys := NodeKeys(snapshot.nodes);
    var operations := Collect(Operations, Entries(rules, nodes, observed, keys));
    var creates := Creates(operations);
    var tail := EdgeOperations(PreparedNodes(rules, nodes), creates, snapshot.edges);
    SortKeepsMembers(OperationId, operations + tail, op);
    if op in operations {
      OperationsComeFromNodes(rules, nodes, observed, keys, op);
    } else {
      EdgeOperationsAreOnEdges(PreparedNodes(rules, nodes), creates, snapshot.edges, op);
      var e :| e in snapshot.edges && (e.intent.Create? || e.intent.Remove?) && op == EdgeOperation(PreparedNodes(rules, nodes), creates, e);
      EdgeDependsOnCreations(rules, snapshot, observed, e, d);
    }
  }

  lemma EdgeDependsOnCreations(rules: TextRules, snapshot: Snapshot, observed: set<string>, e: Edge, d: string)
    requires e.intent.Create? || e.intent.Remove?
    ensures var nodes := NodeMap(snapshot.nodes);
            var creates := Creates(Collect(Operations, Entries(rules, nodes, observed, NodeKeys(snapshot.nodes))));
            var op := EdgeOperation(PreparedNodes(rules, nodes), creates, e);
            d in op.dependsOn <==> op.kind.Connect? && CreatesEnd(Compiled(rules, snapshot, observed), op, d)
  {
    var nodes := NodeMap(snapshot.nodes);
    var creates := Creates(Collect(Operations, Entries(rules, nodes, observed, NodeKeys(snapshot.nodes))));
    DependenciesMeaning(creates, e, d);
    EndCreated(rules, snapshot, observed, e.source, d);
    EndCreated(rules, snapshot, observed, e.target, d);
    EitherEnd(Compiled(rules, snapshot, observed), EdgeOperation(PreparedNodes(rules, nodes), creates, e), d);
  }

  lemma EitherEnd(changeset: ChangeSet, op: ChangeOperation, d: string)
    ensures CreatesEnd(changeset, op, d) <==>
            || (exists c :: c in changeset.operations && c.kind.CreateNode? && c.id == d && c.targetNode == op.source)
            || (exists c :: c in changeset.operations && c.kind.CreateNode? && c.id == d && c.targetNode == op.target)
  {
  }

  lemma DependenciesMeaning(creates: map<string, string>, e: Edge, d: string)
    ensures d in Dependencies(creates, e) <==>
            (e.source in creates && creates[e.source] == d) || (e.target in creates && creates[e.target] == d)
  {
    SortKeepsMembers(Itself,
           (if e.source in creates then [creates[e.source]] else [])
           + (if e.target in creates then [creates[e.target]] else []), d);
  }

  lemma EndCreated(rules: TextRules, snapshot: Snapshot, observed: set<string>, end: string, d: string)
    ensures var creates := Creates(Collect(Operations, Entries(rules, NodeMap(snapshot.nodes), observed, NodeKeys(snapshot.nodes))));
            (end in creates && creates[end] == d) <==>
            exists c :: c in Compiled(rules, snapshot, observed).operations && c.kind.CreateNode? && c.id == d && c.targetNode == end
  {
    var nodes := NodeMap(snapshot.nodes);
    var keys := NodeKeys(snapshot.nodes);
    var operations := Collect(Operations, Entries(rules, nodes, observed, keys));
    var creates := Creates(operations);
    var tail := EdgeOperations(PreparedNodes(rules, nodes), creates, snapshot.edges);
    CreatesAgree(rules, nodes, observed, keys, end);
    if end in creates && creates[end] == d {
      var c := EntryOf(rules, nodes, observed, end).operation;
      EntryShape(rules, nodes, observed, end);
      CreationIsListed(rules, nodes, observed, keys, end);
      SortKeepsMembers(OperationId, operations + tail, c);
    }
    if c :| c in Compiled(rules, snapshot, observed).operations && c.kind.CreateNode? && c.id == d && c.targetNode == end {
      SortKeepsMembers(OperationId, operations + tail, c);
      if c in tail { EdgeOperationsAreOnEdges(PreparedNodes(rules, nodes), creates, snapshot.edges, c); }
      OperationsComeFromNodes(rules, nodes, observed, keys, c);
    }
  }

  lemma CreationIsListed(rules: TextRules, nodes: Nodes, observed: set<string>, keys: seq<string>, id: string)
    requires Enumerates(keys, nodes) && id in nodes && EntryOf(rules, nodes, observed, id).Emits?
    ensures EntryOf(rules, nodes, observed, id).operation in Collect(Operations, Entries(rules, nodes, observed, keys))
  {
    var entries := Entries(rules, nodes, observed, keys);
    var i :| 0 <= i < |keys| && keys[i] == id;
    assert entries[i] == EntryOf(rules, nodes, observed, id);
    CollectMember(Operations, entries, entries[i].operation);
  }

  // ----- operation ids -----

  predicate HasArrow(s: string) {
    exists i | 0 <= i < |s| - 1 :: s[i] == '-' && s[i + 1] == '>'
  }

  // Of two edges to create, or two to remove, the texts that make up the
  // operation id differ.
  ghost predicate LinesDiffer(edges: seq<Edge>) {
    forall i, j :: 0 <= i < j < |edges| ==> !Collide(edges[i], edges[j])
  }

  predicate Collide(a: Edge, b: Edge) {
    (a.intent.Create? || a.intent.Remove?) && a.intent == b.intent && LineText(a) == LineText(b)
  }

  // Edges whose ids can be read back: no arrow in the source, no colon in the relation.
  ghost predicate ReadableEdges(edges: seq<Edge>) {
    && (forall e :: e in edges ==> !HasArrow(e.source) && ':' !in e.relation)
    && (forall i, j :: 0 <= i < j < |edges| ==> !SameLine(edges[i], edges[j]))
  }

  predicate SameLine(a: Edge, b: Edge) {
    a.source == b.source && a.target == b.target && a.relation == b.relation
  }

  lemma ArrowSplits(s: string, x: string, t: string, y: string)
    requires s + "->" + x == t + "->" + y && !HasArrow(t)
    ensures |s| >= |t|
  {
    var whole := s + "->" + x;
    assert whole[|s|] == '-' && whole[|s| + 1] == '>';
    assert whole[|t|] == '-' && whole[|t| + 1] == '>';
  }

  lemma ColonSplits(s: string, x: string, t: string, y: string)
    requires s + ":" + x == t + ":" + y && ':' !in x
    ensures |s| >= |t|
  {
    var whole := s + ":" + x;
    assert whole[|t|] == ':' && whole[|s|] == ':';
  }

  function LineText(e: Edge): string {
    e.source + "->" + e.target + ":" + e.relation
  }

  lemma LineTextInjective(a: Edge, b: Edge)
    requires LineText(a) == LineText(b)
    requires !HasArrow(a.source) && !HasArrow(b.source) && ':' !in a.relation && ':' !in b.relation
    ensures SameLine(a, b)
  {
    var ta, tb := a.target + ":" + a.relation, b.target + ":" + b.relation;
    assert LineText(a) == a.source + "->" + ta && LineText(b) == b.source + "->" + tb;
    ArrowSplits(a.source, ta, b.source, tb);
    ArrowSplits(b.source, tb, a.source, ta);
    assert a.source == LineText(a)[..|a.source|] && b.source == LineText(b)[..|b.source|];
    assert ta == LineText(a)[|a.source| + 2..] && tb == LineText(b)[|b.source| + 2..];
    ColonSplits(a.target, a.relation, b.target, b.relation);
    ColonSplits(b.target, b.relation, a.target, a.relation);
    assert a.target == ta[..|a.target|] && b.target == tb[..|b.target|];
    assert a.relation == ta[|a.target| + 1..] && b.relation == tb[|b.target| + 1..];
  }

  lemma EdgeOperationId(nodes: Nodes, creates: map<string, string>, e: Edge)
    requires e.intent.Create? || e.intent.Remove?
    ensures var op := EdgeOperation(nodes, creates, e);
            !OnNode(op.kind) && op.id == Prefix(op.kind) + LineText(e)
  {
    var op := EdgeOperation(nodes, creates, e);
    assert op.id == Prefix(op.kind) + LineText(e);
  }

  lemma KindsDiffer(a: OperationKind, x: string, b: OperationKind, y: string)
    requires Prefix(a) + x == Prefix(b) + y
    ensures a == b && x == y
  {
    var s, t := Prefix(a) + x, Prefix(b) + y;
    assert s[1] == Prefix(a)[1] && t[1] == Prefix(b)[1];
    assert x == s[|Prefix(a)|..] && y == t[|Prefix(b)|..];
  }

  lemma {:induction false} EdgeIsListed(nodes: Nodes, creates: map<string, string>, edges: seq<Edge>, e: Edge)
    requires e in edges && (e.intent.Create? || e.intent.Remove?)
    ensures EdgeOperation(nodes, creates, e) in EdgeOperations(nodes, creates, edges)
  {
    var n := |edges| - 1;
    assert edges == edges[..n] + [edges[n]];
    if e in edges[..n] { EdgeIsListed(nodes, creates, edges[..n], e); }
  }

  lemma SameIdCollides(nodes: Nodes, creates: map<string, string>, a: Edge, b: Edge)
    requires (a.intent.Create? || a.intent.Remove?) && (b.intent.Create? || b.intent.Remove?)
    ensures EdgeOperation(nodes, creates, a).id == EdgeOperation(nodes, creates, b).id <==> Collide(a, b)
  {
    EdgeOperationId(nodes, creates, a);
    EdgeOperationId(nodes, creates, b);
    var x, y := EdgeOperation(nodes, creates, a), EdgeOperation(nodes, creates, b);
    if x.id == y.id { KindsDiffer(x.kind, LineText(a), y.kind, LineText(b)); }
  }

  // The operation of a further edge has an id of its own exactly when the edge
  // collides with none before it.
  lemma NewEdgeId(nodes: Nodes, creates: map<string, string>, edges: seq<Edge>, e: Edge)
    requires e.intent.Create? || e.intent.Remove?
    ensures (forall op :: op in EdgeOperations(nodes, creates, edges) ==> op.id != EdgeOperation(nodes, creates, e).id)
            <==> (forall d :: d in edges ==> !Collide(d, e))
  {
    var operations, id := EdgeOperations(nodes, creates, edges), EdgeOperation(nodes, creates, e).id;
    if op :| op in operations && op.id == id {
      EdgeOperationsAreOnEdges(nodes, creates, edges, op);
      var d :| d in edges && (d.intent.Create? || d.intent.Remove?) && op == EdgeOperation(nodes, creates, d);
      SameIdCollides(nodes, creates, d, e);
    }
    if d :| d in edges && Collide(d, e) {
      EdgeIsListed(nodes, creates, edges, d);
      SameIdCollides(nodes, creates, d, e);
    }
  }

  lemma DistinctSnoc(s: seq<ChangeOperation>, op: ChangeOperation)
    ensures DistinctKeys(OperationId, s + [op]) <==> DistinctKeys(OperationId, s) && forall x :: x in s ==> x.id != op.id
  {
    var more := s + [op];
    assert forall i :: 0 <= i < |s| ==> more[i] == s[i];
    if DistinctKeys(OperationId, more) {
      forall i, j | 0 <= i < j < |s| ensures OperationId(s[i]) != OperationId(s[j]) {
        assert OperationId(more[i]) != OperationId(more[j]);
      }
      forall x | x in s ensures x.id != op.id {
        var i :| 0 <= i < |s| && s[i] == x;
        assert OperationId(more[i]) != OperationId(more[|s|]);
      }
    }
  }

  lemma LinesDifferSnoc(edges: seq<Edge>, e: Edge)
    ensures LinesDiffer(edges + [e]) <==> LinesDiffer(edges) && forall d :: d in edges ==> !Collide(d, e)
  {
    var more := edges + [e];
    if LinesDiffer(more) {
      forall i, j | 0 <= i < j < |edges| ensures !Collide(edges[i], edges[j]) {
        assert !Collide(more[i], more[j]);
      }
      forall d | d in edges ensures !Collide(d, e) {
        var i :| 0 <= i < |edges| && edges[i] == d;
        assert !Collide(more[i], more[|edges|]);
      }
    }
  }

  lemma {:induction false} EdgeIdsDistinct(nodes: Nodes, creates: map<string, string>, edges: seq<Edge>)
    ensures DistinctKeys(OperationId, EdgeOperations(nodes, creates, edges)) <==> LinesDiffer(edges)
  {
    if edges != [] {
      var n := |edges| - 1;
      var front, e := edges[..n], edges[n];
      assert edges == front + [e];
      EdgeIdsDistinct(nodes, creates, front);
      LinesDifferSnoc(front, e);
      if e.intent.Create? || e.intent.Remove? {
        NewEdgeId(nodes, creates, front, e);
        DistinctSnoc(EdgeOperations(nodes, creates, front), EdgeOperation(nodes, creates, e));
      } else {
        assert EdgeOperations(nodes, creates, edges) == EdgeOperations(nodes, creates, front);
        assert forall d :: d in front ==> !Collide(d, e);
      }
    }
  }

  lemma DistinctConcat(a: seq<ChangeOperation>, b: seq<ChangeOperation>)
    requires DistinctKeys(OperationId, a)
    requires forall i, j :: 0 <= i < |a| && 0 <= j < |b| ==> OperationId(a[i]) != OperationId(b[j])
    ensures DistinctKeys(OperationId, a + b) <==> DistinctKeys(OperationId, b)
  {
    var all := a + b;
    if DistinctKeys(OperationId, all) {
      forall i, j | 0 <= i < j < |b| ensures OperationId(b[i]) != OperationId(b[j]) {
        assert OperationId(all[|a| + i]) != OperationId(all[|a| + j]);
      }
    }
  }

  // Operation ids are distinct exactly when no two acting edges spell the same
  // text under the same intent; node operations never clash.
  lemma OperationIdsDistinct(rules: TextRules, snapshot: Snapshot, observed: set<string>)
    ensures DistinctKeys(OperationId, Compiled(rules, snapshot, observed).operations) <==> LinesDiffer(snapshot.edges)
  {
    var nodes := NodeMap(snapshot.nodes);
    var keys := NodeKeys(snapshot.nodes);
    var operations := Collect(Operations, Entries(rules, nodes, observed, keys));
    var tail := EdgeOperations(PreparedNodes(rules, nodes), Creates(operations), snapshot.edges);
    NodeListsDistinct(rules, nodes, observed, keys);
    EdgeIdsDistinct(PreparedNodes(rules, nodes), Creates(operations), snapshot.edges);
    forall i, j | 0 <= i < |operations| && 0 <= j < |tail| ensures OperationId(operations[i]) != OperationId(tail[j]) {
      OperationsComeFromNodes(rules, nodes, observed, keys, operations[i]);
      EdgeOperationsAreOnEdges(PreparedNodes(rules, nodes), Creates(operations), snapshot.edges, tail[j]);
      var e :| e in snapshot.edges && (e.intent.Create? || e.intent.Remove?) && tail[j] == EdgeOperation(PreparedNodes(rules, nodes), Creates(operations), e);
      EdgeOperationId(PreparedNodes(rules, nodes), Creates(operations), e);
      if operations[i].id == tail[j].id {
        KindsDiffer(operations[i].kind, operations[i].targetNode, tail[j].kind, LineText(e));
      }
    }
    DistinctConcat(operations, tail);
    SortKeepsDistinct(OperationId, operations + tail);
  }

  // Different edges without arrows and colons in the wrong place never spell
  // the same text.
  lemma ReadableLinesDiffer(edges: seq<Edge>)
    requires ReadableEdges(edges)
    ensures LinesDiffer(edges)
  {
    forall i, j | 0 <= i < j < |edges| ensures !Collide(edges[i], edges[j]) {
      if Collide(edges[i], edges[j]) { LineTextInjective(edges[i], edges[j]); }
    }
  }

  // Without that condition two different edges can share an operation id.
  lemma ArrowInAnIdCollides(nodes: Nodes, creates: map<string, string>)
    ensures var a := Edge("a->b", "c", "uses", Human, Create);
            var b := Edge("a", "b->c", "uses", Human, Create);
            !SameLine(a, b) && EdgeOperation(nodes, creates, a).id == EdgeOperation(nodes, creates, b).id
  {
    var a := Edge("a->b", "c", "uses", Human, Create);
    var b := Edge("a", "b->c", "uses", Human, Create);
    assert LineText(a) == LineText(b);
    EdgeOperationId(nodes, creates, a);
    EdgeOperationId(nodes, creates, b);
  }

  // ----- locators that nobody stated -----

  // A CHANGE or REMOVE node is reported as having no locator exactly when none
  // can be derived for it, from its label or its parents.
  lemma NoLocatorIssue(rules: TextRules, nodes: Nodes, observed: set<string>, id: string)
    requires id in nodes
    ensures nodes[id].intent.Change? ==>
              (EntryOf(rules, nodes, observed, id) == Raises(ChangeIssue(nodes[id].id, NeedsLocator)) <==> Locator(rules, nodes, id) == "")
    ensures nodes[id].intent.Remove? ==>
              (EntryOf(rules, nodes, observed, id) == Raises(ChangeIssue(nodes[id].id, RemoveNotObserved(""))) <==> Locator(rules, nodes, id) == "")
  {
    FilledKeepsLocator(rules, nodes, id);
  }

  // So "without a stated locator the node is an issue" holds exactly when its
  // label is not path-like and it derives nothing from its parent.
  lemma UnstatedLocatorIsIssue(rules: TextRules, nodes: Nodes, observed: set<string>, id: string)
    requires id in nodes && GivenLocator(nodes[id]) == "" && nodes[id].intent.Change?
    ensures var node := nodes[id];
            EntryOf(rules, nodes, observed, id) == Raises(ChangeIssue(node.id, NeedsLocator)) <==>
            && !(rules.pathLike(node.nodeLabel) && node.nodeLabel != "")
            && (ParentKey(node) in nodes ==> Derived(rules, node, Locator(rules, nodes, ParentKey(node))) == "")
  {
    NoLocatorIssue(rules, nodes, observed, id);
    LocatorUnfolds(rules, nodes, id);
  }

  function Bare(id: string, nodeLabel: string, intent: Intent): Node {
    Node(id, nodeLabel, CodeLevel, Human, InRepository, intent, None, None, "", ClassKind, "", "", "", "", [], [])
  }

  // A node to change or remove with nothing but a path-like label that is
  // observed is anchored on that label.
  lemma LabelAnchors(rules: TextRules, nodes: Nodes, observed: set<string>, id: string)
    requires id in nodes && GivenLocator(nodes[id]) == "" && (nodes[id].intent.Change? || nodes[id].intent.Remove?)
    requires rules.pathLike(nodes[id].nodeLabel) && nodes[id].nodeLabel != "" && nodes[id].nodeLabel in observed
    ensures var entry := EntryOf(rules, nodes, observed, id);
            && entry.Emits? && entry.operation.locator == Some(nodes[id].nodeLabel)
            && entry.operation.kind == if nodes[id].intent.Change? then ModifyNode else RemoveNode
  {
    LocatorUnfolds(rules, nodes, id);
    FilledKeepsLocator(rules, nodes, id);
  }

  lemma NothingTargeted(id: string, nodeLabel: string, intent: Intent)
    ensures GivenLocator(Bare(id, nodeLabel, intent)) == ""
  {
    assert Strip("") == "";
  }

  // The design note's own case: a label like a path, and nothing else.
  lemma LabelAnchorsAChange(rules: TextRules)
    requires rules.pathLike("src/app.py")
    ensures var nodes := map["n" := Bare("n", "src/app.py", Change)];
            EntryOf(rules, nodes, {"src/app.py"}, "n").Emits?
            && EntryOf(rules, nodes, {"src/app.py"}, "n") != Raises(ChangeIssue("n", NeedsLocator))
  {
    NothingTargeted("n", "src/app.py", Change);
    LabelAnchors(rules, map["n" := Bare("n", "src/app.py", Change)], {"src/app.py"}, "n");
  }

  // ----- the parent of a node without a parent -----

  // A node without a parent and without a locator of its own inherits one
  // exactly when a node called "None" has one to derive from.
  lemma ParentlessInheritsFromNone(rules: TextRules, nodes: Nodes, id: string)
    requires id in nodes && nodes[id].parentId.None? && OwnLocator(rules, nodes[id]) == ""
    ensures Locator(rules, nodes, id) != "" <==>
            "None" in nodes && Derived(rules, nodes[id], Locator(rules, nodes, "None")) != ""
    ensures "None" in nodes ==> Locator(rules, nodes, id) == Derived(rules, nodes[id], Locator(rules, nodes, "None"))
  {
    LocatorUnfolds(rules, nodes, id);
  }

  // A class without a parent lands in the file of a module called "None".
  lemma ClassInheritsFromNone(rules: TextRules, nodes: Nodes)
    requires !rules.pathLike("C") && rules.sourceFilename("C") == "" && rules.identifier("C") == "C"
    requires "None" in nodes && nodes["None"].locator == Some("m.py")
    requires "n" in nodes && nodes["n"] == Bare("n", "C", Create)
    ensures Locator(rules, nodes, "n") == "m.py" + ":" + "C"
  {
    NothingTargeted("n", "C", Create);
    LocatorUnfolds(rules, nodes, "None");
    ParentlessInheritsFromNone(rules, nodes, "n");
    DerivedFromModule(rules);
  }

  lemma DerivedSymbol(rules: TextRules, node: Node, parentLocator: string)
    requires LocatorPath(parentLocator) != "" && IsSourcePath(LocatorPath(parentLocator))
    requires !node.kind.ModuleKind? && rules.sourceFilename(node.nodeLabel) == ""
    requires Strip(node.qualifiedName) == "" && rules.identifier(node.nodeLabel) != ""
    ensures Derived(rules, node, parentLocator) == LocatorPath(parentLocator) + ":" + rules.identifier(node.nodeLabel)
  {
  }

  lemma DerivedFromModule(rules: TextRules)
    requires rules.sourceFilename("C") == "" && rules.identifier("C") == "C"
    ensures Derived(rules, Bare("n", "C", Create), "m.py") == "m.py" + ":" + "C"
  {
    PathOfModule();
    DerivedSymbol(rules, Bare("n", "C", Create), "m.py");
  }

  lemma PathOfModule()
    ensures LocatorPath("m.py") == "m.py" && IsSourcePath("m.py")
  {
    assert Strip("m.py") == "m.py";
    assert "m.py"[1..] == ".py" && ".py"[1..] == "py" && "py"[1..] == "y" && "y"[1..] == "";
    assert Replace("y", '\\', '/') == "y" && Replace("py", '\\', '/') == "py" && Replace(".py", '\\', '/') == ".py";
    assert Replace("m.py", '\\', '/') == "m.py";
    assert Before("y", ':') == "y" && Before("py", ':') == "py" && Before(".py", ':') == ".py" && Before("m.py", ':') == "m.py";
    assert Lower("y") == "y" && Lower("py") == "py" && Lower(".py") == ".py" && Lower("m.py") == "m.py";
    assert SOURCE_SUFFIXES[0] == ".py" && EndsWith("m.py", ".py");
  }
}
