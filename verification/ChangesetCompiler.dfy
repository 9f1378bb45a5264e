// compile_changeset: every node and edge of the approved design, in any order,
// becomes an operation, a skipped change or an issue
// (src/mission_orchestrator/domain/changeset.py).
module ChangesetCompiler {
  import opened TextOrder
  import opened PyText
  import opened Workplan
  import opened Design
  import opened Changeset

  // ----- the snapshot's nodes as a dict: first position, last value -----

  function NodeMap(nodes: seq<Node>): (m: Nodes)
    ensures forall id :: id in m ==> m[id].id == id
  {
    if nodes == [] then map[]
    else NodeMap(nodes[..|nodes| - 1])[nodes[|nodes| - 1].id := nodes[|nodes| - 1]]
  }

  function NodeKeys(nodes: seq<Node>): (keys: seq<string>)
    ensures NoRepeat(keys)
    ensures forall id :: id in keys <==> id in NodeMap(nodes)
  {
    if nodes == [] then []
    else
      var keys := NodeKeys(nodes[..|nodes| - 1]);
      var id := nodes[|nodes| - 1].id;
      if id in keys then keys else keys + [id]
  }

  // ----- one node -----

  datatype Entry = Silent | Emits(operation: ChangeOperation) | Skips(skip: SkippedChange) | Raises(issue: ChangeIssue)

  function NodeOperation(prefix: string, kind: OperationKind, node: Node): ChangeOperation {
    ChangeOperation(
      prefix + ":" + node.id, kind, node.id, Stated(GivenLocator(node)), node.level, node.location, [],
      if node.description != "" then node.description else node.nodeLabel,
      node.kind, node.targetPath, node.qualifiedName, node.signature, node.docstring,
      node.satisfies, node.acceptance, "", "", "",
      if node.location.InRepository? then Hard else Advisory)
  }

  predicate RequiresTarget(node: Node) {
    node.location.InRepository? && (node.level.CodeLevel? || node.level.PackageLevel?)
  }

  function Relocated(rules: TextRules, node: Node): Node {
    var locator := GivenLocator(node);
    if node.intent.Create? && locator == "" then
      if rules.pathLike(node.nodeLabel) && node.nodeLabel != "" then node.(locator := Some(node.nodeLabel)) else node
    else if locator != "" && Text(node.locator) == "" then node.(locator := Some(locator))
    else node
  }

  function Classify(rules: TextRules, prepared: Node, observed: set<string>): Entry {
    var node := Relocated(rules, prepared);
    var locator := GivenLocator(node);
    var resolved := locator != "" && locator in observed;
    match node.intent
    case Keep => Silent
    case Create =>
      if resolved then Skips(SkippedChange(node.id, "already_materialized"))
      else if RequiresTarget(node) && locator == "" then Raises(ChangeIssue(node.id, NeedsTarget))
      else Emits(NodeOperation("create", CreateNode, node))
    case Change =>
      if locator == "" then Raises(ChangeIssue(node.id, NeedsLocator))
      else if !resolved then Raises(ChangeIssue(node.id, ChangeNotObserved(locator)))
      else Emits(NodeOperation("change", ModifyNode, node))
    case Remove =>
      if !resolved then Raises(ChangeIssue(node.id, RemoveNotObserved(locator)))
      else Emits(NodeOperation("remove", RemoveNode, node))
  }

  function Operations(e: Entry): seq<ChangeOperation> { if e.Emits? then [e.operation] else [] }

  function Skipped(e: Entry): seq<SkippedChange> { if e.Skips? then [e.skip] else [] }

  function Issues(e: Entry): seq<ChangeIssue> { if e.Raises? then [e.issue] else [] }

  function Collect<T>(pick: Entry -> seq<T>, entries: seq<Entry>): seq<T> {
    if entries == [] then []
    else Collect(pick, entries[..|entries| - 1]) + pick(entries[|entries| - 1])
  }

  // ----- one edge -----

  function EdgeVerification(e: Edge): Verification {
    var relation := Lower(e.relation);
    if relation == "contains" || relation == "inherits" then Hard
    else if relation == "imports" && e.provenance.Analyzer? then Resolved
    else Advisory
  }

  function Dependencies(creates: map<string, string>, e: Edge): seq<string> {
    SortBy(Itself,
           (if e.source in creates then [creates[e.source]] else [])
           + (if e.target in creates then [creates[e.target]] else []))
  }

  function EdgeOperation(nodes: Nodes, creates: map<string, string>, e: Edge): ChangeOperation
    requires e.intent.Create? || e.intent.Remove?
  {
    var known := e.source in nodes;
    var created := e.intent.Create?;
    ChangeOperation(
      (if created then "connect:" else "disconnect:") + e.source + "->" + e.target + ":" + e.relation,
      if created then Connect else Disconnect,
      e.source,
      if known then nodes[e.source].locator else None,
      if known then nodes[e.source].level else CodeLevel,
      if known then nodes[e.source].location else InRepository,
      if created then Dependencies(creates, e) else [],
      (if created then "Connect " else "Disconnect ") + e.source + " -" + e.relation + "-> " + e.target,
      UnknownKind, "", "", "", "", [], [], e.source, e.target, e.relation, EdgeVerification(e))
  }

  function EdgeOperations(nodes: Nodes, creates: map<string, string>, edges: seq<Edge>): seq<ChangeOperation> {
    if edges == [] then []
    else
      var e := edges[|edges| - 1];
      EdgeOperations(nodes, creates, edges[..|edges| - 1])
      + (if e.intent.Create? || e.intent.Remove? then [EdgeOperation(nodes, creates, e)] else [])
  }

  // Which operation creates a node: the last one listed that does.
  function Creates(operations: seq<ChangeOperation>): map<string, string> {
    if operations == [] then map[]
    else
      var op := operations[|operations| - 1];
      var m := Creates(operations[..|operations| - 1]);
      if op.kind.CreateNode? then m[op.targetNode := op.id] else m
  }

  // ----- the whole changeset, stated without the memo and without an order of visits -----

  function OperationId(op: ChangeOperation): string { op.id }

  function SkipTarget(s: SkippedChange): string { s.targetNode }

  function IssueTarget(i: ChangeIssue): string { i.targetNode }

  ghost function PreparedNodes(rules: TextRules, nodes: Nodes): Nodes {
    map id | id in nodes :: Prepared(rules, nodes, id)
  }

  ghost function EntryOf(rules: TextRules, nodes: Nodes, observed: set<string>, id: string): Entry
    requires id in nodes
  {
    Classify(rules, Prepared(rules, nodes, id), observed)
  }

  ghost function Entries(rules: TextRules, nodes: Nodes, observed: set<string>, keys: seq<string>): seq<Entry>
    requires forall id :: id in keys ==> id in nodes
  {
    seq(|keys|, i requires 0 <= i < |keys| => EntryOf(rules, nodes, observed, keys[i]))
  }

  ghost function Assemble(rules: TextRules, snapshotId: string, nodes: Nodes, entries: seq<Entry>, edges: seq<Edge>): ChangeSet {
    var operations := Collect(Operations, entries);
    ChangeSet(
      snapshotId,
      SortBy(OperationId, operations + EdgeOperations(PreparedNodes(rules, nodes), Creates(operations), edges)),
      SortBy(SkipTarget, Collect(Skipped, entries)),
      SortBy(IssueTarget, Collect(Issues, entries)))
  }

  ghost function Compiled(rules: TextRules, snapshot: Snapshot, observed: set<string>): ChangeSet {
    var nodes := NodeMap(snapshot.nodes);
    Assemble(rules, snapshot.snapshotId, nodes, Entries(rules, nodes, observed, NodeKeys(snapshot.nodes)), snapshot.edges)
  }

  // The nodes once those in `done` have been prepared.
  ghost function Stage(rules: TextRules, original: Nodes, done: seq<string>): Nodes {
    map id | id in original :: if id in done then Prepared(rules, original, id) else original[id]
  }

  lemma StageStep(rules: TextRules, original: Nodes, keys: seq<string>, i: nat)
    requires i < |keys| && keys[i] in original
    ensures Stage(rules, original, keys[..i])[keys[i] := Prepared(rules, original, keys[i])] == Stage(rules, original, keys[..i + 1])
  {
    assert keys[..i + 1] == keys[..i] + [keys[i]];
  }

  lemma StageDone(rules: TextRules, original: Nodes, keys: seq<string>)
    requires forall id :: id in original ==> id in keys
    ensures Stage(rules, original, keys) == PreparedNodes(rules, original)
  {
  }

  lemma EntriesStep(rules: TextRules, nodes: Nodes, observed: set<string>, keys: seq<string>, i: nat)
    requires i < |keys| && forall id :: id in keys ==> id in nodes
    ensures Entries(rules, nodes, observed, keys[..i]) + [EntryOf(rules, nodes, observed, keys[i])]
         == Entries(rules, nodes, observed, keys[..i + 1])
  {
  }

  ghost predicate Recorded(entries: seq<Entry>, operations: seq<ChangeOperation>, skipped: seq<SkippedChange>, issues: seq<ChangeIssue>) {
    && operations == Collect(Operations, entries)
    && skipped == Collect(Skipped, entries)
    && issues == Collect(Issues, entries)
  }

  lemma RecordedStep(entries: seq<Entry>, entry: Entry, operations: seq<ChangeOperation>, skipped: seq<SkippedChange>, issues: seq<ChangeIssue>)
    requires Recorded(entries, operations, skipped, issues)
    ensures Recorded(entries + [entry], operations + Operations(entry), skipped + Skipped(entry), issues + Issues(entry))
  {
    assert (entries + [entry])[..|entries|] == entries;
  }

  // The loop over the nodes, which rewrites `nodes` as it prepares them.
  method CompileNodes(rules: TextRules, keys: seq<string>, original: Nodes, observed: set<string>)
    returns (operations: seq<ChangeOperation>, skipped: seq<SkippedChange>, issues: seq<ChangeIssue>, nodes: Nodes)
    requires forall id :: id in original ==> original[id].id == id
    requires forall id :: id in keys <==> id in original
    ensures Recorded(Entries(rules, original, observed, keys), operations, skipped, issues)
    ensures nodes == PreparedNodes(rules, original)
  {
    operations, skipped, issues := [], [], [];
    var preparer := new TargetPreparer(rules, original);
    ghost var entries := [];
    for i := 0 to |keys|
      invariant preparer.Valid() && preparer.resolving == {} && preparer.rules == rules && preparer.original == original
      invariant preparer.nodes == Stage(rules, original, keys[..i])
      invariant entries == Entries(rules, original, observed, keys[..i])
      invariant Recorded(entries, operations, skipped, issues)
    {
      assert keys[i] in keys;
      var node := preparer.PrepareNode(keys[i]);
      var entry := Classify(rules, node, observed);
      RecordedStep(entries, entry, operations, skipped, issues);
      entries := entries + [entry];
      operations, skipped, issues := Record(operations, skipped, issues, entry);
      StageStep(rules, original, keys, i);
      EntriesStep(rules, original, observed, keys, i);
    }
    assert keys[..|keys|] == keys;
    nodes := preparer.nodes;
    StageDone(rules, original, keys);
  }

  // The branches of the loop body: each entry goes to one list, or to none.
  method Record(operations: seq<ChangeOperation>, skipped: seq<SkippedChange>, issues: seq<ChangeIssue>, entry: Entry)
    returns (operations': seq<ChangeOperation>, skipped': seq<SkippedChange>, issues': seq<ChangeIssue>)
    ensures operations' == operations + Operations(entry)
    ensures skipped' == skipped + Skipped(entry)
    ensures issues' == issues + Issues(entry)
  {
    operations', skipped', issues' := operations, skipped, issues;
    match entry {
      case Silent =>
      case Emits(operation) => operations' := operations + [operation];
      case Skips(skip) => skipped' := skipped + [skip];
      case Raises(issue) => issues' := issues + [issue];
    }
  }

  // The loop over the edges, which appends to the operations of the nodes.
  method CompileEdges(nodes: Nodes, edges: seq<Edge>, nodeOperations: seq<ChangeOperation>) returns (operations: seq<ChangeOperation>)
    ensures operations == nodeOperations + EdgeOperations(nodes, Creates(nodeOperations), edges)
  {
    var creates := Creates(nodeOperations);
    operations := nodeOperations;
    for i := 0 to |edges|
      invariant operations == nodeOperations + EdgeOperations(nodes, creates, edges[..i])
    {
      assert edges[..i + 1][..i] == edges[..i];
      if edges[i].intent.Create? || edges[i].intent.Remove? {
        operations := operations + [EdgeOperation(nodes, creates, edges[i])];
      }
    }
    assert edges[..|edges|] == edges;
  }

  method CompileChangeset(rules: TextRules, snapshot: Snapshot, observed: set<string>) returns (changeset: ChangeSet)
    ensures changeset == Compiled(rules, snapshot, observed)
  {
    var keys := NodeKeys(snapshot.nodes);
    var operations, skipped, issues, nodes := CompileNodes(rules, keys, NodeMap(snapshot.nodes), observed);
    operations := CompileEdges(nodes, snapshot.edges, operations);
    changeset := ChangeSet(
      snapshot.snapshotId,
      SortBy(OperationId, operations),
      SortBy(SkipTarget, skipped),
      SortBy(IssueTarget, issues));
  }
}
