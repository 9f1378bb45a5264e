// The versioned design store: a log of atomic batches over a graph of nodes
// and edges (src/mission_orchestrator/adapters/design/store.py).
module DesignStore {
  import opened PyText
  import opened Workplan
  import opened Design

  // ----- operations as they arrive: dictionaries of JSON values -----

  // A list carries the text that str() gives for it.
  datatype Value = Null | Text(text: string) | Items(items: seq<string>, shown: string)

  type Operation = map<string, Value>

  predicate Truthy(v: Value) {
    match v
    case Null => false
    case Text(text) => text != ""
    case Items(items, _) => items != []
  }

  function Show(v: Value): string {
    match v
    case Null => "None"
    case Text(text) => text
    case Items(_, shown) => shown
  }

  datatype Problem =
    | UnknownType(kind: string)
    | Missing(field: string)
    | NodeExists(id: string)
    | NoSuchNode(id: string)
    | Invalid(field: string, shown: string)
    | InexactKind
    | NoSuchParent(id: string)
    | Immutable
    | UnknownFields
    | NoSuchEndpoint(id: string)
    | EdgeExists
    | NoSuchEdge
    | BadList(field: string)

  // A problem rejects the batch; a crash is an error of the database driver,
  // which escapes before anything is committed.
  datatype Result<+T> = Ok(value: T) | Refused(problem: Problem) | Crash {
    predicate IsFailure() { !Ok? }
    function PropagateFailure<U>(): Result<U> requires IsFailure() { if Crash? then Crash else Refused(problem) }
    function Extract(): T requires !IsFailure() { value }
  }

  function Get(op: Operation, key: string): Value {
    if key in op then op[key] else Null
  }

  function Required(op: Operation, key: string): Result<string> {
    if Truthy(Get(op, key)) then Ok(Show(op[key])) else Refused(Missing(key))
  }

  function ParseLevel(v: Value): Result<Level> {
    if Show(v) == "SYSTEM" then Ok(SystemLevel)
    else if Show(v) == "PACKAGE" then Ok(PackageLevel)
    else if Show(v) == "CODE" then Ok(CodeLevel)
    else Refused(Invalid("level", Show(v)))
  }

  function ParseProvenance(v: Value): Result<Provenance> {
    if Show(v) == "ANALYZER" then Ok(Analyzer)
    else if Show(v) == "HUMAN" then Ok(Human)
    else if Show(v) == "AGENT" then Ok(Agent)
    else Refused(Invalid("provenance", Show(v)))
  }

  function ParseLocation(v: Value): Result<Location> {
    if Show(v) == "IN_REPOSITORY" then Ok(InRepository)
    else if Show(v) == "EXTERNAL" then Ok(External)
    else Refused(Invalid("location", Show(v)))
  }

  function ParseIntent(v: Value): Result<Intent> {
    if Show(v) == "KEEP" then Ok(Keep)
    else if Show(v) == "CREATE" then Ok(Create)
    else if Show(v) == "CHANGE" then Ok(Change)
    else if Show(v) == "REMOVE" then Ok(Remove)
    else Refused(Invalid("intent", Show(v)))
  }

  function ParseKind(v: Value): Result<Kind> {
    if Show(v) == "unknown" then Ok(UnknownKind)
    else if Show(v) == "system" then Ok(SystemKind)
    else if Show(v) == "package" then Ok(PackageKind)
    else if Show(v) == "module" then Ok(ModuleKind)
    else if Show(v) == "class" then Ok(ClassKind)
    else if Show(v) == "function" then Ok(FunctionKind)
    else if Show(v) == "method" then Ok(MethodKind)
    else Refused(Invalid("kind", Show(v)))
  }

  function StripAll(items: seq<string>): seq<string> {
    if items == [] then [] else [Strip(items[0])] + StripAll(items[1..])
  }

  function TextList(op: Operation, field: string, maximum: nat): Result<seq<string>> {
    if field !in op then Ok([])
    else if !op[field].Items? || |op[field].items| > 100 then Refused(BadList(field))
    else
      var values := StripAll(op[field].items);
      if exists v | v in values :: v == "" || |v| > maximum then Refused(BadList(field)) else Ok(values)
  }

  // A value bound to a column: a list cannot be bound, a null only where the column allows it.
  function Bind(v: Value, nullable: bool): Result<Option<string>> {
    match v
    case Null => if nullable then Ok(None) else Crash
    case Text(text) => Ok(Some(text))
    case Items(_, _) => Crash
  }

  function BindText(v: Value): Result<string> {
    var bound :- Bind(v, false);
    Ok(if bound.Some? then bound.value else "")
  }

  // ----- the graph -----

  type EdgeKey = (string, string, string)

  datatype Graph = Graph(nodes: map<string, Node>, edges: map<EdgeKey, Edge>)

  const EMPTY_GRAPH := Graph(map[], map[])

  // Every edge joins existing nodes and every parent exists.
  ghost predicate WellFormed(g: Graph) {
    && (forall id :: id in g.nodes ==> g.nodes[id].id == id)
    && (forall id :: id in g.nodes && g.nodes[id].parentId.Some? ==> g.nodes[id].parentId.value in g.nodes)
    && (forall k :: k in g.edges ==> k == (g.edges[k].source, g.edges[k].target, g.edges[k].relation))
    && (forall k :: k in g.edges ==> k.0 in g.nodes && k.1 in g.nodes)
  }

  // What a checked operation is about to write.
  datatype Effect =
    | InsertNode(node: Node)
    | ReplaceNode(node: Node)
    | DeleteNode(id: string)
    | InsertEdge(edge: Edge)
    | DeleteEdge(key: EdgeKey)

  function ParentOf(g: Graph, v: Value): Result<Option<string>> {
    match v
    case Null => Ok(None)
    case Text(id) => if id in g.nodes then Ok(Some(id)) else Refused(NoSuchParent(id))
    case Items(_, _) => Crash
  }

  datatype Placement = Placement(level: Level, provenance: Provenance, location: Location, intent: Intent, kind: Kind)

  function CheckPlacement(op: Operation): Result<Placement> {
    var level0 :- Required(op, "level");
    var level :- ParseLevel(Text(level0));
    var provenance0 :- Required(op, "provenance");
    var provenance :- ParseProvenance(Text(provenance0));
    var location0 :- Required(op, "location");
    var location :- ParseLocation(Text(location0));
    var intent0 :- Required(op, "intent");
    var intent :- ParseIntent(Text(intent0));
    var kind :- if "kind" in op then ParseKind(op["kind"]) else Ok(if level.SystemLevel? then SystemKind else UnknownKind);
    if "kind" in op && kind.UnknownKind? then Refused(InexactKind) else
    Ok(Placement(level, provenance, location, intent, kind))
  }

  function CheckAddNode(g: Graph, op: Operation): Result<Effect> {
    var id :- Required(op, "id");
    if id in g.nodes then Refused(NodeExists(id)) else
    var at :- CheckPlacement(op);
    var parent :- ParentOf(g, Get(op, "parent_id"));
    var satisfies :- TextList(op, "satisfies", 100);
    var acceptance :- TextList(op, "acceptance", 1000);
    var locator :- Bind(Get(op, "locator"), true);
    Ok(InsertNode(Node(
      id, if "label" in op then Show(op["label"]) else id, at.level, at.provenance, at.location, at.intent, parent, locator,
      Shown(op, "description"), at.kind, Shown(op, "target_path"), Shown(op, "qualified_name"),
      Shown(op, "signature"), Shown(op, "docstring"), satisfies, acceptance)))
  }

  function Shown(op: Operation, key: string): string {
    if key in op then Show(op[key]) else ""
  }

  const UPDATABLE: set<string> := {
    "label", "level", "location", "intent", "parent_id", "locator", "description", "kind",
    "target_path", "qualified_name", "signature", "docstring", "satisfies", "acceptance"}

  // The columns that are validated before the update.
  function CheckFields(g: Graph, row: Node, fields: Operation): Result<Node> {
    var level :- if "level" in fields then ParseLevel(fields["level"]) else Ok(row.level);
    var location :- if "location" in fields then ParseLocation(fields["location"]) else Ok(row.location);
    var intent :- if "intent" in fields then ParseIntent(fields["intent"]) else Ok(row.intent);
    var kind :- if "kind" in fields then ParseKind(fields["kind"]) else Ok(row.kind);
    if "kind" in fields && kind.UnknownKind? then Refused(InexactKind) else
    var satisfies :- if "satisfies" in fields then TextList(fields, "satisfies", 100) else Ok(row.satisfies);
    var acceptance :- if "acceptance" in fields then TextList(fields, "acceptance", 1000) else Ok(row.acceptance);
    var parent :- if "parent_id" in fields then ParentOf(g, fields["parent_id"]) else Ok(row.parentId);
    Ok(row.(level := level, location := location, intent := intent, kind := kind,
            satisfies := satisfies, acceptance := acceptance, parentId := parent))
  }

  // The columns that go to the database as they are.
  function BindFields(row: Node, fields: Operation): Result<Node> {
    var nodeLabel :- if "label" in fields then BindText(fields["label"]) else Ok(row.nodeLabel);
    var locator :- if "locator" in fields then Bind(fields["locator"], true) else Ok(row.locator);
    var description :- if "description" in fields then BindText(fields["description"]) else Ok(row.description);
    var targetPath :- if "target_path" in fields then BindText(fields["target_path"]) else Ok(row.targetPath);
    var qualifiedName :- if "qualified_name" in fields then BindText(fields["qualified_name"]) else Ok(row.qualifiedName);
    var signature :- if "signature" in fields then BindText(fields["signature"]) else Ok(row.signature);
    var docstring :- if "docstring" in fields then BindText(fields["docstring"]) else Ok(row.docstring);
    Ok(row.(nodeLabel := nodeLabel, locator := locator, description := description, targetPath := targetPath,
            qualifiedName := qualifiedName, signature := signature, docstring := docstring))
  }

  function CheckUpdateNode(g: Graph, op: Operation): Result<Effect> {
    var id :- Required(op, "id");
    if id !in g.nodes then Refused(NoSuchNode(id)) else
    var fields := op - {"op", "id"};
    if "provenance" in fields then Refused(Immutable)
    else if !(fields.Keys <= UPDATABLE) then Refused(UnknownFields)
    else
      var checked :- CheckFields(g, g.nodes[id], fields);
      // An update without fields is not valid SQL.
      if fields == map[] then Crash
      else
        var node :- BindFields(checked, fields);
        Ok(ReplaceNode(node))
  }

  function CheckRemoveNode(g: Graph, op: Operation): Result<Effect> {
    var id :- Required(op, "id");
    if id !in g.nodes then Refused(NoSuchNode(id)) else Ok(DeleteNode(id))
  }

  function CheckAddEdge(g: Graph, op: Operation): Result<Effect> {
    var source :- Required(op, "source");
    var target :- Required(op, "target");
    var relation :- Required(op, "relation");
    if source !in g.nodes then Refused(NoSuchEndpoint(source)) else
    if target !in g.nodes then Refused(NoSuchEndpoint(target)) else
    var provenance0 :- Required(op, "provenance");
    var provenance :- ParseProvenance(Text(provenance0));
    var intent0 :- Required(op, "intent");
    var intent :- ParseIntent(Text(intent0));
    if (source, target, relation) in g.edges then Refused(EdgeExists)
    else Ok(InsertEdge(Edge(source, target, relation, provenance, intent)))
  }

  function CheckRemoveEdge(g: Graph, op: Operation): Result<Effect> {
    var source :- Required(op, "source");
    var target :- Required(op, "target");
    var relation :- Required(op, "relation");
    if (source, target, relation) !in g.edges then Refused(NoSuchEdge)
    else Ok(DeleteEdge((source, target, relation)))
  }

  function Checked(g: Graph, op: Operation): Result<Effect> {
    var kind := Get(op, "op");
    if kind == Text("add_node") then CheckAddNode(g, op)
    else if kind == Text("update_node") then CheckUpdateNode(g, op)
    else if kind == Text("remove_node") then CheckRemoveNode(g, op)
    else if kind == Text("add_edge") then CheckAddEdge(g, op)
    else if kind == Text("remove_edge") then CheckRemoveEdge(g, op)
    else Refused(UnknownType(Show(kind)))
  }

  function Orphaned(node: Node, id: string): Node {
    if node.parentId == Some(id) then node.(parentId := None) else node
  }

  function Written(g: Graph, e: Effect): Graph {
    match e
    case InsertNode(node) => g.(nodes := g.nodes[node.id := node])
    case ReplaceNode(node) => g.(nodes := g.nodes[node.id := node])
    case DeleteNode(id) =>
      Graph(map n | n in g.nodes && n != id :: Orphaned(g.nodes[n], id),
            map k | k in g.edges && k.0 != id && k.1 != id :: g.edges[k])
    case InsertEdge(edge) => g.(edges := g.edges[(edge.source, edge.target, edge.relation) := edge])
    case DeleteEdge(key) => g.(edges := g.edges - {key})
  }

  function Applied(g: Graph, op: Operation): Result<Graph> {
    var effect :- Checked(g, op);
    Ok(Written(g, effect))
  }

  function BatchApplied(g: Graph, ops: seq<Operation>): Result<Graph> {
    if ops == [] then Ok(g)
    else
      var before :- BatchApplied(g, ops[..|ops| - 1]);
      Applied(before, ops[|ops| - 1])
  }

  // ----- the store and one call of apply -----

  datatype Status = APPLIED | CONFLICT | REJECTED | DUPLICATE

  datatype LogDetail = NoDetail | BaseMismatch(base: int, current: nat) | Rejection(problem: Problem)

  datatype Row = Row(
    operationId: string,
    author: string,
    baseRevision: int,
    operations: seq<Operation>,
    status: Status,
    resultRevision: nat,
    detail: LogDetail)

  datatype Request = Request(operationId: string, author: string, baseRevision: int, operations: seq<Operation>)

  // The answer to a request: a result, or an error that escaped.
  datatype Reply = Answered(status: Status, revision: nat, detail: LogDetail) | Escaped

  datatype Store = Store(graph: Graph, revision: nat, log: seq<Row>)

  const EMPTY_STORE := Store(EMPTY_GRAPH, 0, [])

  function Find(log: seq<Row>, operationId: string): Option<Row> {
    if log == [] then None
    else if log[0].operationId == operationId then Some(log[0])
    else Find(log[1..], operationId)
  }

  function Logged(r: Request, status: Status, revision: nat, detail: LogDetail): Row {
    Row(r.operationId, r.author, r.baseRevision, r.operations, status, revision, detail)
  }

  // What a batch does to a graph; the log is the same for any rule.
  type BatchRule = (Graph, seq<Operation>) -> Result<Graph>

  function Step(rule: BatchRule, s: Store, r: Request): (Store, Reply) {
    var previous := Find(s.log, r.operationId);
    if previous.Some? then (s, Answered(DUPLICATE, previous.value.resultRevision, previous.value.detail))
    else if r.baseRevision != s.revision then
      var detail := BaseMismatch(r.baseRevision, s.revision);
      (s.(log := s.log + [Logged(r, CONFLICT, s.revision, detail)]), Answered(CONFLICT, s.revision, detail))
    else Attempted(rule(s.graph, r.operations), s, r)
  }

  // A request on the current revision, once its batch has succeeded or failed.
  function Attempted(outcome: Result<Graph>, s: Store, r: Request): (Store, Reply) {
      match outcome
      case Crash => (s, Escaped)
      case Refused(problem) =>
        (s.(log := s.log + [Logged(r, REJECTED, s.revision, Rejection(problem))]), Answered(REJECTED, s.revision, Rejection(problem)))
      case Ok(graph) =>
        (Store(graph, s.revision + 1, s.log + [Logged(r, APPLIED, s.revision + 1, NoDetail)]), Answered(APPLIED, s.revision + 1, NoDetail))
  }

  class DesignStore {
    var nodes: map<string, Node>
    var edges: map<EdgeKey, Edge>
    var revision: nat
    var operations: seq<Row>

    ghost function Contents(): Store
      reads this
    {
      Store(Graph(nodes, edges), revision, operations)
    }

    constructor ()
      ensures Contents() == EMPTY_STORE
    {
      nodes, edges, revision, operations := map[], map[], 0, [];
    }

    // The statements that change the tables; removing a node also removes its
    // edges and clears it as a parent.
    method Write(e: Effect)
      modifies this`nodes, this`edges
      ensures Graph(nodes, edges) == Written(old(Graph(nodes, edges)), e)
    {
      match e {
        case InsertNode(node) => nodes := nodes[node.id := node];
        case ReplaceNode(node) => nodes := nodes[node.id := node];
        case DeleteNode(id) =>
          edges := map k | k in edges && !(k.0 == id || k.1 == id) :: edges[k];
          nodes := map n | n in nodes :: if nodes[n].parentId == Some(id) then nodes[n].(parentId := None) else nodes[n];
          nodes := nodes - {id};
        case InsertEdge(edge) => edges := edges[(edge.source, edge.target, edge.relation) := edge];
        case DeleteEdge(key) => edges := edges - {key};
      }
    }

    method ApplyOperation(op: Operation) returns (r: Result<()>)
      modifies this`nodes, this`edges
      ensures r.Ok? ==> Applied(old(Graph(nodes, edges)), op) == Ok(Graph(nodes, edges))
      ensures !r.Ok? ==> Applied(old(Graph(nodes, edges)), op) == r.PropagateFailure<Graph>()
      ensures !r.Ok? ==> nodes == old(nodes) && edges == old(edges)
    {
      var effect := Checked(Graph(nodes, edges), op);
      if effect.IsFailure() {
        return effect.PropagateFailure();
      }
      Write(effect.value);
      r := Ok(());
    }

    method Record(r: Request, status: Status, revision: nat, detail: LogDetail) returns (reply: Reply)
      modifies this`operations
      ensures operations == old(operations) + [Logged(r, status, revision, detail)]
      ensures reply == Answered(status, revision, detail)
    {
      operations := operations + [Logged(r, status, revision, detail)];
      reply := Answered(status, revision, detail);
    }

    // The loop inside the savepoint; on failure the tables keep what the
    // earlier operations wrote, and the caller rolls back.
    method RunBatch(ops: seq<Operation>) returns (r: Result<()>)
      modifies this`nodes, this`edges
      ensures match BatchApplied(old(Graph(nodes, edges)), ops)
              case Ok(after) => r.Ok? && after == Graph(nodes, edges)
              case Refused(problem) => r == Refused(problem)
              case Crash => r == Crash
    {
      ghost var before := Graph(nodes, edges);
      for i := 0 to |ops|
        invariant BatchApplied(before, ops[..i]) == Ok(Graph(nodes, edges))
      {
        assert ops[..i + 1][..i] == ops[..i];
        r := ApplyOperation(ops[i]);
        if r.IsFailure() {
          BatchFails(before, ops, i + 1);
          return;
        }
      }
      assert ops[..|ops|] == ops;
      r := Ok(());
    }

    method Apply(r: Request) returns (reply: Reply)
      modifies this
      ensures (Contents(), reply) == Step(BatchApplied, old(Contents()), r)
    {
      var previous := Find(operations, r.operationId);
      if previous.Some? {
        return Answered(DUPLICATE, previous.value.resultRevision, previous.value.detail);
      }
      if r.baseRevision != revision {
        reply := Record(r, CONFLICT, revision, BaseMismatch(r.baseRevision, revision));
        return;
      }
      reply := Attempt(r);
    }

    // The savepoint: all of the batch, or none of it.
    method Attempt(r: Request) returns (reply: Reply)
      modifies this
      ensures (Contents(), reply) == Attempted(BatchApplied(old(Graph(nodes, edges)), r.operations), old(Contents()), r)
    {
      var savedNodes, savedEdges := nodes, edges;
      var done := RunBatch(r.operations);
      match done
      case Crash =>
        nodes, edges := savedNodes, savedEdges;
        assert Contents() == old(Contents());
        reply := Escaped;
      case Refused(problem) =>
        nodes, edges := savedNodes, savedEdges;
        assert Contents() == old(Contents());
        reply := Record(r, REJECTED, revision, Rejection(problem));
      case Ok(_) =>
        revision := revision + 1;
        reply := Record(r, APPLIED, revision, NoDetail);
    }
  }

  // A batch that fails part-way fails, with the same error.
  lemma {:induction false} BatchFails(g: Graph, ops: seq<Operation>, i: nat)
    requires i <= |ops| && BatchApplied(g, ops[..i]).IsFailure()
    ensures BatchApplied(g, ops) == BatchApplied(g, ops[..i])
  {
    if i == |ops| {
      assert ops[..i] == ops;
    } else {
      assert ops[..|ops| - 1][..i] == ops[..i];
      BatchFails(g, ops[..|ops| - 1], i);
    }
  }

  // ----- every reachable graph is well formed -----

  lemma InsertedNodeIsWellFormed(g: Graph, op: Operation)
    requires CheckAddNode(g, op).Ok?
    ensures CheckAddNode(g, op).value.InsertNode?
    ensures var node := CheckAddNode(g, op).value.node;
            node.id !in g.nodes && (node.parentId.Some? ==> node.parentId.value in g.nodes)
  {
  }

  // Validation changes only the columns it is given, and finds parents that exist.
  lemma CheckFieldsMeaning(g: Graph, row: Node, fields: Operation)
    requires CheckFields(g, row, fields).Ok? && (row.parentId.Some? ==> row.parentId.value in g.nodes)
    ensures var node := CheckFields(g, row, fields).value;
            && node == row.(level := node.level, location := node.location, intent := node.intent, kind := node.kind,
                            satisfies := node.satisfies, acceptance := node.acceptance, parentId := node.parentId)
            && (node.parentId.Some? ==> node.parentId.value in g.nodes)
            && ("level" !in fields ==> node.level == row.level)
            && ("location" !in fields ==> node.location == row.location)
            && ("intent" !in fields ==> node.intent == row.intent)
            && ("kind" !in fields ==> node.kind == row.kind)
            && ("satisfies" !in fields ==> node.satisfies == row.satisfies)
            && ("acceptance" !in fields ==> node.acceptance == row.acceptance)
            && ("parent_id" !in fields ==> node.parentId == row.parentId)
  {
  }

  lemma BindFieldsMeaning(row: Node, fields: Operation)
    requires BindFields(row, fields).Ok?
    ensures var node := BindFields(row, fields).value;
            && node == row.(nodeLabel := node.nodeLabel, locator := node.locator, description := node.description,
                            targetPath := node.targetPath, qualifiedName := node.qualifiedName,
                            signature := node.signature, docstring := node.docstring)
            && ("label" !in fields ==> node.nodeLabel == row.nodeLabel)
            && ("locator" !in fields ==> node.locator == row.locator)
            && ("description" !in fields ==> node.description == row.description)
            && ("target_path" !in fields ==> node.targetPath == row.targetPath)
            && ("qualified_name" !in fields ==> node.qualifiedName == row.qualifiedName)
            && ("signature" !in fields ==> node.signature == row.signature)
            && ("docstring" !in fields ==> node.docstring == row.docstring)
  {
  }

  lemma ReplacedNodeIsWellFormed(g: Graph, op: Operation)
    requires WellFormed(g) && CheckUpdateNode(g, op).Ok?
    ensures CheckUpdateNode(g, op).value.ReplaceNode?
    ensures var node := CheckUpdateNode(g, op).value.node;
            && node.id in g.nodes && (node.parentId.Some? ==> node.parentId.value in g.nodes)
            && node.provenance == g.nodes[node.id].provenance
  {
    var id := Show(op["id"]);
    var fields := op - {"op", "id"};
    CheckFieldsMeaning(g, g.nodes[id], fields);
    BindFieldsMeaning(CheckFields(g, g.nodes[id], fields).value, fields);
  }

  // In a well-formed graph, removing what was just added restores the graph:
  // the cascade has nothing else to reach.
  lemma RemoveUndoesAddNode(g: Graph, node: Node)
    requires WellFormed(g) && node.id !in g.nodes
    ensures Written(Written(g, InsertNode(node)), DeleteNode(node.id)) == g
  {
    var after := Written(Written(g, InsertNode(node)), DeleteNode(node.id));
    assert after.nodes == g.nodes;
    assert after.edges == g.edges;
  }

  lemma RemoveUndoesAddEdge(g: Graph, edge: Edge)
    requires (edge.source, edge.target, edge.relation) !in g.edges
    ensures Written(Written(g, InsertEdge(edge)), DeleteEdge((edge.source, edge.target, edge.relation))) == g
  {
    assert Written(Written(g, InsertEdge(edge)), DeleteEdge((edge.source, edge.target, edge.relation))).edges == g.edges;
  }

  ghost predicate Sound(g: Graph, e: Effect) {
    match e
    case InsertNode(node) => node.id !in g.nodes && (node.parentId.Some? ==> node.parentId.value in g.nodes)
    case ReplaceNode(node) => node.id in g.nodes && (node.parentId.Some? ==> node.parentId.value in g.nodes)
    case DeleteNode(id) => id in g.nodes
    case InsertEdge(edge) => edge.source in g.nodes && edge.target in g.nodes && (edge.source, edge.target, edge.relation) !in g.edges
    case DeleteEdge(key) => key in g.edges
  }

  lemma EdgeEffectIsSound(g: Graph, op: Operation)
    ensures CheckAddEdge(g, op).Ok? ==> CheckAddEdge(g, op).value.InsertEdge? && Sound(g, CheckAddEdge(g, op).value)
    ensures CheckRemoveEdge(g, op).Ok? ==> CheckRemoveEdge(g, op).value.DeleteEdge? && Sound(g, CheckRemoveEdge(g, op).value)
  {
  }

  lemma RemovalIsSound(g: Graph, op: Operation)
    requires CheckRemoveNode(g, op).Ok?
    ensures CheckRemoveNode(g, op).value.DeleteNode? && Sound(g, CheckRemoveNode(g, op).value)
  {
  }

  lemma CheckedIsSound(g: Graph, op: Operation)
    requires WellFormed(g) && Checked(g, op).Ok?
    ensures Sound(g, Checked(g, op).value)
  {
    var kind := Get(op, "op");
    if kind == Text("add_node") {
      InsertedNodeIsWellFormed(g, op);
    } else if kind == Text("update_node") {
      ReplacedNodeIsWellFormed(g, op);
    } else if kind == Text("remove_node") {
      RemovalIsSound(g, op);
    } else {
      EdgeEffectIsSound(g, op);
    }
  }

  lemma WriteKeepsWellFormed(g: Graph, e: Effect)
    requires WellFormed(g) && Sound(g, e)
    ensures WellFormed(Written(g, e))
  {
  }

  lemma {:induction false} BatchKeepsWellFormed(g: Graph, ops: seq<Operation>)
    requires WellFormed(g) && BatchApplied(g, ops).Ok?
    ensures WellFormed(BatchApplied(g, ops).value)
  {
    if ops != [] {
      var front := ops[..|ops| - 1];
      BatchKeepsWellFormed(g, front);
      var before := BatchApplied(g, front).value;
      CheckedIsSound(before, ops[|ops| - 1]);
      WriteKeepsWellFormed(before, Checked(before, ops[|ops| - 1]).value);
    }
  }

  // ----- runs -----

  function Run(rule: BatchRule, requests: seq<Request>): Store {
    if requests == [] then EMPTY_STORE else Step(rule, Run(rule, requests[..|requests| - 1]), requests[|requests| - 1]).0
  }

  function AppliedRows(log: seq<Row>): seq<Row> {
    if log == [] then []
    else AppliedRows(log[..|log| - 1]) + (if log[|log| - 1].status.APPLIED? then [log[|log| - 1]] else [])
  }

  // The graph that the given batches build from nothing, in order.
  function Replay(rule: BatchRule, rows: seq<Row>): Result<Graph> {
    if rows == [] then Ok(EMPTY_GRAPH)
    else
      var before :- Replay(rule, rows[..|rows| - 1]);
      rule(before, rows[|rows| - 1].operations)
  }

  // The applied batches were based on revisions 0, 1, 2, ... in turn.
  ghost predicate InTurn(applied: seq<Row>) {
    forall k :: 0 <= k < |applied| ==> applied[k].baseRevision == k && applied[k].resultRevision == k + 1
  }

  // Every row carries the revision after it: the number of batches applied so far.
  ghost predicate Numbered(log: seq<Row>) {
    forall i :: 0 <= i < |log| ==> !log[i].status.DUPLICATE? && log[i].resultRevision == |AppliedRows(log[..i + 1])|
  }

  ghost predicate UniqueIds(log: seq<Row>) {
    forall i, j :: 0 <= i < j < |log| ==> log[i].operationId != log[j].operationId
  }

  ghost predicate Consistent(rule: BatchRule, s: Store) {
    && Replay(rule, AppliedRows(s.log)) == Ok(s.graph)
    && s.revision == |AppliedRows(s.log)|
    && InTurn(AppliedRows(s.log)) && Numbered(s.log) && UniqueIds(s.log)
  }

  lemma {:induction false} FindMeaning(log: seq<Row>, id: string)
    ensures Find(log, id).None? <==> forall i :: 0 <= i < |log| ==> log[i].operationId != id
    ensures Find(log, id).Some? ==> Find(log, id).value in log && Find(log, id).value.operationId == id
  {
    if log != [] {
      FindMeaning(log[1..], id);
      if Find(log[1..], id).None? && log[0].operationId != id {
        forall i | 0 <= i < |log| ensures log[i].operationId != id {
          if i > 0 { assert log[i] == log[1..][i - 1]; }
        }
      }
    }
  }

  lemma AppendApplied(log: seq<Row>, row: Row)
    ensures AppliedRows(log + [row]) == if row.status.APPLIED? then AppliedRows(log) + [row] else AppliedRows(log)
  {
    assert (log + [row])[..|log|] == log;
  }

  lemma AppendReplays(rule: BatchRule, rows: seq<Row>, row: Row, g: Graph, graph: Graph)
    requires Replay(rule, rows) == Ok(g) && rule(g, row.operations) == Ok(graph)
    ensures Replay(rule, rows + [row]) == Ok(graph)
  {
    assert (rows + [row])[..|rows|] == rows;
  }

  lemma AppendNumbers(log: seq<Row>, row: Row)
    requires Numbered(log) && !row.status.DUPLICATE? && row.resultRevision == |AppliedRows(log + [row])|
    ensures Numbered(log + [row])
  {
    var longer := log + [row];
    forall i | 0 <= i < |longer|
      ensures !longer[i].status.DUPLICATE? && longer[i].resultRevision == |AppliedRows(longer[..i + 1])|
    {
      if i < |log| { assert longer[..i + 1] == log[..i + 1]; } else { assert longer[..i + 1] == longer; }
    }
  }

  lemma AppendUnique(log: seq<Row>, row: Row)
    requires UniqueIds(log) && Find(log, row.operationId).None?
    ensures UniqueIds(log + [row])
  {
    FindMeaning(log, row.operationId);
  }

  lemma AppendInTurn(applied: seq<Row>, row: Row)
    requires InTurn(applied) && row.baseRevision == |applied| && row.resultRevision == |applied| + 1
    ensures InTurn(applied + [row])
  {
  }

  lemma AppendKeepsConsistent(rule: BatchRule, s: Store, row: Row, graph: Graph)
    requires Consistent(rule, s) && Find(s.log, row.operationId).None? && !row.status.DUPLICATE?
    requires row.status.APPLIED? ==>
               row.baseRevision == s.revision && row.resultRevision == s.revision + 1 && rule(s.graph, row.operations) == Ok(graph)
    requires !row.status.APPLIED? ==> row.resultRevision == s.revision && graph == s.graph
    ensures Consistent(rule, Store(graph, row.resultRevision, s.log + [row]))
  {
    AppendUnique(s.log, row);
    AppendApplied(s.log, row);
    AppendNumbers(s.log, row);
    if row.status.APPLIED? {
      AppendReplays(rule, AppliedRows(s.log), row, s.graph, graph);
      AppendInTurn(AppliedRows(s.log), row);
    }
  }

  // One call keeps the store equal to the replay of its applied batches.
  lemma StepKeepsConsistent(rule: BatchRule, s: Store, r: Request)
    requires Consistent(rule, s)
    ensures Consistent(rule, Step(rule, s, r).0)
  {
    if Find(s.log, r.operationId).None? {
      var batch := rule(s.graph, r.operations);
      if r.baseRevision != s.revision {
        KeepsWithRow(rule, s, r, Logged(r, CONFLICT, s.revision, BaseMismatch(r.baseRevision, s.revision)), s.graph);
      } else if batch.Refused? {
        KeepsWithRow(rule, s, r, Logged(r, REJECTED, s.revision, Rejection(batch.problem)), s.graph);
      } else if batch.Ok? {
        KeepsWithRow(rule, s, r, Logged(r, APPLIED, s.revision + 1, NoDetail), batch.value);
      }
    }
  }

  lemma KeepsWithRow(rule: BatchRule, s: Store, r: Request, row: Row, graph: Graph)
    requires Consistent(rule, s) && Find(s.log, row.operationId).None? && !row.status.DUPLICATE?
    requires row.status.APPLIED? ==>
               row.baseRevision == s.revision && row.resultRevision == s.revision + 1 && rule(s.graph, row.operations) == Ok(graph)
    requires !row.status.APPLIED? ==> row.resultRevision == s.revision && graph == s.graph
    requires Step(rule, s, r).0 == Store(graph, row.resultRevision, s.log + [row])
    ensures Consistent(rule, Step(rule, s, r).0)
  {
    AppendKeepsConsistent(rule, s, row, graph);
  }

  // Every reachable store is the replay of exactly its applied batches.
  lemma {:induction false} ReachableIsReplay(rule: BatchRule, requests: seq<Request>)
    ensures Consistent(rule, Run(rule, requests))
  {
    if requests != [] {
      ReachableIsReplay(rule, requests[..|requests| - 1]);
      StepKeepsConsistent(rule, Run(rule, requests[..|requests| - 1]), requests[|requests| - 1]);
    }
  }

  // With the store's own rule, every reachable graph is well formed.
  lemma {:induction false} ReachableIsWellFormed(requests: seq<Request>)
    ensures WellFormed(Run(BatchApplied, requests).graph)
  {
    if requests != [] {
      var s := Run(BatchApplied, requests[..|requests| - 1]);
      var r := requests[|requests| - 1];
      ReachableIsWellFormed(requests[..|requests| - 1]);
      OnlyAppliedChanges(BatchApplied, s, r);
      if BatchApplied(s.graph, r.operations).Ok? {
        BatchKeepsWellFormed(s.graph, r.operations);
      }
    }
  }

  // Only an applied call touches the graph or the revision.
  lemma OnlyAppliedChanges(rule: BatchRule, s: Store, r: Request)
    ensures var (after, reply) := Step(rule, s, r);
            if reply.Answered? && reply.status.APPLIED?
            then after.revision == s.revision + 1 && rule(s.graph, r.operations) == Ok(after.graph)
            else after.graph == s.graph && after.revision == s.revision
    ensures s.log <= Step(rule, s, r).0.log && |Step(rule, s, r).0.log| <= |s.log| + 1
  {
  }

  lemma {:induction false} FindStays(log: seq<Row>, more: seq<Row>, id: string)
    requires Find(log, id).Some?
    ensures Find(log + more, id) == Find(log, id)
  {
    assert (log + more)[0] == log[0];
    if log[0].operationId != id {
      FindStays(log[1..], more, id);
      assert (log + more)[1..] == log[1..] + more;
    }
  }

  lemma {:induction false} FoundForever(rule: BatchRule, requests: seq<Request>, n: nat, id: string)
    requires n <= |requests| && Find(Run(rule, requests[..n]).log, id).Some?
    ensures Find(Run(rule, requests).log, id) == Find(Run(rule, requests[..n]).log, id)
    decreases |requests|
  {
    if n == |requests| {
      assert requests[..n] == requests;
    } else {
      var front := requests[..|requests| - 1];
      assert front[..n] == requests[..n];
      FoundForever(rule, front, n, id);
      var s, s' := Run(rule, front), Run(rule, requests);
      OnlyAppliedChanges(rule, s, requests[|requests| - 1]);
      assert s'.log == s.log + s'.log[|s.log|..];
      FindStays(s.log, s'.log[|s.log|..], id);
    }
  }

  lemma FindLast(log: seq<Row>, row: Row)
    requires Find(log, row.operationId).None?
    ensures Find(log + [row], row.operationId) == Some(row)
  {
    if log != [] {
      FindLast(log[1..], row);
      assert (log + [row])[1..] == log[1..] + [row];
    }
  }

  lemma AnswerIsLogged(rule: BatchRule, s: Store, r: Request)
    requires Step(rule, s, r).1.Answered?
    ensures var row := Find(Step(rule, s, r).0.log, r.operationId);
            row.Some? && row.value.resultRevision == Step(rule, s, r).1.revision && row.value.detail == Step(rule, s, r).1.detail
  {
    if Find(s.log, r.operationId).None? {
      FindLast(s.log, Step(rule, s, r).0.log[|s.log|]);
    }
  }

  // A repeated operation id, at any later time and with any content, gets the
  // first call's result revision and changes nothing.
  lemma RepeatedIdGetsFirstResult(rule: BatchRule, requests: seq<Request>, n: nat, again: Request)
    requires n < |requests| && requests[n].operationId == again.operationId
    requires Step(rule, Run(rule, requests[..n]), requests[n]).1.Answered?
    ensures var first := Step(rule, Run(rule, requests[..n]), requests[n]).1;
            Step(rule, Run(rule, requests), again) == (Run(rule, requests), Answered(DUPLICATE, first.revision, first.detail))
  {
    assert requests[..n + 1][..n] == requests[..n];
    AnswerIsLogged(rule, Run(rule, requests[..n]), requests[n]);
    FoundForever(rule, requests, n + 1, again.operationId);
  }

  // Of two requests built on one revision, at most one is ever applied.
  lemma OneWinnerPerRevision(rule: BatchRule, requests: seq<Request>, i: nat, j: nat)
    requires var log := Run(rule, requests).log;
             i < j < |log| && log[i].status.APPLIED? && log[j].status.APPLIED?
    ensures Run(rule, requests).log[i].baseRevision < Run(rule, requests).log[j].baseRevision
  {
    var log := Run(rule, requests).log;
    ReachableIsReplay(rule, requests);
    AppliedRowsGrow(log, i);
    AppliedRowsGrow(log, j);
    AppliedRowsMonotone(log, i + 1, j);
  }

  lemma {:induction false} AppliedRowsMonotone(log: seq<Row>, i: nat, j: nat)
    requires i <= j <= |log|
    ensures AppliedRows(log[..i]) <= AppliedRows(log[..j])
    decreases j
  {
    if i < j {
      assert log[..j][..j - 1] == log[..j - 1];
      AppliedRowsMonotone(log, i, j - 1);
    }
  }

  lemma AppliedRowsGrow(log: seq<Row>, i: nat)
    requires i < |log| && log[i].status.APPLIED?
    ensures AppliedRows(log[..i + 1]) == AppliedRows(log[..i]) + [log[i]]
    ensures |AppliedRows(log[..i])| < |AppliedRows(log)| && AppliedRows(log)[|AppliedRows(log[..i])|] == log[i]
  {
    assert log[..i + 1][..i] == log[..i];
    AppliedRowsMonotone(log, i + 1, |log|);
    assert log[..|log|] == log;
  }
}
