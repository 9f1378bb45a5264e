// What an accepted operation leaves in the design tables, column by column, and
// which operations are accepted (src/mission_orchestrator/adapters/design/store.py).
module DesignStoreLaws {
  import opened PyText
  import Workplan
  import opened Design
  import opened DesignStore

  // ----- the words of the enumerations -----

  function LevelName(level: Level): string {
    match level
    case SystemLevel => "SYSTEM"
    case PackageLevel => "PACKAGE"
    case CodeLevel => "CODE"
  }

  function ProvenanceName(provenance: Provenance): string {
    match provenance
    case Analyzer => "ANALYZER"
    case Human => "HUMAN"
    case Agent => "AGENT"
  }

  function LocationName(location: Location): string {
    match location
    case InRepository => "IN_REPOSITORY"
    case External => "EXTERNAL"
  }

  function IntentName(intent: Intent): string {
    match intent
    case Keep => "KEEP"
    case Create => "CREATE"
    case Change => "CHANGE"
    case Remove => "REMOVE"
  }

  function KindName(kind: Kind): string {
    match kind
    case UnknownKind => "unknown"
    case SystemKind => "system"
    case PackageKind => "package"
    case ModuleKind => "module"
    case ClassKind => "class"
    case FunctionKind => "function"
    case MethodKind => "method"
  }

  lemma LevelNames(v: Value)
    ensures ParseLevel(v).Ok? ==> LevelName(ParseLevel(v).value) == Show(v)
    ensures forall level :: LevelName(level) == Show(v) ==> ParseLevel(v) == Ok(level)
  {
    assert "SYSTEM"[0] != "PACKAGE"[0] && "SYSTEM"[0] != "CODE"[0] && "PACKAGE"[0] != "CODE"[0];
  }

  lemma ProvenanceNames(v: Value)
    ensures ParseProvenance(v).Ok? ==> ProvenanceName(ParseProvenance(v).value) == Show(v)
    ensures forall provenance :: ProvenanceName(provenance) == Show(v) ==> ParseProvenance(v) == Ok(provenance)
  {
    assert |"ANALYZER"| == 8 && |"HUMAN"| == 5 && |"AGENT"| == 5 && "HUMAN"[0] != "AGENT"[0];
  }

  lemma LocationNames(v: Value)
    ensures ParseLocation(v).Ok? ==> LocationName(ParseLocation(v).value) == Show(v)
    ensures forall location :: LocationName(location) == Show(v) ==> ParseLocation(v) == Ok(location)
  {
    assert "IN_REPOSITORY"[0] != "EXTERNAL"[0];
  }

  lemma IntentNames(v: Value)
    ensures ParseIntent(v).Ok? ==> IntentName(ParseIntent(v).value) == Show(v)
    ensures forall intent :: IntentName(intent) == Show(v) ==> ParseIntent(v) == Ok(intent)
  {
    assert "KEEP"[0] != "CREATE"[0] && "KEEP"[0] != "REMOVE"[0] && "CREATE"[0] != "REMOVE"[0] && "CREATE"[1] != "CHANGE"[1];
  }

  lemma KindNames(v: Value)
    ensures ParseKind(v).Ok? ==> KindName(ParseKind(v).value) == Show(v)
    ensures forall kind :: KindName(kind) == Show(v) ==> ParseKind(v) == Ok(kind)
  {
    assert "unknown"[0] == 'u' && "system"[0] == 's' && "package"[0] == 'p' && "class"[0] == 'c' && "function"[0] == 'f';
    assert "module"[0] == "method"[0] == 'm' && "module"[1] != "method"[1];
  }

  // ----- a row, read column by column -----

  datatype Column =
    | LabelColumn | LevelColumn | ProvenanceColumn | LocationColumn | IntentColumn | ParentColumn | LocatorColumn
    | DescriptionColumn | KindColumn | TargetPathColumn | QualifiedNameColumn | SignatureColumn | DocstringColumn
    | SatisfiesColumn | AcceptanceColumn

  // Its field in an operation.
  function Key(c: Column): string {
    match c
    case LabelColumn => "label"
    case LevelColumn => "level"
    case ProvenanceColumn => "provenance"
    case LocationColumn => "location"
    case IntentColumn => "intent"
    case ParentColumn => "parent_id"
    case LocatorColumn => "locator"
    case DescriptionColumn => "description"
    case KindColumn => "kind"
    case TargetPathColumn => "target_path"
    case QualifiedNameColumn => "qualified_name"
    case SignatureColumn => "signature"
    case DocstringColumn => "docstring"
    case SatisfiesColumn => "satisfies"
    case AcceptanceColumn => "acceptance"
  }

  datatype Cell = Nothing | Word(text: string) | Words(items: seq<string>)

  function Optional(text: Workplan.Option<string>): Cell {
    if text.Some? then Word(text.value) else Nothing
  }

  function Reading(node: Node, c: Column): Cell {
    match c
    case LabelColumn => Word(node.nodeLabel)
    case LevelColumn => Word(LevelName(node.level))
    case ProvenanceColumn => Word(ProvenanceName(node.provenance))
    case LocationColumn => Word(LocationName(node.location))
    case IntentColumn => Word(IntentName(node.intent))
    case ParentColumn => Optional(node.parentId)
    case LocatorColumn => Optional(node.locator)
    case DescriptionColumn => Word(node.description)
    case KindColumn => Word(KindName(node.kind))
    case TargetPathColumn => Word(node.targetPath)
    case QualifiedNameColumn => Word(node.qualifiedName)
    case SignatureColumn => Word(node.signature)
    case DocstringColumn => Word(node.docstring)
    case SatisfiesColumn => Words(node.satisfies)
    case AcceptanceColumn => Words(node.acceptance)
  }

  // What a value is in a row: a word of an enumeration or a text column as
  // str() gives it, a list stripped, a null nothing.
  predicate Means(c: Column, v: Value, cell: Cell) {
    match c
    case SatisfiesColumn => v.Items? && cell.Words? && Stripped(v.items, cell.items)
    case AcceptanceColumn => v.Items? && cell.Words? && Stripped(v.items, cell.items)
    case ParentColumn => if v.Null? then cell == Nothing else cell == Word(Show(v))
    case LocatorColumn => if v.Null? then cell == Nothing else cell == Word(Show(v))
    case _ => cell == Word(Show(v))
  }

  predicate Stripped(given: seq<string>, kept: seq<string>) {
    |given| == |kept| && forall i :: 0 <= i < |given| ==> kept[i] == Strip(given[i])
  }

  lemma {:induction false} StripAllMeaning(items: seq<string>)
    ensures Stripped(items, StripAll(items))
  {
    if items != [] { StripAllMeaning(items[1..]); }
  }

  // ----- update_node -----

  lemma CheckedParts(g: Graph, row: Node, fields: Operation)
    requires CheckFields(g, row, fields).Ok?
    ensures var node := CheckFields(g, row, fields).value;
            && ("level" in fields ==> ParseLevel(fields["level"]) == Ok(node.level))
            && ("location" in fields ==> ParseLocation(fields["location"]) == Ok(node.location))
            && ("intent" in fields ==> ParseIntent(fields["intent"]) == Ok(node.intent))
            && ("kind" in fields ==> ParseKind(fields["kind"]) == Ok(node.kind))
            && ("satisfies" in fields ==> TextList(fields, "satisfies", 100) == Ok(node.satisfies))
            && ("acceptance" in fields ==> TextList(fields, "acceptance", 1000) == Ok(node.acceptance))
            && ("parent_id" in fields ==> ParentOf(g, fields["parent_id"]) == Ok(node.parentId))
  {
  }

  lemma CheckedWord(g: Graph, row: Node, fields: Operation, c: Column)
    requires CheckFields(g, row, fields).Ok? && (c.LevelColumn? || c.LocationColumn? || c.IntentColumn? || c.KindColumn?)
    ensures Key(c) in fields ==> Means(c, fields[Key(c)], Reading(CheckFields(g, row, fields).value, c))
  {
    CheckedParts(g, row, fields);
    if Key(c) in fields {
      var v := fields[Key(c)];
      match c
      case LevelColumn => LevelNames(v);
      case LocationColumn => LocationNames(v);
      case IntentColumn => IntentNames(v);
      case KindColumn => KindNames(v);
    }
  }

  lemma CheckedList(g: Graph, row: Node, fields: Operation, c: Column)
    requires CheckFields(g, row, fields).Ok? && (c.SatisfiesColumn? || c.AcceptanceColumn?)
    ensures Key(c) in fields ==> Means(c, fields[Key(c)], Reading(CheckFields(g, row, fields).value, c))
  {
    CheckedParts(g, row, fields);
    if Key(c) in fields { StripAllMeaning(fields[Key(c)].items); }
  }

  lemma CheckedColumns(g: Graph, row: Node, fields: Operation, c: Column)
    requires CheckFields(g, row, fields).Ok? && Validated(c)
    ensures Key(c) in fields ==> Means(c, fields[Key(c)], Reading(CheckFields(g, row, fields).value, c))
  {
    if c.ParentColumn? {
      CheckedParts(g, row, fields);
    } else if c.SatisfiesColumn? || c.AcceptanceColumn? {
      CheckedList(g, row, fields, c);
    } else {
      CheckedWord(g, row, fields, c);
    }
  }

  lemma BoundColumns(row: Node, fields: Operation, c: Column)
    requires BindFields(row, fields).Ok?
    requires c.LabelColumn? || c.LocatorColumn? || c.DescriptionColumn? || c.TargetPathColumn? || c.QualifiedNameColumn? || c.SignatureColumn? || c.DocstringColumn?
    ensures Key(c) in fields ==> Means(c, fields[Key(c)], Reading(BindFields(row, fields).value, c))
  {
  }

  predicate Validated(c: Column) {
    c.LevelColumn? || c.LocationColumn? || c.IntentColumn? || c.KindColumn? || c.ParentColumn? || c.SatisfiesColumn? || c.AcceptanceColumn?
  }

  predicate Bound(c: Column) {
    !Validated(c) && !c.ProvenanceColumn?
  }

  // A column that is named carries the value; one that is not stays.
  predicate Carries(was: Node, now: Node, op: Operation, c: Column) {
    if Key(c) in op then Means(c, op[Key(c)], Reading(now, c)) else Reading(now, c) == Reading(was, c)
  }

  lemma CheckCarries(g: Graph, row: Node, fields: Operation, c: Column)
    requires CheckFields(g, row, fields).Ok? && (Key(c) in fields ==> Validated(c))
    ensures Carries(row, CheckFields(g, row, fields).value, fields, c)
    ensures CheckFields(g, row, fields).value.id == row.id
  {
    if Key(c) in fields { CheckedColumns(g, row, fields, c); }
  }

  lemma BindCarries(row: Node, fields: Operation, c: Column)
    requires BindFields(row, fields).Ok? && (Key(c) in fields ==> Bound(c))
    ensures Carries(row, BindFields(row, fields).value, fields, c)
    ensures BindFields(row, fields).value.id == row.id
  {
    if Key(c) in fields { BoundColumns(row, fields, c); }
  }

  lemma BindKeeps(row: Node, fields: Operation, c: Column)
    requires BindFields(row, fields).Ok? && !Bound(c)
    ensures Reading(BindFields(row, fields).value, c) == Reading(row, c)
  {
    BindFieldsMeaning(row, fields);
  }

  lemma CheckKeeps(g: Graph, row: Node, fields: Operation, c: Column)
    requires CheckFields(g, row, fields).Ok? && !Validated(c)
    ensures Reading(CheckFields(g, row, fields).value, c) == Reading(row, c)
  {
  }

  lemma BothCarry(g: Graph, row: Node, fields: Operation, c: Column)
    requires CheckFields(g, row, fields).Ok? && BindFields(CheckFields(g, row, fields).value, fields).Ok?
    requires c.ProvenanceColumn? ==> Key(c) !in fields
    ensures var now := BindFields(CheckFields(g, row, fields).value, fields).value; now.id == row.id && Carries(row, now, fields, c)
  {
    var checked := CheckFields(g, row, fields).value;
    BindFieldsMeaning(checked, fields);
    assert checked.id == row.id;
    if Bound(c) {
      BindCarries(checked, fields, c);
      CheckKeeps(g, row, fields, c);
    } else {
      BindKeeps(checked, fields, c);
      if Validated(c) { CheckCarries(g, row, fields, c); } else { CheckKeeps(g, row, fields, c); }
    }
  }

  lemma KeysAreFields(c: Column)
    ensures Key(c) != "op" && Key(c) != "id"
  {
    assert |Key(c)| > 3;
  }

  lemma OneApplied(g: Graph, op: Operation)
    ensures BatchApplied(g, [op]) == Applied(g, op)
  {
    assert [op][..0] == [];
  }

  // One node's row was written; everything else is as before.
  predicate OnlyNode(g: Graph, after: Graph, id: string) {
    && id in g.nodes && after.edges == g.edges && after.nodes.Keys == g.nodes.Keys && after.nodes[id].id == id
    && forall n :: n in g.nodes && n != id ==> after.nodes[n] == g.nodes[n]
  }

  // An update leaves every value it names in the node's row, and every other
  // column, node and edge as it was.
  lemma UpdateWrites(g: Graph, op: Operation, c: Column)
    requires WellFormed(g) && Get(op, "op") == Text("update_node") && BatchApplied(g, [op]).Ok?
    ensures "id" in op && OnlyNode(g, BatchApplied(g, [op]).value, Show(op["id"]))
    ensures Carries(g.nodes[Show(op["id"])], BatchApplied(g, [op]).value.nodes[Show(op["id"])], op, c)
  {
    OneApplied(g, op);
    UpdateChecked(g, op);
    var id, fields := Show(op["id"]), op - {"op", "id"};
    var now := BindFields(CheckFields(g, g.nodes[id], fields).value, fields).value;
    if c.ProvenanceColumn? { assert Key(c) !in fields; }
    BothCarry(g, g.nodes[id], fields, c);
    ReplaceOnly(g, id, now);
    SameKeys(op, g.nodes[id], now, c);
  }

  lemma SameKeys(op: Operation, was: Node, now: Node, c: Column)
    requires Carries(was, now, op - {"op", "id"}, c)
    ensures Carries(was, now, op, c)
  {
    KeysAreFields(c);
  }

  lemma ReplaceOnly(g: Graph, id: string, node: Node)
    requires id in g.nodes && node.id == id
    ensures OnlyNode(g, Written(g, ReplaceNode(node)), id) && Written(g, ReplaceNode(node)).nodes[id] == node
  {
  }

  lemma UpdateChecked(g: Graph, op: Operation)
    requires Get(op, "op") == Text("update_node") && Applied(g, op).Ok?
    ensures "id" in op && Show(op["id"]) in g.nodes && "provenance" !in op - {"op", "id"}
    ensures var id, fields := Show(op["id"]), op - {"op", "id"};
            var checked := CheckFields(g, g.nodes[id], fields);
            && checked.Ok? && BindFields(checked.value, fields).Ok?
            && Applied(g, op).value == Written(g, ReplaceNode(BindFields(checked.value, fields).value))
  {
    CheckedAs(g, op);
  }

  // Which check an operation goes through.
  lemma CheckedAs(g: Graph, op: Operation)
    ensures Get(op, "op") == Text("add_node") ==> Checked(g, op) == CheckAddNode(g, op)
    ensures Get(op, "op") == Text("update_node") ==> Checked(g, op) == CheckUpdateNode(g, op)
    ensures Get(op, "op") == Text("remove_node") ==> Checked(g, op) == CheckRemoveNode(g, op)
    ensures Get(op, "op") == Text("add_edge") ==> Checked(g, op) == CheckAddEdge(g, op)
    ensures Get(op, "op") == Text("remove_edge") ==> Checked(g, op) == CheckRemoveEdge(g, op)
  {
    KindsOfOperations();
  }

  lemma KindsOfOperations()
    ensures "add_node" != "update_node" && "add_node" != "remove_node" && "add_node" != "add_edge" && "add_node" != "remove_edge"
    ensures "update_node" != "remove_node" && "update_node" != "add_edge" && "update_node" != "remove_edge"
    ensures "remove_node" != "add_edge" && "remove_node" != "remove_edge" && "add_edge" != "remove_edge"
  {
    assert "add_node"[0] == 'a' && "update_node"[0] == 'u' && "remove_node"[0] == 'r' && "add_edge"[0] == 'a' && "remove_edge"[0] == 'r';
    assert "add_node"[4] != "add_edge"[4] && "remove_node"[7] != "remove_edge"[7];
  }

  // ----- add_node -----

  // What a column holds that the operation does not name.
  predicate IsDefault(node: Node, c: Column) {
    match c
    case LabelColumn => node.nodeLabel == node.id
    case KindColumn => node.kind == if node.level.SystemLevel? then SystemKind else UnknownKind
    case ParentColumn => node.parentId.None?
    case LocatorColumn => node.locator.None?
    case SatisfiesColumn => node.satisfies == []
    case AcceptanceColumn => node.acceptance == []
    case LevelColumn => false
    case ProvenanceColumn => false
    case LocationColumn => false
    case IntentColumn => false
    case _ => Reading(node, c) == Word("")
  }

  lemma AddChecked(g: Graph, op: Operation)
    requires Get(op, "op") == Text("add_node") && Applied(g, op).Ok?
    ensures CheckAddNode(g, op).Ok? && CheckAddNode(g, op).value.InsertNode?
    ensures "id" in op && Show(op["id"]) !in g.nodes && CheckAddNode(g, op).value.node.id == Show(op["id"])
    ensures Applied(g, op).value == Written(g, CheckAddNode(g, op).value)
  {
    CheckedAs(g, op);
    AddedId(g, op);
  }

  lemma AddedId(g: Graph, op: Operation)
    requires CheckAddNode(g, op).Ok?
    ensures CheckAddNode(g, op).value.InsertNode?
    ensures "id" in op && Show(op["id"]) !in g.nodes && CheckAddNode(g, op).value.node.id == Show(op["id"])
  {
  }

  lemma PlacedColumns(op: Operation)
    requires CheckPlacement(op).Ok?
    ensures var at := CheckPlacement(op).value;
            && "level" in op && LevelName(at.level) == Show(op["level"])
            && "provenance" in op && ProvenanceName(at.provenance) == Show(op["provenance"])
            && "location" in op && LocationName(at.location) == Show(op["location"])
            && "intent" in op && IntentName(at.intent) == Show(op["intent"])
            && ("kind" in op ==> KindName(at.kind) == Show(op["kind"]))
            && ("kind" !in op ==> at.kind == if at.level.SystemLevel? then SystemKind else UnknownKind)
  {
    LevelNames(Text(Show(op["level"])));
    ProvenanceNames(Text(Show(op["provenance"])));
    LocationNames(Text(Show(op["location"])));
    IntentNames(Text(Show(op["intent"])));
    if "kind" in op { KindNames(op["kind"]); }
  }

  // The added row carries a column as given, or its default.
  predicate Holds(op: Operation, node: Node, c: Column) {
    if Key(c) in op then Means(c, op[Key(c)], Reading(node, c)) else IsDefault(node, c)
  }

  predicate Placed(c: Column) {
    c.LevelColumn? || c.ProvenanceColumn? || c.LocationColumn? || c.IntentColumn? || c.KindColumn?
  }

  predicate Listed(c: Column) {
    c.SatisfiesColumn? || c.AcceptanceColumn?
  }

  lemma AddedParts(g: Graph, op: Operation)
    requires CheckAddNode(g, op).Ok? && CheckAddNode(g, op).value.InsertNode?
    ensures var node := CheckAddNode(g, op).value.node;
            && CheckPlacement(op).Ok?
            && Placement(node.level, node.provenance, node.location, node.intent, node.kind) == CheckPlacement(op).value
            && TextList(op, "satisfies", 100) == Ok(node.satisfies) && TextList(op, "acceptance", 1000) == Ok(node.acceptance)
            && ParentOf(g, Get(op, "parent_id")) == Ok(node.parentId) && Bind(Get(op, "locator"), true) == Ok(node.locator)
  {
  }

  lemma AddedPlaced(op: Operation, node: Node, c: Column)
    requires CheckPlacement(op).Ok? && Placed(c)
    requires Placement(node.level, node.provenance, node.location, node.intent, node.kind) == CheckPlacement(op).value
    ensures Holds(op, node, c)
  {
    PlacedColumns(op);
  }

  lemma AddedListed(op: Operation, node: Node, c: Column)
    requires TextList(op, "satisfies", 100) == Ok(node.satisfies) && TextList(op, "acceptance", 1000) == Ok(node.acceptance) && Listed(c)
    ensures Holds(op, node, c)
  {
    if Key(c) in op { StripAllMeaning(op[Key(c)].items); }
  }

  lemma AddedLinked(g: Graph, op: Operation, node: Node, c: Column)
    requires ParentOf(g, Get(op, "parent_id")) == Ok(node.parentId) && Bind(Get(op, "locator"), true) == Ok(node.locator)
    requires c.ParentColumn? || c.LocatorColumn?
    ensures Holds(op, node, c)
  {
  }

  lemma AddedTexts(g: Graph, op: Operation, c: Column)
    requires CheckAddNode(g, op).Ok? && CheckAddNode(g, op).value.InsertNode?
    requires !Placed(c) && !Listed(c) && !c.ParentColumn? && !c.LocatorColumn?
    ensures Holds(op, CheckAddNode(g, op).value.node, c)
  {
  }

  lemma AddedColumns(g: Graph, op: Operation, c: Column)
    requires CheckAddNode(g, op).Ok? && CheckAddNode(g, op).value.InsertNode?
    ensures Holds(op, CheckAddNode(g, op).value.node, c)
  {
    var node := CheckAddNode(g, op).value.node;
    AddedParts(g, op);
    if Placed(c) {
      AddedPlaced(op, node, c);
    } else if Listed(c) {
      AddedListed(op, node, c);
    } else if c.ParentColumn? || c.LocatorColumn? {
      AddedLinked(g, op, node, c);
    } else {
      AddedTexts(g, op, c);
    }
  }

  // An added node is there with the given columns, and nothing else changes.
  lemma AddWrites(g: Graph, op: Operation, c: Column)
    requires Get(op, "op") == Text("add_node") && BatchApplied(g, [op]).Ok?
    ensures "id" in op && Show(op["id"]) !in g.nodes
    ensures var id, after := Show(op["id"]), BatchApplied(g, [op]).value;
            && id in after.nodes && after == g.(nodes := g.nodes[id := after.nodes[id]]) && after.nodes[id].id == id
            && Holds(op, after.nodes[id], c)
  {
    OneApplied(g, op);
    AddChecked(g, op);
    AddedColumns(g, op, c);
  }

  // ----- remove_node and the edges -----

  // A removed node is gone with its edges, and its children have no parent.
  lemma RemoveWrites(g: Graph, op: Operation)
    requires Get(op, "op") == Text("remove_node") && BatchApplied(g, [op]).Ok?
    ensures "id" in op && Show(op["id"]) in g.nodes
    ensures var id, after := Show(op["id"]), BatchApplied(g, [op]).value;
            && after.nodes.Keys == g.nodes.Keys - {id}
            && (forall n :: n in after.nodes ==>
                  if g.nodes[n].parentId == Workplan.Some(id) then after.nodes[n] == g.nodes[n].(parentId := Workplan.None)
                  else after.nodes[n] == g.nodes[n])
            && (forall k :: k in after.edges <==> k in g.edges && k.0 != id && k.1 != id)
            && (forall k :: k in after.edges ==> after.edges[k] == g.edges[k])
  {
    OneApplied(g, op);
    CheckedAs(g, op);
  }

  predicate NamesEdge(op: Operation) {
    "source" in op && "target" in op && "relation" in op
  }

  function EdgeNamed(op: Operation): EdgeKey
    requires NamesEdge(op)
  {
    (Show(op["source"]), Show(op["target"]), Show(op["relation"]))
  }

  lemma AddEdgeWrites(g: Graph, op: Operation)
    requires Get(op, "op") == Text("add_edge") && BatchApplied(g, [op]).Ok?
    ensures NamesEdge(op) && "provenance" in op && "intent" in op
    ensures var k, after := EdgeNamed(op), BatchApplied(g, [op]).value;
            && k !in g.edges && k.0 in g.nodes && k.1 in g.nodes && k in after.edges
            && after == g.(edges := g.edges[k := after.edges[k]])
            && after.edges[k].source == k.0 && after.edges[k].target == k.1 && after.edges[k].relation == k.2
            && ProvenanceName(after.edges[k].provenance) == Show(op["provenance"])
            && IntentName(after.edges[k].intent) == Show(op["intent"])
  {
    OneApplied(g, op);
    CheckedAs(g, op);
    ProvenanceNames(Text(Show(op["provenance"])));
    IntentNames(Text(Show(op["intent"])));
  }

  lemma RemoveEdgeWrites(g: Graph, op: Operation)
    requires Get(op, "op") == Text("remove_edge") && BatchApplied(g, [op]).Ok?
    ensures NamesEdge(op) && EdgeNamed(op) in g.edges
    ensures BatchApplied(g, [op]).value == g.(edges := g.edges - {EdgeNamed(op)})
  {
    OneApplied(g, op);
    CheckedAs(g, op);
  }

  // ----- which operations are accepted -----

  predicate ListValid(v: Value, maximum: nat) {
    v.Items? && |v.items| <= 100 && forall i :: 0 <= i < |v.items| ==> 0 < |Strip(v.items[i])| <= maximum
  }

  // A value that the column can take.
  ghost predicate Valid(g: Graph, c: Column, v: Value) {
    match c
    case LevelColumn => exists level :: LevelName(level) == Show(v)
    case ProvenanceColumn => exists provenance :: ProvenanceName(provenance) == Show(v)
    case LocationColumn => exists location :: LocationName(location) == Show(v)
    case IntentColumn => exists intent :: IntentName(intent) == Show(v)
    case KindColumn => exists kind :: KindName(kind) == Show(v) && !kind.UnknownKind?
    case ParentColumn => v.Null? || (v.Text? && v.text in g.nodes)
    case LocatorColumn => !v.Items?
    case SatisfiesColumn => ListValid(v, 100)
    case AcceptanceColumn => ListValid(v, 1000)
    case _ => v.Text?
  }

  lemma ListAccepted(op: Operation, field: string, maximum: nat)
    requires field in op
    ensures TextList(op, field, maximum).Ok? <==> ListValid(op[field], maximum)
  {
    var v := op[field];
    if v.Items? {
      StripAllMeaning(v.items);
      var kept := StripAll(v.items);
      assert (exists x | x in kept :: x == "" || |x| > maximum) <==> exists i :: 0 <= i < |kept| && !(0 < |kept[i]| <= maximum);
    }
  }

  lemma WordAccepted(g: Graph, c: Column, v: Value)
    ensures c.LevelColumn? ==> (ParseLevel(v).Ok? <==> Valid(g, c, v))
    ensures c.ProvenanceColumn? ==> (ParseProvenance(v).Ok? <==> Valid(g, c, v))
    ensures c.LocationColumn? ==> (ParseLocation(v).Ok? <==> Valid(g, c, v))
    ensures c.IntentColumn? ==> (ParseIntent(v).Ok? <==> Valid(g, c, v))
    ensures c.KindColumn? ==> (ParseKind(v).Ok? && !ParseKind(v).value.UnknownKind? <==> Valid(g, c, v))
  {
    match c
    case LevelColumn => LevelNames(v);
    case ProvenanceColumn => ProvenanceNames(v);
    case LocationColumn => LocationNames(v);
    case IntentColumn => IntentNames(v);
    case KindColumn => KindNames(v);
    case _ =>
  }

  ghost predicate ValidIfNamed(g: Graph, fields: Operation, c: Column) {
    Key(c) in fields ==> Valid(g, c, fields[Key(c)])
  }

  // Each validated column parses, if it is named.
  predicate FieldsParse(g: Graph, fields: Operation) {
    && ("level" in fields ==> ParseLevel(fields["level"]).Ok?)
    && ("location" in fields ==> ParseLocation(fields["location"]).Ok?)
    && ("intent" in fields ==> ParseIntent(fields["intent"]).Ok?)
    && ("kind" in fields ==> ParseKind(fields["kind"]).Ok? && !ParseKind(fields["kind"]).value.UnknownKind?)
    && TextList(fields, "satisfies", 100).Ok? && TextList(fields, "acceptance", 1000).Ok?
    && ("parent_id" in fields ==> ParentOf(g, fields["parent_id"]).Ok?)
  }

  lemma FieldsParsed(g: Graph, row: Node, fields: Operation)
    ensures CheckFields(g, row, fields).Ok? <==> FieldsParse(g, fields)
  {
  }

  lemma WordsAccepted(g: Graph, fields: Operation)
    ensures ("level" in fields ==> ParseLevel(fields["level"]).Ok?) <==> ValidIfNamed(g, fields, LevelColumn)
    ensures ("location" in fields ==> ParseLocation(fields["location"]).Ok?) <==> ValidIfNamed(g, fields, LocationColumn)
    ensures ("intent" in fields ==> ParseIntent(fields["intent"]).Ok?) <==> ValidIfNamed(g, fields, IntentColumn)
  {
    if "level" in fields { WordAccepted(g, LevelColumn, fields["level"]); }
    if "location" in fields { WordAccepted(g, LocationColumn, fields["location"]); }
    if "intent" in fields { WordAccepted(g, IntentColumn, fields["intent"]); }
  }

  lemma OthersAccepted(g: Graph, fields: Operation)
    ensures ("kind" in fields ==> ParseKind(fields["kind"]).Ok? && !ParseKind(fields["kind"]).value.UnknownKind?) <==>
            ValidIfNamed(g, fields, KindColumn)
    ensures TextList(fields, "satisfies", 100).Ok? <==> ValidIfNamed(g, fields, SatisfiesColumn)
    ensures TextList(fields, "acceptance", 1000).Ok? <==> ValidIfNamed(g, fields, AcceptanceColumn)
    ensures ("parent_id" in fields ==> ParentOf(g, fields["parent_id"]).Ok?) <==> ValidIfNamed(g, fields, ParentColumn)
  {
    if "kind" in fields { WordAccepted(g, KindColumn, fields["kind"]); }
    if "satisfies" in fields { ListAccepted(fields, "satisfies", 100); }
    if "acceptance" in fields { ListAccepted(fields, "acceptance", 1000); }
  }

  lemma FieldsAccepted(g: Graph, row: Node, fields: Operation)
    ensures CheckFields(g, row, fields).Ok? <==>
            && ValidIfNamed(g, fields, LevelColumn) && ValidIfNamed(g, fields, LocationColumn) && ValidIfNamed(g, fields, IntentColumn)
            && ValidIfNamed(g, fields, KindColumn) && ValidIfNamed(g, fields, SatisfiesColumn)
            && ValidIfNamed(g, fields, AcceptanceColumn) && ValidIfNamed(g, fields, ParentColumn)
  {
    FieldsParsed(g, row, fields);
    WordsAccepted(g, fields);
    OthersAccepted(g, fields);
  }

  lemma TextsAccepted(g: Graph, row: Node, fields: Operation)
    ensures BindFields(row, fields).Ok? <==>
            && ValidIfNamed(g, fields, LabelColumn) && ValidIfNamed(g, fields, LocatorColumn) && ValidIfNamed(g, fields, DescriptionColumn)
            && ValidIfNamed(g, fields, TargetPathColumn) && ValidIfNamed(g, fields, QualifiedNameColumn)
            && ValidIfNamed(g, fields, SignatureColumn) && ValidIfNamed(g, fields, DocstringColumn)
  {
  }

  // All that can be updated: every column but the provenance.
  lemma UpdatableKeys(key: string)
    ensures key in UPDATABLE <==> exists c :: Key(c) == key && !c.ProvenanceColumn?
  {
    if key in UPDATABLE {
      assert Key(LabelColumn) == "label" && Key(LevelColumn) == "level" && Key(LocationColumn) == "location" && Key(IntentColumn) == "intent";
      assert Key(ParentColumn) == "parent_id" && Key(LocatorColumn) == "locator" && Key(DescriptionColumn) == "description";
      assert Key(KindColumn) == "kind" && Key(TargetPathColumn) == "target_path" && Key(QualifiedNameColumn) == "qualified_name";
      assert Key(SignatureColumn) == "signature" && Key(DocstringColumn) == "docstring";
      assert Key(SatisfiesColumn) == "satisfies" && Key(AcceptanceColumn) == "acceptance";
    }
  }

  ghost predicate NamesNode(g: Graph, op: Operation) {
    Truthy(Get(op, "id")) && Show(Get(op, "id")) in g.nodes
  }

  // It names a node, at least one column and no other field; the provenance
  // stays; and every value is valid.
  ghost predicate UpdateAcceptable(g: Graph, op: Operation) {
    var fields := op - {"op", "id"};
    && NamesNode(g, op) && fields != map[]
    && (forall key :: key in fields ==> exists c :: Key(c) == key && !c.ProvenanceColumn?)
    && forall c :: ValidIfNamed(g, fields, c)
  }

  lemma UpdateAcceptedIff(g: Graph, op: Operation)
    requires Get(op, "op") == Text("update_node")
    ensures BatchApplied(g, [op]).Ok? <==> UpdateAcceptable(g, op)
  {
    OneApplied(g, op);
    CheckedAs(g, op);
    if NamesNode(g, op) {
      UpdateFieldsAccepted(g, op);
    }
  }

  lemma UpdateFieldsAccepted(g: Graph, op: Operation)
    requires NamesNode(g, op)
    ensures CheckUpdateNode(g, op).Ok? <==> UpdateAcceptable(g, op)
  {
    var row, fields := g.nodes[Show(op["id"])], op - {"op", "id"};
    FieldsAccepted(g, row, fields);
    if CheckFields(g, row, fields).Ok? { TextsAccepted(g, CheckFields(g, row, fields).value, fields); }
    OnlyUpdatable(fields);
    if "provenance" !in fields { ColumnByColumn(g, fields); }
  }

  lemma OnlyUpdatable(fields: Operation)
    ensures fields.Keys <= UPDATABLE <==> forall key :: key in fields ==> exists c :: Key(c) == key && !c.ProvenanceColumn?
    ensures fields.Keys <= UPDATABLE ==> "provenance" !in fields
  {
    forall key ensures key in UPDATABLE <==> exists c :: Key(c) == key && !c.ProvenanceColumn? {
      UpdatableKeys(key);
    }
  }

  lemma ColumnByColumn(g: Graph, fields: Operation)
    requires "provenance" !in fields
    ensures (forall c :: ValidIfNamed(g, fields, c)) <==>
            && ValidIfNamed(g, fields, LevelColumn) && ValidIfNamed(g, fields, LocationColumn) && ValidIfNamed(g, fields, IntentColumn)
            && ValidIfNamed(g, fields, KindColumn) && ValidIfNamed(g, fields, SatisfiesColumn)
            && ValidIfNamed(g, fields, AcceptanceColumn) && ValidIfNamed(g, fields, ParentColumn)
            && ValidIfNamed(g, fields, LabelColumn) && ValidIfNamed(g, fields, LocatorColumn) && ValidIfNamed(g, fields, DescriptionColumn)
            && ValidIfNamed(g, fields, TargetPathColumn) && ValidIfNamed(g, fields, QualifiedNameColumn)
            && ValidIfNamed(g, fields, SignatureColumn) && ValidIfNamed(g, fields, DocstringColumn)
  {
    assert ValidIfNamed(g, fields, ProvenanceColumn);
  }

  // The four placements are stated and valid; the kind, the parent, the locator
  // and the lists are valid if they are named.  Texts are taken as they come.
  ghost predicate AddAcceptable(g: Graph, op: Operation) {
    && Truthy(Get(op, "id")) && Show(Get(op, "id")) !in g.nodes
    && StatedWell(g, op, LevelColumn) && StatedWell(g, op, ProvenanceColumn) && StatedWell(g, op, LocationColumn) && StatedWell(g, op, IntentColumn)
    && ValidIfNamed(g, op, KindColumn) && ValidIfNamed(g, op, ParentColumn) && ValidIfNamed(g, op, LocatorColumn)
    && ValidIfNamed(g, op, SatisfiesColumn) && ValidIfNamed(g, op, AcceptanceColumn)
  }

  ghost predicate StatedWell(g: Graph, op: Operation, c: Column) {
    Truthy(Get(op, Key(c))) && Valid(g, c, Text(Show(Get(op, Key(c)))))
  }

  lemma PlacementAccepted(g: Graph, op: Operation)
    ensures CheckPlacement(op).Ok? <==>
            && StatedWell(g, op, LevelColumn) && StatedWell(g, op, ProvenanceColumn) && StatedWell(g, op, LocationColumn)
            && StatedWell(g, op, IntentColumn) && ValidIfNamed(g, op, KindColumn)
  {
    if "level" in op { WordAccepted(g, LevelColumn, Text(Show(op["level"]))); }
    if "provenance" in op { WordAccepted(g, ProvenanceColumn, Text(Show(op["provenance"]))); }
    if "location" in op { WordAccepted(g, LocationColumn, Text(Show(op["location"]))); }
    if "intent" in op { WordAccepted(g, IntentColumn, Text(Show(op["intent"]))); }
    if "kind" in op { WordAccepted(g, KindColumn, op["kind"]); }
  }

  lemma AddAcceptedIff(g: Graph, op: Operation)
    requires Get(op, "op") == Text("add_node")
    ensures BatchApplied(g, [op]).Ok? <==> AddAcceptable(g, op)
  {
    OneApplied(g, op);
    CheckedAs(g, op);
    PlacementAccepted(g, op);
    OthersAccepted(g, op);
    LinksAccepted(g, op);
    AddPartsAccepted(g, op);
  }

  lemma LinksAccepted(g: Graph, op: Operation)
    ensures ParentOf(g, Get(op, "parent_id")).Ok? <==> ValidIfNamed(g, op, ParentColumn)
    ensures Bind(Get(op, "locator"), true).Ok? <==> ValidIfNamed(g, op, LocatorColumn)
  {
  }

  lemma AddPartsAccepted(g: Graph, op: Operation)
    ensures CheckAddNode(g, op).Ok? <==>
            && Truthy(Get(op, "id")) && Show(Get(op, "id")) !in g.nodes && CheckPlacement(op).Ok?
            && ParentOf(g, Get(op, "parent_id")).Ok? && Bind(Get(op, "locator"), true).Ok?
            && TextList(op, "satisfies", 100).Ok? && TextList(op, "acceptance", 1000).Ok?
  {
  }

  ghost predicate EdgeStated(op: Operation) {
    Truthy(Get(op, "source")) && Truthy(Get(op, "target")) && Truthy(Get(op, "relation"))
  }

  // Removing and edges: what is named exists, or does not exist yet.
  lemma OtherAcceptedIff(g: Graph, op: Operation)
    ensures Get(op, "op") == Text("remove_node") ==> (BatchApplied(g, [op]).Ok? <==> NamesNode(g, op))
    ensures Get(op, "op") == Text("remove_edge") ==> (BatchApplied(g, [op]).Ok? <==> EdgeStated(op) && EdgeNamed(op) in g.edges)
    ensures Get(op, "op") == Text("add_edge") ==>
              (BatchApplied(g, [op]).Ok? <==>
               && EdgeStated(op) && EdgeNamed(op) !in g.edges && EdgeNamed(op).0 in g.nodes && EdgeNamed(op).1 in g.nodes
               && StatedWell(g, op, ProvenanceColumn) && StatedWell(g, op, IntentColumn))
  {
    OneApplied(g, op);
    CheckedAs(g, op);
    if "provenance" in op { WordAccepted(g, ProvenanceColumn, Text(Show(op["provenance"]))); }
    if "intent" in op { WordAccepted(g, IntentColumn, Text(Show(op["intent"]))); }
  }

  // There is no other operation.
  lemma NoOtherOperation(g: Graph, op: Operation)
    ensures BatchApplied(g, [op]).Ok? ==>
              Get(op, "op") in {Text("add_node"), Text("update_node"), Text("remove_node"), Text("add_edge"), Text("remove_edge")}
  {
    OneApplied(g, op);
  }

  // ----- batches and requests -----

  // A batch is its operations in turn, and fails as the first of them that does.
  lemma {:induction false} BatchInTurn(g: Graph, a: seq<Operation>, b: seq<Operation>)
    ensures BatchApplied(g, a + b) ==
            if BatchApplied(g, a).Ok? then BatchApplied(BatchApplied(g, a).value, b) else BatchApplied(g, a)
    decreases b
  {
    if b == [] {
      assert a + b == a;
    } else {
      assert (a + b)[..|a + b| - 1] == a + b[..|b| - 1];
      BatchInTurn(g, a, b[..|b| - 1]);
    }
  }

  // The answer to a new request: applied exactly when it was made for the
  // current revision and its batch succeeds.
  lemma AnswerMeaning(s: Store, r: Request)
    requires Find(s.log, r.operationId).None?
    ensures var (after, reply) := Step(BatchApplied, s, r);
            && (r.baseRevision != s.revision ==> reply.Answered? && reply.status.CONFLICT? && reply.revision == s.revision)
            && (r.baseRevision == s.revision && BatchApplied(s.graph, r.operations).Ok? ==>
                  && reply == Answered(APPLIED, s.revision + 1, NoDetail)
                  && after.graph == BatchApplied(s.graph, r.operations).value && after.revision == s.revision + 1)
            && (r.baseRevision == s.revision && BatchApplied(s.graph, r.operations).Refused? ==>
                  reply == Answered(REJECTED, s.revision, Rejection(BatchApplied(s.graph, r.operations).problem)))
            && (r.baseRevision == s.revision && BatchApplied(s.graph, r.operations).Crash? ==> reply == Escaped && after == s)
            && (reply.Answered? ==> |after.log| == |s.log| + 1 && after.log[..|s.log|] == s.log && IsLogOf(after.log[|s.log|], r, reply))
  {
  }

  predicate IsLogOf(row: Row, r: Request, reply: Reply) {
    && reply.Answered? && row.operationId == r.operationId && row.author == r.author && row.baseRevision == r.baseRevision
    && row.operations == r.operations && row.status == reply.status && row.resultRevision == reply.revision && row.detail == reply.detail
  }

  // The first thing that is wrong with a node or an edge that is named.
  lemma RefusalMeaning(g: Graph, op: Operation)
    ensures Get(op, "op") in {Text("add_node"), Text("update_node"), Text("remove_node")} && !Truthy(Get(op, "id")) ==>
              BatchApplied(g, [op]) == Refused(Missing("id"))
    ensures Get(op, "op") in {Text("update_node"), Text("remove_node")} && Truthy(Get(op, "id")) && !NamesNode(g, op) ==>
              BatchApplied(g, [op]) == Refused(NoSuchNode(Show(op["id"])))
    ensures Get(op, "op") == Text("add_node") && NamesNode(g, op) ==> BatchApplied(g, [op]) == Refused(NodeExists(Show(op["id"])))
    ensures Get(op, "op") == Text("update_node") && NamesNode(g, op) && "provenance" in op ==> BatchApplied(g, [op]) == Refused(Immutable)
    ensures Get(op, "op") == Text("remove_edge") && EdgeStated(op) && EdgeNamed(op) !in g.edges ==> BatchApplied(g, [op]) == Refused(NoSuchEdge)
    ensures Get(op, "op") == Text("add_edge") && EdgeStated(op) && EdgeNamed(op).0 !in g.nodes ==>
              BatchApplied(g, [op]) == Refused(NoSuchEndpoint(EdgeNamed(op).0))
    ensures Get(op, "op") == Text("add_edge") && EdgeStated(op) && EdgeNamed(op).0 in g.nodes && EdgeNamed(op).1 !in g.nodes ==>
              BatchApplied(g, [op]) == Refused(NoSuchEndpoint(EdgeNamed(op).1))
  {
    OneApplied(g, op);
    CheckedAs(g, op);
  }

  // A label given as null becomes the text that str() makes of it.
  lemma NullLabelIsNone(g: Graph, op: Operation)
    requires Get(op, "op") == Text("add_node") && BatchApplied(g, [op]).Ok? && "label" in op && op["label"] == Null
    ensures "id" in op && Show(op["id"]) in BatchApplied(g, [op]).value.nodes
    ensures BatchApplied(g, [op]).value.nodes[Show(op["id"])].nodeLabel == "None"
  {
    AddWrites(g, op, LabelColumn);
  }

  // A word that names nothing is refused with its field and the word.
  lemma WordRefused(v: Value)
    ensures (forall level :: LevelName(level) != Show(v)) ==> ParseLevel(v) == Refused(Invalid("level", Show(v)))
    ensures (forall provenance :: ProvenanceName(provenance) != Show(v)) ==> ParseProvenance(v) == Refused(Invalid("provenance", Show(v)))
    ensures (forall location :: LocationName(location) != Show(v)) ==> ParseLocation(v) == Refused(Invalid("location", Show(v)))
    ensures (forall intent :: IntentName(intent) != Show(v)) ==> ParseIntent(v) == Refused(Invalid("intent", Show(v)))
    ensures (forall kind :: KindName(kind) != Show(v)) ==> ParseKind(v) == Refused(Invalid("kind", Show(v)))
  {
    LevelNames(v);
    ProvenanceNames(v);
    LocationNames(v);
    IntentNames(v);
    KindNames(v);
  }
}
