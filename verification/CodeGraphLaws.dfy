// Which nodes and links a syntax tree yields: one for each place where the
// visitor meets a definition, an import, a call or a name
// (src/mission_orchestrator/adapters/analysis/builder.py).
module CodeGraphLaws {
  import opened Workplan
  import opened PyText
  import opened CodeGraph

  // ----- the places that are visited -----

  // The child trees that the visitor goes on to, and where they stand.
  function Children(t: Ast): seq<Ast> {
    match t
    case ClassDef(_, _, children) => children
    case FunctionDef(_, children) => children
    case Call(_, children) => children
    case Attribute(value, _) => [value]
    case OtherNode(children) => children
    case _ => []
  }

  function Below(rel: string, place: Place, t: Ast): Place {
    match t
    case ClassDef(name, _, _) => Inside(rel, place, name, true)
    case FunctionDef(name, _) => Inside(rel, place, name, false)
    case _ => place
  }

  // From t at a place, going down by these child numbers, the visitor meets u
  // at another place.
  predicate Meets(rel: string, place: Place, t: Ast, path: seq<nat>, u: Ast, at: Place)
    decreases path
  {
    if path == [] then u == t && at == place
    else path[0] < |Children(t)| && Meets(rel, Below(rel, place, t), Children(t)[path[0]], path[1..], u, at)
  }

  // Where a visit stands: inside the definitions whose names it carries.
  lemma {:induction false} PlaceMeaning(rel: string, place: Place, t: Ast, path: seq<nat>, u: Ast, at: Place)
    requires Meets(rel, place, t, path, u, at)
    requires place.scope == if place.quals == [] then rel else DottedId(rel, place.quals)
    ensures place.quals <= at.quals && |at.quals| <= |place.quals| + |path|
    ensures at.scope == if at.quals == [] then rel else DottedId(rel, at.quals)
    decreases path
  {
    if path != [] {
      PlaceMeaning(rel, Below(rel, place, t), Children(t)[path[0]], path[1..], u, at);
    }
  }

  // ----- what each of them yields -----

  // What a file records: a node, an edge, or a lexical reference.
  datatype Item = ANode(node: GraphNode) | AnEdge(edge: GraphEdge) | AReference(reference: GraphEdge)

  predicate YieldsNode(rel: string, u: Ast, at: Place, n: GraphNode) {
    match u
    case ClassDef(name, _, _) => n == GraphNode(DottedId(rel, at.quals + [name]), ClassNode, rel, name)
    case FunctionDef(name, _) =>
      n == GraphNode(DottedId(rel, at.quals + [name]), if at.inClass then MethodNode else FunctionNode, rel, name)
    case _ => false
  }

  predicate IsInherits(id: string, bases: seq<Ast>, e: GraphEdge) {
    e.source == id && e.relation == Inherits && e.target != "" && exists base | base in bases :: DottedName(base) == e.target
  }

  predicate YieldsEdge(rel: string, u: Ast, at: Place, e: GraphEdge) {
    match u
    case Import(names) => e.source == at.scope && e.relation == Imports && e.target in names
    case ImportFrom(moduleName) => e == GraphEdge(at.scope, moduleName, Imports)
    case ClassDef(name, bases, _) =>
      var id := DottedId(rel, at.quals + [name]);
      e == GraphEdge(at.scope, id, Defines) || IsInherits(id, bases, e)
    case FunctionDef(name, _) => e == GraphEdge(at.scope, DottedId(rel, at.quals + [name]), Defines)
    case _ => false
  }

  predicate YieldsReference(u: Ast, at: Place, e: GraphEdge) {
    match u
    case Call(func, _) => DottedName(func) != "" && e == GraphEdge(at.scope, DottedName(func), Calls)
    case Name(id) => e == GraphEdge(at.scope, id, References)
    case _ => false
  }

  predicate Yields(rel: string, u: Ast, at: Place, item: Item) {
    match item
    case ANode(n) => YieldsNode(rel, u, at, n)
    case AnEdge(e) => YieldsEdge(rel, u, at, e)
    case AReference(e) => YieldsReference(u, at, e)
  }

  // Some place that the visitor meets yields it.
  ghost predicate Yielded(rel: string, place: Place, t: Ast, item: Item) {
    exists path, u, at :: Meets(rel, place, t, path, u, at) && Yields(rel, u, at, item)
  }

  ghost predicate BelowYields(rel: string, place: Place, t: Ast, item: Item) {
    exists i :: 0 <= i < |Children(t)| && Yielded(rel, Below(rel, place, t), Children(t)[i], item)
  }

  lemma HereOrBelow(rel: string, place: Place, t: Ast, item: Item)
    ensures Yielded(rel, place, t, item) <==> Yields(rel, t, place, item) || BelowYields(rel, place, t, item)
  {
    if Yielded(rel, place, t, item) {
      var path, u, at :| Meets(rel, place, t, path, u, at) && Yields(rel, u, at, item);
      if path != [] {
        assert Meets(rel, Below(rel, place, t), Children(t)[path[0]], path[1..], u, at);
        assert Yielded(rel, Below(rel, place, t), Children(t)[path[0]], item);
      }
    }
    if Yields(rel, t, place, item) {
      assert Meets(rel, place, t, [], t, place);
    }
    if BelowYields(rel, place, t, item) {
      var i :| 0 <= i < |Children(t)| && Yielded(rel, Below(rel, place, t), Children(t)[i], item);
      var path, u, at :| Meets(rel, Below(rel, place, t), Children(t)[i], path, u, at) && Yields(rel, u, at, item);
      assert ([i] + path)[1..] == path;
      assert Meets(rel, place, t, [i] + path, u, at);
    }
  }

  // ----- and that is what is recorded -----

  predicate Records(p: Parsed, item: Item) {
    match item
    case ANode(n) => n in p.nodes
    case AnEdge(e) => e in p.edges
    case AReference(e) => e in p.refs
  }

  lemma RecordsPlus(a: Parsed, b: Parsed, item: Item)
    ensures Records(Plus(a, b), item) <==> Records(a, item) || Records(b, item)
  {
  }

  lemma {:induction false} InheritEdgesMeaning(id: string, bases: seq<Ast>, e: GraphEdge)
    ensures e in InheritEdges(id, bases) <==> IsInherits(id, bases, e)
  {
    if bases != [] {
      InheritEdgesMeaning(id, bases[1..], e);
      assert bases == [bases[0]] + bases[1..];
      assert IsInherits(id, bases, e) <==> IsInherits(id, bases[1..], e) || IsInherits(id, [bases[0]], e);
    }
  }

  // What is recorded for the tree itself.
  function Own(rel: string, place: Place, t: Ast): Parsed {
    match t
    case Import(names) => Parsed([], ImportEdges(place.scope, names), [])
    case ImportFrom(moduleName) => Parsed([], [GraphEdge(place.scope, moduleName, Imports)], [])
    case ClassDef(name, bases, _) =>
      var id := QualifiedId(rel, place.quals, name);
      Parsed([GraphNode(id, ClassNode, rel, name)], [GraphEdge(place.scope, id, Defines)] + InheritEdges(id, bases), [])
    case FunctionDef(name, _) =>
      var id := QualifiedId(rel, place.quals, name);
      Parsed([GraphNode(id, if place.inClass then MethodNode else FunctionNode, rel, name)], [GraphEdge(place.scope, id, Defines)], [])
    case Call(func, _) => Parsed([], [], if DottedName(func) != "" then [GraphEdge(place.scope, DottedName(func), Calls)] else [])
    case Name(id) => Parsed([], [], [GraphEdge(place.scope, id, References)])
    case _ => NOTHING
  }

  lemma OwnMeaning(rel: string, place: Place, t: Ast, item: Item)
    ensures Records(Own(rel, place, t), item) <==> Yields(rel, t, place, item)
  {
    match t
    case Import(names) =>
      if item.AnEdge? && Yields(rel, t, place, item) {
        var i :| 0 <= i < |names| && names[i] == item.edge.target;
        assert ImportEdges(place.scope, names)[i] == item.edge;
      }
    case ClassDef(name, bases, _) =>
      if item.AnEdge? { InheritEdgesMeaning(QualifiedId(rel, place.quals, name), bases, item.edge); }
    case _ =>
  }

  lemma OwnAndBelow(rel: string, place: Place, t: Ast)
    ensures Emitted(rel, place, t) == Plus(Own(rel, place, t), AllEmitted(rel, Below(rel, place, t), Children(t)))
  {
    match t
    case Attribute(value, _) =>
      OneTree(rel, place, value);
      NothingPlus(Emitted(rel, place, value));
    case OtherNode(children) => NothingPlus(AllEmitted(rel, place, children));
    case _ =>
  }

  lemma NothingPlus(p: Parsed)
    ensures Plus(NOTHING, p) == p
  {
    assert [] + p.nodes == p.nodes && [] + p.edges == p.edges && [] + p.refs == p.refs;
  }

  ghost predicate SomeYields(rel: string, place: Place, trees: seq<Ast>, item: Item) {
    exists i :: 0 <= i < |trees| && Yielded(rel, place, trees[i], item)
  }

  lemma SomeYieldsGrows(rel: string, place: Place, front: seq<Ast>, last: Ast, item: Item)
    ensures SomeYields(rel, place, front + [last], item) <==> SomeYields(rel, place, front, item) || Yielded(rel, place, last, item)
  {
    var trees := front + [last];
    if SomeYields(rel, place, front, item) {
      var i :| 0 <= i < |front| && Yielded(rel, place, front[i], item);
      assert trees[i] == front[i];
    }
    if Yielded(rel, place, last, item) {
      assert trees[|front|] == last;
    }
  }

  lemma {:induction false} AllRecorded(rel: string, place: Place, trees: seq<Ast>, item: Item)
    ensures Records(AllEmitted(rel, place, trees), item) <==> SomeYields(rel, place, trees, item)
    decreases trees, 0
  {
    if trees != [] {
      var last := |trees| - 1;
      AllRecorded(rel, place, trees[..last], item);
      RecordedExactly(rel, place, trees[last], item);
      RecordsPlus(AllEmitted(rel, place, trees[..last]), Emitted(rel, place, trees[last]), item);
      assert trees == trees[..last] + [trees[last]];
      SomeYieldsGrows(rel, place, trees[..last], trees[last], item);
    }
  }

  // A tree records exactly what the places yield that the visitor meets in it.
  lemma {:induction false} RecordedExactly(rel: string, place: Place, t: Ast, item: Item)
    ensures Records(Emitted(rel, place, t), item) <==> Yielded(rel, place, t, item)
    decreases t, 1
  {
    ChildrenRecorded(rel, Below(rel, place, t), t, item);
    OwnAndBelow(rel, place, t);
    OwnMeaning(rel, place, t, item);
    RecordsPlus(Own(rel, place, t), AllEmitted(rel, Below(rel, place, t), Children(t)), item);
    HereOrBelow(rel, place, t, item);
  }

  lemma {:induction false} ChildrenRecorded(rel: string, below: Place, t: Ast, item: Item)
    ensures Records(AllEmitted(rel, below, Children(t)), item) <==> SomeYields(rel, below, Children(t), item)
    decreases t, 0
  {
    match t
    case ClassDef(_, _, children) => AllRecorded(rel, below, children, item);
    case FunctionDef(_, children) => AllRecorded(rel, below, children, item);
    case Call(_, children) => AllRecorded(rel, below, children, item);
    case OtherNode(children) => AllRecorded(rel, below, children, item);
    case Attribute(value, _) =>
      OneTree(rel, below, value);
      RecordedExactly(rel, below, value, item);
      assert [] + [value] == [value];
      SomeYieldsGrows(rel, below, [], value, item);
    case _ =>
  }

  // For a file: the module itself, and what its tree yields.
  lemma FileRecords(rel: string, tree: Option<Ast>, item: Item)
    ensures Records(ParseFile(rel, tree), item) <==>
            item == ANode(GraphNode(rel, ModuleNode, rel, rel)) || (tree.Some? && Yielded(rel, Place([], false, rel), tree.value, item))
  {
    if tree.Some? {
      RecordedExactly(rel, Place([], false, rel), tree.value, item);
      RecordsPlus(Parsed([GraphNode(rel, ModuleNode, rel, rel)], [], []), Emitted(rel, Place([], false, rel), tree.value), item);
    }
  }

  // ----- dotted names -----

  // base.a.b.c
  function Attributes(base: Ast, attrs: seq<string>): Ast {
    if attrs == [] then base else Attribute(Attributes(base, attrs[..|attrs| - 1]), attrs[|attrs| - 1])
  }

  lemma {:induction false} JoinGrows(parts: seq<string>, part: string)
    requires parts != []
    ensures Join(parts + [part]) == Join(parts) + "." + part
  {
    if |parts| == 1 {
      assert (parts + [part])[1..] == [part];
    } else {
      JoinGrows(parts[1..], part);
      assert (parts + [part])[1..] == parts[1..] + [part];
      assert parts[0] + "." + (Join(parts[1..]) + "." + part) == parts[0] + "." + Join(parts[1..]) + "." + part;
    }
  }

  // Attributes of a name are the names joined by dots; of anything without a
  // name, the attributes alone.
  lemma {:induction false} DottedNameMeaning(base: Ast, attrs: seq<string>)
    requires forall a :: a in attrs ==> a != ""
    requires !base.Attribute?
    ensures base.Name? && base.id != "" ==> DottedName(Attributes(base, attrs)) == Join([base.id] + attrs)
    ensures !base.Name? ==> DottedName(Attributes(base, attrs)) == Join(attrs)
    decreases attrs
  {
    if attrs != [] {
      var front, last := attrs[..|attrs| - 1], attrs[|attrs| - 1];
      assert attrs == front + [last];
      forall a | a in front ensures a != "" { assert a in attrs; }
      DottedNameMeaning(base, front);
      if base.Name? && base.id != "" {
        assert [base.id] + attrs == ([base.id] + front) + [last];
        JoinGrows([base.id] + front, last);
        JoinIsSome([base.id] + front);
      }
      if !base.Name? {
        if front != [] {
          assert front[0] in front;
          JoinGrows(front, last);
          JoinIsSome(front);
        }
      }
    }
  }

  lemma JoinIsSome(parts: seq<string>)
    requires parts != [] && parts[0] != ""
    ensures Join(parts) != ""
  {
  }

  // In the order of the source: a definition before what it holds, one tree
  // after the other.
  lemma InSourceOrder(rel: string, place: Place, t: Ast, front: seq<Ast>, last: Ast)
    ensures t.ClassDef? ==> DefinedFirst(Emitted(rel, place, t).nodes, GraphNode(DottedId(rel, place.quals + [t.name]), ClassNode, rel, t.name),
                                         AllEmitted(rel, Below(rel, place, t), t.children).nodes)
    ensures t.FunctionDef? ==> DefinedFirst(Emitted(rel, place, t).nodes,
                                            GraphNode(DottedId(rel, place.quals + [t.name]), if place.inClass then MethodNode else FunctionNode, rel, t.name),
                                            AllEmitted(rel, Below(rel, place, t), t.children).nodes)
    ensures AllEmitted(rel, place, front + [last]).nodes == AllEmitted(rel, place, front).nodes + Emitted(rel, place, last).nodes
    ensures AllEmitted(rel, place, front + [last]).edges == AllEmitted(rel, place, front).edges + Emitted(rel, place, last).edges
    ensures AllEmitted(rel, place, front + [last]).refs == AllEmitted(rel, place, front).refs + Emitted(rel, place, last).refs
  {
    assert (front + [last])[..|front|] == front;
  }

  predicate DefinedFirst(nodes: seq<GraphNode>, own: GraphNode, below: seq<GraphNode>) {
    nodes == [own] + below
  }
}
