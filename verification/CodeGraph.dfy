// The incremental index of the code: the syntax-tree visitor, the tables, and
// the build that reparses only what changed
// (src/mission_orchestrator/adapters/analysis/builder.py, sqlite_graph.py).
module CodeGraph {
  import opened Workplan
  import opened PyText

  // ----- syntax trees, as far as the visitor looks at them -----

  // `children` are all child nodes in field order; a class's bases are among them.
  datatype Ast =
    | Import(names: seq<string>)
    | ImportFrom(moduleName: string)
    | ClassDef(name: string, bases: seq<Ast>, children: seq<Ast>)
    | FunctionDef(name: string, children: seq<Ast>)
    | Call(func: Ast, children: seq<Ast>)
    | Name(id: string)
    | Attribute(value: Ast, attr: string)
    | OtherNode(children: seq<Ast>)

  datatype NodeType = ModuleNode | ClassNode | FunctionNode | MethodNode
  datatype Relation = Imports | Defines | Inherits | Calls | References

  datatype GraphNode = GraphNode(id: string, kind: NodeType, file: string, name: string)
  datatype GraphEdge = GraphEdge(source: string, target: string, relation: Relation)

  datatype Parsed = Parsed(nodes: seq<GraphNode>, edges: seq<GraphEdge>, refs: seq<GraphEdge>)

  const NOTHING := Parsed([], [], [])

  function Plus(a: Parsed, b: Parsed): Parsed {
    Parsed(a.nodes + b.nodes, a.edges + b.edges, a.refs + b.refs)
  }

  function DottedName(t: Ast): string {
    match t
    case Name(id) => id
    case Attribute(value, attr) => if DottedName(value) != "" then DottedName(value) + "." + attr else attr
    case _ => ""
  }

  function Join(parts: seq<string>): string {
    if parts == [] then "" else if |parts| == 1 then parts[0] else parts[0] + "." + Join(parts[1..])
  }

  function DottedId(rel: string, quals: seq<string>): string {
    rel + ":" + Join(quals)
  }

  function QualifiedId(rel: string, quals: seq<string>, name: string): string {
    DottedId(rel, quals + [name])
  }

  function ImportEdges(scope: string, names: seq<string>): seq<GraphEdge> {
    seq(|names|, i requires 0 <= i < |names| => GraphEdge(scope, names[i], Imports))
  }

  function InheritEdges(id: string, bases: seq<Ast>): seq<GraphEdge> {
    if bases == [] then []
    else (if DottedName(bases[0]) != "" then [GraphEdge(id, DottedName(bases[0]), Inherits)] else []) + InheritEdges(id, bases[1..])
  }

  // Where a visit stands: the enclosing names, the enclosing kind, the current scope.
  datatype Place = Place(quals: seq<string>, inClass: bool, scope: string)

  function Inside(rel: string, place: Place, name: string, isClass: bool): Place {
    Place(place.quals + [name], isClass, QualifiedId(rel, place.quals, name))
  }

  // What visiting a tree records.
  function Emitted(rel: string, place: Place, t: Ast): Parsed
    decreases t, 1
  {
    match t
    case Import(names) => Parsed([], ImportEdges(place.scope, names), [])
    case ImportFrom(moduleName) => Parsed([], [GraphEdge(place.scope, moduleName, Imports)], [])
    case ClassDef(name, bases, children) =>
      var id := QualifiedId(rel, place.quals, name);
      Plus(Parsed([GraphNode(id, ClassNode, rel, name)], [GraphEdge(place.scope, id, Defines)] + InheritEdges(id, bases), []),
           AllEmitted(rel, Inside(rel, place, name, true), children))
    case FunctionDef(name, children) =>
      var id := QualifiedId(rel, place.quals, name);
      Plus(Parsed([GraphNode(id, if place.inClass then MethodNode else FunctionNode, rel, name)], [GraphEdge(place.scope, id, Defines)], []),
           AllEmitted(rel, Inside(rel, place, name, false), children))
    case Call(func, children) =>
      Plus(Parsed([], [], if DottedName(func) != "" then [GraphEdge(place.scope, DottedName(func), Calls)] else []),
           AllEmitted(rel, place, children))
    case Name(id) => Parsed([], [], [GraphEdge(place.scope, id, References)])
    case Attribute(value, _) => Emitted(rel, place, value)
    case OtherNode(children) => AllEmitted(rel, place, children)
  }

  function AllEmitted(rel: string, place: Place, trees: seq<Ast>): Parsed
    decreases trees, 0
  {
    if trees == [] then NOTHING
    else Plus(AllEmitted(rel, place, trees[..|trees| - 1]), Emitted(rel, place, trees[|trees| - 1]))
  }

  // ----- the visitor, with its stacks -----

  class GraphVisitor {
    const rel: string
    var nodes: seq<GraphNode>
    var edges: seq<GraphEdge>
    var refs: seq<GraphEdge>
    var qualStack: seq<string>
    var kindStack: seq<bool>
    var scopeStack: seq<string>

    constructor (rel: string)
      ensures this.rel == rel && Collected() == Parsed([GraphNode(rel, ModuleNode, rel, rel)], [], [])
      ensures Stacked() && Here() == Place([], false, rel)
    {
      this.rel := rel;
      nodes, edges, refs := [GraphNode(rel, ModuleNode, rel, rel)], [], [];
      qualStack, kindStack, scopeStack := [], [], [rel];
    }

    ghost function Collected(): Parsed
      reads this
    {
      Parsed(nodes, edges, refs)
    }

    ghost predicate Stacked()
      reads this
    {
      |kindStack| == |qualStack| == |scopeStack| - 1
    }

    ghost function Here(): Place
      requires Stacked()
      reads this
    {
      Place(qualStack, kindStack != [] && kindStack[|kindStack| - 1], scopeStack[|scopeStack| - 1])
    }

    method Push(name: string, isClass: bool)
      requires Stacked()
      modifies this`qualStack, this`kindStack, this`scopeStack
      ensures Stacked() && Here() == Inside(rel, old(Here()), name, isClass)
      ensures qualStack == old(qualStack) + [name] && kindStack == old(kindStack) + [isClass]
      ensures scopeStack[..|scopeStack| - 1] == old(scopeStack)
    {
      var id := QualifiedId(rel, qualStack, name);
      qualStack := qualStack + [name];
      kindStack := kindStack + [isClass];
      scopeStack := scopeStack + [id];
    }

    method Pop()
      requires Stacked() && qualStack != []
      modifies this`qualStack, this`kindStack, this`scopeStack
      ensures Stacked() && scopeStack == old(scopeStack)[..|old(scopeStack)| - 1]
      ensures qualStack == old(qualStack)[..|old(qualStack)| - 1] && kindStack == old(kindStack)[..|old(kindStack)| - 1]
    {
      scopeStack := scopeStack[..|scopeStack| - 1];
      kindStack := kindStack[..|kindStack| - 1];
      qualStack := qualStack[..|qualStack| - 1];
    }

    // Visiting leaves the stacks as they were and appends what the tree emits.
    twostate predicate Appended(p: Parsed)
      reads this
    {
      && qualStack == old(qualStack) && kindStack == old(kindStack) && scopeStack == old(scopeStack)
      && Collected() == Plus(old(Collected()), p)
    }

    method Visit(t: Ast)
      requires Stacked()
      modifies this
      ensures Appended(Emitted(rel, old(Here()), t))
      decreases t, 1
    {
      match t {
        case Import(names) => edges := edges + ImportEdges(scopeStack[|scopeStack| - 1], names);
        case ImportFrom(moduleName) => edges := edges + [GraphEdge(scopeStack[|scopeStack| - 1], moduleName, Imports)];
        case ClassDef(_, _, _) => VisitClassDef(t);
        case FunctionDef(_, _) => VisitFunction(t);
        case Call(_, _) => VisitCall(t);
        case Name(id) => refs := refs + [GraphEdge(scopeStack[|scopeStack| - 1], id, References)];
        case Attribute(value, _) => Visit(value);
        case OtherNode(children) => GenericVisit(children);
      }
    }

    method VisitCall(t: Ast)
      requires Stacked() && t.Call?
      modifies this
      ensures Appended(Emitted(rel, old(Here()), t))
      decreases t, 0
    {
      var name := DottedName(t.func);
      if name != "" {
        refs := refs + [GraphEdge(scopeStack[|scopeStack| - 1], name, Calls)];
      }
      GenericVisit(t.children);
    }

    method VisitClassDef(t: Ast)
      requires Stacked() && t.ClassDef?
      modifies this
      ensures Appended(Emitted(rel, old(Here()), t))
      decreases t, 0
    {
      var id := QualifiedId(rel, qualStack, t.name);
      nodes := nodes + [GraphNode(id, ClassNode, rel, t.name)];
      edges := edges + [GraphEdge(scopeStack[|scopeStack| - 1], id, Defines)];
      edges := edges + InheritEdges(id, t.bases);
      Push(t.name, true);
      GenericVisit(t.children);
      Pop();
    }

    method VisitFunction(t: Ast)
      requires Stacked() && t.FunctionDef?
      modifies this
      ensures Appended(Emitted(rel, old(Here()), t))
      decreases t, 0
    {
      var id := QualifiedId(rel, qualStack, t.name);
      var kind := if kindStack != [] && kindStack[|kindStack| - 1] then MethodNode else FunctionNode;
      nodes := nodes + [GraphNode(id, kind, rel, t.name)];
      edges := edges + [GraphEdge(scopeStack[|scopeStack| - 1], id, Defines)];
      Push(t.name, false);
      GenericVisit(t.children);
      Pop();
    }

    method GenericVisit(trees: seq<Ast>)
      requires Stacked()
      modifies this
      ensures Appended(AllEmitted(rel, old(Here()), trees))
      decreases trees, 0
    {
      ghost var here, before := Here(), Collected();
      for i := 0 to |trees|
        invariant qualStack == old(qualStack) && kindStack == old(kindStack) && scopeStack == old(scopeStack)
        invariant Collected() == Plus(before, AllEmitted(rel, here, trees[..i]))
      {
        assert trees[..i + 1][..i] == trees[..i];
        Visit(trees[i]);
        PlusAssociative(before, AllEmitted(rel, here, trees[..i]), Emitted(rel, here, trees[i]));
      }
      assert trees[..|trees|] == trees;
    }
  }

  lemma PlusAssociative(a: Parsed, b: Parsed, c: Parsed)
    ensures Plus(Plus(a, b), c) == Plus(a, Plus(b, c))
  {
    assert a.nodes + b.nodes + c.nodes == a.nodes + (b.nodes + c.nodes);
    assert a.edges + b.edges + c.edges == a.edges + (b.edges + c.edges);
    assert a.refs + b.refs + c.refs == a.refs + (b.refs + c.refs);
  }

  // A file with a syntax error (no tree) is only a module.
  function ParseFile(rel: string, tree: Option<Ast>): Parsed {
    var own := Parsed([GraphNode(rel, ModuleNode, rel, rel)], [], []);
    if tree.None? then own else Plus(own, Emitted(rel, Place([], false, rel), tree.value))
  }

  method Parse(rel: string, tree: Option<Ast>) returns (parsed: Parsed)
    ensures parsed == ParseFile(rel, tree)
  {
    if tree.None? {
      return Parsed([GraphNode(rel, ModuleNode, rel, rel)], [], []);
    }
    var visitor := new GraphVisitor(rel);
    visitor.Visit(tree.value);
    parsed := Parsed(visitor.nodes, visitor.edges, visitor.refs);
  }

  // ----- every source is a node of its file -----

  predicate Emits(p: Parsed, id: string) {
    exists n :: n in p.nodes && n.id == id
  }

  // All nodes name their file, and all links start at the scope or at a node.
  ghost predicate Rooted(rel: string, scope: string, p: Parsed) {
    && (forall n :: n in p.nodes ==> n.file == rel)
    && (forall e :: e in p.edges ==> e.source == scope || Emits(p, e.source))
    && (forall e :: e in p.refs ==> e.source == scope || Emits(p, e.source))
  }

  // What a definition emits is rooted below its own node.
  lemma RootedPlus(rel: string, scope: string, inner: string, a: Parsed, b: Parsed)
    requires Rooted(rel, scope, a) && Rooted(rel, inner, b) && (inner == scope || Emits(a, inner))
    ensures Rooted(rel, scope, Plus(a, b))
  {
    forall id | Emits(a, id) || Emits(b, id) ensures Emits(Plus(a, b), id) {
      EmitsPlus(a, b, id);
    }
  }

  lemma EmitsPlus(a: Parsed, b: Parsed, id: string)
    ensures Emits(Plus(a, b), id) <==> Emits(a, id) || Emits(b, id)
  {
    if n :| n in a.nodes && n.id == id { assert n in Plus(a, b).nodes; }
    if n :| n in b.nodes && n.id == id { assert n in Plus(a, b).nodes; }
  }

  lemma {:induction false} InheritEdgesRooted(id: string, bases: seq<Ast>)
    ensures forall e :: e in InheritEdges(id, bases) ==> e.source == id
  {
    if bases != [] { InheritEdgesRooted(id, bases[1..]); }
  }

  lemma {:induction false} EmittedRooted(rel: string, place: Place, t: Ast)
    ensures Rooted(rel, place.scope, Emitted(rel, place, t))
    decreases t, 1
  {
    match t
    case ClassDef(name, bases, children) =>
      var id := QualifiedId(rel, place.quals, name);
      InheritEdgesRooted(id, bases);
      AllEmittedRooted(rel, Inside(rel, place, name, true), children);
      var own := Parsed([GraphNode(id, ClassNode, rel, name)], [GraphEdge(place.scope, id, Defines)] + InheritEdges(id, bases), []);
      assert own.nodes[0].id == id;
      RootedPlus(rel, place.scope, id, own, AllEmitted(rel, Inside(rel, place, name, true), children));
    case FunctionDef(name, children) =>
      var id := QualifiedId(rel, place.quals, name);
      AllEmittedRooted(rel, Inside(rel, place, name, false), children);
      var kind := if place.inClass then MethodNode else FunctionNode;
      var own := Parsed([GraphNode(id, kind, rel, name)], [GraphEdge(place.scope, id, Defines)], []);
      assert own.nodes[0].id == id;
      RootedPlus(rel, place.scope, id, own, AllEmitted(rel, Inside(rel, place, name, false), children));
    case Call(func, children) =>
      AllEmittedRooted(rel, place, children);
      var own := Parsed([], [], if DottedName(func) != "" then [GraphEdge(place.scope, DottedName(func), Calls)] else []);
      RootedPlus(rel, place.scope, place.scope, own, AllEmitted(rel, place, children));
    case Attribute(value, _) => EmittedRooted(rel, place, value);
    case OtherNode(children) => AllEmittedRooted(rel, place, children);
    case _ =>
  }

  lemma {:induction false} AllEmittedRooted(rel: string, place: Place, trees: seq<Ast>)
    ensures Rooted(rel, place.scope, AllEmitted(rel, place, trees))
    decreases trees, 0
  {
    if trees != [] {
      var n := |trees| - 1;
      AllEmittedRooted(rel, place, trees[..n]);
      EmittedRooted(rel, place, trees[n]);
      RootedPlus(rel, place.scope, place.scope, AllEmitted(rel, place, trees[..n]), Emitted(rel, place, trees[n]));
    }
  }

  lemma ParsedIsRooted(rel: string, tree: Option<Ast>)
    ensures Rooted(rel, rel, ParseFile(rel, tree)) && Emits(ParseFile(rel, tree), rel)
  {
    var own := Parsed([GraphNode(rel, ModuleNode, rel, rel)], [], []);
    assert own.nodes[0].id == rel;
    if tree.Some? {
      EmittedRooted(rel, Place([], false, rel), tree.value);
      RootedPlus(rel, rel, rel, own, Emitted(rel, Place([], false, rel), tree.value));
      EmitsPlus(own, Emitted(rel, Place([], false, rel), tree.value), rel);
    }
  }

  // ----- the ids a file can emit -----

  // Which names classes and functions may have.
  type Names = string -> bool

  predicate AllNames(isName: Names, quals: seq<string>) {
    forall q :: q in quals ==> isName(q)
  }

  predicate NamedBy(isName: Names, t: Ast) {
    match t
    case ClassDef(name, _, children) => isName(name) && forall c :: c in children ==> NamedBy(isName, c)
    case FunctionDef(name, children) => isName(name) && forall c :: c in children ==> NamedBy(isName, c)
    case Call(_, children) => forall c :: c in children ==> NamedBy(isName, c)
    case Attribute(value, _) => NamedBy(isName, value)
    case OtherNode(children) => forall c :: c in children ==> NamedBy(isName, c)
    case _ => true
  }

  predicate NamedFile(isName: Names, tree: Option<Ast>) {
    tree.Some? ==> NamedBy(isName, tree.value)
  }

  // The path of the file, a colon, and names joined by dots.
  ghost predicate Extends(isName: Names, rel: string, id: string) {
    exists quals :: quals != [] && AllNames(isName, quals) && id == DottedId(rel, quals)
  }

  ghost predicate IdOf(isName: Names, rel: string, id: string) {
    id == rel || Extends(isName, rel, id)
  }

  ghost predicate AllIdsOf(isName: Names, rel: string, p: Parsed) {
    forall n :: n in p.nodes ==> IdOf(isName, rel, n.id)
  }

  lemma QualifiedIdExtends(isName: Names, rel: string, quals: seq<string>, name: string)
    requires AllNames(isName, quals) && isName(name)
    ensures Extends(isName, rel, QualifiedId(rel, quals, name))
  {
    assert quals + [name] != [] && AllNames(isName, quals + [name]);
  }

  lemma {:induction false} EmittedIds(isName: Names, rel: string, place: Place, t: Ast)
    requires AllNames(isName, place.quals) && NamedBy(isName, t)
    ensures AllIdsOf(isName, rel, Emitted(rel, place, t))
    decreases t, 1
  {
    match t
    case ClassDef(name, _, children) =>
      QualifiedIdExtends(isName, rel, place.quals, name);
      AllEmittedIds(isName, rel, Inside(rel, place, name, true), children);
    case FunctionDef(name, children) =>
      QualifiedIdExtends(isName, rel, place.quals, name);
      AllEmittedIds(isName, rel, Inside(rel, place, name, false), children);
    case Call(_, children) => AllEmittedIds(isName, rel, place, children);
    case Attribute(value, _) => EmittedIds(isName, rel, place, value);
    case OtherNode(children) => AllEmittedIds(isName, rel, place, children);
    case _ =>
  }

  lemma {:induction false} AllEmittedIds(isName: Names, rel: string, place: Place, trees: seq<Ast>)
    requires AllNames(isName, place.quals) && forall t :: t in trees ==> NamedBy(isName, t)
    ensures AllIdsOf(isName, rel, AllEmitted(rel, place, trees))
    decreases trees, 0
  {
    if trees != [] {
      AllEmittedIds(isName, rel, place, trees[..|trees| - 1]);
      EmittedIds(isName, rel, place, trees[|trees| - 1]);
    }
  }

  // Functions within functions, named so.
  function Nest(quals: seq<string>): Ast
    requires quals != []
  {
    FunctionDef(quals[0], [OtherNode([]), if |quals| == 1 then OtherNode([]) else Nest(quals[1..])])
  }

  lemma LastTreeEmits(rel: string, place: Place, trees: seq<Ast>, id: string)
    requires trees != [] && Emits(Emitted(rel, place, trees[|trees| - 1]), id)
    ensures Emits(AllEmitted(rel, place, trees), id)
  {
    EmitsPlus(AllEmitted(rel, place, trees[..|trees| - 1]), Emitted(rel, place, trees[|trees| - 1]), id);
  }

  lemma {:induction false} NestIsNamed(isName: Names, quals: seq<string>)
    requires quals != [] && AllNames(isName, quals)
    ensures NamedBy(isName, Nest(quals))
  {
    if |quals| > 1 { NestIsNamed(isName, quals[1..]); }
  }

  lemma {:induction false} NestEmits(rel: string, place: Place, quals: seq<string>)
    requires quals != []
    ensures Emits(Emitted(rel, place, Nest(quals)), DottedId(rel, place.quals + quals))
    decreases |quals|
  {
    var t := Nest(quals);
    var id := QualifiedId(rel, place.quals, quals[0]);
    var here := Inside(rel, place, quals[0], false);
    var own := Parsed([GraphNode(id, if place.inClass then MethodNode else FunctionNode, rel, quals[0])], [GraphEdge(place.scope, id, Defines)], []);
    assert Emitted(rel, place, t) == Plus(own, AllEmitted(rel, here, t.children));
    if |quals| == 1 {
      assert quals == [quals[0]] && own.nodes[0].id == id;
    } else {
      NestEmits(rel, here, quals[1..]);
      LastTreeEmits(rel, here, t.children, DottedId(rel, here.quals + quals[1..]));
      assert here.quals + quals[1..] == place.quals + quals;
    }
    EmitsPlus(own, AllEmitted(rel, here, t.children), DottedId(rel, place.quals + quals));
  }

  // The ids of a file with such names are just these, and each can occur.
  lemma EmittableIff(isName: Names, rel: string, id: string)
    ensures (exists tree :: NamedFile(isName, tree) && Emits(ParseFile(rel, tree), id)) <==> IdOf(isName, rel, id)
  {
    var place := Place([], false, rel);
    if tree :| NamedFile(isName, tree) && Emits(ParseFile(rel, tree), id) {
      EmittedIsIdOf(isName, rel, tree, id);
    }
    if IdOf(isName, rel, id) {
      var tree := TreeThatEmits(isName, rel, id);
    }
  }

  lemma EmittedIsIdOf(isName: Names, rel: string, tree: Option<Ast>, id: string)
    requires NamedFile(isName, tree) && Emits(ParseFile(rel, tree), id)
    ensures IdOf(isName, rel, id)
  {
    if tree.Some? { EmittedIds(isName, rel, Place([], false, rel), tree.value); }
  }

  lemma TreeThatEmits(isName: Names, rel: string, id: string) returns (tree: Option<Ast>)
    requires IdOf(isName, rel, id)
    ensures NamedFile(isName, tree) && Emits(ParseFile(rel, tree), id)
  {
    if id == rel {
      tree := None;
      ParsedIsRooted(rel, tree);
    } else {
      var quals :| quals != [] && AllNames(isName, quals) && id == DottedId(rel, quals);
      tree := Some(Nest(quals));
      NestIsNamed(isName, quals);
      var place := Place([], false, rel);
      NestEmits(rel, place, quals);
      assert place.quals + quals == quals;
      EmitsPlus(Parsed([GraphNode(rel, ModuleNode, rel, rel)], [], []), Emitted(rel, place, Nest(quals)), id);
    }
  }

  // ----- when two files can emit one id -----

  ghost predicate CanShare(isName: Names, a: string, b: string) {
    exists id :: IdOf(isName, a, id) && IdOf(isName, b, id)
  }

  lemma {:induction false} JoinHasNoColon(quals: seq<string>)
    requires forall q :: q in quals ==> ':' !in q
    ensures ':' !in Join(quals)
  {
    if |quals| > 1 { JoinHasNoColon(quals[1..]); }
  }

  // The last colon tells where the path ends.
  lemma PathOfId(a: string, p: string, b: string, q: string)
    requires a + ":" + p == b + ":" + q && ':' !in p && ':' !in q
    ensures a == b
  {
    if |a| < |b| {
      ColonWithin(a, p, b, q);
    } else if |b| < |a| {
      ColonWithin(b, q, a, p);
    } else {
      assert (a + ":" + p)[..|a|] == a && (b + ":" + q)[..|b|] == b;
    }
  }

  lemma ColonWithin(a: string, p: string, b: string, q: string)
    requires a + ":" + p == b + ":" + q && |a| < |b|
    ensures ':' in p
  {
    assert (b + ":" + q)[|b|] == ':';
    assert p[|b| - |a| - 1] == (a + ":" + p)[|b|];
  }

  // As Python's names hold no colon: exactly when one path is the other, a
  // colon, and names joined by dots.
  lemma ShareIff(isName: Names, a: string, b: string)
    requires forall name :: isName(name) ==> ':' !in name
    ensures CanShare(isName, a, b) <==> a == b || Extends(isName, a, b) || Extends(isName, b, a)
  {
    if id :| IdOf(isName, a, id) && IdOf(isName, b, id) {
      if id != a && id != b {
        var p :| p != [] && AllNames(isName, p) && id == DottedId(a, p);
        var q :| q != [] && AllNames(isName, q) && id == DottedId(b, q);
        JoinHasNoColon(p);
        JoinHasNoColon(q);
        PathOfId(a, Join(p), b, Join(q));
      }
    }
    assert IdOf(isName, a, a) && IdOf(isName, b, b);
  }

  // ----- whatever the names: ids are namespaced by the file -----

  predicate Owned(rel: string, id: string) {
    id == rel || StartsWith(id, rel + ":")
  }

  predicate AnyName(name: string) { true }

  lemma IdIsOwned(isName: Names, rel: string, id: string)
    requires IdOf(isName, rel, id)
    ensures Owned(rel, id)
  {
    if id != rel {
      var quals :| quals != [] && AllNames(isName, quals) && id == DottedId(rel, quals);
      assert id[..|rel + ":"|] == rel + ":";
    }
  }

  lemma OwnedIsId(rel: string, id: string)
    requires Owned(rel, id)
    ensures IdOf(AnyName, rel, id)
  {
    if id != rel {
      var quals := [id[|rel| + 1..]];
      assert AllNames(AnyName, quals) && id == rel + ":" + id[|rel| + 1..] == DottedId(rel, quals);
    }
  }

  lemma AnyShareIff(a: string, b: string)
    ensures CanShare(AnyName, a, b) <==> Owned(a, b) || Owned(b, a)
  {
    SharedId(a, b);
    if id :| IdOf(AnyName, a, id) && IdOf(AnyName, b, id) {
      IdIsOwned(AnyName, a, id);
      IdIsOwned(AnyName, b, id);
    }
    if id :| Owned(a, id) && Owned(b, id) {
      OwnedIsId(a, id);
      OwnedIsId(b, id);
    }
  }

  // Two files can own one id exactly when one of the paths is an id of the other.
  lemma SharedId(a: string, b: string)
    ensures (exists id :: Owned(a, id) && Owned(b, id)) <==> Owned(a, b) || Owned(b, a)
  {
    if id :| Owned(a, id) && Owned(b, id) {
      if |a| <= |b| { LongerOwner(a, b, id); } else { LongerOwner(b, a, id); }
    }
    assert Owned(a, a) && Owned(b, b);
  }

  lemma LongerOwner(a: string, b: string, id: string)
    requires |a| <= |b| && Owned(a, id) && Owned(b, id)
    ensures Owned(a, b)
  {
    var closed := id + ":";
    assert closed[..|a| + 1] == a + ":" && closed[..|b| + 1] == b + ":";
    assert closed[..|b|] == b && closed[..|a|] == a;
    if |a| < |b| {
      assert b[..|a| + 1] == closed[..|a| + 1];
    } else {
      assert a == b;
    }
  }

  lemma OwnerOfPath(a: string, b: string)
    requires Owned(a, b)
    ensures a == b || ':' in b
  {
    if a != b {
      assert b[..|a| + 1][|a|] == ':';
      assert b[|a|] == ':';
    }
  }

  // In particular, paths without colons never share an id.
  lemma OneOwner(a: string, b: string, id: string)
    requires ':' !in a && ':' !in b && Owned(a, id) && Owned(b, id)
    ensures a == b
  {
    SharedId(a, b);
    if Owned(a, b) { OwnerOfPath(a, b); } else { OwnerOfPath(b, a); }
  }

  // class b: a method py that passes
  const PASSING := [OtherNode([]), OtherNode([])]
  const METHOD_PY := OtherNode([ClassDef("b", [], [FunctionDef("py", PASSING)])])

  // A file and a file beside it whose name continues the first one's with a
  // colon: the method of one has the id of the other.
  lemma ColonInAPathCollides()
    ensures ParseFile("a.py", Some(METHOD_PY)).nodes ==
            [GraphNode("a.py", ModuleNode, "a.py", "a.py"), GraphNode("a.py:b", ClassNode, "a.py", "b"),
             GraphNode("a.py:b.py", MethodNode, "a.py", "py")]
    ensures ParseFile("a.py:b.py", None).nodes == [GraphNode("a.py:b.py", ModuleNode, "a.py:b.py", "a.py:b.py")]
  {
    var outer := Place([], false, "a.py");
    var inClass := Inside("a.py", outer, "b", true);
    var inMethod := Inside("a.py", inClass, "py", false);
    var method_ := FunctionDef("py", PASSING);
    var class_ := ClassDef("b", [], [method_]);
    assert inClass.quals == ["b"] && Join(["b"] + ["py"]) == "b.py" && Join([] + ["b"]) == "b";
    assert PASSING[..1] == [OtherNode([])] && PASSING[..1][..0] == [];
    assert AllEmitted("a.py", inMethod, PASSING[..1]) == NOTHING;
    assert AllEmitted("a.py", inMethod, PASSING) == NOTHING;
    assert QualifiedId("a.py", ["b"], "py") == "a.py" + ":" + "b.py" == "a.py:b.py";
    assert QualifiedId("a.py", [], "b") == "a.py" + ":" + "b" == "a.py:b";
    assert Emitted("a.py", inClass, method_).nodes == [GraphNode("a.py:b.py", MethodNode, "a.py", "py")] + [];
    assert Emitted("a.py", inClass, method_).nodes == [GraphNode("a.py:b.py", MethodNode, "a.py", "py")];
    OneTree("a.py", inClass, method_);
    assert Emitted("a.py", outer, class_).nodes ==
           [GraphNode("a.py:b", ClassNode, "a.py", "b")] + [GraphNode("a.py:b.py", MethodNode, "a.py", "py")];
    assert Emitted("a.py", outer, class_).nodes ==
           [GraphNode("a.py:b", ClassNode, "a.py", "b"), GraphNode("a.py:b.py", MethodNode, "a.py", "py")];
    OneTree("a.py", outer, class_);
  }

  lemma OneTree(rel: string, place: Place, t: Ast)
    ensures AllEmitted(rel, place, [t]) == Emitted(rel, place, t)
  {
    assert [t][..0] == [];
    var e := Emitted(rel, place, t);
    assert [] + e.nodes == e.nodes && [] + e.edges == e.edges && [] + e.refs == e.refs;
  }
}
