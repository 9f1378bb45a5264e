// Compiling an approved design into change operations
// (src/mission_orchestrator/domain/changeset.py).
module Changeset {
  import opened TextOrder
  import opened PyText
  import opened Workplan
  import opened Design

  datatype OperationKind = CreateNode | ModifyNode | RemoveNode | Connect | Disconnect
  datatype Verification = Hard | Resolved | Advisory

  datatype ChangeOperation = ChangeOperation(
    id: string,
    kind: OperationKind,
    targetNode: string,
    locator: Option<string>,
    level: Level,
    location: Location,
    dependsOn: seq<string>,
    description: string,
    nodeKind: Kind,
    targetPath: string,
    qualifiedName: string,
    signature: string,
    docstring: string,
    satisfies: seq<string>,
    acceptance: seq<string>,
    source: string,
    target: string,
    relation: string,
    verification: Verification)

  datatype SkippedChange = SkippedChange(targetNode: string, reason: string)

  datatype IssueDetail = NeedsTarget | NeedsLocator | ChangeNotObserved(locator: string) | RemoveNotObserved(locator: string)
  datatype ChangeIssue = ChangeIssue(targetNode: string, detail: IssueDetail)

  datatype ChangeSet = ChangeSet(
    snapshotId: string,
    operations: seq<ChangeOperation>,
    skipped: seq<SkippedChange>,
    issues: seq<ChangeIssue>)

  // The regular expressions of the source, taken as given: whether a label is
  // path-like, and the file name or identifier a label contains ("" for none).
  datatype TextRules = TextRules(pathLike: string -> bool, sourceFilename: string -> string, identifier: string -> string)

  type Nodes = map<string, Node>

  // ----- locator helpers: "" stands for every falsy locator -----

  function Text(value: Option<string>): string {
    if value.Some? then value.value else ""
  }

  function Stated(text: string): Option<string> {
    if text == "" then None else Some(text)
  }

  function LocatorPath(locator: string): string {
    Before(Replace(Strip(locator), '\\', '/'), ':')
  }

  const SOURCE_SUFFIXES: seq<string> := [
    ".py", ".pyi", ".js", ".jsx", ".mjs", ".cjs", ".ts", ".tsx", ".java", ".go",
    ".rs", ".rb", ".php", ".cs", ".c", ".h", ".cc", ".cpp", ".hpp"]

  predicate IsSourcePath(path: string) {
    exists suffix | suffix in SOURCE_SUFFIXES :: EndsWith(Lower(path), suffix)
  }

  predicate ValidTargetPath(path: string) {
    && path != "" && path[0] != '/'
    && !(|path| >= 2 && ('A' <= path[0] <= 'Z' || 'a' <= path[0] <= 'z') && path[1] == ':')
    && ".." !in Split(path, '/')
  }

  function TargetLocator(node: Node): string {
    var targetPath := Replace(Strip(node.targetPath), '\\', '/');
    if !ValidTargetPath(targetPath) then ""
    else
      var qualifiedName := Strip(node.qualifiedName);
      if qualifiedName != "" then targetPath + ":" + qualifiedName else targetPath
  }

  function GivenLocator(node: Node): string {
    if Text(node.locator) != "" then Text(node.locator) else TargetLocator(node)
  }

  function OwnLocator(rules: TextRules, node: Node): string {
    if GivenLocator(node) != "" then GivenLocator(node)
    else if rules.pathLike(node.nodeLabel) then node.nodeLabel
    else ""
  }

  // str(None) is the text "None", so that is where a node without a parent looks.
  function ParentKey(node: Node): string {
    if node.parentId.Some? then node.parentId.value else "None"
  }

  function JoinPath(directory: string, filename: string): string {
    if directory == "" then filename else directory + "/" + filename
  }

  // The locator a node without one of its own takes from its parent's.
  function Derived(rules: TextRules, node: Node, parentLocator: string): string {
    var parentPath := LocatorPath(parentLocator);
    if parentPath == "" then ""
    else if node.kind.ModuleKind? || rules.sourceFilename(node.nodeLabel) != "" then
      var filename := rules.sourceFilename(node.nodeLabel);
      if filename == "" then ""
      else JoinPath(if IsSourcePath(parentPath) then BeforeLast(parentPath, '/') else parentPath, filename)
    else if IsSourcePath(parentPath) then
      var name := Strip(node.qualifiedName);
      var symbol := if name != "" then name else rules.identifier(node.nodeLabel);
      if symbol == "" then "" else parentPath + ":" + symbol
    else ""
  }

  function Filled(node: Node, locator: string): Node {
    if locator == "" then node
    else
      var path := LocatorPath(locator);
      node.(locator := if Text(node.locator) != "" then node.locator else Some(locator),
            targetPath := if node.targetPath == "" then path else node.targetPath)
  }

  // ----- the memo-free meaning of a locator: the parent chain -----

  // A chain of nodes without a locator of their own, up to the first that has one.
  predicate Anchored(rules: TextRules, nodes: Nodes, path: seq<string>) {
    && path != [] && path[0] in nodes
    && if |path| == 1 then OwnLocator(rules, nodes[path[0]]) != ""
       else OwnLocator(rules, nodes[path[0]]) == "" && ParentKey(nodes[path[0]]) == path[1] && Anchored(rules, nodes, path[1..])
  }

  function Inherited(rules: TextRules, nodes: Nodes, path: seq<string>): string
    requires Anchored(rules, nodes, path)
  {
    if |path| == 1 then OwnLocator(rules, nodes[path[0]])
    else Derived(rules, nodes[path[0]], Inherited(rules, nodes, path[1..]))
  }

  ghost predicate HasAnchor(rules: TextRules, nodes: Nodes, id: string) {
    exists path :: Anchored(rules, nodes, path) && path[0] == id
  }

  ghost function Locator(rules: TextRules, nodes: Nodes, id: string): string {
    if HasAnchor(rules, nodes, id) then
      var path :| Anchored(rules, nodes, path) && path[0] == id;
      Inherited(rules, nodes, path)
    else ""
  }

  lemma {:induction false} AnchorUnique(rules: TextRules, nodes: Nodes, p: seq<string>, q: seq<string>)
    requires Anchored(rules, nodes, p) && Anchored(rules, nodes, q) && p[0] == q[0]
    ensures p == q
  {
    if |p| > 1 {
      AnchorUnique(rules, nodes, p[1..], q[1..]);
      assert p == [p[0]] + p[1..] && q == [q[0]] + q[1..];
    }
  }

  lemma LocatorOfAnchor(rules: TextRules, nodes: Nodes, path: seq<string>)
    requires Anchored(rules, nodes, path)
    ensures Locator(rules, nodes, path[0]) == Inherited(rules, nodes, path)
  {
    forall q | Anchored(rules, nodes, q) && q[0] == path[0] ensures q == path {
      AnchorUnique(rules, nodes, path, q);
    }
  }

  lemma AnchoredParent(rules: TextRules, nodes: Nodes, path: seq<string>)
    requires Anchored(rules, nodes, path) && OwnLocator(rules, nodes[path[0]]) == ""
    ensures ParentKey(nodes[path[0]]) in nodes && HasAnchor(rules, nodes, ParentKey(nodes[path[0]]))
  {
    assert path[1..][0] == path[1];
  }

  // The recursion the compiler follows, for any parent graph.
  lemma LocatorUnfolds(rules: TextRules, nodes: Nodes, id: string)
    requires id in nodes
    ensures Locator(rules, nodes, id) ==
            if OwnLocator(rules, nodes[id]) != "" then OwnLocator(rules, nodes[id])
            else if ParentKey(nodes[id]) !in nodes then ""
            else Derived(rules, nodes[id], Locator(rules, nodes, ParentKey(nodes[id])))
  {
    var node := nodes[id];
    var parent := ParentKey(node);
    if OwnLocator(rules, node) != "" {
      assert Anchored(rules, nodes, [id]);
      LocatorOfAnchor(rules, nodes, [id]);
    } else if parent in nodes && HasAnchor(rules, nodes, parent) {
      var up :| Anchored(rules, nodes, up) && up[0] == parent;
      var path := [id] + up;
      assert path[1..] == up;
      LocatorOfAnchor(rules, nodes, up);
      LocatorOfAnchor(rules, nodes, path);
    } else if HasAnchor(rules, nodes, id) {
      var path :| Anchored(rules, nodes, path) && path[0] == id;
      AnchoredParent(rules, nodes, path);
    }
  }

  // What the memo holds for a node.
  ghost function Prepared(rules: TextRules, nodes: Nodes, id: string): Node
    requires id in nodes
  {
    Filled(nodes[id], Locator(rules, nodes, id))
  }

  lemma PreparedFromParent(rules: TextRules, nodes: Nodes, id: string, parent: Node)
    requires id in nodes && OwnLocator(rules, nodes[id]) == "" && ParentKey(nodes[id]) in nodes
    requires parent == Prepared(rules, nodes, ParentKey(nodes[id]))
    ensures Prepared(rules, nodes, id) == Filled(nodes[id], Derived(rules, nodes[id], GivenLocator(parent)))
  {
    LocatorUnfolds(rules, nodes, id);
    FilledKeepsLocator(rules, nodes, ParentKey(nodes[id]));
  }

  lemma PreparedAlone(rules: TextRules, nodes: Nodes, id: string)
    requires id in nodes && (OwnLocator(rules, nodes[id]) != "" || ParentKey(nodes[id]) !in nodes)
    ensures Prepared(rules, nodes, id) == Filled(nodes[id], OwnLocator(rules, nodes[id]))
  {
    LocatorUnfolds(rules, nodes, id);
  }

  // ----- the calls still at work -----

  // Node x has no locator of its own and asked for its parent: another node
  // that waits, or `id`.
  predicate Waits(rules: TextRules, nodes: Nodes, resolving: set<string>, id: string, x: string) {
    && x in nodes && OwnLocator(rules, nodes[x]) == ""
    && (ParentKey(nodes[x]) in resolving || ParentKey(nodes[x]) == id)
  }

  ghost predicate CalledFor(rules: TextRules, nodes: Nodes, resolving: set<string>, id: string) {
    forall x {:trigger Waits(rules, nodes, resolving, id, x)} :: x in resolving ==> Waits(rules, nodes, resolving, id, x)
  }

  lemma ParentIsCalledFor(rules: TextRules, nodes: Nodes, resolving: set<string>, id: string)
    requires CalledFor(rules, nodes, resolving, id) && id in nodes && OwnLocator(rules, nodes[id]) == ""
    ensures CalledFor(rules, nodes, resolving + {id}, ParentKey(nodes[id]))
  {
    forall x | x in resolving + {id} ensures Waits(rules, nodes, resolving + {id}, ParentKey(nodes[id]), x) {
      assert x in resolving ==> Waits(rules, nodes, resolving, id, x);
    }
  }

  // Nodes whose parents run in a circle have no locator.
  lemma {:induction false} CircleHasNoAnchor(rules: TextRules, nodes: Nodes, resolving: set<string>, id: string, path: seq<string>)
    requires CalledFor(rules, nodes, resolving, id) && id in resolving
    requires path != [] && path[0] in resolving
    ensures !Anchored(rules, nodes, path)
  {
    assert Waits(rules, nodes, resolving, id, path[0]);
    if |path| > 1 && path[1] == ParentKey(nodes[path[0]]) {
      CircleHasNoAnchor(rules, nodes, resolving, id, path[1..]);
    }
  }

  // Asked for a node that is still being resolved: the parents run in a circle.
  lemma CircleFound(rules: TextRules, nodes: Nodes, resolving: set<string>, id: string)
    requires CalledFor(rules, nodes, resolving, id) && id in resolving
    ensures id in nodes && Prepared(rules, nodes, id) == nodes[id]
  {
    assert Waits(rules, nodes, resolving, id, id);
    forall path | path != [] && path[0] == id ensures !Anchored(rules, nodes, path) {
      CircleHasNoAnchor(rules, nodes, resolving, id, path);
    }
  }

  // ----- _prepare_target_node: memo and the set of nodes being resolved -----

  class TargetPreparer {
    const rules: TextRules
    ghost const original: Nodes
    var nodes: Nodes
    var prepared: Nodes
    var resolving: set<string>

    ghost predicate Valid()
      reads this
    {
      && nodes.Keys == original.Keys
      && (forall id :: id in original ==> original[id].id == id && nodes[id].id == id)
      && (forall id :: id in prepared ==> id in original && prepared[id] == Prepared(rules, original, id))
      && (forall id :: id in nodes && id !in prepared ==> nodes[id] == original[id])
    }

    constructor (rules: TextRules, nodes: Nodes)
      requires forall id :: id in nodes ==> nodes[id].id == id
      ensures Valid() && this.rules == rules && original == nodes && this.nodes == nodes
      ensures prepared == map[] && resolving == {}
    {
      this.rules, this.original, this.nodes := rules, nodes, nodes;
      prepared, resolving := map[], {};
    }

    method Prepare(node: Node) returns (result: Node)
      requires Valid() && node.id in original
      requires node.id in prepared || node == original[node.id]
      requires CalledFor(rules, original, resolving, node.id)
      modifies this`prepared, this`resolving
      ensures Valid() && resolving == old(resolving) && old(prepared).Keys <= prepared.Keys
      ensures node.id in prepared || node.id in resolving
      ensures result == Prepared(rules, original, node.id)
      decreases original.Keys - resolving, 1
    {
      if node.id in prepared {
        return prepared[node.id];
      }
      if node.id in resolving {
        CircleFound(rules, original, resolving, node.id);
        return node;
      }
      resolving := resolving + {node.id};
      result := Complete(node);
      Resolve(node.id, result);
    }

    // The node is done: it is remembered, and no longer being resolved.
    method Resolve(id: string, result: Node)
      requires Valid() && id in original && result == Prepared(rules, original, id)
      modifies this`prepared, this`resolving
      ensures Valid() && prepared == old(prepared)[id := result] && resolving == old(resolving) - {id}
    {
      prepared := prepared[id := result];
      resolving := resolving - {id};
    }

    // The middle of the function: find the locator and fill in the node.
    method Complete(node: Node) returns (result: Node)
      requires Valid() && node.id in resolving && node.id in original && node == original[node.id]
      requires CalledFor(rules, original, resolving - {node.id}, node.id)
      modifies this`prepared, this`resolving
      ensures Valid() && resolving == old(resolving) && old(prepared).Keys <= prepared.Keys
      ensures result == Prepared(rules, original, node.id)
      decreases original.Keys - resolving, 2
    {
      var locator := OwnLocator(rules, node);
      var parentKey := ParentKey(node);
      if locator == "" && parentKey in nodes {
        ParentIsCalledFor(rules, original, resolving - {node.id}, node.id);
        assert resolving - {node.id} + {node.id} == resolving;
        var parent := Prepare(nodes[parentKey]);
        PreparedFromParent(rules, original, node.id, parent);
        return Filled(node, Derived(rules, node, GivenLocator(parent)));
      }
      PreparedAlone(rules, original, node.id);
      result := Filled(node, locator);
    }

    // The first lines of the compiler's loop: nodes[node["id"]] = prepared node.
    method PrepareNode(id: string) returns (node: Node)
      requires Valid() && resolving == {} && id in original
      modifies this
      ensures Valid() && resolving == {}
      ensures node == Prepared(rules, original, id) && nodes == old(nodes)[id := node]
    {
      node := Prepare(nodes[id]);
      nodes := nodes[id := node];
    }
  }

  // What a child reads off its prepared parent is the parent's locator.
  lemma FilledKeepsLocator(rules: TextRules, nodes: Nodes, id: string)
    requires id in nodes
    ensures GivenLocator(Filled(nodes[id], Locator(rules, nodes, id))) == Locator(rules, nodes, id)
  {
    LocatorUnfolds(rules, nodes, id);
  }
}
