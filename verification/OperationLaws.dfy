// What a node or an edge of the design comes to in the changeset, column by
// column, without the compiler's helpers
// (src/mission_orchestrator/domain/changeset.py).
module OperationLaws {
  import opened TextOrder
  import opened PyText
  import opened Workplan
  import opened Design
  import opened Changeset
  import opened ChangesetCompiler
  import opened ChangesetLaws

  // ----- the path of a locator -----

  // Up to the first colon of the stripped text, with slashes for backslashes.
  lemma LocatorPathMeaning(locator: string) returns (i: nat, j: nat)
    ensures i <= j <= |locator| && Strip(locator) == locator[i..j]
    ensures var path := LocatorPath(locator);
            && |path| <= j - i && (|path| < j - i ==> locator[i + |path|] == ':')
            && forall k :: 0 <= k < |path| ==> path[k] != ':' && path[k] == if locator[i + k] == '\\' then '/' else locator[i + k]
  {
    i, j := StripMeaning(locator);
    var core := Strip(locator);
    ReplaceMeaning(core, '\\', '/');
    var slashed := Replace(core, '\\', '/');
    BeforeMeaning(slashed, ':');
    var path := LocatorPath(locator);
    forall k | 0 <= k < |path| ensures path[k] == slashed[k] && path[k] != ':' {
      assert path[k] in path;
    }
  }

  // A path as one usually writes it.
  predicate IsPlain(path: string) {
    path != "" && !IsSpace(path[0]) && !IsSpace(path[|path| - 1]) && ':' !in path && '\\' !in path
  }

  lemma PathOfPlain(path: string, symbol: string)
    requires IsPlain(path)
    ensures LocatorPath(path) == path && LocatorPath(path + ":" + symbol) == path
  {
    PathOfText(path, path);
    PathOfText(path + ":" + symbol, path);
  }

  lemma PathOfText(locator: string, path: string)
    requires IsPlain(path) && path <= locator && (locator == path || locator[|path|] == ':')
    ensures LocatorPath(locator) == path
  {
    var i, j := LocatorPathMeaning(locator);
    var found := LocatorPath(locator);
    var a, b := StripMeaning(locator);
    assert locator[0] == path[0] && locator[|path| - 1] == path[|path| - 1];
    assert a == 0 && b >= |path|;
    assert Strip(locator)[..|path|] == path;
    BeforePath(locator, path);
  }

  lemma BeforePath(locator: string, path: string)
    requires IsPlain(path) && |path| <= |Strip(locator)| && Strip(locator)[..|path|] == path
    requires |Strip(locator)| == |path| || Strip(locator)[|path|] == ':'
    ensures LocatorPath(locator) == path
  {
    var core := Strip(locator);
    ReplaceMeaning(core, '\\', '/');
    var slashed := Replace(core, '\\', '/');
    assert forall k :: 0 <= k < |path| ==> slashed[k] == core[k] == path[k];
    assert slashed[..|path|] == path;
    BeforeIs(slashed, ':', path);
  }

  // ----- the locator a node takes from its parent -----

  // Nothing of its own, and a parent in the table.
  predicate Inherits(rules: TextRules, nodes: Nodes, id: string) {
    id in nodes && OwnLocator(rules, nodes[id]) == "" && ParentKey(nodes[id]) in nodes
  }

  ghost function ParentPath(rules: TextRules, nodes: Nodes, id: string): string
    requires Inherits(rules, nodes, id)
  {
    LocatorPath(Locator(rules, nodes, ParentKey(nodes[id])))
  }

  // A module, or a label with a file name: beside the parent's source file, or
  // in its directory.  A file at the root counts as a directory.
  lemma FileBelowParent(rules: TextRules, nodes: Nodes, id: string)
    requires Inherits(rules, nodes, id)
    requires nodes[id].kind.ModuleKind? || rules.sourceFilename(nodes[id].nodeLabel) != ""
    ensures var path, file := ParentPath(rules, nodes, id), rules.sourceFilename(nodes[id].nodeLabel);
            && (path == "" || file == "" ==> Locator(rules, nodes, id) == "")
            && (path != "" && file != "" && !IsSourcePath(path) ==> Locator(rules, nodes, id) == path + "/" + file)
            && (path != "" && file != "" && '/' !in path ==> Locator(rules, nodes, id) == path + "/" + file)
    ensures forall directory, other :: IsFileIn(ParentPath(rules, nodes, id), directory, other) ==>
              var file := rules.sourceFilename(nodes[id].nodeLabel);
              file != "" ==> Locator(rules, nodes, id) == if directory == "" then file else directory + "/" + file
  {
    LocatorUnfolds(rules, nodes, id);
    var path := ParentPath(rules, nodes, id);
    BeforeLastMeaning(path, '/');
    forall directory, other | IsFileIn(path, directory, other) ensures BeforeLast(path, '/') == directory {
      BeforeLastOf(directory, '/', other);
      assert directory + "/" + other == directory + ['/'] + other;
    }
  }

  // A source file with that name in that directory.
  predicate IsFileIn(path: string, directory: string, file: string) {
    path == directory + "/" + file && '/' !in file && IsSourcePath(path)
  }

  // Any other node: a symbol of the parent's source file, named by its
  // qualified name or else by the identifier in its label; nothing elsewhere.
  lemma SymbolBelowParent(rules: TextRules, nodes: Nodes, id: string)
    requires Inherits(rules, nodes, id)
    requires !nodes[id].kind.ModuleKind? && rules.sourceFilename(nodes[id].nodeLabel) == ""
    ensures var path, name := ParentPath(rules, nodes, id), Strip(nodes[id].qualifiedName);
            var word := rules.identifier(nodes[id].nodeLabel);
            && (!IsSourcePath(path) || (name == "" && word == "") ==> Locator(rules, nodes, id) == "")
            && (IsSourcePath(path) && name != "" ==> Locator(rules, nodes, id) == path + ":" + name)
            && (IsSourcePath(path) && name == "" && word != "" ==> Locator(rules, nodes, id) == path + ":" + word)
  {
    LocatorUnfolds(rules, nodes, id);
    if ParentPath(rules, nodes, id) == "" { EmptyIsNoSource(); }
  }

  lemma EmptyIsNoSource()
    ensures !IsSourcePath("")
  {
    forall suffix | suffix in SOURCE_SUFFIXES ensures |suffix| > 0 {
    }
  }

  // So are the derived files of files: the module `f` below a directory p, and
  // its symbols below that.
  lemma SymbolOfDerivedFile(rules: TextRules, nodes: Nodes, id: string)
    requires Inherits(rules, nodes, id) && !nodes[id].kind.ModuleKind? && rules.sourceFilename(nodes[id].nodeLabel) == ""
    requires var parent := Locator(rules, nodes, ParentKey(nodes[id])); IsPlain(parent) && IsSourcePath(parent)
    requires IsPlain(Strip(nodes[id].qualifiedName))
    ensures Locator(rules, nodes, id) == Locator(rules, nodes, ParentKey(nodes[id])) + ":" + Strip(nodes[id].qualifiedName)
  {
    PathOfPlain(Locator(rules, nodes, ParentKey(nodes[id])), "");
    SymbolBelowParent(rules, nodes, id);
  }

  // ----- the locator a node has of its own -----

  // What it states; else its target path, with the name; else a label like a path.
  lemma OwnLocatorMeaning(rules: TextRules, nodes: Nodes, id: string)
    requires id in nodes
    ensures var node := nodes[id];
            var path, name := Replace(Strip(node.targetPath), '\\', '/'), Strip(node.qualifiedName);
            var own := Locator(rules, nodes, id);
            && (node.locator.Some? && node.locator.value != "" ==> own == node.locator.value)
            && (node.locator in {None, Some("")} && ValidTargetPath(path) && name == "" ==> own == path)
            && (node.locator in {None, Some("")} && ValidTargetPath(path) && name != "" ==> own == path + ":" + name)
            && (node.locator in {None, Some("")} && !ValidTargetPath(path) && rules.pathLike(node.nodeLabel) && node.nodeLabel != "" ==>
                  own == node.nodeLabel)
  {
    LocatorUnfolds(rules, nodes, id);
  }

  // A target path is relative, without a drive and without a parent directory.
  lemma ValidTargetPathMeaning(path: string)
    ensures ValidTargetPath(path) <==>
            && path != "" && !StartsWith(path, "/") && !HasPart(path, '/', "..")
            && !(|path| > 1 && ('a' <= path[0] <= 'z' || 'A' <= path[0] <= 'Z') && path[1] == ':')
  {
    PartMeaning(path, '/', "..");
    if path != "" { assert path[..1] == [path[0]]; }
  }

  // ----- a prepared node -----

  // The locator fills the two columns that were empty, and no other.
  lemma PreparedMeaning(rules: TextRules, nodes: Nodes, id: string)
    requires id in nodes
    ensures var was, now, locator := nodes[id], Prepared(rules, nodes, id), Locator(rules, nodes, id);
            && now == was.(locator := now.locator, targetPath := now.targetPath)
            && (locator == "" || (was.locator.Some? && was.locator.value != "") ==> now.locator == was.locator)
            && (locator != "" && was.locator in {None, Some("")} ==> now.locator == Some(locator))
            && (locator == "" || was.targetPath != "" ==> now.targetPath == was.targetPath)
            && (locator != "" && was.targetPath == "" ==> now.targetPath == LocatorPath(locator))
  {
  }

  // ----- what becomes of a node -----

  // The outcome of a node, by its intent, its locator and the observation.
  ghost predicate OutcomeOf(node: Node, locator: string, observed: set<string>, e: Entry) {
    var found := locator != "" && locator in observed;
    match node.intent
    case Keep => e == Silent
    case Create =>
      if found then e == Skips(SkippedChange(node.id, "already_materialized"))
      else if locator == "" && node.location.InRepository? && (node.level.CodeLevel? || node.level.PackageLevel?)
      then e == Raises(ChangeIssue(node.id, NeedsTarget))
      else e.Emits? && e.operation.kind.CreateNode?
    case Change =>
      if locator == "" then e == Raises(ChangeIssue(node.id, NeedsLocator))
      else if !found then e == Raises(ChangeIssue(node.id, ChangeNotObserved(locator)))
      else e.Emits? && e.operation.kind.ModifyNode?
    case Remove =>
      if !found then e == Raises(ChangeIssue(node.id, RemoveNotObserved(locator)))
      else e.Emits? && e.operation.kind.RemoveNode?
  }

  // The columns of a node's operation.
  ghost predicate ColumnsOf(node: Node, locator: string, op: ChangeOperation) {
    && op.targetNode == node.id && op.dependsOn == [] && op.source == op.target == op.relation == ""
    && (locator == "" ==> op.locator == None) && (locator != "" ==> op.locator == Some(locator))
    && op.level == node.level && op.location == node.location && op.nodeKind == node.kind
    && op.qualifiedName == node.qualifiedName && op.signature == node.signature && op.docstring == node.docstring
    && op.satisfies == node.satisfies && op.acceptance == node.acceptance
    && (node.description != "" ==> op.description == node.description)
    && (node.description == "" ==> op.description == node.nodeLabel)
    && (node.targetPath != "" || locator == "" ==> op.targetPath == node.targetPath)
    && (node.targetPath == "" && locator != "" ==> op.targetPath == LocatorPath(locator))
    && (op.verification.Hard? <==> node.location.InRepository?) && (op.verification.Advisory? <==> node.location.External?)
  }

  lemma EntryMeaning(rules: TextRules, nodes: Nodes, observed: set<string>, id: string)
    requires id in nodes
    ensures var locator, e := Locator(rules, nodes, id), EntryOf(rules, nodes, observed, id);
            OutcomeOf(nodes[id], locator, observed, e) && (e.Emits? ==> ColumnsOf(nodes[id], locator, e.operation))
  {
    PreparedMeaning(rules, nodes, id);
    FilledKeepsLocator(rules, nodes, id);
    OwnLocatorMeaning(rules, nodes, id);
    NothingToRelocate(rules, nodes, id);
  }

  // The compiler's loop finds nothing more than preparing has found.
  lemma NothingToRelocate(rules: TextRules, nodes: Nodes, id: string)
    requires id in nodes
    ensures Relocated(rules, Prepared(rules, nodes, id)) == Prepared(rules, nodes, id) ||
            Relocated(rules, Prepared(rules, nodes, id)) == Prepared(rules, nodes, id).(locator := Some(Locator(rules, nodes, id)))
    ensures GivenLocator(Relocated(rules, Prepared(rules, nodes, id))) == Locator(rules, nodes, id)
  {
    PreparedMeaning(rules, nodes, id);
    FilledKeepsLocator(rules, nodes, id);
    LocatorUnfolds(rules, nodes, id);
  }

  // ----- what becomes of an edge -----

  predicate HardRelation(relation: string) {
    Lower(relation) == "contains" || Lower(relation) == "inherits"
  }

  lemma VerificationMeaning(e: Edge)
    ensures EdgeVerification(e).Hard? <==> HardRelation(e.relation)
    ensures EdgeVerification(e).Resolved? <==> Lower(e.relation) == "imports" && e.provenance.Analyzer?
  {
    assert "imports"[0] != "contains"[0] && |"imports"| != |"inherits"|;
  }

  lemma EdgeColumns(nodes: Nodes, creates: map<string, string>, e: Edge)
    requires e.intent.Create? || e.intent.Remove?
    ensures var op := EdgeOperation(nodes, creates, e);
            && (op.kind == if e.intent.Create? then Connect else Disconnect)
            && op.source == op.targetNode == e.source && op.target == e.target && op.relation == e.relation
            && (op.verification.Hard? <==> HardRelation(e.relation))
            && (e.source in nodes ==>
                  op.locator == nodes[e.source].locator && op.level == nodes[e.source].level && op.location == nodes[e.source].location)
            && (e.source !in nodes ==> op.locator == None && op.level == CodeLevel && op.location == InRepository)
            && op.targetPath == op.qualifiedName == op.signature == op.docstring == "" && op.satisfies == op.acceptance == []
  {
    VerificationMeaning(e);
  }

  // ----- the changeset -----

  // It names its snapshot, and each of its lists is ascending.
  lemma CompiledInOrder(rules: TextRules, snapshot: Snapshot, observed: set<string>)
    ensures var changeset := Compiled(rules, snapshot, observed);
            && changeset.snapshotId == snapshot.snapshotId
            && (forall i, j :: 0 <= i < j < |changeset.operations| ==> Leq(changeset.operations[i].id, changeset.operations[j].id))
            && (forall i, j :: 0 <= i < j < |changeset.skipped| ==> Leq(changeset.skipped[i].targetNode, changeset.skipped[j].targetNode))
            && (forall i, j :: 0 <= i < j < |changeset.issues| ==> Leq(changeset.issues[i].targetNode, changeset.issues[j].targetNode))
  {
    var nodes := NodeMap(snapshot.nodes);
    var entries := Entries(rules, nodes, observed, NodeKeys(snapshot.nodes));
    var part := Collect(Operations, entries);
    SortAscends(OperationId, part + EdgeOperations(PreparedNodes(rules, nodes), Creates(part), snapshot.edges));
    SortAscends(SkipTarget, Collect(Skipped, entries));
    SortAscends(IssueTarget, Collect(Issues, entries));
  }
}
