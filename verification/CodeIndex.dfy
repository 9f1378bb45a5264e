// The tables of the code index and the incremental build that keeps them
// (src/mission_orchestrator/adapters/analysis/builder.py, sqlite_graph.py).
module CodeIndex {
  import opened Workplan
  import opened TextOrder
  import opened CodeGraph

  // ----- rows -----

  type EdgeKey = (string, string, Relation)
  type NodeTable = map<string, GraphNode>
  type EdgeTable = map<EdgeKey, string>
  type FtsRow = (string, NodeType, string)

  // INSERT OR REPLACE, row by row.
  function NodeRows(nodes: seq<GraphNode>): NodeTable {
    if nodes == [] then map[]
    else NodeRows(nodes[..|nodes| - 1])[nodes[|nodes| - 1].id := nodes[|nodes| - 1]]
  }

  function Key(e: GraphEdge): EdgeKey {
    (e.source, e.target, e.relation)
  }

  // INSERT OR IGNORE: the first row with a key stays.
  function EdgeRows(edges: seq<GraphEdge>, rel: string): EdgeTable {
    if edges == [] then map[]
    else
      var rows := EdgeRows(edges[..|edges| - 1], rel);
      var k := Key(edges[|edges| - 1]);
      if k in rows then rows else rows[k := rel]
  }

  function FtsRows(nodes: NodeTable): set<FtsRow> {
    set id | id in nodes :: (id, nodes[id].kind, nodes[id].file)
  }

  // The text index holds each node under its id, kind and file, and nothing else.
  lemma FtsMeaning(nodes: NodeTable, row: FtsRow)
    ensures row in FtsRows(nodes) <==> row.0 in nodes && row.1 == nodes[row.0].kind && row.2 == nodes[row.0].file
  {
    if row in FtsRows(nodes) {
      var id :| id in nodes && row == (id, nodes[id].kind, nodes[id].file);
    }
  }

  // ----- the disk, and what the index has seen of it -----

  datatype File = File(mtime: int, tree: Option<Ast>)

  // The paths that discovery lists, and the files that can be read.
  datatype World = World(listed: seq<string>, disk: map<string, File>)

  type Seen = map<string, File>

  ghost function NodesSeen(seen: Seen): map<string, NodeTable> {
    map rel | rel in seen :: NodeRows(ParseFile(rel, seen[rel].tree).nodes)
  }

  function EdgeList(p: Parsed): seq<GraphEdge> { p.edges }

  function RefList(p: Parsed): seq<GraphEdge> { p.refs }

  // The rows of the edge table, or of the table of lexical references.
  ghost function LinksSeen(pick: Parsed -> seq<GraphEdge>, seen: Seen): map<string, EdgeTable> {
    map rel | rel in seen :: EdgeRows(pick(ParseFile(rel, seen[rel].tree)), rel)
  }

  ghost function Mtimes(seen: Seen): map<string, int> {
    map rel | rel in seen :: seen[rel].mtime
  }

  // ----- a table is the disjoint union of the rows of each file -----

  ghost predicate Disjoint<K(!new), V>(rows: map<string, map<K, V>>) {
    forall a, b, k :: a in rows && b in rows && k in rows[a] && k in rows[b] ==> a == b
  }

  ghost predicate Union<K(!new), V>(table: map<K, V>, rows: map<string, map<K, V>>) {
    && (forall rel, k :: rel in rows && k in rows[rel] ==> k in table && table[k] == rows[rel][k])
    && (forall k :: k in table ==> exists rel :: rel in rows && k in rows[rel])
  }

  lemma UnionUnique<K(!new), V>(a: map<K, V>, b: map<K, V>, rows: map<string, map<K, V>>)
    requires Union(a, rows) && Union(b, rows)
    ensures a == b
  {
    forall k | k in a ensures k in b && a[k] == b[k] {
      var rel :| rel in rows && k in rows[rel];
    }
    forall k | k in b ensures k in a {
      var rel :| rel in rows && k in rows[rel];
    }
  }

  // Deleting one file's rows.
  lemma UnionPurge<K(!new), V>(table: map<K, V>, rows: map<string, map<K, V>>, rel: string, after: map<K, V>)
    requires Union(table, rows) && Disjoint(rows)
    requires after.Keys <= table.Keys && forall k :: k in after ==> after[k] == table[k]
    requires forall k :: k in table ==> (k in after <==> !(rel in rows && k in rows[rel]))
    ensures Union(after, rows - {rel})
  {
    forall r, k | r in rows - {rel} && k in rows[r] ensures k in after && after[k] == rows[r][k] {
      assert k in table;
    }
    forall k | k in after ensures exists r :: r in rows - {rel} && k in (rows - {rel})[r] {
      var r :| r in rows && k in rows[r];
      assert r in rows - {rel};
    }
  }

  // Adding the rows of a file that had none.
  lemma UnionInsert<K(!new), V>(table: map<K, V>, rows: map<string, map<K, V>>, rel: string, added: map<K, V>)
    requires Union(table, rows) && rel !in rows && Disjoint(rows[rel := added])
    ensures Union(table + added, rows[rel := added]) && forall k :: k in table ==> k !in added
  {
    var more := rows[rel := added];
    forall k | k in table ensures k !in added {
      var r :| r in rows && k in rows[r];
      assert k in more[r] && r != rel;
    }
    forall k | k in table + added ensures exists r :: r in more && k in more[r] {
      if k in added {
        assert k in more[rel];
      } else {
        var r :| r in rows && k in rows[r];
        assert k in more[r];
      }
    }
  }

  // ----- the rows of each file carry its name -----

  lemma {:induction false} NodeRowsMeaning(nodes: seq<GraphNode>, id: string)
    requires id in NodeRows(nodes)
    ensures NodeRows(nodes)[id] in nodes && NodeRows(nodes)[id].id == id
  {
    var n := |nodes| - 1;
    if nodes[n].id != id { NodeRowsMeaning(nodes[..n], id); }
  }

  lemma {:induction false} EdgeRowsMeaning(edges: seq<GraphEdge>, rel: string, k: EdgeKey)
    requires k in EdgeRows(edges, rel)
    ensures EdgeRows(edges, rel)[k] == rel && exists e :: e in edges && Key(e) == k
  {
    var n := |edges| - 1;
    if k in EdgeRows(edges[..n], rel) { EdgeRowsMeaning(edges[..n], rel, k); }
  }

  lemma {:induction false} NodeRowsIds(nodes: seq<GraphNode>, id: string)
    ensures id in NodeRows(nodes) <==> exists n :: n in nodes && n.id == id
  {
    if nodes != [] {
      var front, last := nodes[..|nodes| - 1], nodes[|nodes| - 1];
      assert nodes == front + [last];
      NodeRowsIds(front, id);
    }
  }

  // Of the rows with one id, the last replaces the others.
  lemma {:induction false} LastRowStays(nodes: seq<GraphNode>, k: nat)
    requires k < |nodes| && forall j :: k < j < |nodes| ==> nodes[j].id != nodes[k].id
    ensures nodes[k].id in NodeRows(nodes) && NodeRows(nodes)[nodes[k].id] == nodes[k]
  {
    var n := |nodes| - 1;
    if k < n { LastRowStays(nodes[..n], k); }
  }

  // There is a row exactly for each link that the file yields.
  lemma {:induction false} EdgeRowsKeys(edges: seq<GraphEdge>, rel: string, k: EdgeKey)
    ensures k in EdgeRows(edges, rel) <==> exists e :: e in edges && (e.source, e.target, e.relation) == k
  {
    if edges != [] {
      var front, last := edges[..|edges| - 1], edges[|edges| - 1];
      EdgeRowsKeys(front, rel, k);
      assert edges == front + [last];
    }
  }

  lemma NodeOwner(seen: Seen, rel: string, id: string)
    requires rel in seen && id in NodesSeen(seen)[rel]
    ensures NodesSeen(seen)[rel][id].file == rel
  {
    ParsedIsRooted(rel, seen[rel].tree);
    NodeRowsMeaning(ParseFile(rel, seen[rel].tree).nodes, id);
  }

  // A link names its file, and starts at a node of that file.
  lemma LinkOwner(pick: Parsed -> seq<GraphEdge>, seen: Seen, rel: string, k: EdgeKey)
    requires pick == EdgeList || pick == RefList
    requires rel in seen && k in LinksSeen(pick, seen)[rel]
    ensures LinksSeen(pick, seen)[rel][k] == rel && k.0 in NodesSeen(seen)[rel]
  {
    var p := ParseFile(rel, seen[rel].tree);
    ParsedIsRooted(rel, seen[rel].tree);
    EdgeRowsMeaning(pick(p), rel, k);
    assert Emits(p, k.0);
    NodeRowsIds(p.nodes, k.0);
  }

  // No two files seen emit the same node.
  ghost predicate Apart(seen: Seen) {
    Disjoint(NodesSeen(seen))
  }

  lemma LinksDisjoint(pick: Parsed -> seq<GraphEdge>, seen: Seen)
    requires Apart(seen) && (pick == EdgeList || pick == RefList)
    ensures Disjoint(LinksSeen(pick, seen))
  {
    forall a, b, k | a in seen && b in seen && k in LinksSeen(pick, seen)[a] && k in LinksSeen(pick, seen)[b] ensures a == b {
      LinkOwner(pick, seen, a, k);
      LinkOwner(pick, seen, b, k);
    }
  }

  // ----- which files a build looks at again -----

  predicate Stale(seen: Seen, world: World, force: bool, rel: string) {
    rel in world.disk && (force || rel !in seen || seen[rel].mtime != world.disk[rel].mtime)
  }

  // What the index has seen after a build.
  function NextSeen(seen: Seen, world: World, force: bool): Seen {
    map rel | rel in world.listed && (rel in world.disk || rel in seen) ::
      if Stale(seen, world, force, rel) then world.disk[rel] else seen[rel]
  }

  // Some file was purged or reparsed.
  predicate Changes(seen: Seen, world: World, force: bool) {
    || (exists rel | rel in seen :: rel !in world.listed)
    || (exists rel | rel in world.listed :: Stale(seen, world, force, rel))
  }

  // A first build sees the readable listed files, forced or not.
  lemma FirstBuild(world: World, force: bool)
    ensures NextSeen(map[], world, force) == map rel | rel in world.listed && rel in world.disk :: world.disk[rel]
  {
  }

  // ----- purging and inserting one file -----

  datatype Tables = Tables(nodes: NodeTable, edges: EdgeTable, refs: EdgeTable, files: map<string, int>)

  // The tables hold the rows of the files seen, and nothing else.
  ghost predicate Represents(t: Tables, seen: Seen) {
    && Apart(seen) && t.files == Mtimes(seen)
    && Union(t.nodes, NodesSeen(seen))
    && Union(t.edges, LinksSeen(EdgeList, seen))
    && Union(t.refs, LinksSeen(RefList, seen))
  }

  function NodesWithout(nodes: NodeTable, rel: string): NodeTable {
    map id | id in nodes && nodes[id].file != rel :: nodes[id]
  }

  function LinksWithout(links: EdgeTable, rel: string): EdgeTable {
    map k | k in links && links[k] != rel :: links[k]
  }

  function Purged(t: Tables, rel: string): Tables {
    Tables(NodesWithout(t.nodes, rel), LinksWithout(t.edges, rel), LinksWithout(t.refs, rel), t.files - {rel})
  }

  // OR REPLACE lets the new node win, OR IGNORE the old edge.
  function Inserted(t: Tables, rel: string, file: File): Tables {
    var parsed := ParseFile(rel, file.tree);
    Tables(t.nodes + NodeRows(parsed.nodes), EdgeRows(parsed.edges, rel) + t.edges, EdgeRows(parsed.refs, rel) + t.refs,
           t.files[rel := file.mtime])
  }

  lemma NodesSeenShrinks(seen: Seen, rel: string)
    ensures NodesSeen(seen - {rel}) == NodesSeen(seen) - {rel}
  {
  }

  lemma LinksSeenShrinks(pick: Parsed -> seq<GraphEdge>, seen: Seen, rel: string)
    ensures LinksSeen(pick, seen - {rel}) == LinksSeen(pick, seen) - {rel}
  {
  }

  lemma NodesPurged(nodes: NodeTable, seen: Seen, rel: string)
    requires Apart(seen) && Union(nodes, NodesSeen(seen))
    ensures Union(NodesWithout(nodes, rel), NodesSeen(seen - {rel}))
  {
    var rows := NodesSeen(seen);
    forall id | id in nodes ensures nodes[id].file != rel <==> !(rel in rows && id in rows[rel]) {
      var r :| r in rows && id in rows[r];
      NodeOwner(seen, r, id);
    }
    UnionPurge(nodes, rows, rel, NodesWithout(nodes, rel));
    NodesSeenShrinks(seen, rel);
  }

  lemma LinksPurged(pick: Parsed -> seq<GraphEdge>, links: EdgeTable, seen: Seen, rel: string)
    requires pick == EdgeList || pick == RefList
    requires Apart(seen) && Union(links, LinksSeen(pick, seen))
    ensures Union(LinksWithout(links, rel), LinksSeen(pick, seen - {rel}))
  {
    var rows := LinksSeen(pick, seen);
    LinksDisjoint(pick, seen);
    forall k | k in links ensures links[k] != rel <==> !(rel in rows && k in rows[rel]) {
      var r :| r in rows && k in rows[r];
      LinkOwner(pick, seen, r, k);
    }
    UnionPurge(links, rows, rel, LinksWithout(links, rel));
    LinksSeenShrinks(pick, seen, rel);
  }

  lemma NodesSeenGrows(seen: Seen, rel: string, file: File)
    ensures NodesSeen(seen[rel := file]) == NodesSeen(seen)[rel := NodeRows(ParseFile(rel, file.tree).nodes)]
  {
  }

  lemma LinksSeenGrows(pick: Parsed -> seq<GraphEdge>, seen: Seen, rel: string, file: File)
    ensures LinksSeen(pick, seen[rel := file]) == LinksSeen(pick, seen)[rel := EdgeRows(pick(ParseFile(rel, file.tree)), rel)]
  {
  }

  lemma NodesInserted(nodes: NodeTable, seen: Seen, rel: string, file: File)
    requires Apart(seen[rel := file]) && rel !in seen && Union(nodes, NodesSeen(seen))
    ensures Union(nodes + NodeRows(ParseFile(rel, file.tree).nodes), NodesSeen(seen[rel := file]))
  {
    var added := NodeRows(ParseFile(rel, file.tree).nodes);
    NodesSeenGrows(seen, rel, file);
    UnionInsert(nodes, NodesSeen(seen), rel, added);
  }

  lemma LinksInserted(pick: Parsed -> seq<GraphEdge>, links: EdgeTable, seen: Seen, rel: string, file: File)
    requires pick == EdgeList || pick == RefList
    requires Apart(seen[rel := file]) && rel !in seen && Union(links, LinksSeen(pick, seen))
    ensures Union(EdgeRows(pick(ParseFile(rel, file.tree)), rel) + links, LinksSeen(pick, seen[rel := file]))
  {
    var added := EdgeRows(pick(ParseFile(rel, file.tree)), rel);
    LinksDisjoint(pick, seen[rel := file]);
    LinksSeenGrows(pick, seen, rel, file);
    UnionInsert(links, LinksSeen(pick, seen), rel, added);
    SumCommutes(added, links);
  }

  lemma SumCommutes<K, V>(a: map<K, V>, b: map<K, V>)
    requires forall k :: k in b ==> k !in a
    ensures a + b == b + a
  {
  }

  lemma MtimesPurged(seen: Seen, rel: string)
    ensures Mtimes(seen - {rel}) == Mtimes(seen) - {rel}
  {
  }

  lemma MtimesInserted(seen: Seen, rel: string, file: File)
    ensures Mtimes(seen[rel := file]) == Mtimes(seen)[rel := file.mtime]
  {
  }

  lemma PurgeRepresents(t: Tables, seen: Seen, rel: string)
    requires Represents(t, seen)
    ensures Represents(Purged(t, rel), seen - {rel})
  {
    FewerAreApart(seen, rel);
    MtimesPurged(seen, rel);
    NodesPurged(t.nodes, seen, rel);
    LinksPurged(EdgeList, t.edges, seen, rel);
    LinksPurged(RefList, t.refs, seen, rel);
  }

  lemma FewerAreApart(seen: Seen, rel: string)
    requires Apart(seen)
    ensures Apart(seen - {rel})
  {
    forall a, b, id | a in seen - {rel} && b in seen - {rel} && id in NodesSeen(seen - {rel})[a] && id in NodesSeen(seen - {rel})[b]
      ensures a == b
    {
      assert id in NodesSeen(seen)[a] && id in NodesSeen(seen)[b];
    }
  }

  lemma InsertRepresents(t: Tables, seen: Seen, rel: string, file: File)
    requires Represents(t, seen) && Apart(seen[rel := file]) && rel !in seen
    ensures Represents(Inserted(t, rel, file), seen[rel := file])
  {
    MtimesInserted(seen, rel, file);
    NodesInserted(t.nodes, seen, rel, file);
    LinksInserted(EdgeList, t.edges, seen, rel, file);
    LinksInserted(RefList, t.refs, seen, rel, file);
  }

  // ----- the two loops of a build, on the tables -----

  function PurgedAll(t: Tables, world: World, known: seq<string>): Tables {
    if known == [] then t
    else
      var before := PurgedAll(t, world, known[..|known| - 1]);
      var rel := known[|known| - 1];
      if rel in world.listed then before else Purged(before, rel)
  }

  predicate Skips(t: Tables, world: World, force: bool, rel: string) {
    rel !in world.disk || (rel in t.files && t.files[rel] == world.disk[rel].mtime && !force)
  }

  function ReparsedAll(t: Tables, world: World, force: bool, paths: seq<string>): Tables {
    if paths == [] then t
    else
      var before := ReparsedAll(t, world, force, paths[..|paths| - 1]);
      var rel := paths[|paths| - 1];
      if Skips(before, world, force, rel) then before else Inserted(Purged(before, rel), rel, world.disk[rel])
  }

  function Elements(s: seq<string>): set<string> {
    set x | x in s
  }

  // Whatever the order of the loop, the rows of all missing files go.
  function Without(t: Tables, gone: set<string>): Tables {
    Tables(map id | id in t.nodes && t.nodes[id].file !in gone :: t.nodes[id],
           map k | k in t.edges && t.edges[k] !in gone :: t.edges[k],
           map k | k in t.refs && t.refs[k] !in gone :: t.refs[k],
           t.files - gone)
  }

  function Missing(world: World, known: set<string>): set<string> {
    set rel | rel in known && rel !in world.listed
  }

  lemma WithoutOneMore(t: Tables, gone: set<string>, rel: string)
    ensures Purged(Without(t, gone), rel) == Without(t, gone + {rel})
  {
  }

  lemma {:induction false} PurgedAllMeaning(t: Tables, world: World, known: seq<string>)
    ensures PurgedAll(t, world, known) == Without(t, Missing(world, Elements(known)))
  {
    if known == [] {
      assert Missing(world, Elements(known)) == {};
      assert Without(t, {}) == t;
    } else {
      var front, rel := known[..|known| - 1], known[|known| - 1];
      PurgedAllMeaning(t, world, front);
      assert known == front + [rel];
      ElementsGrow(front, rel);
      var gone := Missing(world, Elements(front));
      if rel in world.listed {
        assert Missing(world, Elements(known)) == gone;
      } else {
        assert Missing(world, Elements(known)) == gone + {rel};
        WithoutOneMore(t, gone, rel);
      }
    }
  }

  // What a build makes of the tables.
  function Built(t: Tables, world: World, force: bool): Tables {
    ReparsedAll(Without(t, Missing(world, t.files.Keys)), world, force, world.listed)
  }

  lemma BuiltByLoops(t: Tables, world: World, force: bool, known: seq<string>)
    requires Elements(known) == t.files.Keys
    ensures Built(t, world, force) == ReparsedAll(PurgedAll(t, world, known), world, force, world.listed)
  {
    PurgedAllMeaning(t, world, known);
  }

  lemma ElementsGrow(s: seq<string>, x: string)
    ensures Elements(s + [x]) == Elements(s) + {x}
  {
  }

  lemma {:induction false} PurgedAllRepresents(t: Tables, seen: Seen, world: World, known: seq<string>)
    requires Represents(t, seen)
    ensures Represents(PurgedAll(t, world, known), Kept(seen, world, Elements(known)))
  {
    if known == [] {
      assert Kept(seen, world, {}) == seen && Elements([]) == {};
    } else {
      var front, rel := known[..|known| - 1], known[|known| - 1];
      PurgedAllRepresents(t, seen, world, front);
      assert known == front + [rel];
      ElementsGrow(front, rel);
      KeptStep(seen, world, Elements(front), rel);
      if rel !in world.listed {
        PurgeRepresents(PurgedAll(t, world, front), Kept(seen, world, Elements(front)), rel);
      }
    }
  }

  lemma KeptStep(seen: Seen, world: World, done: set<string>, rel: string)
    ensures Kept(seen, world, done + {rel}) ==
            if rel in world.listed then Kept(seen, world, done) else Kept(seen, world, done) - {rel}
  {
  }

  lemma {:induction false} ReparsedAllRepresents(t: Tables, seen: Seen, world: World, force: bool, paths: seq<string>)
    requires Represents(t, seen) && Compatible(seen, world) && forall rel :: rel in paths ==> rel in world.listed
    ensures Represents(ReparsedAll(t, world, force, paths), Updated(seen, world, force, Elements(paths)))
  {
    if paths == [] {
      NothingUpdated(seen, world, force);
    } else {
      var front, rel := paths[..|paths| - 1], paths[|paths| - 1];
      ReparsedAllRepresents(t, seen, world, force, front);
      assert paths == front + [rel];
      ElementsGrow(front, rel);
      UpdatedAreVersions(seen, world, force, Elements(front), rel);
      ReparsedStep(ReparsedAll(t, world, force, front), seen, world, force, Elements(front), rel);
    }
  }

  lemma NothingUpdated(seen: Seen, world: World, force: bool)
    ensures Updated(seen, world, force, Elements([])) == seen
  {
    assert Elements([]) == {};
  }

  lemma ReparsedStep(now: Tables, seen: Seen, world: World, force: bool, done: set<string>, rel: string)
    requires Represents(now, Updated(seen, world, force, done))
    requires rel in world.disk ==> Apart(Updated(seen, world, force, done)[rel := world.disk[rel]])
    ensures Represents(if Skips(now, world, force, rel) then now else Inserted(Purged(now, rel), rel, world.disk[rel]),
                       Updated(seen, world, force, done + {rel}))
  {
    UpdatedStep(seen, world, force, done, rel);
    if Skips(now, world, force, rel) {
      SkippedStays(now.files, seen, world, force, done, rel);
    } else {
      Replaced(now, Updated(seen, world, force, done), rel, world.disk[rel]);
      assert Stale(seen, world, force, rel);
    }
  }

  // The file as the index has seen it, or as the disk has it now.
  predicate Version(seen: Seen, world: World, rel: string, file: File) {
    || (rel in seen && seen[rel] == file)
    || (rel in world.listed && rel in world.disk && world.disk[rel] == file)
  }

  ghost predicate Clash(a: string, fileA: File, b: string, fileB: File) {
    exists id :: id in NodeRows(ParseFile(a, fileA.tree).nodes) && id in NodeRows(ParseFile(b, fileB.tree).nodes)
  }

  // No two files clash, whether or not they have been reparsed yet.
  ghost predicate Compatible(seen: Seen, world: World) {
    forall a, fileA, b, fileB :: Version(seen, world, a, fileA) && Version(seen, world, b, fileB) && a != b ==> !Clash(a, fileA, b, fileB)
  }

  lemma VersionsAreApart(seen: Seen, world: World, mix: Seen)
    requires Compatible(seen, world) && forall rel :: rel in mix ==> Version(seen, world, rel, mix[rel])
    ensures Apart(mix)
  {
    forall a, b, id | a in mix && b in mix && id in NodesSeen(mix)[a] && id in NodesSeen(mix)[b] ensures a == b {
      assert Clash(a, mix[a], b, mix[b]);
    }
  }

  lemma UpdatedAreVersions(seen: Seen, world: World, force: bool, done: set<string>, rel: string)
    requires Compatible(seen, world) && rel in world.listed && forall r :: r in done ==> r in world.listed
    ensures rel in world.disk ==> Apart(Updated(seen, world, force, done)[rel := world.disk[rel]])
  {
    if rel in world.disk { VersionsAreApart(seen, world, Updated(seen, world, force, done)[rel := world.disk[rel]]); }
  }

  lemma SkippedStays(files: map<string, int>, seen: Seen, world: World, force: bool, done: set<string>, rel: string)
    requires files == Mtimes(Updated(seen, world, force, done))
    requires rel !in world.disk || (rel in files && files[rel] == world.disk[rel].mtime && !force)
    ensures Updated(seen, world, force, done + {rel}) == Updated(seen, world, force, done)
  {
    UpdatedStep(seen, world, force, done, rel);
  }

  lemma Replaced(t: Tables, seen: Seen, rel: string, file: File)
    requires Represents(t, seen) && Apart(seen[rel := file])
    ensures Represents(Inserted(Purged(t, rel), rel, file), seen[rel := file])
  {
    RemoveThenSet(seen, rel, file);
    PurgeRepresents(t, seen, rel);
    InsertRepresents(Purged(t, rel), seen - {rel}, rel, file);
  }

  lemma RemoveThenSet(seen: Seen, rel: string, file: File)
    ensures (seen - {rel})[rel := file] == seen[rel := file]
  {
  }

  // The rows of exactly these files, put into empty tables one file after the
  // other; `TablesRepresent` shows that the order is immaterial.
  ghost function TablesOf(seen: Seen): Tables
    decreases |seen|
  {
    if seen == map[] then EMPTY
    else
      var rel :| rel in seen;
      Inserted(TablesOf(seen - {rel}), rel, seen[rel])
  }

  const EMPTY := Tables(map[], map[], map[], map[])

  lemma TablesRepresent(t: Tables, seen: Seen)
    requires Apart(seen)
    ensures Represents(t, seen) <==> t == TablesOf(seen)
  {
    ScratchRepresents(seen);
    if Represents(t, seen) {
      UnionUnique(t.nodes, TablesOf(seen).nodes, NodesSeen(seen));
      UnionUnique(t.edges, TablesOf(seen).edges, LinksSeen(EdgeList, seen));
      UnionUnique(t.refs, TablesOf(seen).refs, LinksSeen(RefList, seen));
    }
  }

  lemma {:induction false} ScratchRepresents(seen: Seen)
    requires Apart(seen)
    ensures Represents(TablesOf(seen), seen)
    decreases |seen|
  {
    if seen != map[] {
      var rel := LastInserted(seen);
      WithoutAndBack(seen, rel);
      FewerAreApart(seen, rel);
      ScratchRepresents(seen - {rel});
      InsertRepresents(TablesOf(seen - {rel}), seen - {rel}, rel, seen[rel]);
    }
  }

  lemma WithoutAndBack(seen: Seen, rel: string)
    requires rel in seen
    ensures (seen - {rel})[rel := seen[rel]] == seen && (seen - {rel}).Keys + {rel} == seen.Keys
  {
  }

  lemma LastInserted(seen: Seen) returns (rel: string)
    requires seen != map[]
    ensures rel in seen && |seen - {rel}| < |seen| && seen[rel := seen[rel]] == seen
    ensures TablesOf(seen) == Inserted(TablesOf(seen - {rel}), rel, seen[rel])
  {
    rel :| rel in seen && TablesOf(seen) == Inserted(TablesOf(seen - {rel}), rel, seen[rel]);
    SmallerMap(seen, rel);
  }

  lemma SmallerMap(seen: Seen, rel: string)
    requires rel in seen
    ensures |seen - {rel}| < |seen|
  {
    assert (seen - {rel}).Keys == seen.Keys - {rel};
  }

  // ----- the builder -----

  method InsertNodes(table: NodeTable, rows: seq<GraphNode>) returns (after: NodeTable)
    ensures after == table + NodeRows(rows)
  {
    after := table;
    for i := 0 to |rows|
      invariant after == table + NodeRows(rows[..i])
    {
      assert rows[..i + 1][..i] == rows[..i];
      after := after[rows[i].id := rows[i]];
    }
    assert rows[..|rows|] == rows;
  }

  method InsertLinks(table: EdgeTable, rows: seq<GraphEdge>, rel: string) returns (after: EdgeTable)
    ensures after == EdgeRows(rows, rel) + table
  {
    after := table;
    for i := 0 to |rows|
      invariant after == EdgeRows(rows[..i], rel) + table
    {
      assert rows[..i + 1][..i] == rows[..i];
      var k := Key(rows[i]);
      if k !in after {
        after := after[k := rel];
      }
    }
    assert rows[..|rows|] == rows;
  }

  class CodeGraphBuilder {
    var nodes: NodeTable
    var edges: EdgeTable
    var refs: EdgeTable
    var files: map<string, int>
    var fts: set<FtsRow>
    var revision: nat
    ghost var seen: Seen

    ghost function Contents(): Tables
      reads this
    {
      Tables(nodes, edges, refs, files)
    }

    ghost predicate Valid()
      reads this
    {
      files == Mtimes(seen) && fts == FtsRows(nodes)
    }

    // The tables are those of the files seen.
    ghost predicate Faithful()
      reads this
    {
      Apart(seen) && Contents() == TablesOf(seen)
    }

    constructor ()
      ensures Valid() && Faithful() && seen == map[] && revision == 0
    {
      nodes, edges, refs, files, fts, revision, seen := map[], map[], map[], map[], {}, 0, map[];
    }

    method PurgeFile(rel: string)
      modifies this`nodes, this`edges, this`refs, this`files
      ensures Contents() == Purged(old(Contents()), rel)
    {
      edges := map k | k in edges && edges[k] != rel :: edges[k];
      refs := map k | k in refs && refs[k] != rel :: refs[k];
      nodes := map id | id in nodes && nodes[id].file != rel :: nodes[id];
      files := files - {rel};
    }

    method InsertFile(rel: string, file: File)
      modifies this`nodes, this`edges, this`refs, this`files
      ensures Contents() == Inserted(old(Contents()), rel, file)
    {
      var parsed := Parse(rel, file.tree);
      nodes := InsertNodes(nodes, parsed.nodes);
      edges := InsertLinks(edges, parsed.edges, rel);
      refs := InsertLinks(refs, parsed.refs, rel);
      files := files[rel := file.mtime];
    }

    // Forget the files that discovery no longer lists.
    method PurgeMissing(world: World, known: seq<string>) returns (changed: bool)
      modifies this`nodes, this`edges, this`refs, this`files
      ensures Contents() == PurgedAll(old(Contents()), world, known)
      ensures changed <==> exists rel :: rel in known && rel !in world.listed
    {
      changed := false;
      for i := 0 to |known|
        invariant Contents() == PurgedAll(old(Contents()), world, known[..i])
        invariant changed <==> exists rel :: rel in known[..i] && rel !in world.listed
      {
        assert known[..i + 1][..i] == known[..i];
        assert known[..i + 1] == known[..i] + [known[i]];
        if known[i] !in world.listed {
          PurgeFile(known[i]);
          changed := true;
        }
      }
      assert known[..|known|] == known;
    }

    // Reparse the listed files that are new, touched, or forced.
    method Reparse(world: World, force: bool) returns (changed: bool)
      modifies this`nodes, this`edges, this`refs, this`files
      ensures Contents() == ReparsedAll(old(Contents()), world, force, world.listed)
      ensures changed <==> SomeReparsed(old(Contents()), world, force, world.listed)
    {
      changed := false;
      var paths := world.listed;
      for i := 0 to |paths|
        invariant Contents() == ReparsedAll(old(Contents()), world, force, paths[..i])
        invariant changed <==> SomeReparsed(old(Contents()), world, force, paths[..i])
      {
        assert paths[..i + 1][..i] == paths[..i];
        var rel := paths[i];
        if rel in world.disk {
          var file := world.disk[rel];
          if !(rel in files && files[rel] == file.mtime && !force) {
            PurgeFile(rel);
            InsertFile(rel, file);
            changed := true;
          }
        }
      }
      assert paths[..|paths|] == paths;
    }

    // The paths in the table of files, in some order.
    method KnownFiles() returns (known: seq<string>)
      ensures forall rel :: rel in known <==> rel in files
    {
      known := SortedSet(files.Keys);
    }

    method RebuildFts()
      modifies this`fts
      ensures fts == FtsRows(nodes)
    {
      fts := FtsRows(nodes);
    }

    method BumpObservedRevision()
      modifies this`revision
      ensures revision == old(revision) + 1
    {
      revision := revision + 1;
    }

    // The two loops of a build.
    method Rescan(world: World, force: bool) returns (changed: bool)
      requires files == Mtimes(seen)
      modifies this`nodes, this`edges, this`refs, this`files
      ensures files == Mtimes(NextSeen(seen, world, force))
      ensures changed <==> Changes(seen, world, force)
      ensures !changed ==> Contents() == old(Contents())
      ensures Contents() == Built(old(Contents()), world, force)
    {
      ghost var before := Contents();
      var known := KnownFiles();
      var purged := PurgeMissing(world, known);
      var reparsed := Reparse(world, force);
      BuildWorks(before, seen, world, force, known, purged, reparsed);
      KnownIsSeen(before.files, seen, known);
      BuiltByLoops(before, world, force, known);
      changed := purged || reparsed;
    }

    // Any files; the rows of different files stay apart when no two clash.
    method Build(world: World, force: bool)
      requires Valid()
      modifies this
      ensures Valid() && seen == NextSeen(old(seen), world, force)
      ensures revision == old(revision) + if Changes(old(seen), world, force) then 1 else 0
      ensures Contents() == Built(old(Contents()), world, force)
      ensures old(Faithful()) && Compatible(old(seen), world) ==> Faithful()
    {
      ghost var next := NextSeen(seen, world, force);
      BuildKeepsFaithful(Contents(), seen, world, force);
      Refresh(world, force);
      seen := next;
    }

    // Everything but the record of what has been seen.
    method Refresh(world: World, force: bool)
      requires Valid()
      modifies this`nodes, this`edges, this`refs, this`files, this`fts, this`revision
      ensures files == Mtimes(NextSeen(seen, world, force)) && fts == FtsRows(nodes)
      ensures Contents() == Built(old(Contents()), world, force)
      ensures revision == old(revision) + if Changes(seen, world, force) then 1 else 0
    {
      var changed := Rescan(world, force);
      if changed {
        RebuildFts();
        BumpObservedRevision();
      }
    }
  }

  // Some path of the list was not skipped when its turn came.
  function SomeReparsed(t: Tables, world: World, force: bool, paths: seq<string>): bool {
    paths != []
    && (SomeReparsed(t, world, force, paths[..|paths| - 1])
        || !Skips(ReparsedAll(t, world, force, paths[..|paths| - 1]), world, force, paths[|paths| - 1]))
  }

  lemma {:induction false} SomeReparsedMeaning(t: Tables, seen: Seen, world: World, force: bool, paths: seq<string>)
    requires t.files == Mtimes(seen)
    ensures SomeReparsed(t, world, force, paths) <==> exists rel :: rel in paths && Stale(seen, world, force, rel)
  {
    if paths != [] {
      var front, rel := paths[..|paths| - 1], paths[|paths| - 1];
      SomeReparsedMeaning(t, seen, world, force, front);
      FilesReparsed(t, seen, world, force, front);
      UpdatedStep(seen, world, force, Elements(front), rel);
      assert paths == front + [rel];
      SkipsMeaning(ReparsedAll(t, world, force, front), seen, world, force, front, rel);
    }
  }

  // The table of files follows the files seen, whatever the other tables hold.
  lemma {:induction false} FilesPurged(t: Tables, seen: Seen, world: World, known: seq<string>)
    requires t.files == Mtimes(seen)
    ensures PurgedAll(t, world, known).files == Mtimes(Kept(seen, world, Elements(known)))
  {
    if known == [] {
      assert Kept(seen, world, {}) == seen && Elements([]) == {};
    } else {
      var front, rel := known[..|known| - 1], known[|known| - 1];
      FilesPurged(t, seen, world, front);
      assert known == front + [rel];
      ElementsGrow(front, rel);
      KeptStep(seen, world, Elements(front), rel);
      MtimesPurged(Kept(seen, world, Elements(front)), rel);
    }
  }

  lemma {:induction false} FilesReparsed(t: Tables, seen: Seen, world: World, force: bool, paths: seq<string>)
    requires t.files == Mtimes(seen)
    ensures ReparsedAll(t, world, force, paths).files == Mtimes(Updated(seen, world, force, Elements(paths)))
  {
    if paths == [] {
      assert Updated(seen, world, force, {}) == seen && Elements([]) == {};
    } else {
      var front, rel := paths[..|paths| - 1], paths[|paths| - 1];
      FilesReparsed(t, seen, world, force, front);
      assert paths == front + [rel];
      ElementsGrow(front, rel);
      FilesStep(ReparsedAll(t, world, force, front).files, seen, world, force, Elements(front), rel);
    }
  }

  lemma FilesStep(files: map<string, int>, seen: Seen, world: World, force: bool, done: set<string>, rel: string)
    requires files == Mtimes(Updated(seen, world, force, done))
    ensures Mtimes(Updated(seen, world, force, done + {rel})) ==
            if rel !in world.disk || (rel in files && files[rel] == world.disk[rel].mtime && !force) then files
            else (files - {rel})[rel := world.disk[rel].mtime]
  {
    if rel !in world.disk || (rel in files && files[rel] == world.disk[rel].mtime && !force) {
      SkippedStays(files, seen, world, force, done, rel);
    } else {
      var here := Updated(seen, world, force, done);
      UpdatedStep(seen, world, force, done, rel);
      MtimesInserted(here, rel, world.disk[rel]);
      MtimeReplaced(files, rel, world.disk[rel].mtime);
    }
  }

  lemma MtimeReplaced(files: map<string, int>, rel: string, mtime: int)
    ensures (files - {rel})[rel := mtime] == files[rel := mtime]
  {
  }

  lemma {:induction false} NothingPurged(t: Tables, world: World, known: seq<string>)
    requires forall rel :: rel in known ==> rel in world.listed
    ensures PurgedAll(t, world, known) == t
  {
    if known != [] {
      NothingPurged(t, world, known[..|known| - 1]);
    }
  }

  lemma {:induction false} NothingReparsed(t: Tables, world: World, force: bool, paths: seq<string>)
    requires !SomeReparsed(t, world, force, paths)
    ensures ReparsedAll(t, world, force, paths) == t
  {
    if paths != [] {
      NothingReparsed(t, world, force, paths[..|paths| - 1]);
    }
  }

  lemma SkipsMeaning(now: Tables, seen: Seen, world: World, force: bool, done: seq<string>, rel: string)
    requires now.files == Mtimes(Updated(seen, world, force, Elements(done)))
    ensures !Skips(now, world, force, rel) ==> Stale(seen, world, force, rel)
    ensures Stale(seen, world, force, rel) ==> !Skips(now, world, force, rel) || rel in done
  {
  }

  // The two loops together: the new tables are those of the new set of files.
  lemma BuildMeaning(t: Tables, seen: Seen, world: World, force: bool, known: seq<string>)
    requires Represents(t, seen) && Compatible(seen, world)
    requires Elements(known) == seen.Keys
    ensures Represents(ReparsedAll(PurgedAll(t, world, known), world, force, world.listed), NextSeen(seen, world, force))
  {
    var kept := Kept(seen, world, Elements(known));
    PurgedAllRepresents(t, seen, world, known);
    KeptIsCompatible(seen, world, Elements(known));
    ReparsedAllRepresents(PurgedAll(t, world, known), kept, world, force, world.listed);
    KeptMeaning(seen, world);
    UpdatedMeaning(seen, kept, world, force);
  }

  lemma ChangesMeaning(t: Tables, seen: Seen, world: World, force: bool, known: seq<string>)
    requires t.files == Mtimes(seen)
    requires Elements(known) == seen.Keys
    ensures Changes(seen, world, force) <==>
              (exists rel :: rel in known && rel !in world.listed)
              || SomeReparsed(PurgedAll(t, world, known), world, force, world.listed)
  {
    var kept := Kept(seen, world, Elements(known));
    FilesPurged(t, seen, world, known);
    SomeReparsedMeaning(PurgedAll(t, world, known), kept, world, force, world.listed);
    KeptMeaning(seen, world);
    UpdatedMeaning(seen, kept, world, force);
    SomeMissing(seen, world, known);
  }

  lemma SomeMissing(seen: Seen, world: World, known: seq<string>)
    requires Elements(known) == seen.Keys
    ensures (exists rel :: rel in known && rel !in world.listed) <==> (exists rel | rel in seen :: rel !in world.listed)
  {
    assert forall rel :: rel in known <==> rel in Elements(known);
  }

  // What a build leaves in the tables, and when it counts as a change.
  lemma BuildWorks(t: Tables, seen: Seen, world: World, force: bool, known: seq<string>, purged: bool, reparsed: bool)
    requires t.files == Mtimes(seen) && forall rel :: rel in known <==> rel in t.files
    requires purged <==> exists rel :: rel in known && rel !in world.listed
    requires reparsed <==> SomeReparsed(PurgedAll(t, world, known), world, force, world.listed)
    ensures var after := ReparsedAll(PurgedAll(t, world, known), world, force, world.listed);
            && after.files == Mtimes(NextSeen(seen, world, force))
            && (purged || reparsed <==> Changes(seen, world, force))
            && (!(purged || reparsed) ==> after == t)
  {
    KnownIsSeen(t.files, seen, known);
    var kept := Kept(seen, world, Elements(known));
    FilesPurged(t, seen, world, known);
    FilesReparsed(PurgedAll(t, world, known), kept, world, force, world.listed);
    KeptMeaning(seen, world);
    UpdatedMeaning(seen, kept, world, force);
    ChangesMeaning(t, seen, world, force, known);
    if !(purged || reparsed) {
      NothingPurged(t, world, known);
      NothingReparsed(t, world, force, world.listed);
    }
  }

  lemma KeptIsCompatible(seen: Seen, world: World, done: set<string>)
    requires Compatible(seen, world)
    ensures Compatible(Kept(seen, world, done), world)
  {
    var kept := Kept(seen, world, done);
    forall a, fileA, b, fileB | Version(kept, world, a, fileA) && Version(kept, world, b, fileB) && a != b
      ensures !Clash(a, fileA, b, fileB)
    {
      assert Version(seen, world, a, fileA) && Version(seen, world, b, fileB);
    }
  }

  // Files that do not clash keep their rows apart through a build.
  lemma BuildIsFaithful(seen: Seen, world: World, force: bool)
    requires Apart(seen) && Compatible(seen, world)
    ensures Apart(NextSeen(seen, world, force))
    ensures Built(TablesOf(seen), world, force) == TablesOf(NextSeen(seen, world, force))
  {
    TablesRepresent(TablesOf(seen), seen);
    BuiltRepresents(TablesOf(seen), seen, world, force);
    TablesRepresent(Built(TablesOf(seen), world, force), NextSeen(seen, world, force));
  }

  lemma BuiltRepresents(t: Tables, seen: Seen, world: World, force: bool)
    requires Represents(t, seen) && Compatible(seen, world)
    ensures Represents(Built(t, world, force), NextSeen(seen, world, force))
  {
    var known := SortedSet(seen.Keys);
    assert Elements(known) == seen.Keys == t.files.Keys;
    BuildMeaning(t, seen, world, force, known);
    BuiltByLoops(t, world, force, known);
  }

  lemma BuildKeepsFaithful(t: Tables, seen: Seen, world: World, force: bool)
    ensures Apart(seen) && t == TablesOf(seen) && Compatible(seen, world) ==>
              Apart(NextSeen(seen, world, force)) && Built(t, world, force) == TablesOf(NextSeen(seen, world, force))
  {
    if Apart(seen) && Compatible(seen, world) { BuildIsFaithful(seen, world, force); }
  }

  lemma KnownIsSeen(files: map<string, int>, seen: Seen, known: seq<string>)
    requires files == Mtimes(seen) && forall rel :: rel in known <==> rel in files
    ensures Elements(known) == seen.Keys
  {
  }

  ghost function Kept(seen: Seen, world: World, done: set<string>): Seen {
    map rel | rel in seen && (rel in done ==> rel in world.listed) :: seen[rel]
  }

  ghost function Updated(seen: Seen, world: World, force: bool, done: set<string>): Seen {
    map rel | rel in seen.Keys + done && (rel in seen || rel in world.disk) ::
      if rel in done && Stale(seen, world, force, rel) then world.disk[rel] else seen[rel]
  }

  lemma UpdatedStep(seen: Seen, world: World, force: bool, done: set<string>, rel: string)
    ensures Updated(seen, world, force, done + {rel}) ==
            if Stale(seen, world, force, rel) then Updated(seen, world, force, done)[rel := world.disk[rel]]
            else Updated(seen, world, force, done)
    ensures var now := Updated(seen, world, force, done);
            rel in world.disk && !Stale(seen, world, force, rel) ==> rel in now && now[rel].mtime == world.disk[rel].mtime
    ensures var now := Updated(seen, world, force, done);
            Stale(seen, world, force, rel) && !force && rel in now && now[rel].mtime == world.disk[rel].mtime ==> now[rel] == world.disk[rel]
  {
  }

  lemma KeptMeaning(seen: Seen, world: World)
    ensures Kept(seen, world, seen.Keys) == map rel | rel in seen && rel in world.listed :: seen[rel]
  {
  }

  lemma UpdatedMeaning(seen: Seen, kept: Seen, world: World, force: bool)
    requires kept == map rel | rel in seen && rel in world.listed :: seen[rel]
    ensures Updated(kept, world, force, Elements(world.listed)) == NextSeen(seen, world, force)
    ensures forall rel :: rel in world.listed ==> (Stale(kept, world, force, rel) <==> Stale(seen, world, force, rel))
  {
  }
}
