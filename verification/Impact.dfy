// The impact analysis of the command line: which nodes depend on a node,
// directly or through others
// (src/mission_orchestrator/adapters/analysis/cli.py, sqlite_graph.py).
module Impact {
  import opened TextOrder
  import opened CodeGraph

  // (source, target, relation): a row of the edges or of the lexical references.
  type Link = (string, string, Relation)

  // The relations in the order of their names.
  const BY_NAME := [Calls, Defines, Imports, Inherits, References]

  function Sources(links: set<Link>, node: string, relation: Relation): set<string> {
    set e | e in links && e.1 == node && e.2 == relation :: e.0
  }

  function Labelled(sources: seq<string>, relation: Relation): seq<(string, Relation)> {
    seq(|sources|, i requires 0 <= i < |sources| => (sources[i], relation))
  }

  function RowsFor(links: set<Link>, node: string, relations: seq<Relation>): seq<(string, Relation)> {
    if relations == [] then []
    else Labelled(SortedSet(Sources(links, node, relations[0])), relations[0]) + RowsFor(links, node, relations[1..])
  }

  // SELECT source, relation ... UNION ... ORDER BY relation, source.
  function Dependents(links: set<Link>, node: string): seq<(string, Relation)> {
    RowsFor(links, node, BY_NAME)
  }

  lemma {:induction false} RowsForMeaning(links: set<Link>, node: string, relations: seq<Relation>, row: (string, Relation))
    ensures row in RowsFor(links, node, relations) <==> row.1 in relations && (row.0, node, row.1) in links
  {
    if relations != [] {
      RowsForMeaning(links, node, relations[1..], row);
      var sources := SortedSet(Sources(links, node, relations[0]));
      var here := Labelled(sources, relations[0]);
      if row in here {
        var i :| 0 <= i < |here| && here[i] == row;
        assert sources[i] in Sources(links, node, relations[0]);
      }
      if row.1 == relations[0] && (row.0, node, row.1) in links {
        assert row.0 in sources;
        var i :| 0 <= i < |sources| && sources[i] == row.0;
        assert here[i] == row;
      }
    }
  }

  function Rank(relation: Relation): nat {
    match relation
    case Calls => 0
    case Defines => 1
    case Imports => 2
    case Inherits => 3
    case References => 4
  }

  // ORDER BY relation, source, with no row twice.
  predicate Before(a: (string, Relation), b: (string, Relation)) {
    Rank(a.1) < Rank(b.1) || (a.1 == b.1 && a.0 != b.0 && Leq(a.0, b.0))
  }

  ghost predicate InOrder(rows: seq<(string, Relation)>) {
    forall i, j :: 0 <= i < j < |rows| ==> Before(rows[i], rows[j])
  }

  lemma LabelledInOrder(sources: set<string>, relation: Relation)
    ensures InOrder(Labelled(SortedSet(sources), relation))
  {
    SortedSetAscends(sources);
    SortedSetDistinct(sources);
    var r := SortedSet(sources);
    forall i, j | 0 <= i < j < |r| ensures Before((r[i], relation), (r[j], relation)) {
      assert Leq(Itself(r[i]), Itself(r[j]));
    }
  }

  lemma OrderJoins(a: seq<(string, Relation)>, b: seq<(string, Relation)>, relation: Relation)
    requires InOrder(a) && InOrder(b)
    requires (forall row :: row in a ==> row.1 == relation) && (forall row :: row in b ==> Rank(relation) < Rank(row.1))
    ensures InOrder(a + b)
  {
    var rows := a + b;
    forall i, j | 0 <= i < j < |rows| ensures Before(rows[i], rows[j]) {
      if i < |a| && j >= |a| {
        assert rows[i] in a && rows[j] in b;
      }
    }
  }

  lemma {:induction false} RowsInOrder(links: set<Link>, node: string, relations: seq<Relation>)
    requires forall i, j :: 0 <= i < j < |relations| ==> Rank(relations[i]) < Rank(relations[j])
    ensures InOrder(RowsFor(links, node, relations))
  {
    if relations != [] {
      var rest := relations[1..];
      RowsInOrder(links, node, rest);
      LabelledInOrder(Sources(links, node, relations[0]), relations[0]);
      forall row | row in RowsFor(links, node, rest) ensures Rank(relations[0]) < Rank(row.1) {
        RowsForMeaning(links, node, rest, row);
        var i :| 0 <= i < |rest| && rest[i] == row.1;
        assert relations[i + 1] == row.1;
      }
      OrderJoins(Labelled(SortedSet(Sources(links, node, relations[0])), relations[0]), RowsFor(links, node, rest), relations[0]);
    }
  }

  // By relation and then by source, each once.
  lemma DependentsInOrder(links: set<Link>, node: string)
    ensures InOrder(Dependents(links, node))
  {
    assert |BY_NAME| == 5;
    RowsInOrder(links, node, BY_NAME);
  }

  // The query answers with exactly the links into the node.
  lemma DependentsMeaning(links: set<Link>, node: string, row: (string, Relation))
    ensures row in Dependents(links, node) <==> (row.0, node, row.1) in links
  {
    RowsForMeaning(links, node, BY_NAME, row);
    assert BY_NAME[0] == Calls && BY_NAME[1] == Defines && BY_NAME[2] == Imports && BY_NAME[3] == Inherits && BY_NAME[4] == References;
  }

  // ----- dependence through one or more links -----

  ghost predicate Linked(links: set<Link>, source: string, target: string) {
    exists e | e in links :: e.0 == source && e.1 == target
  }

  ghost predicate Chain(links: set<Link>, path: seq<string>) {
    |path| >= 2 && forall i, next | 0 <= i && next == i + 1 && next < |path| :: Linked(links, path[i], path[next])
  }

  ghost predicate DependsOn(links: set<Link>, source: string, target: string) {
    exists path :: Chain(links, path) && path[0] == source && path[|path| - 1] == target
  }

  lemma OneLink(links: set<Link>, source: string, target: string)
    requires Linked(links, source, target)
    ensures DependsOn(links, source, target)
  {
    assert Chain(links, [source, target]);
  }

  lemma OneMoreLink(links: set<Link>, source: string, through: string, target: string)
    requires Linked(links, source, through) && DependsOn(links, through, target)
    ensures DependsOn(links, source, target)
  {
    var path :| Chain(links, path) && path[0] == through && path[|path| - 1] == target;
    var longer := [source] + path;
    forall i, next | 0 <= i && next == i + 1 && next < |longer| ensures Linked(links, longer[i], longer[next]) {
      if i > 0 { assert Linked(links, path[i - 1], path[next - 1]); }
    }
    assert Chain(links, longer);
  }

  // A set that takes in every source of its own members and of the start
  // holds everything that depends on the start.
  lemma {:induction false} ClosedCatches(links: set<Link>, start: string, found: set<string>, path: seq<string>)
    requires forall e | e in links && (e.1 == start || e.1 in found) :: e.0 in found
    requires Chain(links, path) && path[|path| - 1] == start
    ensures path[0] in found
    decreases |path|
  {
    assert Linked(links, path[0], path[1]);
    if |path| > 2 {
      forall i, next | 0 <= i && next == i + 1 && next < |path[1..]| ensures Linked(links, path[1..][i], path[1..][next]) {
        assert Linked(links, path[i + 1], path[next + 1]);
      }
      ClosedCatches(links, start, found, path[1..]);
    }
  }

  // ----- the worklist -----

  ghost function Printed(lines: seq<(string, Relation)>): set<string> {
    set i | 0 <= i < |lines| :: lines[i].0
  }

  predicate NoneTwice(lines: seq<(string, Relation)>) {
    forall i, j :: 0 <= i < j < |lines| ==> lines[i].0 != lines[j].0
  }

  // The line names a link into the start or into a node of an earlier line.
  predicate Explained(links: set<Link>, start: string, lines: seq<(string, Relation)>, i: nat)
    requires i < |lines|
  {
    || (lines[i].0, start, lines[i].1) in links
    || exists j | 0 <= j < i :: (lines[i].0, lines[j].0, lines[i].1) in links
  }

  predicate AllExplained(links: set<Link>, start: string, lines: seq<(string, Relation)>) {
    forall i | 0 <= i < |lines| :: Explained(links, start, lines, i)
  }

  // What holds between any two pops: only nodes on the frontier have sources
  // that were not yet seen.
  ghost predicate Explored(links: set<Link>, start: string, seen: set<string>, frontier: seq<string>) {
    forall e | e in links && (e.1 == start || e.1 in seen) && e.1 !in frontier :: e.0 in seen
  }

  lemma {:induction false} ExplainedDepends(links: set<Link>, start: string, lines: seq<(string, Relation)>, i: nat)
    requires AllExplained(links, start, lines) && i < |lines|
    ensures DependsOn(links, lines[i].0, start)
  {
    assert Explained(links, start, lines, i);
    if (lines[i].0, start, lines[i].1) in links {
      OneLink(links, lines[i].0, start);
    } else {
      var j :| 0 <= j < i && (lines[i].0, lines[j].0, lines[i].1) in links;
      ExplainedDepends(links, start, lines, j);
      OneMoreLink(links, lines[i].0, lines[j].0, start);
    }
  }

  lemma ExplainedGrows(links: set<Link>, start: string, lines: seq<(string, Relation)>, node: string, row: (string, Relation))
    requires AllExplained(links, start, lines) && (row.0, node, row.1) in links
    requires node == start || node in Printed(lines)
    ensures AllExplained(links, start, lines + [row])
  {
    var more := lines + [row];
    forall i | 0 <= i < |more| ensures Explained(links, start, more, i) {
      if i < |lines| {
        assert Explained(links, start, lines, i);
        if (more[i].0, start, more[i].1) !in links {
          var j :| 0 <= j < i && (lines[i].0, lines[j].0, lines[i].1) in links;
          assert more[j] == lines[j];
        }
      } else if node != start {
        var j :| 0 <= j < |lines| && lines[j].0 == node;
        assert more[j].0 == node;
      }
    }
  }

  lemma PrintedGrows(lines: seq<(string, Relation)>, row: (string, Relation))
    ensures Printed(lines + [row]) == Printed(lines) + {row.0}
  {
    var more := lines + [row];
    forall x | x in Printed(lines) + {row.0} ensures x in Printed(more) {
      if x in Printed(lines) {
        var i :| 0 <= i < |lines| && lines[i].0 == x;
        assert more[i].0 == x;
      } else {
        assert more[|lines|].0 == x;
      }
    }
  }

  lemma LessIsLeft(universe: set<string>, known: set<string>, seen: set<string>)
    requires known <= seen <= universe
    ensures |universe - seen| <= |universe - known|
    ensures known != seen ==> |universe - seen| < |universe - known|
  {
    var found := seen - known;
    assert universe - known == (universe - seen) + found;
  }

  lemma AllAndOnly(links: set<Link>, start: string, lines: seq<(string, Relation)>)
    requires AllExplained(links, start, lines) && Explored(links, start, Printed(lines), [])
    ensures forall x :: x in Printed(lines) <==> DependsOn(links, x, start)
  {
    forall x ensures x in Printed(lines) <==> DependsOn(links, x, start) {
      if x in Printed(lines) {
        var i :| 0 <= i < |lines| && lines[i].0 == x;
        ExplainedDepends(links, start, lines, i);
      }
      if DependsOn(links, x, start) {
        var path :| Chain(links, path) && path[0] == x && path[|path| - 1] == start;
        ClosedCatches(links, start, Printed(lines), path);
      }
    }
  }

  // The nodes printed are exactly those that depend on the start: each once,
  // each explained by the lines before it, the start among them exactly when
  // it lies on a cycle.
  method ImpactAnalysis(links: set<Link>, start: string) returns (lines: seq<(string, Relation)>)
    ensures NoneTwice(lines) && AllExplained(links, start, lines)
    ensures forall x :: x in Printed(lines) <==> DependsOn(links, x, start)
  {
    lines := [];
    var seen: set<string>, frontier := {}, [start];
    ghost var universe := set e | e in links :: e.0;
    while frontier != []
      invariant seen == Printed(lines) && seen <= universe
      invariant NoneTwice(lines) && AllExplained(links, start, lines)
      invariant forall x :: x in frontier ==> x == start || x in seen
      invariant Explored(links, start, seen, frontier)
      decreases |universe - seen|, |frontier|
    {
      var node := frontier[|frontier| - 1];
      ghost var known := seen;
      lines, seen, frontier := Visit(links, start, node, lines, seen, frontier[..|frontier| - 1]);
      LessIsLeft(universe, known, seen);
    }
    AllAndOnly(links, start, lines);
  }

  // The inner loop: one node's dependents.
  method Visit(links: set<Link>, start: string, node: string, before: seq<(string, Relation)>, known: set<string>, waiting: seq<string>)
    returns (lines: seq<(string, Relation)>, seen: set<string>, frontier: seq<string>)
    requires known == Printed(before) && NoneTwice(before) && AllExplained(links, start, before)
    requires node == start || node in known
    requires forall x :: x in waiting ==> x == start || x in known
    requires Explored(links, start, known, waiting + [node])
    requires known <= set e | e in links :: e.0
    ensures seen == Printed(lines) && NoneTwice(lines) && AllExplained(links, start, lines)
    ensures forall x :: x in frontier ==> x == start || x in seen
    ensures Explored(links, start, seen, frontier)
    ensures known <= seen <= set e | e in links :: e.0
    ensures known == seen ==> frontier == waiting
  {
    lines, seen, frontier := before, known, waiting;
    var rows := Dependents(links, node);
    for k := 0 to |rows|
      invariant seen == Printed(lines) && NoneTwice(lines) && AllExplained(links, start, lines)
      invariant known <= seen <= set e | e in links :: e.0
      invariant known == seen ==> frontier == waiting
      invariant forall x :: x in waiting ==> x in frontier
      invariant forall x :: x in frontier ==> x == start || x in seen
      invariant forall x :: x in seen && x !in known ==> x in frontier
      invariant forall j :: 0 <= j < k ==> rows[j].0 in seen
    {
      var row := rows[k];
      assert row in rows;
      DependentsMeaning(links, node, row);
      if row.0 !in seen {
        ExplainedGrows(links, start, lines, node, row);
        PrintedGrows(lines, row);
        seen, frontier, lines := seen + {row.0}, frontier + [row.0], lines + [row];
      }
    }
    forall e | e in links && (e.1 == start || e.1 in seen) && e.1 !in frontier ensures e.0 in seen {
      if e.1 == node {
        DependentsMeaning(links, node, (e.0, e.2));
        var j :| 0 <= j < |rows| && rows[j] == (e.0, e.2);
      }
    }
  }
}
