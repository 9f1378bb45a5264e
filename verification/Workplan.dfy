// The work plan: which task may run next, why a task is stuck, and whether a
// plan is well formed (src/mission_orchestrator/domain/workplan.py).
module Workplan {
  import opened TextOrder

  datatype Option<+T> = None | Some(value: T)

  datatype TaskStatus = Pending | Completed | Failed | Blocked

  // The texts a task carries as its failure reason.
  datatype Reason =
    | NoReason
    | DependencyFailed(dependency: string)
    | DependencyBlocked(dependency: string)
    | Unresolvable
    | Raised(detail: string)

  datatype Task = Task(
    id: string,
    status: TaskStatus,
    failureReason: Reason,
    covers: seq<string>,
    dependencies: seq<string>)

  type Graph = map<string, seq<string>>

  // ----- lookup by id: a later task replaces an earlier one with its id -----

  function ById(tasks: seq<Task>): (m: map<string, nat>)
    ensures forall d :: d in m ==> m[d] < |tasks| && tasks[m[d]].id == d
  {
    if tasks == [] then map[]
    else
      var n := |tasks| - 1;
      ById(tasks[..n])[tasks[n].id := n]
  }

  // The lookup finds a task exactly when no later one has its id.
  lemma {:induction false} LastWins(tasks: seq<Task>, i: nat)
    requires i < |tasks|
    ensures tasks[i].id in ById(tasks) && i <= ById(tasks)[tasks[i].id]
    ensures ById(tasks)[tasks[i].id] == i <==> forall j :: i < j < |tasks| ==> tasks[j].id != tasks[i].id
  {
    var n := |tasks| - 1;
    if i < n {
      LastWins(tasks[..n], i);
      assert forall j :: i < j < n ==> tasks[..n][j] == tasks[j];
    }
  }

  // ----- next_runnable_index and dependency_block_reason -----

  ghost predicate DependenciesDone(tasks: seq<Task>, i: nat)
    requires i < |tasks|
  {
    var byId := ById(tasks);
    forall d :: d in tasks[i].dependencies && d in byId ==> tasks[byId[d]].status.Completed?
  }

  ghost predicate Runnable(tasks: seq<Task>, i: nat)
    requires i < |tasks|
  {
    tasks[i].status.Pending? && DependenciesDone(tasks, i)
  }

  method NextRunnable(tasks: seq<Task>) returns (index: Option<nat>)
    ensures index.Some? ==> index.value < |tasks| && Runnable(tasks, index.value)
    ensures index.Some? ==> forall j: nat :: j < index.value ==> !Runnable(tasks, j)
    ensures index.None? ==> forall j: nat :: j < |tasks| ==> !Runnable(tasks, j)
  {
    var byId := ById(tasks);
    for i := 0 to |tasks|
      invariant forall j: nat :: j < i ==> !Runnable(tasks, j)
    {
      if tasks[i].status.Pending? {
        var done := true;
        for k := 0 to |tasks[i].dependencies|
          invariant done <==> forall d :: d in tasks[i].dependencies[..k] && d in byId ==> tasks[byId[d]].status.Completed?
        {
          var d := tasks[i].dependencies[k];
          if d in byId && !tasks[byId[d]].status.Completed? {
            done := false;
          }
        }
        assert tasks[i].dependencies[..|tasks[i].dependencies|] == tasks[i].dependencies;
        if done {
          return Some(i);
        }
      }
    }
    return None;
  }

  predicate Stops(status: TaskStatus) {
    status.Failed? || status.Blocked?
  }

  function Naming(dependency: string, status: TaskStatus): Reason {
    if status.Failed? then DependencyFailed(dependency) else DependencyBlocked(dependency)
  }

  // The reason names the first known dependency that failed or is blocked.
  ghost predicate IsBlockReason(task: Task, tasks: seq<Task>, byId: map<string, nat>, reason: Option<Reason>)
    requires forall d :: d in byId ==> byId[d] < |tasks|
  {
    && (reason.None? <==> forall d :: d in task.dependencies && d in byId ==> !Stops(tasks[byId[d]].status))
    && (reason.Some? ==> exists k: nat ::
          && k < |task.dependencies| && task.dependencies[k] in byId
          && (forall j: nat :: j < k && task.dependencies[j] in byId ==> !Stops(tasks[byId[task.dependencies[j]]].status))
          && Stops(tasks[byId[task.dependencies[k]]].status)
          && reason.value == Naming(task.dependencies[k], tasks[byId[task.dependencies[k]]].status))
  }

  method BlockReason(task: Task, tasks: seq<Task>, byId: map<string, nat>) returns (reason: Option<Reason>)
    requires forall d :: d in byId ==> byId[d] < |tasks|
    ensures IsBlockReason(task, tasks, byId, reason)
  {
    for k := 0 to |task.dependencies|
      invariant forall j: nat :: j < k && task.dependencies[j] in byId ==> !Stops(tasks[byId[task.dependencies[j]]].status)
    {
      var d := task.dependencies[k];
      if d in byId {
        if tasks[byId[d]].status.Failed? {
          return Some(DependencyFailed(d));
        }
        if tasks[byId[d]].status.Blocked? {
          return Some(DependencyBlocked(d));
        }
      }
    }
    return None;
  }

  // ----- the dependency graph and its closed paths -----

  function KnownOnly(dependencies: seq<string>, known: set<string>): (r: seq<string>)
    ensures forall d :: d in r <==> d in dependencies && d in known
  {
    if dependencies == [] then []
    else (if dependencies[0] in known then [dependencies[0]] else []) + KnownOnly(dependencies[1..], known)
  }

  function TaskIds(tasks: seq<Task>): set<string> {
    set t | t in tasks :: t.id
  }

  function DependencyGraph(tasks: seq<Task>): (g: Graph)
    ensures g.Keys == TaskIds(tasks)
    ensures Closed(g)
  {
    var byId := ById(tasks);
    assert forall t :: t in tasks ==> t.id in byId by {
      forall i | 0 <= i < |tasks| ensures tasks[i].id in byId { LastWins(tasks, i); }
    }
    map d | d in byId :: KnownOnly(tasks[byId[d]].dependencies, TaskIds(tasks))
  }

  ghost predicate Closed(g: Graph) {
    forall n, m :: n in g && m in g[n] ==> m in g
  }

  predicate Edge(g: Graph, n: string, m: string) {
    n in g && m in g[n]
  }

  // The edges lead from a task, the last one with its id, to the tasks that it
  // lists as dependencies.
  lemma GraphMeaning(tasks: seq<Task>, n: string, m: string)
    ensures Edge(DependencyGraph(tasks), n, m) <==>
            exists i :: 0 <= i < |tasks| && IsLastWith(tasks, i, n) && m in tasks[i].dependencies && exists t :: t in tasks && t.id == m
  {
    if Edge(DependencyGraph(tasks), n, m) {
      var i := ById(tasks)[n];
      LastWins(tasks, i);
      assert IsLastWith(tasks, i, n);
    }
    forall i | 0 <= i < |tasks| && IsLastWith(tasks, i, n) ensures n in ById(tasks) && ById(tasks)[n] == i {
      LastWins(tasks, i);
    }
  }

  predicate IsLastWith(tasks: seq<Task>, i: nat, id: string) {
    i < |tasks| && tasks[i].id == id && forall j :: i < j < |tasks| ==> tasks[j].id != id
  }

  ghost predicate IsPath(g: Graph, p: seq<string>) {
    forall i :: 0 <= i < |p| - 1 ==> Edge(g, p[i], p[i + 1])
  }

  ghost predicate ClosedPath(g: Graph, p: seq<string>) {
    |p| >= 2 && p[0] == p[|p| - 1] && IsPath(g, p)
  }

  ghost predicate NoRepeat<T>(s: seq<T>) {
    forall i, j :: 0 <= i < j < |s| ==> s[i] != s[j]
  }

  // A closed path that meets every other node once.
  ghost predicate SimpleCycle(g: Graph, p: seq<string>) {
    ClosedPath(g, p) && NoRepeat(p[1..])
  }

  ghost predicate Acyclic(g: Graph) {
    forall p :: !ClosedPath(g, p)
  }

  // Every node comes after all of its dependencies.
  ghost predicate Topological(g: Graph, order: seq<string>) {
    forall i :: 0 <= i < |order| ==> order[i] in g && forall m :: m in g[order[i]] ==> m in order[..i]
  }

  function IndexOf(s: seq<string>, x: string): (i: nat)
    requires x in s
    ensures i < |s| && s[i] == x && x !in s[..i]
  {
    if s[0] == x then 0
    else
      assert s == [s[0]] + s[1..];
      var i := 1 + IndexOf(s[1..], x);
      assert s[..i] == [s[0]] + s[1..][..i - 1];
      i
  }

  lemma {:induction false} OrderForbidsPaths(g: Graph, order: seq<string>, p: seq<string>, k: nat)
    requires Topological(g, order) && IsPath(g, p) && k < |p|
    requires p[0] in order
    ensures p[k] in order && IndexOf(order, p[k]) + k <= IndexOf(order, p[0])
  {
    if k > 0 {
      OrderForbidsPaths(g, order, p, k - 1);
      var i := IndexOf(order, p[k - 1]);
      assert Edge(g, p[k - 1], p[k]);
      assert p[k] in order[..i];
    }
  }

  lemma TopologicalMeansAcyclic(g: Graph, order: seq<string>)
    requires Topological(g, order) && forall n :: n in g ==> n in order
    ensures Acyclic(g)
  {
    forall p | ClosedPath(g, p) ensures false {
      assert Edge(g, p[0], p[1]);
      OrderForbidsPaths(g, order, p, |p| - 1);
    }
  }

  // ----- _find_cycles: a depth-first search with three colours -----

  datatype Colour = OnStack | Finished

  class CycleFinder {
    const graph: Graph
    var state: map<string, Colour>
    var stack: seq<string>
    var cycles: seq<seq<string>>
    ghost var finished: seq<string>

    ghost predicate Valid()
      reads this
    {
      && Closed(graph)
      && state.Keys <= graph.Keys
      && (forall n :: n in stack <==> n in state && state[n].OnStack?)
      && (forall n :: n in finished <==> n in state && state[n].Finished?)
      && NoRepeat(stack)
      && IsPath(graph, stack)
      && (forall c :: c in cycles ==> SimpleCycle(graph, c))
      && (cycles == [] ==> Topological(graph, finished))
    }

    constructor (graph: Graph)
      requires Closed(graph)
      ensures Valid() && this.graph == graph
      ensures state == map[] && stack == [] && cycles == []
    {
      this.graph := graph;
      state, stack, cycles, finished := map[], [], [], [];
    }

    // Everything already finished stays so; what was on the stack stays there.
    twostate predicate Extended()
      reads this
    {
      && stack == old(stack)
      && old(state).Keys <= state.Keys
      && old(finished) <= finished
      && old(cycles) <= cycles
    }

    // The two statements that open a visit.
    method Enter(node: string)
      requires Valid() && node in graph && node !in state
      requires stack != [] ==> Edge(graph, stack[|stack| - 1], node)
      modifies this
      ensures Valid() && stack == old(stack) + [node] && state == old(state)[node := OnStack]
      ensures cycles == old(cycles) && finished == old(finished)
    {
      state := state[node := OnStack];
      stack := stack + [node];
    }

    // A neighbor still on the stack closes a cycle.
    method Report(neighbor: string)
      requires Valid() && neighbor in stack
      requires Edge(graph, stack[|stack| - 1], neighbor)
      modifies this`cycles
      ensures Valid() && cycles != [] && old(cycles) <= cycles
    {
      var start := IndexOf(stack, neighbor);
      CycleIsSimple(graph, stack, start);
      cycles := cycles + [stack[start..] + [neighbor]];
    }

    // The two statements that close a visit.
    method Leave(node: string)
      requires Valid() && stack != [] && stack[|stack| - 1] == node && node in graph
      requires cycles == [] ==> forall m :: m in graph[node] ==> m in finished
      modifies this
      ensures Valid() && stack == old(stack)[..|old(stack)| - 1] && state == old(state)[node := Finished]
      ensures cycles == old(cycles) && finished == old(finished) + [node]
    {
      assert node in stack;
      stack := stack[..|stack| - 1];
      state := state[node := Finished];
      finished := finished + [node];
      assert forall i :: 0 <= i < |finished| - 1 ==> finished[..i] == old(finished)[..i];
      assert finished[..|old(finished)|] == old(finished);
      assert forall n :: n in old(stack) <==> n in stack || n == node;
    }

    method Visit(node: string)
      requires Valid()
      requires node in graph && node !in state
      requires stack != [] ==> Edge(graph, stack[|stack| - 1], node)
      modifies this
      ensures Valid() && Extended()
      ensures node in finished
      decreases graph.Keys - state.Keys
    {
      Enter(node);
      assert node in state;
      var neighbors := graph[node];
      for i := 0 to |neighbors|
        invariant Valid()
        invariant stack == old(stack) + [node]
        invariant old(state).Keys + {node} <= state.Keys
        invariant old(finished) <= finished && old(cycles) <= cycles
        invariant cycles == [] ==> forall m :: m in neighbors[..i] ==> m in finished
      {
        var neighbor := neighbors[i];
        assert Edge(graph, node, neighbor);
        if neighbor in state && state[neighbor].OnStack? {
          Report(neighbor);
        } else if neighbor !in state {
          Visit(neighbor);
        }
        assert neighbors[..i + 1] == neighbors[..i] + [neighbor];
      }
      assert neighbors[..|neighbors|] == neighbors;
      Leave(node);
      assert stack == old(stack);
    }

    // The loop over all tasks that starts a visit at every node not yet seen.
    method Run(order: seq<string>)
      requires Valid() && state == map[] && stack == [] && cycles == []
      requires forall n :: n in order <==> n in graph
      modifies this
      ensures forall c :: c in cycles ==> SimpleCycle(graph, c)
      ensures cycles == [] <==> Acyclic(graph)
    {
      for i := 0 to |order|
        invariant Valid() && stack == []
        invariant forall n :: n in order[..i] ==> n in finished
      {
        if order[i] !in state {
          Visit(order[i]);
        }
        assert order[i] in finished;
        assert order[..i + 1] == order[..i] + [order[i]];
      }
      assert order[..|order|] == order;
      if cycles == [] {
        TopologicalMeansAcyclic(graph, finished);
      } else {
        assert SimpleCycle(graph, cycles[0]);
      }
    }
  }

  lemma CycleIsSimple(g: Graph, stack: seq<string>, start: nat)
    requires start < |stack| && IsPath(g, stack) && NoRepeat(stack)
    requires Edge(g, stack[|stack| - 1], stack[start])
    ensures SimpleCycle(g, stack[start..] + [stack[start]])
  {
    var c := stack[start..] + [stack[start]];
    forall i | 0 <= i < |c| - 1 ensures Edge(g, c[i], c[i + 1]) {
      if i < |c| - 2 { assert c[i] == stack[start + i] && c[i + 1] == stack[start + i + 1]; }
    }
    forall i, j | 0 <= i < j < |c[1..]| ensures c[1..][i] != c[1..][j] {
      assert c[1..][i] == stack[start + i + 1];
    }
  }

  method FindCycles(tasks: seq<Task>) returns (cycles: seq<seq<string>>)
    ensures forall c :: c in cycles ==> SimpleCycle(DependencyGraph(tasks), c)
    ensures cycles == [] <==> Acyclic(DependencyGraph(tasks))
  {
    var finder := new CycleFinder(DependencyGraph(tasks));
    var order := seq(|tasks|, i requires 0 <= i < |tasks| => tasks[i].id);
    assert forall n :: n in order <==> n in TaskIds(tasks) by {
      forall n | n in TaskIds(tasks) ensures n in order {
        var t :| t in tasks && t.id == n;
        var i :| 0 <= i < |tasks| && tasks[i] == t;
        assert order[i] == n;
      }
    }
    finder.Run(order);
    cycles := finder.cycles;
  }

  // ----- validate_plan -----

  datatype PlanError =
    | SelfDependency(task: string)
    | UnknownDependency(task: string, dependency: string)
    | Uncovered(operation: string)
    | CoveredAgain(operation: string, owners: seq<string>)
    | UnknownOperation(owner: string, operation: string)
    | Cycle(path: seq<string>)

  // One entry for each time a task lists an operation, in order.
  function Claims(tasks: seq<Task>): seq<(string, string)> {
    if tasks == [] then []
    else
      var t := tasks[|tasks| - 1];
      Claims(tasks[..|tasks| - 1]) + ClaimsOf(t)
  }

  function Owners(claims: seq<(string, string)>, operation: string): seq<string> {
    if claims == [] then []
    else
      var last := claims[|claims| - 1];
      Owners(claims[..|claims| - 1], operation) + (if last.0 == operation then [last.1] else [])
  }

  ghost predicate Justified(operationIds: seq<string>, tasks: seq<Task>, e: PlanError) {
    match e
    case SelfDependency(id) => exists t :: t in tasks && t.id == id && id in t.dependencies
    case UnknownDependency(id, d) =>
      exists t :: t in tasks && t.id == id && d in t.dependencies && d != id && d !in TaskIds(tasks)
    case Cycle(path) => SimpleCycle(DependencyGraph(tasks), path)
    case _ => Miscovered(operationIds, Claims(tasks), e)
  }

  ghost predicate Miscovered(operationIds: seq<string>, claims: seq<(string, string)>, e: PlanError) {
    Unclaimed(operationIds, claims, e) || Uncalled(operationIds, claims, e)
  }

  // An operation of the changeset without exactly one owner.
  ghost predicate Unclaimed(operationIds: seq<string>, claims: seq<(string, string)>, e: PlanError) {
    && (e.Uncovered? || e.CoveredAgain?) && e.operation in operationIds
    && var owners := Owners(claims, e.operation);
       if e.Uncovered? then owners == [] else |owners| > 1 && e.owners == SortBy(Itself, owners)
  }

  // A claimed operation that the changeset does not have.
  ghost predicate Uncalled(operationIds: seq<string>, claims: seq<(string, string)>, e: PlanError) {
    && e.UnknownOperation? && e.operation !in operationIds
    && var owners := Owners(claims, e.operation);
       owners != [] && e.owner == owners[0]
  }

  predicate DependsOnOthers(t: Task, known: set<string>) {
    forall d :: d in t.dependencies ==> d != t.id && d in known
  }

  ghost predicate ValidPlan(operationIds: seq<string>, tasks: seq<Task>) {
    && (forall op :: op in operationIds ==> |Owners(Claims(tasks), op)| == 1)
    && (forall op :: op !in operationIds ==> Owners(Claims(tasks), op) == [])
    && (forall t :: t in tasks ==> DependsOnOthers(t, TaskIds(tasks)))
    && Acyclic(DependencyGraph(tasks))
  }

  ghost predicate CoverageMatches(coverage: map<string, seq<string>>, claims: seq<(string, string)>) {
    && (forall op :: op in coverage <==> Owners(claims, op) != [])
    && (forall op :: op in coverage ==> coverage[op] == Owners(claims, op))
  }

  // How often a task list claims an operation.
  function TimesClaimed(tasks: seq<Task>, operation: string): nat {
    if tasks == [] then 0
    else TimesClaimed(tasks[..|tasks| - 1], operation) + multiset(tasks[|tasks| - 1].covers)[operation]
  }

  lemma {:induction false} OwnersJoin(a: seq<(string, string)>, b: seq<(string, string)>, operation: string)
    ensures Owners(a + b, operation) == Owners(a, operation) + Owners(b, operation)
  {
    if b == [] {
      assert a + b == a;
    } else {
      OwnersJoin(a, b[..|b| - 1], operation);
      assert (a + b)[..|a + b| - 1] == a + b[..|b| - 1];
    }
  }

  lemma {:induction false} OwnersOfOne(t: Task, k: nat, operation: string)
    requires k <= |t.covers|
    ensures |Owners(ClaimsOf(t)[..k], operation)| == multiset(t.covers[..k])[operation]
    ensures forall id :: id in Owners(ClaimsOf(t)[..k], operation) ==> id == t.id
  {
    if k > 0 {
      OwnersOfOne(t, k - 1, operation);
      assert ClaimsOf(t)[..k][..k - 1] == ClaimsOf(t)[..k - 1];
      assert t.covers[..k] == t.covers[..k - 1] + [t.covers[k - 1]];
    }
  }

  lemma OwnersOfTask(t: Task, operation: string)
    ensures |Owners(ClaimsOf(t), operation)| == multiset(t.covers)[operation]
    ensures forall id :: id in Owners(ClaimsOf(t), operation) <==> id == t.id && operation in t.covers
  {
    OwnersOfOne(t, |t.covers|, operation);
    var own := Owners(ClaimsOf(t), operation);
    assert ClaimsOf(t)[..|t.covers|] == ClaimsOf(t) && t.covers[..|t.covers|] == t.covers;
    if operation in t.covers { assert |own| > 0 && own[0] in own; }
  }

  // There is one owner exactly when the operation is claimed once.
  lemma {:induction false} OwnersCount(tasks: seq<Task>, operation: string)
    ensures |Owners(Claims(tasks), operation)| == TimesClaimed(tasks, operation)
  {
    if tasks != [] {
      var front, t := tasks[..|tasks| - 1], tasks[|tasks| - 1];
      OwnersCount(front, operation);
      OwnersJoin(Claims(front), ClaimsOf(t), operation);
      OwnersOfTask(t, operation);
    }
  }

  // The owners of an operation are the tasks that list it.
  lemma {:induction false} OwnersMeaning(tasks: seq<Task>, operation: string, id: string)
    ensures id in Owners(Claims(tasks), operation) <==> exists t :: t in tasks && t.id == id && operation in t.covers
  {
    if tasks != [] {
      var front, t := tasks[..|tasks| - 1], tasks[|tasks| - 1];
      OwnersMeaning(front, operation, id);
      OwnersJoin(Claims(front), ClaimsOf(t), operation);
      OwnersOfTask(t, operation);
      assert tasks == front + [t];
    }
  }

  lemma CoverageGrows(coverage: map<string, seq<string>>, claims: seq<(string, string)>, op: string, id: string)
    requires CoverageMatches(coverage, claims)
    ensures CoverageMatches(coverage[op := (if op in coverage then coverage[op] else []) + [id]], claims + [(op, id)])
  {
    assert (claims + [(op, id)])[..|claims|] == claims;
  }

  function ClaimsOf(t: Task): seq<(string, string)> {
    seq(|t.covers|, i requires 0 <= i < |t.covers| => (t.covers[i], t.id))
  }

  method CollectCoverage(tasks: seq<Task>) returns (coverage: map<string, seq<string>>)
    ensures CoverageMatches(coverage, Claims(tasks))
  {
    coverage := map[];
    for i := 0 to |tasks|
      invariant CoverageMatches(coverage, Claims(tasks[..i]))
    {
      coverage := CoverTask(coverage, tasks[i], Claims(tasks[..i]));
      assert tasks[..i + 1][..i] == tasks[..i];
    }
    assert tasks[..|tasks|] == tasks;
  }

  // The inner loop: the operations that one task lists.
  method CoverTask(before: map<string, seq<string>>, t: Task, ghost claims: seq<(string, string)>)
    returns (coverage: map<string, seq<string>>)
    requires CoverageMatches(before, claims)
    ensures CoverageMatches(coverage, claims + ClaimsOf(t))
  {
    coverage := before;
    ghost var added, now := ClaimsOf(t), claims;
    for j := 0 to |t.covers|
      invariant now == claims + added[..j] && CoverageMatches(coverage, now)
    {
      var op := t.covers[j];
      CoverageGrows(coverage, now, op, t.id);
      coverage := coverage[op := (if op in coverage then coverage[op] else []) + [t.id]];
      now := now + [(op, t.id)];
      assert added[..j + 1] == added[..j] + [(op, t.id)];
    }
    assert added[..|t.covers|] == added;
  }

  method DependencyErrors(tasks: seq<Task>) returns (errors: seq<PlanError>)
    ensures forall e :: e in errors <==> (e.SelfDependency? || e.UnknownDependency?) && Justified([], tasks, e)
  {
    errors := [];
    var ids := TaskIds(tasks);
    for i := 0 to |tasks|
      invariant forall e :: e in errors <==> exists k, j :: 0 <= k < i && 0 <= j < |tasks[k].dependencies| && DependencyError(tasks, k, j) == Some(e)
    {
      for n := 0 to |tasks[i].dependencies|
        invariant forall e :: e in errors <==> exists k, j :: 0 <= k <= i && 0 <= j < |tasks[k].dependencies| && (k < i || j < n) && DependencyError(tasks, k, j) == Some(e)
      {
        var d := tasks[i].dependencies[n];
        ghost var before := errors;
        assert DependencyError(tasks, i, n) == (if d == tasks[i].id then Some(SelfDependency(d)) else if d !in ids then Some(UnknownDependency(tasks[i].id, d)) else None);
        if d == tasks[i].id {
          errors := errors + [SelfDependency(tasks[i].id)];
        } else if d !in ids {
          errors := errors + [UnknownDependency(tasks[i].id, d)];
        }
        forall e ensures e in errors <==> e in before || DependencyError(tasks, i, n) == Some(e) {}
      }
    }
    forall e: PlanError | e.SelfDependency? || e.UnknownDependency?
      ensures Justified([], tasks, e) <==> exists k, j :: 0 <= k < |tasks| && 0 <= j < |tasks[k].dependencies| && DependencyError(tasks, k, j) == Some(e)
    {
      DependencyErrorMeaning(tasks, e);
    }
  }

  ghost function DependencyError(tasks: seq<Task>, k: nat, j: nat): Option<PlanError>
    requires k < |tasks| && j < |tasks[k].dependencies|
  {
    var d := tasks[k].dependencies[j];
    if d == tasks[k].id then Some(SelfDependency(d))
    else if d !in TaskIds(tasks) then Some(UnknownDependency(tasks[k].id, d))
    else None
  }

  lemma DependencyErrorMeaning(tasks: seq<Task>, e: PlanError)
    requires e.SelfDependency? || e.UnknownDependency?
    ensures Justified([], tasks, e) <==>
            exists k, j :: 0 <= k < |tasks| && 0 <= j < |tasks[k].dependencies| && DependencyError(tasks, k, j) == Some(e)
  {
    if Justified([], tasks, e) {
      var d := if e.SelfDependency? then e.task else e.dependency;
      var t :| t in tasks && t.id == e.task && d in t.dependencies;
      var k :| 0 <= k < |tasks| && tasks[k] == t;
      var j :| 0 <= j < |t.dependencies| && t.dependencies[j] == d;
      assert DependencyError(tasks, k, j) == Some(e);
    }
    if k, j :| 0 <= k < |tasks| && 0 <= j < |tasks[k].dependencies| && DependencyError(tasks, k, j) == Some(e) {
      assert tasks[k] in tasks && tasks[k].dependencies[j] in tasks[k].dependencies;
      if tasks[k].dependencies[j] == tasks[k].id { assert tasks[k].id in TaskIds(tasks); }
    }
  }

  // The complaint, if any, about an operation of the changeset.
  method OwnersErrors(op: string, owners: seq<string>) returns (errors: seq<PlanError>)
    ensures forall e :: e in errors <==>
              || (e == Uncovered(op) && owners == [])
              || (e == CoveredAgain(op, SortBy(Itself, owners)) && |owners| > 1)
  {
    errors := if owners == [] then [Uncovered(op)]
              else if |owners| > 1 then [CoveredAgain(op, SortBy(Itself, owners))]
              else [];
  }

  method ExpectedErrors(operationIds: seq<string>, ghost claims: seq<(string, string)>, coverage: map<string, seq<string>>)
    returns (errors: seq<PlanError>)
    requires CoverageMatches(coverage, claims)
    ensures forall e :: e in errors <==> Unclaimed(operationIds, claims, e)
  {
    errors := [];
    var wanted := SortedList(set op | op in operationIds);
    for i := 0 to |wanted|
      invariant forall e :: e in errors <==>
                  Unclaimed(operationIds, claims, e) && e.operation in wanted[..i]
    {
      var op := wanted[i];
      var more := OwnersErrors(op, if op in coverage then coverage[op] else []);
      assert op in wanted && op in operationIds;
      assert wanted[..i + 1] == wanted[..i] + [op];
      errors := errors + more;
    }
    assert wanted[..|wanted|] == wanted;
  }

  method UnexpectedErrors(operationIds: seq<string>, ghost claims: seq<(string, string)>, coverage: map<string, seq<string>>)
    returns (errors: seq<PlanError>)
    requires CoverageMatches(coverage, claims)
    ensures forall e :: e in errors <==> Uncalled(operationIds, claims, e)
  {
    errors := [];
    var covered := SortedList(coverage.Keys);
    for i := 0 to |covered|
      invariant forall e :: e in errors <==>
                  Uncalled(operationIds, claims, e) && e.operation in covered[..i]
    {
      var op := covered[i];
      assert op in covered;
      if op !in operationIds {
        errors := errors + [UnknownOperation(coverage[op][0], op)];
      }
      assert covered[..i + 1] == covered[..i] + [op];
    }
    assert covered[..|covered|] == covered;
  }

  method CoverageErrors(operationIds: seq<string>, tasks: seq<Task>) returns (errors: seq<PlanError>)
    ensures forall e :: e in errors <==>
              (e.Uncovered? || e.CoveredAgain? || e.UnknownOperation?) && Justified(operationIds, tasks, e)
  {
    var coverage := CollectCoverage(tasks);
    var expected := ExpectedErrors(operationIds, Claims(tasks), coverage);
    var unexpected := UnexpectedErrors(operationIds, Claims(tasks), coverage);
    errors := expected + unexpected;
  }

  method ValidatePlan(operationIds: seq<string>, tasks: seq<Task>) returns (errors: seq<PlanError>)
    ensures forall e :: e in errors ==> Justified(operationIds, tasks, e)
    ensures forall e: PlanError :: !e.Cycle? && Justified(operationIds, tasks, e) ==> e in errors
    ensures errors == [] <==> ValidPlan(operationIds, tasks)
  {
    var dependency := DependencyErrors(tasks);
    var coverage := CoverageErrors(operationIds, tasks);
    var cycles := FindCycles(tasks);
    var reported := seq(|cycles|, i requires 0 <= i < |cycles| => Cycle(cycles[i]));
    errors := dependency + coverage + reported;
    assert cycles != [] ==> reported[0] in errors;
    forall e | e in errors ensures Justified(operationIds, tasks, e) {
      if e in reported {
        var i :| 0 <= i < |reported| && reported[i] == e;
        assert cycles[i] in cycles;
      }
    }
    forall e: PlanError | !e.Cycle? && Justified(operationIds, tasks, e) ensures e in errors {
      assert e in dependency || e in coverage;
    }
    if errors != [] {
      assert errors[0] in errors;
      if ValidPlan(operationIds, tasks) { ValidMeansFaultless(operationIds, tasks, errors[0]); }
    } else if !ValidPlan(operationIds, tasks) {
      var e := SomeFault(operationIds, tasks);
    }
  }

  // A plan that is acyclic but not valid has an error of another kind.
  lemma SomeFault(operationIds: seq<string>, tasks: seq<Task>) returns (e: PlanError)
    requires Acyclic(DependencyGraph(tasks)) && !ValidPlan(operationIds, tasks)
    ensures !e.Cycle? && Justified(operationIds, tasks, e)
  {
    var claims := Claims(tasks);
    if op :| op in operationIds && |Owners(claims, op)| != 1 {
      e := if Owners(claims, op) == [] then Uncovered(op)
           else CoveredAgain(op, SortBy(Itself, Owners(claims, op)));
    } else if op :| op !in operationIds && Owners(claims, op) != [] {
      e := UnknownOperation(Owners(claims, op)[0], op);
    } else {
      var t :| t in tasks && !DependsOnOthers(t, TaskIds(tasks));
      var d :| d in t.dependencies && !(d != t.id && d in TaskIds(tasks));
      e := if d == t.id then SelfDependency(d) else UnknownDependency(t.id, d);
    }
  }

  lemma ValidMeansFaultless(operationIds: seq<string>, tasks: seq<Task>, e: PlanError)
    requires ValidPlan(operationIds, tasks)
    ensures !Justified(operationIds, tasks, e)
  {
    var known := TaskIds(tasks);
    forall t | t in tasks
      ensures t.id !in t.dependencies
      ensures forall d :: d in t.dependencies ==> d in known
    {
      assert DependsOnOthers(t, known);
    }
  }
}
