// The task graph of services/task-graph-engine (graph.py): which tasks are ready, and where
// scheduling ready tasks one after another leads.
module TaskGraph {
  import opened Common
  import opened OrderedDict
  import opened Sorting
  import opened Decomposer

  // From a task to one that depends on it.
  type Edge = (TaskId, TaskId)

  type Nodes = Dict<TaskId, Task>

  function NodesOf(tasks: seq<Task>): Nodes {
    if tasks == [] then []
    else
      var t := tasks[|tasks| - 1];
      Put(NodesOf(tasks[..|tasks| - 1]), t.id, t)
  }

  function Keys(nodes: Nodes): set<TaskId> { set p | p in nodes :: p.key }

  // Dependencies on tasks that are not in the graph are skipped.
  function EdgesOf(tasks: seq<Task>, known: set<TaskId>): set<Edge> {
    set t, d | t in tasks && d in t.dependencies && d in known :: (d, t.id)
  }

  predicate IsReady(nodes: set<TaskId>, edges: set<Edge>, done: set<TaskId>, id: TaskId) {
    id in nodes && id !in done && forall e | e in edges && e.1 == id :: e.0 in done
  }

  // The k-th node with its priority, which ready tasks are sorted by.
  function At(nodes: Nodes, k: nat): Keyed<TaskId>
    requires k < |nodes|
  {
    Keyed(nodes[k].value.priority as real, k, nodes[k].key)
  }

  function ReadySet(nodes: set<TaskId>, edges: set<Edge>, done: set<TaskId>): set<TaskId> {
    set id | id in nodes && IsReady(nodes, edges, done, id)
  }

  // The wanted tasks among the first n nodes, in insertion order.
  function Among(nodes: Nodes, n: nat, wanted: set<TaskId>): seq<Keyed<TaskId>>
    requires n <= |nodes|
  {
    if n == 0 then []
    else Among(nodes, n - 1, wanted) + if nodes[n - 1].key in wanted then [At(nodes, n - 1)] else []
  }

  function Items(s: seq<Keyed<TaskId>>): seq<TaskId> { seq(|s|, i requires 0 <= i < |s| => s[i].item) }

  function ByPriority(nodes: Nodes, wanted: set<TaskId>): seq<TaskId> {
    Items(SortDescending(Among(nodes, |nodes|, wanted)))
  }

  class TaskDag {
    var nodes: Nodes
    var edges: set<Edge>

    ghost predicate Valid()
      reads this
    {
      Distinct(nodes)
    }

    constructor FromTasks(tasks: seq<Task>)
      ensures Valid() && nodes == NodesOf(tasks) && edges == EdgesOf(tasks, Keys(nodes))
    {
      nodes := [];
      edges := {};
      new;
      var i := 0;
      while i < |tasks|
        invariant 0 <= i <= |tasks| && Distinct(nodes) && nodes == NodesOf(tasks[..i]) && edges == {}
      {
        assert tasks[..i + 1][..i] == tasks[..i];
        PutKeeps(nodes, tasks[i].id, tasks[i], tasks[i].id, tasks[i]);
        nodes := Put(nodes, tasks[i].id, tasks[i]);
        i := i + 1;
      }
      assert tasks[..i] == tasks;
      var known := Keys(nodes);
      i := 0;
      while i < |tasks|
        invariant 0 <= i <= |tasks| && Distinct(nodes) && nodes == NodesOf(tasks) && known == Keys(nodes)
        invariant edges == EdgesOf(tasks[..i], known)
      {
        var t := tasks[i];
        var incoming := set d | d in t.dependencies && d in known :: (d, t.id);
        OneMoreTask(tasks, i, known);
        edges := edges + incoming;
        i := i + 1;
      }
      assert tasks[..i] == tasks;
    }

    method GetReadyTasks(done: set<TaskId>) returns (ready: seq<TaskId>)
      ensures ready == ByPriority(nodes, ReadySet(Keys(nodes), edges, done))
    {
      var found: seq<Keyed<TaskId>> := [];
      var i := 0;
      while i < |nodes|
        invariant 0 <= i <= |nodes| && found == Among(nodes, i, ReadySet(Keys(nodes), edges, done))
      {
        var id := nodes[i].key;
        assert nodes[i] in nodes;
        if id !in done {
          var predecessors := set e | e in edges && e.1 == id :: e.0;
          assert forall e | e in edges && e.1 == id :: e.0 in predecessors;
          if predecessors <= done {
            found := found + [Keyed(nodes[i].value.priority as real, i, id)];
          }
        }
        i := i + 1;
      }
      ready := Items(SortDescending(found));
    }
  }

  lemma OneMoreTask(tasks: seq<Task>, i: nat, known: set<TaskId>)
    requires i < |tasks|
    ensures EdgesOf(tasks[..i + 1], known)
         == EdgesOf(tasks[..i], known) + set d | d in tasks[i].dependencies && d in known :: (d, tasks[i].id)
  {
    assert tasks[..i + 1] == tasks[..i] + [tasks[i]];
  }

  // ------------------------------------------------------------ ready tasks

  lemma {:induction false} AmongMembers(nodes: Nodes, n: nat, wanted: set<TaskId>)
    requires n <= |nodes|
    ensures var r := Among(nodes, n, wanted);
            && Placed(r)
            && (forall x | x in r :: x.place < n && x == At(nodes, x.place) && x.item in wanted)
            && (forall k | 0 <= k < n && nodes[k].key in wanted :: At(nodes, k) in r)
  {
    if n > 0 {
      var rest := Among(nodes, n - 1, wanted);
      AmongMembers(nodes, n - 1, wanted);
      forall i | 0 <= i < |rest| ensures rest[i].place < n - 1 { assert rest[i] in rest; }
    }
  }

  function PriorityOf(nodes: Nodes, id: TaskId): int
    requires Has(nodes, id)
  {
    nodes[Find(nodes, id)].value.priority
  }

  // The list holds the wanted nodes, and only those.
  ghost predicate ListsWanted(s: seq<Keyed<TaskId>>, nodes: Nodes, wanted: set<TaskId>) {
    && (forall i | 0 <= i < |s| ::
          s[i].place < |nodes| && s[i] == At(nodes, s[i].place) && s[i].item in wanted)
    && (forall k | 0 <= k < |nodes| && nodes[k].key in wanted :: At(nodes, k) in s)
  }

  lemma SortedListsWanted(nodes: Nodes, wanted: set<TaskId>)
    ensures var sorted := SortDescending(Among(nodes, |nodes|, wanted));
            Ordered(sorted) && ListsWanted(sorted, nodes, wanted)
  {
    var found := Among(nodes, |nodes|, wanted);
    var sorted := SortDescending(found);
    AmongMembers(nodes, |nodes|, wanted);
    SortOrders(found);
    forall x ensures x in sorted <==> x in found {
      assert x in multiset(sorted) <==> x in multiset(found);
    }
  }

  lemma ListedMembers(s: seq<Keyed<TaskId>>, nodes: Nodes, wanted: set<TaskId>, id: TaskId)
    requires ListsWanted(s, nodes, wanted) && wanted <= Keys(nodes)
    ensures id in Items(s) <==> id in wanted
  {
    if id in wanted {
      assert id in Keys(nodes);
      var p :| p in nodes && p.key == id;
      var k :| 0 <= k < |nodes| && nodes[k] == p;
      assert At(nodes, k) in s;
      var i :| 0 <= i < |s| && s[i] == At(nodes, k);
      assert Items(s)[i] == id;
    }
  }

  lemma ListedOrder(s: seq<Keyed<TaskId>>, nodes: Nodes, wanted: set<TaskId>, i: nat, j: nat)
    requires Distinct(nodes) && ListsWanted(s, nodes, wanted) && Ordered(s) && i < j < |s|
    ensures s[i].item != s[j].item && Has(nodes, s[i].item) && Has(nodes, s[j].item)
    ensures PriorityOf(nodes, s[i].item) >= PriorityOf(nodes, s[j].item)
  {
    FindIs(nodes, s[i].item, s[i].place);
    FindIs(nodes, s[j].item, s[j].place);
    assert Precedes(s[i], s[j]);
  }

  // None twice, the most urgent first.
  ghost predicate MostUrgentFirst(nodes: Nodes, ids: seq<TaskId>) {
    forall i, j | 0 <= i < j < |ids| ::
      && ids[i] != ids[j] && Has(nodes, ids[i]) && Has(nodes, ids[j])
      && PriorityOf(nodes, ids[i]) >= PriorityOf(nodes, ids[j])
  }

  /** The ready list holds exactly the tasks that are not done but whose dependencies all are,
      none twice, the most urgent first. */
  lemma ReadyListIsExact(nodes: Nodes, edges: set<Edge>, done: set<TaskId>)
    requires Distinct(nodes)
    ensures var r := ByPriority(nodes, ReadySet(Keys(nodes), edges, done));
            && (forall id :: id in r <==> IsReady(Keys(nodes), edges, done, id))
            && MostUrgentFirst(nodes, r)
  {
    var wanted := ReadySet(Keys(nodes), edges, done);
    var sorted := SortDescending(Among(nodes, |nodes|, wanted));
    SortedListsWanted(nodes, wanted);
    forall id ensures id in Items(sorted) <==> IsReady(Keys(nodes), edges, done, id) {
      ListedMembers(sorted, nodes, wanted, id);
    }
    ListedMostUrgentFirst(sorted, nodes, wanted);
  }

  lemma ListedMostUrgentFirst(s: seq<Keyed<TaskId>>, nodes: Nodes, wanted: set<TaskId>)
    requires Distinct(nodes) && ListsWanted(s, nodes, wanted) && Ordered(s)
    ensures MostUrgentFirst(nodes, Items(s))
  {
    forall i, j | 0 <= i < j < |s|
      ensures s[i].item != s[j].item && Has(nodes, s[i].item) && Has(nodes, s[j].item)
      ensures PriorityOf(nodes, s[i].item) >= PriorityOf(nodes, s[j].item)
    {
      ListedOrder(s, nodes, wanted, i, j);
    }
  }

  // ------------------------------------------------------------ runs

  function Done(run: seq<TaskId>): set<TaskId> { set id | id in run }

  // Tasks finished one after another, each of them ready when its turn came.
  ghost predicate Legal(nodes: set<TaskId>, edges: set<Edge>, run: seq<TaskId>) {
    run == [] || (&& Legal(nodes, edges, run[..|run| - 1])
                  && IsReady(nodes, edges, Done(run[..|run| - 1]), run[|run| - 1]))
  }

  // Nothing is ready any more.
  ghost predicate Idle(nodes: set<TaskId>, edges: set<Edge>, done: set<TaskId>) {
    forall id :: !IsReady(nodes, edges, done, id)
  }

  ghost predicate Halted(nodes: set<TaskId>, edges: set<Edge>, run: seq<TaskId>) {
    Legal(nodes, edges, run) && Idle(nodes, edges, Done(run))
  }

  ghost predicate Wired(nodes: set<TaskId>, edges: set<Edge>) {
    forall e | e in edges :: e.0 in nodes && e.1 in nodes
  }

  // Along the edges.
  ghost predicate Walk(edges: set<Edge>, p: seq<TaskId>) {
    |p| <= 1 || ((p[0], p[1]) in edges && Walk(edges, p[1..]))
  }

  ghost predicate Cycle(edges: set<Edge>, p: seq<TaskId>) { |p| > 1 && p[0] == p[|p| - 1] && Walk(edges, p) }

  ghost predicate Acyclic(edges: set<Edge>) { forall p :: !Cycle(edges, p) }

  lemma DoneGrows(run: seq<TaskId>)
    requires run != []
    ensures Done(run) == Done(run[..|run| - 1]) + {run[|run| - 1]}
  {
    assert run == run[..|run| - 1] + [run[|run| - 1]];
  }

  lemma {:induction false} RunsOnce(nodes: set<TaskId>, edges: set<Edge>, run: seq<TaskId>)
    requires Legal(nodes, edges, run)
    ensures Done(run) <= nodes && |Done(run)| == |run|
  {
    if run != [] {
      RunsOnce(nodes, edges, run[..|run| - 1]);
      DoneGrows(run);
    }
  }

  /** A task never runs before one that it depends on. */
  lemma {:induction false} DependenciesRunFirst(
    nodes: set<TaskId>, edges: set<Edge>, run: seq<TaskId>, j: nat, e: Edge)
    requires Legal(nodes, edges, run) && j < |run| && e in edges && e.1 == run[j]
    ensures e.0 in run[..j]
  {
    var n := |run| - 1;
    if j == n {
      assert e.0 in Done(run[..n]);
    } else {
      DependenciesRunFirst(nodes, edges, run[..n], j, e);
      assert run[..n][..j] == run[..j];
    }
  }

  lemma {:induction false} WalkStep(edges: set<Edge>, p: seq<TaskId>, k: nat)
    requires Walk(edges, p) && k + 1 < |p|
    ensures (p[k], p[k + 1]) in edges
  {
    if k > 0 { WalkStep(edges, p[1..], k - 1); }
  }

  lemma {:induction false} PartOfWalk(edges: set<Edge>, p: seq<TaskId>, i: nat, j: nat)
    requires Walk(edges, p) && i <= j <= |p|
    ensures Walk(edges, p[i..j])
  {
    if i > 0 {
      PartOfWalk(edges, p[1..], i - 1, j - 1);
      assert p[1..][i - 1..j - 1] == p[i..j];
    } else if j > 1 {
      PartOfWalk(edges, p[1..], 0, j - 1);
      assert p[1..][0..j - 1] == p[0..j][1..];
    }
  }

  lemma {:induction false} CycleNeverRuns(
    nodes: set<TaskId>, edges: set<Edge>, run: seq<TaskId>, p: seq<TaskId>, k: nat)
    requires Legal(nodes, edges, run) && Cycle(edges, p) && k < |p|
    ensures p[k] !in run
  {
    if run != [] {
      var n := |run| - 1;
      var before := if k == 0 then |p| - 2 else k - 1;
      WalkStep(edges, p, before);
      CycleNeverRuns(nodes, edges, run[..n], p, k);
      CycleNeverRuns(nodes, edges, run[..n], p, before);
      assert run == run[..n] + [run[n]];
      assert (p[before], p[k]) in edges;
      assert p[before] !in Done(run[..n]);
    }
  }

  ghost predicate HasEarlier(rest: set<TaskId>, edges: set<Edge>, id: TaskId) {
    exists e | e in edges :: e.1 == id && e.0 in rest
  }

  // Every task that is left depends on another one.
  ghost predicate AllWait(rest: set<TaskId>, edges: set<Edge>) {
    forall id {:trigger HasEarlier(rest, edges, id)} | id in rest :: HasEarlier(rest, edges, id)
  }

  // From a task that is left, back along dependencies that are left too.
  lemma {:induction false} WalkBack(rest: set<TaskId>, edges: set<Edge>, start: TaskId, n: nat) returns (p: seq<TaskId>)
    requires start in rest && AllWait(rest, edges)
    ensures |p| == n + 1 && Walk(edges, p) && forall k | 0 <= k < |p| :: p[k] in rest
  {
    if n == 0 {
      p := [start];
    } else {
      var q := WalkBack(rest, edges, start, n - 1);
      assert HasEarlier(rest, edges, q[0]);
      var e :| e in edges && e.1 == q[0] && e.0 in rest;
      p := [e.0] + q;
      assert p[1..] == q;
    }
  }

  // More places than values: some value comes twice.
  lemma {:induction false} Repeats(p: seq<TaskId>, values: set<TaskId>) returns (i: nat, j: nat)
    requires |p| > |values| && forall k | 0 <= k < |p| :: p[k] in values
    ensures i < j < |p| && p[i] == p[j]
  {
    if k :| 1 <= k < |p| && p[k] == p[0] {
      i, j := 0, k;
    } else {
      i, j := Repeats(p[1..], values - {p[0]});
      i, j := i + 1, j + 1;
    }
  }

  lemma LeftWaits(nodes: set<TaskId>, edges: set<Edge>, done: set<TaskId>, id: TaskId)
    requires Wired(nodes, edges) && id in nodes && id !in done && !IsReady(nodes, edges, done, id)
    ensures HasEarlier(nodes - done, edges, id)
  {
    var e :| e in edges && e.1 == id && e.0 !in done;
  }

  lemma LeftAllWait(nodes: set<TaskId>, edges: set<Edge>, done: set<TaskId>)
    requires Wired(nodes, edges) && Idle(nodes, edges, done)
    ensures AllWait(nodes - done, edges)
  {
    forall id | id in nodes - done ensures HasEarlier(nodes - done, edges, id) {
      LeftWaits(nodes, edges, done, id);
    }
  }

  lemma StuckHasCycle(nodes: set<TaskId>, edges: set<Edge>, done: set<TaskId>, left: TaskId) returns (p: seq<TaskId>)
    requires Wired(nodes, edges) && Idle(nodes, edges, done) && left in nodes && left !in done
    ensures Cycle(edges, p)
  {
    var rest := nodes - done;
    LeftAllWait(nodes, edges, done);
    var q := WalkBack(rest, edges, left, |rest|);
    var i, j := Repeats(q, rest);
    p := q[i..j + 1];
    PartOfWalk(edges, q, i, j + 1);
  }

  // Any run can be carried on until nothing is ready.
  lemma {:induction false} CarryOn(nodes: set<TaskId>, edges: set<Edge>, run: seq<TaskId>) returns (full: seq<TaskId>)
    requires Legal(nodes, edges, run)
    ensures Halted(nodes, edges, full)
    decreases |nodes| - |run|
  {
    RunsOnce(nodes, edges, run);
    if id :| IsReady(nodes, edges, Done(run), id) {
      var next := run + [id];
      assert next[..|run|] == run;
      assert Done(run) < nodes by { assert id !in Done(run); }
      RunsOnce(nodes, edges, next);
      SubsetSize(Done(next), nodes);
      full := CarryOn(nodes, edges, next);
    } else {
      full := run;
    }
  }

  /** However ready tasks are picked, scheduling ends with every task done if and only if the
      dependencies have no cycle. */
  lemma RunsCompleteExactlyWhenAcyclic(nodes: set<TaskId>, edges: set<Edge>)
    requires Wired(nodes, edges)
    ensures Acyclic(edges) <==> forall run | Halted(nodes, edges, run) :: Done(run) == nodes
  {
    if Acyclic(edges) {
      forall run | Halted(nodes, edges, run) ensures Done(run) == nodes {
        RunsOnce(nodes, edges, run);
        if id :| id in nodes && id !in run {
          var p := StuckHasCycle(nodes, edges, Done(run), id);
        }
      }
    } else {
      var p :| Cycle(edges, p);
      var run := CarryOn(nodes, edges, []);
      CycleNeverRuns(nodes, edges, run, p, 0);
      assert (p[0], p[1]) in edges;
      assert p[0] in nodes && p[0] !in Done(run);
    }
  }

  // ------------------------------------------------------------ decompositions

  lemma {:induction false} NodesOfMembers(tasks: seq<Task>, id: TaskId)
    ensures Distinct(NodesOf(tasks))
    ensures id in Keys(NodesOf(tasks)) <==> exists i | 0 <= i < |tasks| :: tasks[i].id == id
  {
    if tasks != [] {
      var n := |tasks| - 1;
      var t := tasks[n];
      NodesOfMembers(tasks[..n], id);
      PutKeeps(NodesOf(tasks[..n]), t.id, t, id, t);
      KeysHas(NodesOf(tasks), id);
      KeysHas(NodesOf(tasks[..n]), id);
      assert tasks == tasks[..n] + [t];
      assert tasks[n].id == t.id;
      if i :| 0 <= i < n && tasks[..n][i].id == id { assert tasks[i].id == id; }
    }
  }

  lemma KeysHas(nodes: Nodes, id: TaskId)
    ensures id in Keys(nodes) <==> Has(nodes, id)
  {
    if Has(nodes, id) {
      var i :| 0 <= i < |nodes| && nodes[i].key == id;
      assert nodes[i] in nodes;
    }
  }

  lemma {:induction false} WalkClimbs(tasks: seq<Task>, known: set<TaskId>, p: seq<TaskId>, a: nat) returns (b: nat)
    requires DistinctIds(tasks) && Topological(tasks)
    requires |p| > 0 && Walk(EdgesOf(tasks, known), p) && a < |tasks| && tasks[a].id == p[0]
    ensures a + |p| - 1 <= b < |tasks| && tasks[b].id == p[|p| - 1]
  {
    if |p| == 1 {
      b := a;
    } else {
      var t, d :| t in tasks && d in t.dependencies && d in known && (d, t.id) == (p[0], p[1]);
      var i :| 0 <= i < |tasks| && tasks[i] == t;
      assert DependsOn(tasks, i, a);
      b := WalkClimbs(tasks, known, p[1..], i);
    }
  }

  lemma TopologicalIsAcyclic(tasks: seq<Task>)
    requires DistinctIds(tasks) && Topological(tasks)
    ensures Acyclic(EdgesOf(tasks, Keys(NodesOf(tasks))))
  {
    var known := Keys(NodesOf(tasks));
    forall p ensures !Cycle(EdgesOf(tasks, known), p) {
      if Cycle(EdgesOf(tasks, known), p) {
        assert (p[0], p[1]) in EdgesOf(tasks, known);
        NodesOfMembers(tasks, p[0]);
        var a :| 0 <= a < |tasks| && tasks[a].id == p[0];
        var b := WalkClimbs(tasks, known, p, a);
      }
    }
  }

  lemma GraphIsWired(tasks: seq<Task>)
    ensures Wired(Keys(NodesOf(tasks)), EdgesOf(tasks, Keys(NodesOf(tasks))))
  {
    forall e | e in EdgesOf(tasks, Keys(NodesOf(tasks))) ensures e.1 in Keys(NodesOf(tasks)) {
      var t, d :| t in tasks && d in t.dependencies && d in Keys(NodesOf(tasks)) && e == (d, t.id);
      var i :| 0 <= i < |tasks| && tasks[i] == t;
      NodesOfMembers(tasks, t.id);
    }
  }

  /** Scheduling a deterministic decomposition, in whatever order, ends with every task done. */
  lemma DecompositionRunsToCompletion(modules: seq<Module>, ids: Ids, run: seq<TaskId>)
    requires Fresh(ids) && Triplets(modules, ids).Some?
    ensures var tasks := Triplets(modules, ids).value;
            var nodes := Keys(NodesOf(tasks));
            Halted(nodes, EdgesOf(tasks, nodes), run) ==>
              Done(run) == nodes && forall t | t in tasks :: t.id in run
  {
    var tasks := Triplets(modules, ids).value;
    var nodes := Keys(NodesOf(tasks));
    ThreeTasksPerModule(modules, ids);
    TripletsAreTopological(tasks, ids);
    TopologicalIsAcyclic(tasks);
    GraphIsWired(tasks);
    RunsCompleteExactlyWhenAcyclic(nodes, EdgesOf(tasks, nodes));
    if Halted(nodes, EdgesOf(tasks, nodes), run) {
      forall t | t in tasks ensures t.id in run {
        var i :| 0 <= i < |tasks| && tasks[i] == t;
        NodesOfMembers(tasks, t.id);
        assert t.id in Done(run);
      }
    }
  }

  // ------------------------------------------------------------ from tasks to ready tasks

  lemma {:induction false} NodesAreTheTasks(tasks: seq<Task>)
    requires DistinctIds(tasks)
    ensures var nodes := NodesOf(tasks);
            |nodes| == |tasks| && forall k | 0 <= k < |tasks| :: nodes[k] == Pair(tasks[k].id, tasks[k])
  {
    if tasks != [] {
      var n := |tasks| - 1;
      NodesAreTheTasks(tasks[..n]);
      FindAbsent(NodesOf(tasks[..n]), tasks[n].id);
    }
  }

  // Of several tasks with one id the graph keeps the last.
  lemma {:induction false} NodeHoldsTheLastTask(tasks: seq<Task>, i: nat, default: Task)
    requires i < |tasks| && forall k | i < k < |tasks| :: tasks[k].id != tasks[i].id
    ensures Get(NodesOf(tasks), tasks[i].id, default) == tasks[i]
  {
    var n := |tasks| - 1;
    NodesOfMembers(tasks[..n], tasks[i].id);
    PutKeeps(NodesOf(tasks[..n]), tasks[n].id, tasks[n], tasks[i].id, default);
    if i < n { NodeHoldsTheLastTask(tasks[..n], i, default); }
  }

  function ReadyOf(tasks: seq<Task>, done: set<TaskId>): seq<TaskId> {
    var nodes := NodesOf(tasks);
    ByPriority(nodes, ReadySet(Keys(nodes), EdgesOf(tasks, Keys(nodes)), done))
  }

  // Not done, but all tasks are that it depends on.
  ghost predicate Waiting(tasks: seq<Task>, done: set<TaskId>, i: nat)
    requires i < |tasks|
  {
    tasks[i].id !in done && forall j | 0 <= j < |tasks| && DependsOn(tasks, i, j) :: tasks[j].id in done
  }

  lemma WaitingIsReady(tasks: seq<Task>, done: set<TaskId>, i: nat)
    requires DistinctIds(tasks) && i < |tasks|
    ensures var nodes := Keys(NodesOf(tasks));
            IsReady(nodes, EdgesOf(tasks, nodes), done, tasks[i].id) <==> Waiting(tasks, done, i)
  {
    var nodes := Keys(NodesOf(tasks));
    var edges := EdgesOf(tasks, nodes);
    NodesOfMembers(tasks, tasks[i].id);
    if Waiting(tasks, done, i) {
      forall e | e in edges && e.1 == tasks[i].id ensures e.0 in done {
        var t, d :| t in tasks && d in t.dependencies && d in nodes && e == (d, t.id);
        var k :| 0 <= k < |tasks| && tasks[k] == t;
        assert k == i;
        NodesOfMembers(tasks, d);
        var j :| 0 <= j < |tasks| && tasks[j].id == d;
        assert DependsOn(tasks, i, j);
      }
    }
    if IsReady(nodes, edges, done, tasks[i].id) {
      forall j | 0 <= j < |tasks| && DependsOn(tasks, i, j) ensures tasks[j].id in done {
        NodesOfMembers(tasks, tasks[j].id);
        assert (tasks[j].id, tasks[i].id) in edges;
      }
    }
  }

  // By priority, and tasks of one priority in the order of the list.
  ghost predicate InOrder(tasks: seq<Task>, ids: seq<TaskId>) {
    forall x, y, i, j |
      0 <= x < y < |ids| && 0 <= i < |tasks| && 0 <= j < |tasks| && ids[x] == tasks[i].id && ids[y] == tasks[j].id ::
      tasks[i].priority > tasks[j].priority || (tasks[i].priority == tasks[j].priority && i < j)
  }

  lemma ListedInOrder(tasks: seq<Task>, wanted: set<TaskId>)
    requires DistinctIds(tasks)
    ensures InOrder(tasks, ByPriority(NodesOf(tasks), wanted))
  {
    var nodes := NodesOf(tasks);
    var s := SortDescending(Among(nodes, |nodes|, wanted));
    NodesAreTheTasks(tasks);
    SortedListsWanted(nodes, wanted);
    forall x, y, i, j |
      0 <= x < y < |s| && 0 <= i < |tasks| && 0 <= j < |tasks|
      && Items(s)[x] == tasks[i].id && Items(s)[y] == tasks[j].id
      ensures tasks[i].priority > tasks[j].priority || (tasks[i].priority == tasks[j].priority && i < j)
    {
      assert Precedes(s[x], s[y]);
      assert s[x].place == i && s[y].place == j;
    }
  }

  /** For tasks with distinct ids: the ready list holds exactly the tasks that are not done while
      all tasks they depend on are, the most urgent first, and in the order of the list among
      equally urgent ones. */
  lemma ReadyTasksOfAList(tasks: seq<Task>, done: set<TaskId>)
    requires DistinctIds(tasks)
    ensures var r := ReadyOf(tasks, done);
            && (forall i | 0 <= i < |tasks| :: tasks[i].id in r <==> Waiting(tasks, done, i))
            && (forall id | id in r :: exists i :: 0 <= i < |tasks| && tasks[i].id == id)
            && InOrder(tasks, r)
  {
    var nodes := NodesOf(tasks);
    var edges := EdgesOf(tasks, Keys(nodes));
    var r := ReadyOf(tasks, done);
    NodesOfMembers(tasks, "");
    ReadyListIsExact(nodes, edges, done);
    forall i | 0 <= i < |tasks| ensures tasks[i].id in r <==> Waiting(tasks, done, i) {
      WaitingIsReady(tasks, done, i);
    }
    forall id | id in r ensures exists i :: 0 <= i < |tasks| && tasks[i].id == id { NodesOfMembers(tasks, id); }
    ListedInOrder(tasks, ReadySet(Keys(nodes), edges, done));
  }
}
