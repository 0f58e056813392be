// Task decomposition of services/task-graph-engine (decomposer.py): one implementation, test and
// review task for each module, and the resolution of the task names that a model proposes.
module Decomposer {
  import opened Common

  datatype Task = Task(
    id: TaskId, kind: TaskType, agent: AgentType, tier: Tier, priority: int, dependencies: seq<TaskId>,
    maxTokens: int, maxRetries: int)

  // A module descriptor; `None` where the key is missing.
  datatype Module = Module(
    priority: Option<int>, tier: Option<string>, maxTokens: Option<int>, maxRetries: Option<int>)

  const WHOLE_SPEC: Module := Module(None, None, None, None)

  // A task as the model describes it.
  datatype RawTask = RawTask(
    name: Option<string>, kind: Option<string>, agent: Option<string>, tier: Option<string>,
    priority: Option<int>, dependencies: seq<string>)

  // The k-th identifier that is drawn.
  type Ids = nat -> TaskId

  ghost predicate Fresh(ids: Ids) { forall i: nat, j: nat :: i != j ==> ids(i) != ids(j) }

  function OrElse<T>(o: Option<T>, default: T): T { if o.Some? then o.value else default }

  function TierNamed(name: string): Option<Tier> {
    if name == "tier_1" then Some(Tier1)
    else if name == "tier_2" then Some(Tier2)
    else if name == "tier_3" then Some(Tier3)
    else None
  }

  function KindNamed(name: string): Option<TaskType> {
    if name == "implement_feature" then Some(ImplementFeature)
    else if name == "write_test" then Some(WriteTest)
    else if name == "review_code" then Some(ReviewCode)
    else if name == "fix_bug" then Some(FixBug)
    else if name == "refactor" then Some(Refactor)
    else None
  }

  function AgentNamed(name: string): Option<AgentType> {
    if name == "coder" then Some(Coder)
    else if name == "reviewer" then Some(Reviewer)
    else if name == "tester" then Some(Tester)
    else if name == "planner" then Some(Planner)
    else None
  }

  // What the fields of a task have to satisfy for it to be built at all.
  predicate Buildable(t: Task) { t.priority >= 0 && t.maxTokens >= 0 && 0 <= t.maxRetries <= 10 }

  function Built(t: Task): Option<Task> { if Buildable(t) then Some(t) else None }

  // ---------------------------------------------------------- deterministic

  function Implementation(m: Module, id: TaskId): Option<Task> {
    var tier := TierNamed(OrElse(m.tier, "tier_2"));
    if tier.None? then None
    else Built(Task(id, ImplementFeature, Coder, tier.value, OrElse(m.priority, 5), [],
                    OrElse(m.maxTokens, 100_000), OrElse(m.maxRetries, 3)))
  }

  function Test(impl: Task, id: TaskId): Task {
    Task(id, WriteTest, Tester, Tier2, impl.priority, [impl.id], 50_000, 2)
  }

  function Review(impl: Task, test: Task, id: TaskId): Task {
    Task(id, ReviewCode, Reviewer, Tier1, impl.priority + 1, [impl.id, test.id], 30_000, 1)
  }

  // The tasks of module m, with the identifiers from the n-th on.
  function Triplet(m: Module, ids: Ids, n: nat): Option<seq<Task>> {
    var impl := Implementation(m, ids(n));
    if impl.None? then None
    else
      var test := Test(impl.value, ids(n + 1));
      Some([impl.value, test, Review(impl.value, test, ids(n + 2))])
  }

  function Triplets(modules: seq<Module>, ids: Ids): Option<seq<Task>> {
    if modules == [] then Some([])
    else
      var n := |modules| - 1;
      var rest := Triplets(modules[..n], ids);
      if rest.None? then None
      else
        var last := Triplet(modules[n], ids, 3 * n);
        if last.None? then None else Some(rest.value + last.value)
  }

  function ModulesOf(modules: seq<Module>): seq<Module> { if modules == [] then [WHOLE_SPEC] else modules }

  method DeterministicDecompose(modules: seq<Module>, ids: Ids) returns (r: Option<seq<Task>>)
    ensures r == Triplets(ModulesOf(modules), ids)
  {
    var all := modules;
    if all == [] { all := [WHOLE_SPEC]; }
    var tasks: seq<Task> := [];
    var i, drawn := 0, 0;
    while i < |all|
      invariant 0 <= i <= |all| && drawn == 3 * i && all == ModulesOf(modules)
      invariant Triplets(all[..i], ids) == Some(tasks)
    {
      assert all[..i + 1][..i] == all[..i];
      var impl := Implementation(all[i], ids(drawn));
      if impl.None? {
        FailureSpreads(all, i + 1, ids);
        return None;
      }
      var test := Test(impl.value, ids(drawn + 1));
      var review := Review(impl.value, test, ids(drawn + 2));
      tasks := tasks + [impl.value, test, review];
      drawn := drawn + 3;
      i := i + 1;
    }
    assert all[..i] == all;
    r := Some(tasks);
  }

  lemma {:induction false} FailureSpreads(modules: seq<Module>, n: nat, ids: Ids)
    requires n <= |modules| && Triplets(modules[..n], ids) == None
    ensures Triplets(modules, ids) == None
  {
    if n < |modules| {
      assert modules[..|modules| - 1][..n] == modules[..n];
      FailureSpreads(modules[..|modules| - 1], n, ids);
    } else {
      assert modules[..n] == modules;
    }
  }

  // ---------------------------------------------------------- model-assisted

  type Names = map<string, TaskId>

  // Later tasks of the same name take it over.
  function NamesOf(raws: seq<RawTask>, ids: Ids): Option<Names> {
    if raws == [] then Some(map[])
    else
      var n := |raws| - 1;
      var rest := NamesOf(raws[..n], ids);
      if rest.None? || raws[n].name.None? then None
      else Some(rest.value[raws[n].name.value := ids(n)])
  }

  function Known(names: Names, dependencies: seq<string>): seq<TaskId> {
    if dependencies == [] then []
    else
      var last := dependencies[|dependencies| - 1];
      Known(names, dependencies[..|dependencies| - 1]) + if last in names then [names[last]] else []
  }

  function Resolved(raw: RawTask, names: Names): Option<Task>
    requires raw.name.Some? && raw.name.value in names
  {
    var kind := KindNamed(OrElse(raw.kind, "implement_feature"));
    var agent := AgentNamed(OrElse(raw.agent, "coder"));
    var tier := TierNamed(OrElse(raw.tier, "tier_2"));
    if kind.None? || agent.None? || tier.None? then None
    else Built(Task(names[raw.name.value], kind.value, agent.value, tier.value, OrElse(raw.priority, 5),
                    Known(names, raw.dependencies), 100_000, 3))
  }

  ghost predicate Named(raws: seq<RawTask>, names: Names) {
    forall i | 0 <= i < |raws| :: raws[i].name.Some? && raws[i].name.value in names
  }

  function AllResolved(raws: seq<RawTask>, names: Names): Option<seq<Task>>
    requires Named(raws, names)
  {
    if raws == [] then Some([])
    else
      var n := |raws| - 1;
      var rest := AllResolved(raws[..n], names);
      if rest.None? then None
      else
        var last := Resolved(raws[n], names);
        if last.None? then None else Some(rest.value + [last.value])
  }

  lemma {:induction false} NamesAreNamed(raws: seq<RawTask>, ids: Ids)
    requires NamesOf(raws, ids).Some?
    ensures Named(raws, NamesOf(raws, ids).value)
  {
    if raws != [] { NamesAreNamed(raws[..|raws| - 1], ids); }
  }

  function Decomposition(raws: seq<RawTask>, ids: Ids): Option<seq<Task>> {
    var names := NamesOf(raws, ids);
    if names.None? then None
    else
      NamesAreNamed(raws, ids);
      AllResolved(raws, names.value)
  }

  method ResolveDependencies(names: Names, dependencies: seq<string>) returns (ids: seq<TaskId>)
    ensures ids == Known(names, dependencies)
  {
    ids := [];
    var k := 0;
    while k < |dependencies|
      invariant 0 <= k <= |dependencies| && ids == Known(names, dependencies[..k])
    {
      assert dependencies[..k + 1][..k] == dependencies[..k];
      if dependencies[k] in names { ids := ids + [names[dependencies[k]]]; }
      k := k + 1;
    }
    assert dependencies[..k] == dependencies;
  }

  method MapNames(raws: seq<RawTask>, ids: Ids) returns (r: Option<Names>)
    ensures r == NamesOf(raws, ids)
  {
    var names: Names := map[];
    var i := 0;
    while i < |raws|
      invariant 0 <= i <= |raws| && NamesOf(raws[..i], ids) == Some(names)
    {
      assert raws[..i + 1][..i] == raws[..i];
      if raws[i].name.None? {
        NamelessSpreads(raws, i + 1, ids);
        return None;
      }
      names := names[raws[i].name.value := ids(i)];
      i := i + 1;
    }
    assert raws[..i] == raws;
    r := Some(names);
  }

  method BuildTask(raw: RawTask, names: Names) returns (r: Option<Task>)
    requires raw.name.Some? && raw.name.value in names
    ensures r == Resolved(raw, names)
  {
    var dependencies := ResolveDependencies(names, raw.dependencies);
    var kind := KindNamed(OrElse(raw.kind, "implement_feature"));
    var agent := AgentNamed(OrElse(raw.agent, "coder"));
    var tier := TierNamed(OrElse(raw.tier, "tier_2"));
    if kind.None? || agent.None? || tier.None? { return None; }
    r := Built(Task(names[raw.name.value], kind.value, agent.value, tier.value, OrElse(raw.priority, 5),
                    dependencies, 100_000, 3));
  }

  method BuildTasks(raws: seq<RawTask>, names: Names) returns (r: Option<seq<Task>>)
    requires Named(raws, names)
    ensures r == AllResolved(raws, names)
  {
    var tasks: seq<Task> := [];
    var i := 0;
    while i < |raws|
      invariant 0 <= i <= |raws| && AllResolved(raws[..i], names) == Some(tasks)
    {
      assert raws[..i + 1][..i] == raws[..i];
      var task := BuildTask(raws[i], names);
      if task.None? {
        UnresolvedSpreads(raws, i + 1, names);
        return None;
      }
      tasks := tasks + [task.value];
      i := i + 1;
    }
    assert raws[..i] == raws;
    r := Some(tasks);
  }

  method LlmDecompose(raws: seq<RawTask>, ids: Ids) returns (r: Option<seq<Task>>)
    ensures r == Decomposition(raws, ids)
  {
    var names := MapNames(raws, ids);
    if names.None? { return None; }
    NamesAreNamed(raws, ids);
    r := BuildTasks(raws, names.value);
  }

  lemma {:induction false} NamelessSpreads(raws: seq<RawTask>, n: nat, ids: Ids)
    requires n <= |raws| && NamesOf(raws[..n], ids) == None
    ensures NamesOf(raws, ids) == None
  {
    if n < |raws| {
      assert raws[..|raws| - 1][..n] == raws[..n];
      NamelessSpreads(raws[..|raws| - 1], n, ids);
    } else {
      assert raws[..n] == raws;
    }
  }

  lemma {:induction false} UnresolvedSpreads(raws: seq<RawTask>, n: nat, names: Names)
    requires n <= |raws| && Named(raws, names) && AllResolved(raws[..n], names) == None
    ensures AllResolved(raws, names) == None
  {
    if n < |raws| {
      assert raws[..|raws| - 1][..n] == raws[..n];
      UnresolvedSpreads(raws[..|raws| - 1], n, names);
    } else {
      assert raws[..n] == raws;
    }
  }

  // ------------------------------------------------------------ theorems

  predicate DependsOn(tasks: seq<Task>, i: nat, j: nat)
    requires i < |tasks| && j < |tasks|
  {
    tasks[j].id in tasks[i].dependencies
  }

  // Every task after all that it depends on.
  ghost predicate Topological(tasks: seq<Task>) {
    forall i, j | 0 <= i < |tasks| && 0 <= j < |tasks| && DependsOn(tasks, i, j) :: j < i
  }

  ghost predicate DistinctIds(tasks: seq<Task>) {
    forall i, j | 0 <= i < j < |tasks| :: tasks[i].id != tasks[j].id
  }

  // Everything that a task depends on is in the list.
  ghost predicate Closed(tasks: seq<Task>) {
    forall i, d | 0 <= i < |tasks| && d in tasks[i].dependencies :: exists j | 0 <= j < |tasks| :: tasks[j].id == d
  }

  // A chain of dependencies, from a task to what it needs.
  ghost predicate Path(tasks: seq<Task>, p: seq<nat>) {
    p == [] || (&& p[0] < |tasks|
                && Path(tasks, p[1..])
                && (|p| > 1 ==> DependsOn(tasks, p[0], p[1])))
  }

  // The tier that goes by this text, tier 2 without one.
  predicate TierAsText(text: Option<string>, tier: Tier) {
    && (text == None || text == Some("tier_2") ==> tier == Tier2)
    && (text == Some("tier_1") ==> tier == Tier1)
    && (text == Some("tier_3") ==> tier == Tier3)
  }

  // The implementation is built as the module asks, or by default.
  predicate AsAsked(m: Module, impl: Task) {
    && impl.priority == (if m.priority.Some? then m.priority.value else 5)
    && impl.maxTokens == (if m.maxTokens.Some? then m.maxTokens.value else 100_000)
    && impl.maxRetries == (if m.maxRetries.Some? then m.maxRetries.value else 3)
    && TierAsText(m.tier, impl.tier)
  }

  // Three tasks chained implementation, test, review, with the identifiers from the n-th on.
  ghost predicate IsChain(impl: Task, test: Task, review: Task, ids: Ids, n: nat) {
    && impl.id == ids(n) && test.id == ids(n + 1) && review.id == ids(n + 2)
    && impl.kind == ImplementFeature && test.kind == WriteTest && review.kind == ReviewCode
    && impl.dependencies == [] && test.dependencies == [impl.id] && review.dependencies == [impl.id, test.id]
    && test.priority == impl.priority && review.priority == impl.priority + 1
    && impl.agent == Coder && test.agent == Tester && review.agent == Reviewer
    && test.tier == Tier2 && review.tier == Tier1
    && test.maxTokens == 50_000 && review.maxTokens == 30_000 && test.maxRetries == 2 && review.maxRetries == 1
    && Buildable(impl) && Buildable(test) && Buildable(review)
  }

  ghost predicate IsTriplet(tasks: seq<Task>, k: nat, ids: Ids)
    requires 3 * k + 2 < |tasks|
  {
    IsChain(tasks[3 * k], tasks[3 * k + 1], tasks[3 * k + 2], ids, 3 * k)
  }

  ghost predicate WellFormed(m: Module) {
    && OrElse(m.tier, "tier_2") in {"tier_1", "tier_2", "tier_3"}
    && OrElse(m.priority, 5) >= 0 && OrElse(m.maxTokens, 0) >= 0 && 0 <= OrElse(m.maxRetries, 0) <= 10
  }

  lemma TripletIsChain(m: Module, ids: Ids, n: nat)
    ensures var r := Triplet(m, ids, n);
            && (r.Some? <==> WellFormed(m))
            && (r.Some? ==> (&& |r.value| == 3 && AsAsked(m, r.value[0])
                             && IsChain(r.value[0], r.value[1], r.value[2], ids, n)))
  {
    TiersAsText(m.tier);
  }

  lemma TiersAsText(text: Option<string>)
    ensures var tier := TierNamed(OrElse(text, "tier_2")); tier.Some? ==> TierAsText(text, tier.value)
  {
    assert "tier_1"[5] == '1' && "tier_2"[5] == '2' && "tier_3"[5] == '3';
  }

  /** A decomposition fails if and only if some module descriptor is malformed; otherwise it has
      three tasks for each module, chained implementation, test, review. */
  lemma {:induction false} ThreeTasksPerModule(modules: seq<Module>, ids: Ids)
    ensures var r := Triplets(modules, ids);
            && (r.Some? <==> forall m | m in modules :: WellFormed(m))
            && (r.Some? ==> (&& |r.value| == 3 * |modules|
                             && forall k: nat | k < |modules| ::
                                  IsTriplet(r.value, k, ids) && AsAsked(modules[k], r.value[3 * k])))
  {
    if modules != [] {
      var n := |modules| - 1;
      var rest, r := Triplets(modules[..n], ids), Triplets(modules, ids);
      ThreeTasksPerModule(modules[..n], ids);
      assert modules == modules[..n] + [modules[n]];
      TripletIsChain(modules[n], ids, 3 * n);
      if r.Some? {
        forall k: nat | k < |modules| ensures IsTriplet(r.value, k, ids) && AsAsked(modules[k], r.value[3 * k]) {
          if k < n { assert IsTriplet(rest.value, k, ids); }
        }
      }
    }
  }

  /** A specification without modules is decomposed like one default module; any other, module by
      module as asked. */
  lemma DecompositionIsAsAsked(modules: seq<Module>, ids: Ids)
    ensures var r := Triplets(ModulesOf(modules), ids);
            && (modules == [] ==> (&& r.Some? && |r.value| == 3 && IsTriplet(r.value, 0, ids)
                                   && r.value[0].priority == 5 && r.value[0].tier == Tier2
                                   && r.value[0].maxTokens == 100_000 && r.value[0].maxRetries == 3))
            && (modules != [] ==>
                  && (r.Some? <==> forall m | m in modules :: WellFormed(m))
                  && (r.Some? ==> (&& |r.value| == 3 * |modules|
                                   && forall k: nat | k < |modules| ::
                                        IsTriplet(r.value, k, ids) && AsAsked(modules[k], r.value[3 * k]))))
  {
    ThreeTasksPerModule(ModulesOf(modules), ids);
    if modules == [] {
      var r := Triplets([WHOLE_SPEC], ids);
      assert WellFormed(WHOLE_SPEC);
      assert r.Some? && IsTriplet(r.value, 0, ids) && AsAsked([WHOLE_SPEC][0], r.value[3 * 0]);
    }
  }

  ghost predicate AllTriplets(tasks: seq<Task>, ids: Ids) {
    && |tasks| % 3 == 0
    && forall k: nat | 3 * k + 2 < |tasks| :: IsTriplet(tasks, k, ids)
  }

  lemma IdsAsDrawn(tasks: seq<Task>, i: nat, ids: Ids)
    requires AllTriplets(tasks, ids) && i < |tasks|
    ensures tasks[i].id == ids(i)
    ensures forall d | d in tasks[i].dependencies :: exists j: nat :: j < i && j / 3 == i / 3 && d == ids(j)
  {
    var k := i / 3;
    assert IsTriplet(tasks, k, ids);
    assert 3 * k < i ==> 3 * k / 3 == k;
    assert 3 * k + 1 < i ==> (3 * k + 1) / 3 == k;
  }

  /** With fresh identifiers the ids are distinct, and a task depends only on earlier tasks of the
      same module, all of them in the list. */
  lemma TripletsAreTopological(tasks: seq<Task>, ids: Ids)
    requires AllTriplets(tasks, ids) && Fresh(ids)
    ensures DistinctIds(tasks) && Closed(tasks) && Topological(tasks)
    ensures forall i, j | 0 <= i < |tasks| && 0 <= j < |tasks| && DependsOn(tasks, i, j) :: i / 3 == j / 3
  {
    forall i | 0 <= i < |tasks| ensures tasks[i].id == ids(i) { IdsAsDrawn(tasks, i, ids); }
    forall i, d | 0 <= i < |tasks| && d in tasks[i].dependencies
      ensures exists j | 0 <= j < |tasks| :: tasks[j].id == d
    {
      IdsAsDrawn(tasks, i, ids);
      var j: nat :| j < i && j / 3 == i / 3 && d == ids(j);
      assert tasks[j].id == d;
    }
    forall i, j | 0 <= i < |tasks| && 0 <= j < |tasks| && DependsOn(tasks, i, j) ensures j < i && i / 3 == j / 3 {
      IdsAsDrawn(tasks, i, ids);
    }
  }

  lemma {:induction false} PathDescends(tasks: seq<Task>, p: seq<nat>)
    requires Topological(tasks) && Path(tasks, p) && |p| > 1
    requires forall i, j | 0 <= i < |tasks| && 0 <= j < |tasks| && DependsOn(tasks, i, j) :: i / 3 == j / 3
    ensures p[|p| - 1] < p[0] && p[|p| - 1] / 3 == p[0] / 3
  {
    assert DependsOn(tasks, p[0], p[1]);
    if |p| > 2 { PathDescends(tasks, p[1..]); }
  }

  /** No chain of dependencies leads from a task back to itself or into another module. */
  lemma PathsStayInTheModule(modules: seq<Module>, ids: Ids, p: seq<nat>)
    requires Fresh(ids) && Triplets(modules, ids).Some? && |p| > 1
    ensures var tasks := Triplets(modules, ids).value;
            Path(tasks, p) ==> p[|p| - 1] < p[0] && p[|p| - 1] / 3 == p[0] / 3
  {
    var tasks := Triplets(modules, ids).value;
    ThreeTasksPerModule(modules, ids);
    TripletsAreTopological(tasks, ids);
    if Path(tasks, p) { PathDescends(tasks, p); }
  }

  // ---------------------------------------------------------- names

  // A description that becomes a task.
  predicate Acceptable(raw: RawTask) {
    && raw.name.Some? && OrElse(raw.priority, 5) >= 0
    && OrElse(raw.kind, "implement_feature")
       in {"implement_feature", "write_test", "review_code", "fix_bug", "refactor"}
    && OrElse(raw.agent, "coder") in {"coder", "reviewer", "tester", "planner"}
    && OrElse(raw.tier, "tier_2") in {"tier_1", "tier_2", "tier_3"}
  }

  lemma {:induction false} NamedExactly(raws: seq<RawTask>, ids: Ids)
    ensures NamesOf(raws, ids).Some? <==> forall raw | raw in raws :: raw.name.Some?
  {
    if raws != [] {
      var n := |raws| - 1;
      NamedExactly(raws[..n], ids);
      assert raws == raws[..n] + [raws[n]];
    }
  }

  lemma {:induction false} ResolvedExactly(raws: seq<RawTask>, names: Names)
    requires Named(raws, names)
    ensures AllResolved(raws, names).Some? <==> forall raw | raw in raws :: Acceptable(raw)
  {
    if raws != [] {
      var n := |raws| - 1;
      ResolvedExactly(raws[..n], names);
      assert raws == raws[..n] + [raws[n]];
      assert Resolved(raws[n], names).Some? <==> Acceptable(raws[n]);
    }
  }

  /** A proposal is refused if and only if some description has no name, an unknown kind, agent or
      tier, or a negative priority. */
  lemma ProposalAcceptedExactly(raws: seq<RawTask>, ids: Ids)
    ensures Decomposition(raws, ids).Some? <==> forall raw | raw in raws :: Acceptable(raw)
  {
    NamedExactly(raws, ids);
    if NamesOf(raws, ids).Some? {
      NamesAreNamed(raws, ids);
      ResolvedExactly(raws, NamesOf(raws, ids).value);
    }
  }

  ghost predicate DistinctNames(raws: seq<RawTask>) {
    forall i, j | 0 <= i < j < |raws| :: raws[i].name != raws[j].name
  }

  // The last task of the i-th task's name.
  ghost predicate LastOfName(raws: seq<RawTask>, name: Option<string>, j: nat) {
    j < |raws| && raws[j].name == name && forall k | j < k < |raws| :: raws[k].name != name
  }

  // Every name belongs to its last task.
  lemma {:induction false} NameBelongsToLast(raws: seq<RawTask>, ids: Ids, name: string) returns (j: nat)
    requires NamesOf(raws, ids).Some?
    ensures name in NamesOf(raws, ids).value <==> j < |raws|
    ensures j < |raws| ==> LastOfName(raws, Some(name), j) && NamesOf(raws, ids).value[name] == ids(j)
    ensures j == |raws| ==> forall k | 0 <= k < |raws| :: raws[k].name != Some(name)
    ensures j <= |raws|
  {
    if raws == [] {
      j := 0;
    } else {
      var n := |raws| - 1;
      if raws[n].name == Some(name) {
        j := n;
      } else {
        j := NameBelongsToLast(raws[..n], ids, name);
        if j == n { j := n + 1; }
      }
    }
  }

  lemma {:induction false} KnownMembers(names: Names, dependencies: seq<string>, id: TaskId)
    ensures id in Known(names, dependencies) <==> exists d :: d in dependencies && d in names && names[d] == id
  {
    if dependencies != [] {
      var n := |dependencies| - 1;
      KnownMembers(names, dependencies[..n], id);
      assert dependencies == dependencies[..n] + [dependencies[n]];
    }
  }

  lemma {:induction false} ResolvedInOrder(raws: seq<RawTask>, names: Names)
    requires Named(raws, names) && AllResolved(raws, names).Some?
    ensures var tasks := AllResolved(raws, names).value;
            && |tasks| == |raws|
            && forall i | 0 <= i < |raws| :: Resolved(raws[i], names) == Some(tasks[i])
  {
    if raws != [] { ResolvedInOrder(raws[..|raws| - 1], names); }
  }

  // The i-th task carries the identifier of the last task of its name.
  lemma TaskIdIsLast(raws: seq<RawTask>, ids: Ids, i: nat) returns (j: nat)
    requires Decomposition(raws, ids).Some? && i < |raws|
    ensures |Decomposition(raws, ids).value| == |raws|
    ensures LastOfName(raws, raws[i].name, j) && Decomposition(raws, ids).value[i].id == ids(j)
  {
    NamesAreNamed(raws, ids);
    ResolvedInOrder(raws, NamesOf(raws, ids).value);
    j := NameBelongsToLast(raws, ids, raws[i].name.value);
  }

  /** Every dependency of a resolved task is a task of the result: a dangling name is dropped, and
      a name shared by several tasks leads to the last of them. */
  lemma DependenciesAreTasks(raws: seq<RawTask>, ids: Ids)
    requires Decomposition(raws, ids).Some?
    ensures |Decomposition(raws, ids).value| == |raws| && Closed(Decomposition(raws, ids).value)
  {
    var tasks, names := Decomposition(raws, ids).value, NamesOf(raws, ids).value;
    NamesAreNamed(raws, ids);
    ResolvedInOrder(raws, names);
    forall i, id | 0 <= i < |tasks| && id in tasks[i].dependencies
      ensures exists j | 0 <= j < |tasks| :: tasks[j].id == id
    {
      KnownMembers(names, raws[i].dependencies, id);
      var d :| d in raws[i].dependencies && d in names && names[d] == id;
      var j := NameBelongsToLast(raws, ids, d);
      assert tasks[j].id == id;
    }
  }

  /** The ids of the result are distinct if and only if the names are. */
  lemma IdsDistinctExactly(raws: seq<RawTask>, ids: Ids)
    requires Decomposition(raws, ids).Some? && Fresh(ids)
    ensures DistinctIds(Decomposition(raws, ids).value) <==> DistinctNames(raws)
  {
    var tasks := Decomposition(raws, ids).value;
    DependenciesAreTasks(raws, ids);
    forall i, j | 0 <= i < j < |raws| ensures tasks[i].id == tasks[j].id <==> raws[i].name == raws[j].name {
      SameIdSameName(raws, ids, i, j);
    }
  }

  lemma SameIdSameName(raws: seq<RawTask>, ids: Ids, i: nat, j: nat)
    requires Decomposition(raws, ids).Some? && Fresh(ids) && i < |raws| && j < |raws|
    ensures |Decomposition(raws, ids).value| == |raws|
    ensures var tasks := Decomposition(raws, ids).value;
            tasks[i].id == tasks[j].id <==> raws[i].name == raws[j].name
  {
    var a := TaskIdIsLast(raws, ids, i);
    var b := TaskIdIsLast(raws, ids, j);
    if raws[i].name == raws[j].name {
      assert a == b;
    } else {
      assert a != b;
    }
  }

  /** Whatever the names, task i depends on task j if and only if the i-th description lists the
      name of the j-th: for distinct names the edges are exactly the proposed ones. */
  lemma EdgesAreTheKnownNames(raws: seq<RawTask>, ids: Ids, i: nat, j: nat)
    requires Decomposition(raws, ids).Some? && Fresh(ids) && i < |raws| && j < |raws|
    ensures |Decomposition(raws, ids).value| == |raws| && raws[j].name.Some?
    ensures DependsOn(Decomposition(raws, ids).value, i, j) <==> raws[j].name.value in raws[i].dependencies
  {
    var tasks, names := Decomposition(raws, ids).value, NamesOf(raws, ids).value;
    NamesAreNamed(raws, ids);
    ResolvedInOrder(raws, names);
    KnownMembers(names, raws[i].dependencies, tasks[j].id);
    var name := raws[j].name.value;
    assert names[name] == tasks[j].id;
    if DependsOn(tasks, i, j) {
      var d :| d in raws[i].dependencies && d in names && names[d] == tasks[j].id;
      var a := NameBelongsToLast(raws, ids, d);
      var b := NameBelongsToLast(raws, ids, name);
      assert a == b;
    }
  }

  // ---------------------------------------------------------- fields and order

  predicate KindAsText(text: Option<string>, kind: TaskType) {
    && (text == None || text == Some("implement_feature") ==> kind == ImplementFeature)
    && (text == Some("write_test") ==> kind == WriteTest)
    && (text == Some("review_code") ==> kind == ReviewCode)
    && (text == Some("fix_bug") ==> kind == FixBug)
    && (text == Some("refactor") ==> kind == Refactor)
  }

  predicate AgentAsText(text: Option<string>, agent: AgentType) {
    && (text == None || text == Some("coder") ==> agent == Coder)
    && (text == Some("reviewer") ==> agent == Reviewer)
    && (text == Some("tester") ==> agent == Tester)
    && (text == Some("planner") ==> agent == Planner)
  }

  predicate AsDescribed(raw: RawTask, t: Task) {
    && KindAsText(raw.kind, t.kind) && AgentAsText(raw.agent, t.agent) && TierAsText(raw.tier, t.tier)
    && t.priority == (if raw.priority.Some? then raw.priority.value else 5)
    && t.maxTokens == 100_000 && t.maxRetries == 3
  }

  lemma KindsAsText(text: Option<string>)
    ensures var kind := KindNamed(OrElse(text, "implement_feature")); kind.Some? ==> KindAsText(text, kind.value)
  {
    assert |"implement_feature"| == 17 && |"write_test"| == 10 && |"review_code"| == 11;
    assert |"fix_bug"| == 7 && |"refactor"| == 8;
  }

  lemma AgentsAsText(text: Option<string>)
    ensures var agent := AgentNamed(OrElse(text, "coder")); agent.Some? ==> AgentAsText(text, agent.value)
  {
    assert |"coder"| == 5 && |"reviewer"| == 8 && |"tester"| == 6 && |"planner"| == 7;
  }

  /** Each task of an accepted proposal has the kind, agent, tier and priority of its description, or
      the default where it has none. */
  lemma TasksAreAsDescribed(raws: seq<RawTask>, ids: Ids, i: nat)
    requires Decomposition(raws, ids).Some? && i < |raws|
    ensures |Decomposition(raws, ids).value| == |raws| && AsDescribed(raws[i], Decomposition(raws, ids).value[i])
  {
    NamesAreNamed(raws, ids);
    ResolvedInOrder(raws, NamesOf(raws, ids).value);
    KindsAsText(raws[i].kind);
    AgentsAsText(raws[i].agent);
    TiersAsText(raws[i].tier);
  }

  lemma {:induction false} KnownJoins(names: Names, before: seq<string>, after: seq<string>)
    ensures Known(names, before + after) == Known(names, before) + Known(names, after)
  {
    if after == [] {
      assert before + after == before;
    } else {
      var n := |after| - 1;
      KnownJoins(names, before, after[..n]);
      assert (before + after)[..|before| + n] == before + after[..n];
    }
  }

  /** A dependency that is listed becomes the id of its name, in its place, or is left out when no
      task has the name. */
  lemma KnownInOrder(names: Names, before: seq<string>, name: string, after: seq<string>)
    ensures Known(names, before + [name] + after)
         == Known(names, before) + (if name in names then [names[name]] else []) + Known(names, after)
    ensures Known(names, []) == []
  {
    KnownJoins(names, before + [name], after);
    assert (before + [name])[..|before|] == before;
  }
}
