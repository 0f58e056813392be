// The call graph of services/codebase-comprehension (call_graph.py) and its reverse index.
module CallGraph {
  import opened Common

  datatype Function = Function(name: string, calls: seq<string>)

  datatype Class = Class(name: string, methods: seq<Function>)

  datatype File = File(path: string, functions: seq<Function>, classes: seq<Class>)

  // The files in dictionary order.
  type Index = seq<File>

  // A function or a method where it is defined.
  datatype Definition = Definition(path: string, owner: Option<string>, name: string, calls: seq<string>) {
    function Key(): string {
      path + "::" + (if owner.Some? then owner.value + "." + name else name)
    }
  }

  type Definitions = seq<Definition>

  function FunctionsOf(path: string, owner: Option<string>, functions: seq<Function>): Definitions {
    if functions == [] then []
    else
      var f := functions[|functions| - 1];
      FunctionsOf(path, owner, functions[..|functions| - 1]) + [Definition(path, owner, f.name, f.calls)]
  }

  function MethodsOf(path: string, classes: seq<Class>): Definitions {
    if classes == [] then []
    else
      var c := classes[|classes| - 1];
      MethodsOf(path, classes[..|classes| - 1]) + FunctionsOf(path, Some(c.name), c.methods)
  }

  // Every definition of the index, in the order in which it is visited.
  function DefinitionsOf(index: Index): Definitions {
    if index == [] then []
    else
      var f := index[|index| - 1];
      DefinitionsOf(index[..|index| - 1]) + FunctionsOf(f.path, None, f.functions) + MethodsOf(f.path, f.classes)
  }

  function Times(s: seq<string>, name: string): nat { multiset(s)[name] }

  // `key` appended n times.
  function Append(s: seq<string>, key: string, n: nat): seq<string> {
    if n == 0 then s else Append(s, key, n - 1) + [key]
  }

  // The callees of a key: those of the last definition under it.
  function Callees(defs: Definitions, key: string): seq<string> {
    if defs == [] then []
    else if defs[|defs| - 1].Key() == key then defs[|defs| - 1].calls
    else Callees(defs[..|defs| - 1], key)
  }

  predicate Defined(defs: Definitions, key: string) { exists i | 0 <= i < |defs| :: defs[i].Key() == key }

  // The callers of a name: every definition in turn, once for each time that it calls the name.
  function Callers(defs: Definitions, name: string): seq<string> {
    if defs == [] then []
    else
      var d := defs[|defs| - 1];
      Append(Callers(defs[..|defs| - 1], name), d.Key(), Times(d.calls, name))
  }

  function Lookup(m: map<string, seq<string>>, key: string): seq<string> { if key in m then m[key] else [] }

  // The callers of `defs`, and `key` once for each of `calls`.
  ghost predicate CallersAre(reverse: map<string, seq<string>>, defs: Definitions, key: string, calls: seq<string>) {
    forall name :: Lookup(reverse, name) == Append(Callers(defs, name), key, Times(calls, name))
  }

  lemma TimesOneMore(calls: seq<string>, i: nat, name: string)
    requires i < |calls|
    ensures Times(calls[..i + 1], name) == Times(calls[..i], name) + if name == calls[i] then 1 else 0
  {
    assert calls[..i + 1] == calls[..i] + [calls[i]];
  }

  lemma OneMoreCallFrom(
    reverse: map<string, seq<string>>, defs: Definitions, key: string, calls: seq<string>, i: nat, name: string)
    requires i < |calls| && Lookup(reverse, name) == Append(Callers(defs, name), key, Times(calls[..i], name))
    ensures Lookup(reverse[calls[i] := Lookup(reverse, calls[i]) + [key]], name)
         == Append(Callers(defs, name), key, Times(calls[..i + 1], name))
  {
    TimesOneMore(calls, i, name);
    var n := Times(calls[..i], name);
    assert Append(Callers(defs, name), key, n + 1) == Append(Callers(defs, name), key, n) + [key];
  }

  lemma OneMoreCall(reverse: map<string, seq<string>>, defs: Definitions, key: string, calls: seq<string>, i: nat)
    requires i < |calls| && CallersAre(reverse, defs, key, calls[..i])
    ensures CallersAre(reverse[calls[i] := Lookup(reverse, calls[i]) + [key]], defs, key, calls[..i + 1])
  {
    var extended := reverse[calls[i] := Lookup(reverse, calls[i]) + [key]];
    forall name ensures Lookup(extended, name) == Append(Callers(defs, name), key, Times(calls[..i + 1], name)) {
      OneMoreCallFrom(reverse, defs, key, calls, i, name);
    }
  }

  class CallGraphBuilder {
    var graph: map<string, seq<string>>
    var reverse: map<string, seq<string>>

    constructor ()
      ensures graph == map[] && reverse == map[]
    {
      graph := map[];
      reverse := map[];
    }

    function GetCallers(name: string): seq<string>
      reads this
    {
      Lookup(reverse, name)
    }

    function GetCallees(name: string): seq<string>
      reads this
    {
      Lookup(graph, name)
    }

    // Both dictionaries hold exactly what `defs` says.
    ghost predicate Holds(defs: Definitions)
      reads this
    {
      && (forall key :: key in graph <==> Defined(defs, key))
      && (forall key :: GetCallees(key) == Callees(defs, key))
      && (forall name :: GetCallers(name) == Callers(defs, name))
    }

    method AddCallers(key: string, calls: seq<string>, ghost defs: Definitions)
      requires CallersAre(reverse, defs, key, [])
      modifies `reverse
      ensures CallersAre(reverse, defs, key, calls)
    {
      var i := 0;
      assert calls[..i] == [];
      while i < |calls|
        invariant 0 <= i <= |calls| && CallersAre(reverse, defs, key, calls[..i])
      {
        OneMoreCall(reverse, defs, key, calls, i);
        reverse := reverse[calls[i] := Lookup(reverse, calls[i]) + [key]];
        i := i + 1;
      }
      assert calls[..i] == calls;
    }

    method AddDefinition(d: Definition, ghost defs: Definitions)
      requires Holds(defs)
      modifies this
      ensures Holds(defs + [d])
    {
      graph := graph[d.Key() := d.calls];
      assert CallersAre(reverse, defs, d.Key(), []) by {
        forall name ensures Lookup(reverse, name) == Append(Callers(defs, name), d.Key(), Times([], name)) {
          assert Lookup(reverse, name) == GetCallers(name);
        }
      }
      AddCallers(d.Key(), d.calls, defs);
      Extend(defs, d);
    }

    method AddFunctions(path: string, owner: Option<string>, functions: seq<Function>, ghost defs: Definitions)
      requires Holds(defs)
      modifies this
      ensures Holds(defs + FunctionsOf(path, owner, functions))
    {
      assert defs + [] == defs;
      var i := 0;
      while i < |functions|
        invariant 0 <= i <= |functions| && Holds(defs + FunctionsOf(path, owner, functions[..i]))
      {
        var d := Definition(path, owner, functions[i].name, functions[i].calls);
        ghost var done := FunctionsOf(path, owner, functions[..i]);
        AddDefinition(d, defs + done);
        assert functions[..i + 1][..i] == functions[..i];
        assert defs + done + [d] == defs + (done + [d]);
        i := i + 1;
      }
      assert functions[..i] == functions;
    }

    method AddMethods(path: string, classes: seq<Class>, ghost defs: Definitions)
      requires Holds(defs)
      modifies this
      ensures Holds(defs + MethodsOf(path, classes))
    {
      assert defs + [] == defs;
      var i := 0;
      while i < |classes|
        invariant 0 <= i <= |classes| && Holds(defs + MethodsOf(path, classes[..i]))
      {
        var c := classes[i];
        ghost var done := MethodsOf(path, classes[..i]);
        AddFunctions(path, Some(c.name), c.methods, defs + done);
        assert classes[..i + 1][..i] == classes[..i];
        assert defs + done + FunctionsOf(path, Some(c.name), c.methods)
            == defs + (done + FunctionsOf(path, Some(c.name), c.methods));
        i := i + 1;
      }
      assert classes[..i] == classes;
    }

    /** Whatever was indexed before is forgotten. */
    method Build(index: Index) returns (forward: map<string, seq<string>>)
      modifies this
      ensures Holds(DefinitionsOf(index)) && forward == graph
    {
      graph := map[];
      reverse := map[];
      var i := 0;
      while i < |index|
        invariant 0 <= i <= |index| && Holds(DefinitionsOf(index[..i]))
      {
        var f := index[i];
        ghost var done := DefinitionsOf(index[..i]);
        AddFunctions(f.path, None, f.functions, done);
        AddMethods(f.path, f.classes, done + FunctionsOf(f.path, None, f.functions));
        assert index[..i + 1][..i] == index[..i];
        i := i + 1;
      }
      assert index[..i] == index;
      forward := graph;
    }
  }

  lemma Extend(defs: Definitions, d: Definition)
    ensures forall key :: Defined(defs + [d], key) <==> Defined(defs, key) || key == d.Key()
    ensures forall key :: Callees(defs + [d], key) == if key == d.Key() then d.calls else Callees(defs, key)
    ensures forall name :: Callers(defs + [d], name) == Append(Callers(defs, name), d.Key(), Times(d.calls, name))
  {
    var all := defs + [d];
    assert all[..|defs|] == defs;
    forall key ensures Defined(all, key) <==> Defined(defs, key) || key == d.Key() {
      if Defined(defs, key) {
        var i :| 0 <= i < |defs| && defs[i].Key() == key;
        assert all[i].Key() == key;
      }
      if key == d.Key() { assert all[|defs|].Key() == key; }
    }
  }

  // ------------------------------------------------------------ theorems

  ghost predicate DefinedIn(f: File, d: Definition) {
    && d.path == f.path
    && match d.owner {
         case None => Function(d.name, d.calls) in f.functions
         case Some(owner) => exists c | c in f.classes :: c.name == owner && Function(d.name, d.calls) in c.methods
       }
  }

  lemma {:induction false} FunctionsOfMembers(
    path: string, owner: Option<string>, functions: seq<Function>, d: Definition)
    ensures d in FunctionsOf(path, owner, functions)
       <==> d.path == path && d.owner == owner && Function(d.name, d.calls) in functions
  {
    if functions != [] {
      FunctionsOfMembers(path, owner, functions[..|functions| - 1], d);
      assert functions == functions[..|functions| - 1] + [functions[|functions| - 1]];
    }
  }

  lemma {:induction false} MethodsOfMembers(path: string, classes: seq<Class>, d: Definition)
    ensures d in MethodsOf(path, classes)
       <==> (&& d.path == path && d.owner.Some?
             && exists c | c in classes :: c.name == d.owner.value && Function(d.name, d.calls) in c.methods)
  {
    if classes != [] {
      var rest, c := classes[..|classes| - 1], classes[|classes| - 1];
      MethodsOfMembers(path, rest, d);
      FunctionsOfMembers(path, Some(c.name), c.methods, d);
      assert classes == rest + [c];
    }
  }

  /** The builder visits exactly the functions and methods of the index. */
  lemma {:induction false} VisitsEveryDefinition(index: Index, d: Definition)
    ensures d in DefinitionsOf(index) <==> exists f | f in index :: DefinedIn(f, d)
  {
    if index != [] {
      var rest, f := index[..|index| - 1], index[|index| - 1];
      VisitsEveryDefinition(rest, d);
      FunctionsOfMembers(f.path, None, f.functions, d);
      MethodsOfMembers(f.path, f.classes, d);
      assert DefinedIn(f, d) <==> d in FunctionsOf(f.path, None, f.functions) || d in MethodsOf(f.path, f.classes);
      assert forall g :: g in index <==> g in rest || g == f;
    }
  }

  // How often `key` calls `name` over all the definitions under it, and in the last of them.
  function Reverse(defs: Definitions, key: string, name: string): nat { Times(Callers(defs, name), key) }

  function Forward(defs: Definitions, key: string, name: string): nat { Times(Callees(defs, key), name) }

  // No definition under `key` calls anything.
  ghost predicate Silent(defs: Definitions, key: string) {
    forall i | 0 <= i < |defs| :: defs[i].Key() == key ==> defs[i].calls == []
  }

  // No definition under `key` calls anything, except perhaps the last.
  ghost predicate OnlyLastCalls(defs: Definitions, key: string) {
    forall i, j | 0 <= i < j < |defs| :: defs[i].Key() == defs[j].Key() == key ==> defs[i].calls == []
  }

  lemma {:induction false} AppendCounts(s: seq<string>, key: string, n: nat, other: string)
    ensures Times(Append(s, key, n), other) == Times(s, other) + if other == key then n else 0
  {
    if n > 0 { AppendCounts(s, key, n - 1, other); }
  }

  lemma LastDefinition(defs: Definitions, key: string, name: string)
    requires defs != []
    ensures var d, rest := defs[|defs| - 1], defs[..|defs| - 1];
            && Reverse(defs, key, name)
               == Reverse(rest, key, name) + (if d.Key() == key then Times(d.calls, name) else 0)
            && Forward(defs, key, name) == if d.Key() == key then Times(d.calls, name) else Forward(rest, key, name)
  {
    var d := defs[|defs| - 1];
    AppendCounts(Callers(defs[..|defs| - 1], name), d.Key(), Times(d.calls, name), key);
  }

  /** The forward graph never says more than the reverse one. */
  lemma {:induction false} ForwardWithinReverse(defs: Definitions, key: string, name: string)
    ensures Forward(defs, key, name) <= Reverse(defs, key, name)
  {
    if defs != [] {
      LastDefinition(defs, key, name);
      ForwardWithinReverse(defs[..|defs| - 1], key, name);
    }
  }

  lemma {:induction false} SilentIsUncalled(defs: Definitions, key: string, name: string)
    requires Silent(defs, key)
    ensures Reverse(defs, key, name) == 0
  {
    if defs != [] {
      LastDefinition(defs, key, name);
      SilentIsUncalled(defs[..|defs| - 1], key, name);
    }
  }

  lemma {:induction false} EveryDefinitionCounts(defs: Definitions, i: nat, name: string)
    requires i < |defs|
    ensures Reverse(defs, defs[i].Key(), name) >= Times(defs[i].calls, name)
  {
    LastDefinition(defs, defs[i].Key(), name);
    if i < |defs| - 1 { EveryDefinitionCounts(defs[..|defs| - 1], i, name); }
  }

  lemma LoudIsCalled(defs: Definitions, key: string) returns (name: string)
    requires !Silent(defs, key)
    ensures Reverse(defs, key, name) > 0
  {
    var i :| 0 <= i < |defs| && defs[i].Key() == key && defs[i].calls != [];
    name := defs[i].calls[0];
    assert name in multiset(defs[i].calls);
    EveryDefinitionCounts(defs, i, name);
  }

  ghost predicate Agree(defs: Definitions, key: string) {
    forall name :: Reverse(defs, key, name) == Forward(defs, key, name)
  }

  /** For a caller key the two graphs count every call alike if and only if none of the
      definitions that a later one under the same key overwrites calls anything. */
  lemma {:induction false} GraphsAgreeExactly(defs: Definitions, key: string)
    ensures Agree(defs, key) <==> OnlyLastCalls(defs, key)
  {
    if defs != [] {
      var d, rest := defs[|defs| - 1], defs[..|defs| - 1];
      if d.Key() == key {
        LastAlone(defs, key);
        if Silent(rest, key) {
          forall name ensures Reverse(defs, key, name) == Forward(defs, key, name) {
            LastDefinition(defs, key, name);
            SilentIsUncalled(rest, key, name);
          }
        } else {
          var name := LoudIsCalled(rest, key);
          LastDefinition(defs, key, name);
        }
      } else {
        forall name
          ensures Reverse(defs, key, name) == Reverse(rest, key, name)
          ensures Forward(defs, key, name) == Forward(rest, key, name)
        {
          LastDefinition(defs, key, name);
        }
        GraphsAgreeExactly(rest, key);
        LastElsewhere(defs, key);
      }
    }
  }

  lemma LastAlone(defs: Definitions, key: string)
    requires defs != [] && defs[|defs| - 1].Key() == key
    ensures OnlyLastCalls(defs, key) <==> Silent(defs[..|defs| - 1], key)
  {
    var rest := defs[..|defs| - 1];
    if OnlyLastCalls(defs, key) {
      forall i | 0 <= i < |rest| ensures rest[i].Key() == key ==> rest[i].calls == [] {
        assert defs[i] == rest[i];
      }
    }
  }

  lemma LastElsewhere(defs: Definitions, key: string)
    requires defs != [] && defs[|defs| - 1].Key() != key
    ensures OnlyLastCalls(defs, key) <==> OnlyLastCalls(defs[..|defs| - 1], key)
  {
    var rest := defs[..|defs| - 1];
    forall i, j | 0 <= i < j < |rest| ensures defs[i] == rest[i] && defs[j] == rest[j] {}
  }

  // -------------------------------------------------------------- keys

  // A Python identifier has neither of the characters that keys are put together with.
  ghost predicate Identifier(s: string) { ':' !in s && '.' !in s }

  ghost predicate WellNamed(d: Definition) {
    Identifier(d.name) && (d.owner.Some? ==> Identifier(d.owner.value))
  }

  // Where `c` is in the string for the last time.
  ghost predicate LastAt(s: string, c: char, i: nat) {
    i < |s| && s[i] == c && forall j | i < j < |s| :: s[j] != c
  }

  lemma SplitAtLast(a: string, x: string, b: string, y: string, c: char)
    requires a + [c] + x == b + [c] + y && c !in x && c !in y
    ensures a == b && x == y
  {
    var s := a + [c] + x;
    var t := b + [c] + y;
    assert LastAt(s, c, |a|);
    assert LastAt(t, c, |b|);
    assert |a| == |b|;
    assert s[..|a|] == a && t[..|b|] == b && s[|a| + 1..] == x && t[|b| + 1..] == y;
  }

  function Local(d: Definition): string { if d.owner.Some? then d.owner.value + "." + d.name else d.name }

  lemma LocalIsDotted(d: Definition)
    requires WellNamed(d)
    ensures ':' !in Local(d) && ('.' in Local(d) <==> d.owner.Some?)
  {
    if d.owner.Some? { assert Local(d)[|d.owner.value|] == '.'; }
  }

  lemma LocalIdentifies(d: Definition, e: Definition)
    requires WellNamed(d) && WellNamed(e)
    ensures Local(d) == Local(e) <==> d.owner == e.owner && d.name == e.name
  {
    LocalIsDotted(d);
    LocalIsDotted(e);
    if Local(d) == Local(e) && d.owner.Some? {
      SplitAtLast(d.owner.value, d.name, e.owner.value, e.name, '.');
    }
  }

  /** A key tells the definitions of different functions and methods apart, whatever the paths:
      only redefinitions share one. */
  lemma KeyIdentifies(d: Definition, e: Definition)
    requires WellNamed(d) && WellNamed(e)
    ensures d.Key() == e.Key() <==> d.path == e.path && d.owner == e.owner && d.name == e.name
  {
    LocalIdentifies(d, e);
    if d.Key() == e.Key() {
      LocalIsDotted(d);
      LocalIsDotted(e);
      assert d.Key() == (d.path + ":") + ":" + Local(d) && e.Key() == (e.path + ":") + ":" + Local(e);
      SplitAtLast(d.path + ":", Local(d), e.path + ":", Local(e), ':');
      assert d.path == (d.path + ":")[..|d.path|] && e.path == (e.path + ":")[..|e.path|];
    }
  }

  // No function or method is defined twice in the same place.
  ghost predicate DefinedOnce(defs: Definitions) {
    forall i, j | 0 <= i < j < |defs| ::
      !(defs[i].path == defs[j].path && defs[i].owner == defs[j].owner && defs[i].name == defs[j].name)
  }

  /** Without redefinitions the graphs agree on every caller. */
  lemma DefinedOnceAgrees(defs: Definitions, key: string)
    requires DefinedOnce(defs) && forall i | 0 <= i < |defs| :: WellNamed(defs[i])
    ensures Agree(defs, key)
  {
    forall i, j | 0 <= i < j < |defs| ensures defs[i].Key() != defs[j].Key() {
      KeyIdentifies(defs[i], defs[j]);
    }
    GraphsAgreeExactly(defs, key);
  }

  // -------------------------------------------------------------- queries

  lemma {:induction false} AppendJoins(s: seq<string>, t: seq<string>, key: string, n: nat)
    ensures Append(s + t, key, n) == s + Append(t, key, n)
  {
    if n > 0 {
      AppendJoins(s, t, key, n - 1);
      assert s + Append(t, key, n - 1) + [key] == s + (Append(t, key, n - 1) + [key]);
    }
  }

  // Callers are listed in the order in which their definitions are visited.
  lemma {:induction false} CallersInOrder(defs: Definitions, more: Definitions, name: string)
    ensures Callers(defs + more, name) == Callers(defs, name) + Callers(more, name)
  {
    if more == [] {
      assert defs + more == defs;
    } else {
      var n, d := |more| - 1, more[|more| - 1];
      CallersInOrder(defs, more[..n], name);
      assert (defs + more)[..|defs| + n] == defs + more[..n];
      AppendJoins(Callers(defs, name), Callers(more[..n], name), d.Key(), Times(d.calls, name));
    }
  }

  lemma {:induction false} CalleesOfTheLast(defs: Definitions, i: nat)
    requires i < |defs| && forall j | i < j < |defs| :: defs[j].Key() != defs[i].Key()
    ensures Callees(defs, defs[i].Key()) == defs[i].calls
  {
    if i < |defs| - 1 { CalleesOfTheLast(defs[..|defs| - 1], i); }
  }

  /** Queries by key: when nothing is defined twice in one place, a function is found under
      `path::name` and a method under `path::Class.name`, with its own calls in order, and it is
      among the callers of a name as often as it calls it. */
  lemma FoundByKey(defs: Definitions, i: nat, name: string)
    requires DefinedOnce(defs) && i < |defs| && forall j | 0 <= j < |defs| :: WellNamed(defs[j])
    ensures var d := defs[i];
            var key := d.path + "::" + match d.owner {
                         case None => d.name
                         case Some(cls) => cls + "." + d.name
                       };
            Callees(defs, key) == d.calls && multiset(Callers(defs, name))[key] == multiset(d.calls)[name]
  {
    forall j | i < j < |defs| ensures defs[j].Key() != defs[i].Key() { KeyIdentifies(defs[i], defs[j]); }
    CalleesOfTheLast(defs, i);
    DefinedOnceAgrees(defs, defs[i].Key());
    assert Reverse(defs, defs[i].Key(), name) == Forward(defs, defs[i].Key(), name);
  }

  // How many functions and methods the index has.
  function DefinitionCount(index: Index): nat {
    if index == [] then 0
    else
      var f := index[|index| - 1];
      DefinitionCount(index[..|index| - 1]) + |f.functions| + MethodCount(f.classes)
  }

  function MethodCount(classes: seq<Class>): nat {
    if classes == [] then 0
    else MethodCount(classes[..|classes| - 1]) + |classes[|classes| - 1].methods|
  }

  lemma {:induction false} FunctionsCounted(path: string, owner: Option<string>, functions: seq<Function>)
    ensures |FunctionsOf(path, owner, functions)| == |functions|
  {
    if functions != [] { FunctionsCounted(path, owner, functions[..|functions| - 1]); }
  }

  lemma {:induction false} MethodsCounted(path: string, classes: seq<Class>)
    ensures |MethodsOf(path, classes)| == MethodCount(classes)
  {
    if classes != [] {
      var c := classes[|classes| - 1];
      MethodsCounted(path, classes[..|classes| - 1]);
      FunctionsCounted(path, Some(c.name), c.methods);
    }
  }

  /** None is visited more often than it is written. */
  lemma {:induction false} VisitsEachOnce(index: Index)
    ensures |DefinitionsOf(index)| == DefinitionCount(index)
  {
    if index != [] {
      var f := index[|index| - 1];
      VisitsEachOnce(index[..|index| - 1]);
      FunctionsCounted(f.path, None, f.functions);
      MethodsCounted(f.path, f.classes);
    }
  }
}
