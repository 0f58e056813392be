// Python's insertion-ordered dictionary as a sequence of pairs with distinct keys.
module OrderedDict {

  datatype Pair<K, V> = Pair(key: K, value: V)

  type Dict<K, V> = seq<Pair<K, V>>

  ghost predicate Distinct<K, V>(d: Dict<K, V>) {
    forall i, j | 0 <= i < j < |d| :: d[i].key != d[j].key
  }

  ghost predicate Has<K, V>(d: Dict<K, V>, key: K) {
    exists i | 0 <= i < |d| :: d[i].key == key
  }

  // The position of `key`, or |d|.
  function Find<K(==), V>(d: Dict<K, V>, key: K): (n: nat)
    ensures n <= |d|
    ensures n < |d| ==> d[n].key == key
    ensures forall i | 0 <= i < n :: d[i].key != key
  {
    FindFrom(d, key, 0)
  }

  function FindFrom<K(==), V>(d: Dict<K, V>, key: K, i: nat): (n: nat)
    requires i <= |d|
    ensures i <= n <= |d|
    ensures n < |d| ==> d[n].key == key
    ensures forall k | i <= k < n :: d[k].key != key
    decreases |d| - i
  {
    if i == |d| || d[i].key == key then i else FindFrom(d, key, i + 1)
  }

  // `d.get(key, default)`
  function Get<K(==), V>(d: Dict<K, V>, key: K, default: V): V {
    var n := Find(d, key);
    if n < |d| then d[n].value else default
  }

  // `d[key] = value`: in place when the key is there, at the end otherwise.
  function Put<K(==), V>(d: Dict<K, V>, key: K, value: V): Dict<K, V> {
    var n := Find(d, key);
    if n < |d| then d[n := Pair(key, value)] else d + [Pair(key, value)]
  }

  // `d.pop(key, None)`
  function Pop<K(==), V>(d: Dict<K, V>, key: K): Dict<K, V> {
    var n := Find(d, key);
    if n < |d| then d[..n] + d[n + 1..] else d
  }

  lemma FindIs<K, V>(d: Dict<K, V>, key: K, i: nat)
    requires Distinct(d) && i < |d| && d[i].key == key
    ensures Find(d, key) == i
  {}

  lemma FindAbsent<K, V>(d: Dict<K, V>, key: K)
    requires forall i | 0 <= i < |d| :: d[i].key != key
    ensures Find(d, key) == |d|
  {}

  lemma PutKeeps<K, V>(d: Dict<K, V>, key: K, value: V, other: K, default: V)
    requires Distinct(d)
    ensures Distinct(Put(d, key, value))
    ensures Get(Put(d, key, value), other, default) == if other == key then value else Get(d, other, default)
    ensures Has(Put(d, key, value), other) <==> other == key || Has(d, other)
  {
    var p := Put(d, key, value);
    var n := Find(d, key);
    var m := Find(d, other);
    assert p[n].key == key;
    if other == key {
      FindIs(p, other, n);
    } else if m < |d| {
      assert p[m] == d[m];
      FindIs(p, other, m);
    } else {
      FindAbsent(p, other);
    }
  }

  lemma PopKeeps<K, V>(d: Dict<K, V>, key: K, other: K, default: V)
    requires Distinct(d)
    ensures Distinct(Pop(d, key))
    ensures Get(Pop(d, key), other, default) == if other == key then default else Get(d, other, default)
    ensures Has(Pop(d, key), other) <==> other != key && Has(d, other)
  {
    var p := Pop(d, key);
    var n := Find(d, key);
    var m := Find(d, other);
    if other == key || m == |d| {
      FindAbsent(p, other);
    } else {
      var k := if m < n || n == |d| then m else m - 1;
      assert p[k] == d[m];
      FindIs(p, other, k);
    }
  }

  // A key that is there keeps its place, a new one comes last.
  lemma PutKeepsOrder<K, V>(d: Dict<K, V>, key: K, value: V)
    ensures var p := Put(d, key, value);
            && (Has(d, key) ==> |p| == |d| && forall i | 0 <= i < |d| :: p[i].key == d[i].key)
            && (!Has(d, key) ==> p == d + [Pair(key, value)])
  {
    if Has(d, key) { var i :| 0 <= i < |d| && d[i].key == key; }
  }
}
