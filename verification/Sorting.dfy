// Python's `list.sort(key=..., reverse=True)`: descending, equal keys in their original order.
module Sorting {

  // An item, what it is sorted by, and its place in the unsorted list.
  datatype Keyed<+T> = Keyed(key: real, place: nat, item: T)

  function Insert<T>(sorted: seq<Keyed<T>>, x: Keyed<T>): seq<Keyed<T>> {
    if sorted == [] || sorted[|sorted| - 1].key >= x.key then sorted + [x]
    else Insert(sorted[..|sorted| - 1], x) + [sorted[|sorted| - 1]]
  }

  function SortDescending<T>(xs: seq<Keyed<T>>): seq<Keyed<T>> {
    if xs == [] then []
    else Insert(SortDescending(xs[..|xs| - 1]), xs[|xs| - 1])
  }

  // Higher key first; between equals, the earlier place first.
  predicate Precedes<T>(a: Keyed<T>, b: Keyed<T>) { a.key > b.key || (a.key == b.key && a.place < b.place) }

  ghost predicate Ordered<T>(s: seq<Keyed<T>>) {
    forall i, j | 0 <= i < j < |s| :: Precedes(s[i], s[j])
  }

  lemma AppendOrdered<T>(t: seq<Keyed<T>>, x: Keyed<T>)
    requires Ordered(t) && forall i | 0 <= i < |t| :: Precedes(t[i], x)
    ensures Ordered(t + [x])
  {}

  lemma {:induction false} InsertIsPermutation<T>(s: seq<Keyed<T>>, x: Keyed<T>)
    ensures multiset(Insert(s, x)) == multiset(s) + multiset{x} && |Insert(s, x)| == |s| + 1
  {
    if s != [] && s[|s| - 1].key < x.key {
      InsertIsPermutation(s[..|s| - 1], x);
      assert s == s[..|s| - 1] + [s[|s| - 1]];
    }
  }

  lemma {:induction false} InsertKeepsOrder<T>(s: seq<Keyed<T>>, x: Keyed<T>)
    requires Ordered(s) && forall i | 0 <= i < |s| :: s[i].place < x.place
    ensures Ordered(Insert(s, x))
  {
    if s != [] && s[|s| - 1].key < x.key {
      var n := |s| - 1;
      var t := Insert(s[..n], x);
      InsertKeepsOrder(s[..n], x);
      InsertIsPermutation(s[..n], x);
      forall i | 0 <= i < |t| ensures Precedes(t[i], s[n]) {
        assert t[i] in multiset(t);
      }
      AppendOrdered(t, s[n]);
    } else {
      AppendOrdered(s, x);
    }
  }

  // Each item's place is after those of the items before it.
  ghost predicate Placed<T>(xs: seq<Keyed<T>>) {
    forall i, j | 0 <= i < j < |xs| :: xs[i].place < xs[j].place
  }

  // The sorted list is the ordered permutation of the unsorted one.
  lemma {:induction false} SortOrders<T>(xs: seq<Keyed<T>>)
    requires Placed(xs)
    ensures Ordered(SortDescending(xs)) && multiset(SortDescending(xs)) == multiset(xs)
    ensures |SortDescending(xs)| == |xs|
  {
    if xs != [] {
      var n := |xs| - 1;
      var s := SortDescending(xs[..n]);
      SortOrders(xs[..n]);
      assert xs == xs[..n] + [xs[n]];
      forall i | 0 <= i < |s| ensures s[i].place < xs[n].place {
        assert s[i] in multiset(s);
        assert s[i] in xs[..n];
      }
      InsertKeepsOrder(s, xs[n]);
      InsertIsPermutation(s, xs[n]);
    }
  }
}
