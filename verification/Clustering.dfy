// Greedy first-fit clustering with running centroids, of services/knowledge-memory
// (pattern_extractor.py, `cluster_observations`), over exact reals.
module Clustering {
  import opened Similarity

  // An observation without an embedding has an empty one.
  datatype Observation = Observation(id: string, embedding: Vector)

  datatype State = State(clusters: seq<seq<Observation>>, centroids: seq<Vector>)

  const EMPTY: State := State([], [])

  predicate Matches(sqrt: real -> real, threshold: real, embedding: Vector, centroid: Vector) {
    centroid != [] && Cosine(sqrt, embedding, centroid) >= threshold
  }

  // The first cluster that takes the embedding, or one past the last.
  function FirstMatch(sqrt: real -> real, threshold: real, embedding: Vector, centroids: seq<Vector>): (i: nat)
    ensures i <= |centroids|
    ensures i < |centroids| ==> Matches(sqrt, threshold, embedding, centroids[i])
    ensures forall j | 0 <= j < i :: !Matches(sqrt, threshold, embedding, centroids[j])
  {
    if centroids == [] || Matches(sqrt, threshold, embedding, centroids[0]) then 0
    else 1 + FirstMatch(sqrt, threshold, embedding, centroids[1..])
  }

  // `zip` stops at the shorter vector.
  function Averaged(centroid: Vector, embedding: Vector, n: nat): Vector
    requires n >= 1
  {
    seq(if |centroid| <= |embedding| then |centroid| else |embedding|,
        i requires 0 <= i < |centroid| && i < |embedding| =>
          (centroid[i] * (n - 1) as real + embedding[i]) / n as real)
  }

  function PlaceOf(sqrt: real -> real, threshold: real, s: State, obs: Observation): nat {
    if obs.embedding == [] then |s.centroids| else FirstMatch(sqrt, threshold, obs.embedding, s.centroids)
  }

  function Placed(sqrt: real -> real, threshold: real, s: State, obs: Observation): State
    requires |s.clusters| == |s.centroids|
  {
    var i := PlaceOf(sqrt, threshold, s, obs);
    if i == |s.centroids| then State(s.clusters + [[obs]], s.centroids + [obs.embedding])
    else
      var members := s.clusters[i] + [obs];
      State(s.clusters[i := members],
            s.centroids[i := Averaged(s.centroids[i], obs.embedding, |members|)])
  }

  function Clustered(sqrt: real -> real, threshold: real, observations: seq<Observation>): (s: State)
    ensures |s.clusters| == |s.centroids|
  {
    if observations == [] then EMPTY
    else
      Placed(sqrt, threshold, Clustered(sqrt, threshold, observations[..|observations| - 1]),
             observations[|observations| - 1])
  }

  // One observation through the centroids, in order.
  method PlaceObservation(
    sqrt: real -> real, threshold: real, clusters: seq<seq<Observation>>, centroids: seq<Vector>, obs: Observation)
    returns (clusters': seq<seq<Observation>>, centroids': seq<Vector>)
    requires |clusters| == |centroids| && obs.embedding != []
    ensures State(clusters', centroids') == Placed(sqrt, threshold, State(clusters, centroids), obs)
  {
    var i := 0;
    while i < |centroids|
      invariant 0 <= i <= |centroids|
      invariant forall j | 0 <= j < i :: !Matches(sqrt, threshold, obs.embedding, centroids[j])
    {
      var centroid := centroids[i];
      if centroid != [] && Cosine(sqrt, obs.embedding, centroid) >= threshold {
        clusters' := clusters[i := clusters[i] + [obs]];
        var n := |clusters'[i]|;
        centroids' := centroids[i := Averaged(centroid, obs.embedding, n)];
        return;
      }
      i := i + 1;
    }
    clusters' := clusters + [[obs]];
    centroids' := centroids + [obs.embedding];
  }

  method ClusterObservations(sqrt: real -> real, threshold: real, observations: seq<Observation>)
    returns (clusters: seq<seq<Observation>>)
    ensures clusters == Clustered(sqrt, threshold, observations).clusters
  {
    clusters := [];
    var centroids: seq<Vector> := [];
    var k := 0;
    while k < |observations|
      invariant 0 <= k <= |observations|
      invariant State(clusters, centroids) == Clustered(sqrt, threshold, observations[..k])
    {
      var obs := observations[k];
      assert observations[..k + 1][..k] == observations[..k];
      if obs.embedding == [] {
        clusters := clusters + [[obs]];
        centroids := centroids + [[]];
      } else {
        clusters, centroids := PlaceObservation(sqrt, threshold, clusters, centroids, obs);
      }
      k := k + 1;
    }
    assert observations[..k] == observations;
  }

  // -------------------------------------------------------------- partition

  // Which cluster each observation went to.
  ghost function Assignment(sqrt: real -> real, threshold: real, observations: seq<Observation>): (a: seq<nat>)
    ensures |a| == |observations|
  {
    if observations == [] then []
    else
      var before := observations[..|observations| - 1];
      Assignment(sqrt, threshold, before)
      + [PlaceOf(sqrt, threshold, Clustered(sqrt, threshold, before), observations[|observations| - 1])]
  }

  // The observations assigned to cluster c, in input order.
  ghost function Members(observations: seq<Observation>, assignment: seq<nat>, c: nat): seq<Observation>
    requires |observations| == |assignment|
  {
    if observations == [] then []
    else
      var n := |observations| - 1;
      Members(observations[..n], assignment[..n], c)
      + (if assignment[n] == c then [observations[n]] else [])
  }

  ghost predicate IsPartition(observations: seq<Observation>, assignment: seq<nat>, clusters: seq<seq<Observation>>)
    requires |observations| == |assignment|
  {
    && (forall k | 0 <= k < |assignment| :: assignment[k] < |clusters|)
    && (forall c | 0 <= c < |clusters| :: clusters[c] != [] && clusters[c] == Members(observations, assignment, c))
  }

  lemma {:induction false} MembersBeyond(observations: seq<Observation>, assignment: seq<nat>, c: nat)
    requires |observations| == |assignment| && (forall k | 0 <= k < |assignment| :: assignment[k] < c)
    ensures Members(observations, assignment, c) == []
  {
    if observations != [] {
      MembersBeyond(observations[..|observations| - 1], assignment[..|observations| - 1], c);
    }
  }

  /** The clusters partition the input: each observation goes to exactly one cluster, no cluster is
      empty, and each lists its members in input order. */
  lemma {:induction false} ClustersPartitionTheInput(
    sqrt: real -> real, threshold: real, observations: seq<Observation>)
    ensures IsPartition(observations, Assignment(sqrt, threshold, observations),
                        Clustered(sqrt, threshold, observations).clusters)
  {
    if observations != [] {
      var n := |observations| - 1;
      var before := observations[..n];
      var obs := observations[n];
      var s := Clustered(sqrt, threshold, before);
      var a := Assignment(sqrt, threshold, observations);
      ClustersPartitionTheInput(sqrt, threshold, before);
      assert a[..n] == Assignment(sqrt, threshold, before);
      var t := Clustered(sqrt, threshold, observations);
      forall c | 0 <= c < |t.clusters|
        ensures t.clusters[c] != [] && t.clusters[c] == Members(observations, a, c)
      {
        if c == |s.clusters| { MembersBeyond(before, a[..n], c); }
      }
    }
  }

  // -------------------------------------------------------------- first fit

  // Cluster c takes the observation when its centroid is similar enough and no earlier one is.
  ghost predicate FirstSimilar(sqrt: real -> real, threshold: real, centroids: seq<Vector>, embedding: Vector, c: nat) {
    && c < |centroids| && centroids[c] != [] && Cosine(sqrt, embedding, centroids[c]) >= threshold
    && forall j | 0 <= j < c :: centroids[j] == [] || Cosine(sqrt, embedding, centroids[j]) < threshold
  }

  /** An observation with an embedding joins the first cluster that is similar enough, and starts one
      of its own if and only if there is none; one without an embedding always starts its own. */
  lemma JoinsTheFirstSimilar(sqrt: real -> real, threshold: real, before: seq<Observation>, obs: Observation)
    ensures var s, t := Clustered(sqrt, threshold, before), Clustered(sqrt, threshold, before + [obs]);
            && (|t.clusters| == |s.clusters|
                <==> obs.embedding != []
                     && exists c :: 0 <= c < |s.centroids| && s.centroids[c] != []
                                    && Cosine(sqrt, obs.embedding, s.centroids[c]) >= threshold)
            && (|t.clusters| != |s.clusters| ==>
                  t.clusters == s.clusters + [[obs]] && t.centroids == s.centroids + [obs.embedding])
            && (|t.clusters| == |s.clusters| ==>
                  exists c: nat :: FirstSimilar(sqrt, threshold, s.centroids, obs.embedding, c)
                                   && t.clusters == s.clusters[c := s.clusters[c] + [obs]])
  {
    assert (before + [obs])[..|before|] == before;
    var s := Clustered(sqrt, threshold, before);
    var i := PlaceOf(sqrt, threshold, s, obs);
    if i < |s.centroids| {
      forall j | 0 <= j < i ensures s.centroids[j] == [] || Cosine(sqrt, obs.embedding, s.centroids[j]) < threshold {
        assert !Matches(sqrt, threshold, obs.embedding, s.centroids[j]);
      }
      assert FirstSimilar(sqrt, threshold, s.centroids, obs.embedding, i);
    } else if obs.embedding != [] {
      forall c | 0 <= c < |s.centroids|
        ensures s.centroids[c] == [] || Cosine(sqrt, obs.embedding, s.centroids[c]) < threshold
      {
        assert !Matches(sqrt, threshold, obs.embedding, s.centroids[c]);
      }
    }
  }

  // ---------------------------------------------------- centroids are means

  function ComponentSum(members: seq<Observation>, i: nat): real
    requires forall m | m in members :: i < |m.embedding|
  {
    if members == [] then 0.0
    else ComponentSum(members[..|members| - 1], i) + members[|members| - 1].embedding[i]
  }

  ghost predicate UniformLength(members: seq<Observation>, length: nat) {
    forall m | m in members :: |m.embedding| == length
  }

  // A cluster without embeddings is one observation; in any other, the centroid is the mean.
  ghost predicate WellFormed(members: seq<Observation>, centroid: Vector) {
    && |members| >= 1 && UniformLength(members, |centroid|)
    && (centroid == [] ==> |members| == 1)
    && (forall i | 0 <= i < |centroid| ::
          Total(centroid[i], |members|) == ComponentSum(members, i))
  }

  function Total(mean: real, n: nat): real { mean * n as real }

  ghost predicate AllWellFormed(s: State) {
    |s.clusters| == |s.centroids|
    && forall c | 0 <= c < |s.clusters| :: WellFormed(s.clusters[c], s.centroids[c])
  }

  lemma RunningAverage(c: real, e: real, n: nat, sum: real)
    requires n >= 1 && Total(c, n - 1) == sum
    ensures Total((c * (n - 1) as real + e) / n as real, n) == sum + e
  {}

  lemma JoinKeepsMean(members: seq<Observation>, centroid: Vector, obs: Observation)
    requires WellFormed(members, centroid) && centroid != [] && |obs.embedding| == |centroid|
    ensures WellFormed(members + [obs], Averaged(centroid, obs.embedding, |members| + 1))
  {
    var joined := members + [obs];
    var mean := Averaged(centroid, obs.embedding, |joined|);
    assert joined[..|members|] == members;
    forall i | 0 <= i < |mean| ensures Total(mean[i], |joined|) == ComponentSum(joined, i) {
      assert i < |centroid|;
      RunningAverage(centroid[i], obs.embedding[i], |joined|, ComponentSum(members, i));
    }
  }

  /** With a positive threshold, observations without embeddings stay alone, all embeddings of a
      cluster have one length (so `zip` never truncates), and each centroid times the size of its
      cluster is the component-wise sum of the members. */
  lemma {:induction false} CentroidsAreMeans(sqrt: real -> real, threshold: real, observations: seq<Observation>)
    requires threshold > 0.0
    ensures AllWellFormed(Clustered(sqrt, threshold, observations))
  {
    if observations != [] {
      var before := observations[..|observations| - 1];
      var obs := observations[|observations| - 1];
      var s := Clustered(sqrt, threshold, before);
      var i := PlaceOf(sqrt, threshold, s, obs);
      CentroidsAreMeans(sqrt, threshold, before);
      if i < |s.centroids| {
        assert WellFormed(s.clusters[i], s.centroids[i]);
        JoinKeepsMean(s.clusters[i], s.centroids[i], obs);
      } else {
        SingletonWellFormed(obs);
      }
    }
  }

  lemma SingletonWellFormed(obs: Observation)
    ensures WellFormed([obs], obs.embedding)
  {
    forall i | 0 <= i < |obs.embedding| ensures Total(obs.embedding[i], 1) == ComponentSum([obs], i) {
      assert [obs][..0] == [];
    }
  }

  // Whenever two observations have embeddings, the embeddings have one length.
  ghost predicate EqualLengths(observations: seq<Observation>) {
    forall a, b | a in observations && b in observations && a.embedding != [] && b.embedding != [] ::
      |a.embedding| == |b.embedding|
  }

  /** A positive threshold is needed only for embeddings of different lengths: clusters and centroids
      are as above if and only if the threshold is positive or all embeddings have one length. */
  lemma MeansExactlyWhenPositiveOrEqual(sqrt: real -> real, threshold: real, observations: seq<Observation>)
    ensures AllWellFormed(Clustered(sqrt, threshold, observations))
       <==> threshold > 0.0 || EqualLengths(observations)
  {
    if threshold > 0.0 {
      CentroidsAreMeans(sqrt, threshold, observations);
    } else if EqualLengths(observations) {
      EqualLengthsGiveMeans(sqrt, threshold, observations, LengthOf(observations));
    } else {
      UnequalLengthsMix(sqrt, threshold, observations);
      MixedIsNotWellFormed(Clustered(sqrt, threshold, observations));
    }
  }

  // The length of some embedding, 0 without embeddings.
  function LengthOf(observations: seq<Observation>): (n: nat)
    ensures n > 0 <==> exists o :: o in observations && o.embedding != []
    ensures n > 0 ==> exists o :: o in observations && |o.embedding| == n
  {
    if observations == [] then 0
    else
      assert observations[0] in observations;
      assert forall o :: o in observations <==> o == observations[0] || o in observations[1..];
      if observations[0].embedding != [] then |observations[0].embedding| else LengthOf(observations[1..])
  }

  ghost predicate OfLength(observations: seq<Observation>, length: nat) {
    forall o | o in observations && o.embedding != [] :: |o.embedding| == length
  }

  // Centroids are empty or of one length, and some are not empty when some embedding is not.
  ghost predicate CentroidsOfLength(s: State, length: nat) {
    forall c | 0 <= c < |s.centroids| && s.centroids[c] != [] :: |s.centroids[c]| == length
  }

  lemma {:induction false} EqualLengthsGiveMeans(
    sqrt: real -> real, threshold: real, observations: seq<Observation>, length: nat)
    requires OfLength(observations, length)
    ensures var s := Clustered(sqrt, threshold, observations);
            && AllWellFormed(s) && CentroidsOfLength(s, length)
            && ((exists o :: o in observations && o.embedding != []) ==>
                  exists c :: 0 <= c < |s.centroids| && s.centroids[c] != [])
  {
    if observations != [] {
      var n := |observations| - 1;
      var before, obs := observations[..n], observations[n];
      assert observations == before + [obs];
      EqualLengthsGiveMeans(sqrt, threshold, before, length);
      PlacingKeepsMeans(sqrt, threshold, Clustered(sqrt, threshold, before), obs, length);
    }
  }

  // One observation more, of that length.
  lemma PlacingKeepsMeans(sqrt: real -> real, threshold: real, s: State, obs: Observation, length: nat)
    requires AllWellFormed(s) && CentroidsOfLength(s, length)
    requires obs.embedding != [] ==> |obs.embedding| == length
    ensures var t := Placed(sqrt, threshold, s, obs);
            && AllWellFormed(t) && CentroidsOfLength(t, length)
            && (obs.embedding != [] ==> exists c :: 0 <= c < |t.centroids| && t.centroids[c] != [])
            && (forall c | 0 <= c < |s.centroids| && s.centroids[c] != [] :: t.centroids[c] != [])
  {
    var i := PlaceOf(sqrt, threshold, s, obs);
    var t := Placed(sqrt, threshold, s, obs);
    if i < |s.centroids| {
      assert WellFormed(s.clusters[i], s.centroids[i]);
      JoinKeepsMean(s.clusters[i], s.centroids[i], obs);
      assert t.centroids[i] != [];
    } else {
      SingletonWellFormed(obs);
      assert t.centroids[i] == obs.embedding;
    }
  }

  // Two embeddings of different lengths in one cluster.
  ghost predicate Mixed(members: seq<Observation>) {
    exists a, b :: a in members && b in members && |a.embedding| != |b.embedding|
  }

  ghost predicate SomeMixed(s: State) { exists c :: 0 <= c < |s.clusters| && Mixed(s.clusters[c]) }

  lemma MixedIsNotWellFormed(s: State)
    requires SomeMixed(s)
    ensures !AllWellFormed(s)
  {
    var c :| 0 <= c < |s.clusters| && Mixed(s.clusters[c]);
    if |s.clusters| == |s.centroids| {
      var a, b :| a in s.clusters[c] && b in s.clusters[c] && |a.embedding| != |b.embedding|;
      assert !WellFormed(s.clusters[c], s.centroids[c]);
    }
  }

  // At a threshold that is not positive the first embedding of another length joins a cluster.
  lemma {:induction false} UnequalLengthsMix(sqrt: real -> real, threshold: real, observations: seq<Observation>)
    requires threshold <= 0.0 && !EqualLengths(observations)
    ensures SomeMixed(Clustered(sqrt, threshold, observations))
  {
    var n := |observations| - 1;
    var before, obs := observations[..n], observations[n];
    var s := Clustered(sqrt, threshold, before);
    assert observations == before + [obs];
    if !EqualLengths(before) {
      UnequalLengthsMix(sqrt, threshold, before);
      MixedStaysMixed(sqrt, threshold, s, obs);
    } else {
      EqualLengthsGiveMeans(sqrt, threshold, before, LengthOf(before));
      OtherLengthMixes(sqrt, threshold, s, obs, LengthOf(before));
    }
  }

  lemma MixedStaysMixed(sqrt: real -> real, threshold: real, s: State, obs: Observation)
    requires |s.clusters| == |s.centroids| && SomeMixed(s)
    ensures SomeMixed(Placed(sqrt, threshold, s, obs))
  {
    var t := Placed(sqrt, threshold, s, obs);
    var c :| 0 <= c < |s.clusters| && Mixed(s.clusters[c]);
    var a, b :| a in s.clusters[c] && b in s.clusters[c] && |a.embedding| != |b.embedding|;
    assert a in t.clusters[c] && b in t.clusters[c];
  }

  lemma OtherLengthMixes(sqrt: real -> real, threshold: real, s: State, obs: Observation, length: nat)
    requires threshold <= 0.0 && AllWellFormed(s) && CentroidsOfLength(s, length)
    requires exists c :: 0 <= c < |s.centroids| && s.centroids[c] != []
    requires obs.embedding != [] && |obs.embedding| != length
    ensures SomeMixed(Placed(sqrt, threshold, s, obs))
  {
    var c :| 0 <= c < |s.centroids| && s.centroids[c] != [];
    assert Matches(sqrt, threshold, obs.embedding, s.centroids[c]);
    var i := PlaceOf(sqrt, threshold, s, obs);
    assert WellFormed(s.clusters[i], s.centroids[i]);
    var t := Placed(sqrt, threshold, s, obs);
    assert s.clusters[i][0] in t.clusters[i] && obs in t.clusters[i];
  }

  // For example: the centroid is cut to the shorter vector.
  lemma NonPositiveThresholdMixesLengths(sqrt: real -> real, threshold: real, x: real, y: real, z: real)
    requires threshold <= 0.0
    ensures var a := Observation("a", [x, y]);
            var b := Observation("b", [z]);
            Clustered(sqrt, threshold, [a, b])
            == State([[a, b]], [[(x * 1.0 + z) / 2.0]])
  {
    var a := Observation("a", [x, y]);
    var b := Observation("b", [z]);
    assert [a, b][..1] == [a] && [a][..0] == [];
    var s := State([[a]], [[x, y]]);
    assert Clustered(sqrt, threshold, [a]) == s;
    assert Matches(sqrt, threshold, [z], s.centroids[0]);
    assert PlaceOf(sqrt, threshold, s, b) == 0;
    var mean := Averaged([x, y], [z], 2);
    assert |mean| == 1 && mean[0] == (x * 1.0 + z) / 2.0;
    assert [a] + [b] == [a, b] && [[a]][0 := [a, b]] == [[a, b]];
    assert [[x, y]][0 := mean] == [mean] && mean == [(x * 1.0 + z) / 2.0];
    assert Clustered(sqrt, threshold, [a, b]) == Placed(sqrt, threshold, s, b);
  }

  /** Above 1 nothing is ever similar enough: every cluster is a single observation. */
  lemma {:induction false} ThresholdAboveOneSeparates(
    sqrt: real -> real, threshold: real, observations: seq<Observation>)
    requires IsSqrt(sqrt) && threshold > 1.0
    ensures var s := Clustered(sqrt, threshold, observations);
            |s.clusters| == |observations| && forall c | 0 <= c < |s.clusters| :: s.clusters[c] == [observations[c]]
  {
    if observations != [] {
      var before := observations[..|observations| - 1];
      var obs := observations[|observations| - 1];
      var s := Clustered(sqrt, threshold, before);
      ThresholdAboveOneSeparates(sqrt, threshold, before);
      var i := PlaceOf(sqrt, threshold, s, obs);
      if i < |s.centroids| { CosineBounded(sqrt, obs.embedding, s.centroids[i]); }
    }
  }
}
