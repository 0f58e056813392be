// The per-message retry counters of the event subscriber (subscriber.py): when a failing
// message is dead-lettered, and what pruning and restarts can do to the count.
module RetryCounters {
  import opened Common
  import opened OrderedDict

  // The counter key is the message id alone, so ids stand for messages: they are taken to be
  // unique across the subscribed streams.
  type MessageId = string

  type Counts = Dict<MessageId, nat>

  // `maxTracked` is _MAX_RETRY_TRACKING.
  datatype Params = Params(maxRetries: int, maxTracked: nat)

  datatype Outcome =
    | Success(id: MessageId)
    | Failure(id: MessageId)
    | Undecodable(id: MessageId)   // dead-lettered at once, counter untouched
    | Restart                      // the counters live in process memory

  function CountOf(c: Counts, id: MessageId): nat { Get(c, id, 0) }

  function Pruned(c: Counts, max: nat): Counts {
    if |c| > max then c[|c| / 2..] else c
  }

  function Counted(par: Params, c: Counts, id: MessageId): Counts {
    Pruned(Put(c, id, CountOf(c, id) + 1), par.maxTracked)
  }

  // Is this failure the one that moves `id` to the dead-letter queue?
  predicate GivesUp(par: Params, c: Counts, id: MessageId) {
    CountOf(c, id) + 1 >= par.maxRetries
  }

  function Process(par: Params, c: Counts, o: Outcome): Counts {
    match o
    case Success(id) => Pop(c, id)
    case Failure(id) => if GivesUp(par, c, id) then Pop(Counted(par, c, id), id) else Counted(par, c, id)
    case Undecodable(_) => c
    case Restart => []
  }

  function After(par: Params, history: seq<Outcome>): Counts {
    if history == [] then []
    else Process(par, After(par, history[..|history| - 1]), history[|history| - 1])
  }

  // The failure branch of the read loop.
  method CountFailure(par: Params, counts: Counts, id: MessageId) returns (c: Counts, giveUp: bool)
    requires Distinct(counts)
    ensures c == Counted(par, counts, id) && giveUp == GivesUp(par, counts, id)
  {
    var retryCount := CountOf(counts, id) + 1;
    c := Put(counts, id, retryCount);
    if |c| > par.maxTracked {
      ghost var all := c;
      PutKeeps(counts, id, retryCount, id, 0);
      var keys := seq(|c|, i requires 0 <= i < |c| => c[i].key);
      var half := |keys| / 2;
      var i := 0;
      while i < half
        invariant 0 <= i <= half && c == all[i..]
      {
        FindIs(c, keys[i], 0);
        c := Pop(c, keys[i]);
        i := i + 1;
      }
    }
    giveUp := retryCount >= par.maxRetries;
  }

  // ------------------------------------------------------------- invariant

  ghost predicate Inv(par: Params, c: Counts) {
    && Distinct(c) && |c| <= par.maxTracked
    && forall i | 0 <= i < |c| :: 1 <= c[i].value < par.maxRetries
  }

  // Pruning the older half never drops the counter just incremented.
  lemma PruningKeepsTheNewCount(par: Params, c: Counts, id: MessageId)
    requires Distinct(c) && |c| <= par.maxTracked && par.maxTracked >= 1
    ensures CountOf(Counted(par, c, id), id) == CountOf(c, id) + 1
    ensures Distinct(Counted(par, c, id)) && |Counted(par, c, id)| <= par.maxTracked
  {
    var p := Put(c, id, CountOf(c, id) + 1);
    PutKeeps(c, id, CountOf(c, id) + 1, id, 0);
    var r := Pruned(p, par.maxTracked);
    if |p| > par.maxTracked {
      assert p[|p| - 1].key == id && r[|r| - 1] == p[|p| - 1];
      FindIs(r, id, |r| - 1);
    }
  }

  lemma CountedValues(par: Params, c: Counts, id: MessageId)
    requires Inv(par, c)
    ensures forall e | e in Counted(par, c, id) ::
              (e.key == id && e.value == CountOf(c, id) + 1) || 1 <= e.value < par.maxRetries
  {
    var p := Put(c, id, CountOf(c, id) + 1);
    forall e | e in p ensures (e.key == id && e.value == CountOf(c, id) + 1) || e in c {
      var i :| 0 <= i < |p| && p[i] == e;
    }
  }

  lemma FailureKeepsInv(par: Params, c: Counts, id: MessageId)
    requires Inv(par, c) && par.maxTracked >= 1
    ensures Inv(par, Process(par, c, Failure(id)))
  {
    var n := Counted(par, c, id);
    var r := Process(par, c, Failure(id));
    PruningKeepsTheNewCount(par, c, id);
    CountedValues(par, c, id);
    PopKeeps(n, id, id, 0);
    if GivesUp(par, c, id) { PopDropsKey(n, id); }
    forall i | 0 <= i < |r| ensures 1 <= r[i].value < par.maxRetries {
      assert r[i] in n;
    }
  }

  lemma PopDropsKey(c: Counts, id: MessageId)
    requires Distinct(c)
    ensures forall i | 0 <= i < |Pop(c, id)| :: Pop(c, id)[i].key != id && Pop(c, id)[i] in c
  {}

  lemma ProcessKeepsInv(par: Params, c: Counts, o: Outcome)
    requires Inv(par, c) && par.maxTracked >= 1
    ensures Inv(par, Process(par, c, o))
  {
    match o
    case Success(id) =>
      PopKeeps(c, id, id, 0);
      PopDropsKey(c, id);
    case Failure(id) => FailureKeepsInv(par, c, id);
    case Undecodable(_) =>
    case Restart =>
  }

  /** Between messages every tracked count is at least 1 and below `max_retries`, and at most
      `maxTracked` ids are tracked. */
  lemma {:induction false} CountsStayBounded(par: Params, history: seq<Outcome>)
    requires par.maxTracked >= 1
    ensures Inv(par, After(par, history))
  {
    if history != [] {
      CountsStayBounded(par, history[..|history| - 1]);
      ProcessKeepsInv(par, After(par, history[..|history| - 1]), history[|history| - 1]);
    }
  }

  // ------------------------------------------------- against true failures

  predicate DeadLetters(par: Params, before: seq<Outcome>, o: Outcome) {
    o.Failure? && GivesUp(par, After(par, before), o.id)
  }

  // Failed deliveries of `id` since it last succeeded or was dead-lettered for failing.
  function Failures(par: Params, history: seq<Outcome>, id: MessageId): nat {
    if history == [] then 0
    else
      var before := history[..|history| - 1];
      var o := history[|history| - 1];
      if o.Success? && o.id == id then 0
      else if o.Failure? && o.id == id then
        if DeadLetters(par, before, o) then 0 else Failures(par, before, id) + 1
      else Failures(par, before, id)
  }

  // Was the counter of `id` pruned, or lost in a restart, since then?
  predicate Lost(par: Params, history: seq<Outcome>, id: MessageId) {
    if history == [] then false
    else
      var before := history[..|history| - 1];
      var o := history[|history| - 1];
      && Failures(par, history, id) > 0
      && (|| Lost(par, before, id)
          || (Failures(par, before, id) > 0
              && CountOf(After(par, before), id) > 0 && CountOf(After(par, history), id) == 0))
  }

  // Other ids that failed since then.
  function FailedSince(par: Params, history: seq<Outcome>, id: MessageId): set<MessageId> {
    if history == [] || Failures(par, history, id) == 0 then {}
    else
      var o := history[|history| - 1];
      FailedSince(par, history[..|history| - 1], id)
      + (if o.Failure? && o.id != id then {o.id} else {})
  }

  lemma CountedKeptOrDropped(par: Params, c: Counts, key: MessageId, id: MessageId)
    requires Distinct(c) && key != id
    ensures var n := CountOf(Counted(par, c, key), id); n == CountOf(c, id) || n == 0
  {
    PutKeepsOther(c, key, CountOf(c, key) + 1, id);
    PrunedKeptOrDropped(Put(c, key, CountOf(c, key) + 1), par.maxTracked, id);
  }

  lemma PutKeepsOther(c: Counts, key: MessageId, value: nat, id: MessageId)
    requires Distinct(c) && key != id
    ensures Distinct(Put(c, key, value)) && CountOf(Put(c, key, value), id) == CountOf(c, id)
  {
    PutKeeps(c, key, value, id, 0);
  }

  // A counter other than the one incremented stays, or is dropped.
  lemma OthersKeptOrDropped(par: Params, c: Counts, o: Outcome, id: MessageId)
    requires Inv(par, c) && par.maxTracked >= 1 && (o.Restart? || o.id != id)
    ensures var n := CountOf(Process(par, c, o), id); n == CountOf(c, id) || n == 0
  {
    match o
    case Success(k) => PopKeeps(c, k, id, 0);
    case Failure(k) =>
      CountedKeptOrDropped(par, c, k, id);
      PruningKeepsTheNewCount(par, c, k);
      PopKeeps(Counted(par, c, k), k, id, 0);
    case Undecodable(_) =>
    case Restart =>
  }

  lemma PrunedKeptOrDropped(c: Counts, max: nat, id: MessageId)
    requires Distinct(c)
    ensures CountOf(Pruned(c, max), id) == CountOf(c, id) || CountOf(Pruned(c, max), id) == 0
  {
    var r := Pruned(c, max);
    var n := Find(r, id);
    if n < |r| && |c| > max { FindIs(c, id, n + |c| / 2); }
  }

  /** The tracked count never exceeds the failures since the last success or dead-lettering, and
      equals them exactly when the counter was not lost in between. */
  lemma {:induction false} CountAgainstFailures(par: Params, history: seq<Outcome>, id: MessageId)
    requires par.maxTracked >= 1
    ensures CountOf(After(par, history), id) <= Failures(par, history, id)
    ensures CountOf(After(par, history), id) == Failures(par, history, id) <==> !Lost(par, history, id)
  {
    if history != [] {
      var before := history[..|history| - 1];
      var o := history[|history| - 1];
      var c := After(par, before);
      CountAgainstFailures(par, before, id);
      CountsStayBounded(par, before);
      if o.Restart? || o.id != id {
        OthersKeptOrDropped(par, c, o, id);
      } else {
        match o
        case Success(_) => PopKeeps(c, id, id, 0);
        case Failure(_) =>
          PruningKeepsTheNewCount(par, c, id);
          PopKeeps(Counted(par, c, id), id, id, 0);
        case Undecodable(_) =>
      }
    }
  }

  /** A message is dead-lettered for a failing handler only after at least `max_retries` failed
      deliveries, and exactly on the `max_retries`-th when its counter was never lost. */
  lemma DeadLetteredOnTheLastRetry(par: Params, history: seq<Outcome>, id: MessageId)
    requires par.maxTracked >= 1
    ensures var nth := Failures(par, history, id) + 1;
            && (DeadLetters(par, history, Failure(id)) ==> nth >= par.maxRetries)
            && (!Lost(par, history, id) && par.maxRetries >= 1 ==>
                  nth <= par.maxRetries
                  && (DeadLetters(par, history, Failure(id)) <==> nth == par.maxRetries))
  {
    CountAgainstFailures(par, history, id);
    CountsStayBounded(par, history);
  }

  // ---------------------------------------------- when a counter is not lost

  ghost function KeysFrom(c: Counts, n: nat): set<MessageId> {
    set i | n <= i < |c| :: c[i].key
  }

  lemma {:induction false} KeysFromSize(c: Counts, n: nat)
    requires Distinct(c) && n <= |c|
    ensures |KeysFrom(c, n)| == |c| - n
    decreases |c| - n
  {
    if n < |c| {
      KeysFromSize(c, n + 1);
      assert KeysFrom(c, n) == {c[n].key} + KeysFrom(c, n + 1);
    } else {
      assert KeysFrom(c, n) == {};
    }
  }

  // The ids stored after `id`.
  ghost function Behind(c: Counts, id: MessageId): set<MessageId> { KeysFrom(c, Find(c, id) + 1) }

  lemma PutBehind(c: Counts, key: MessageId, value: nat, id: MessageId)
    requires Distinct(c) && Has(c, id)
    ensures Distinct(Put(c, key, value)) && Has(Put(c, key, value), id)
    ensures Behind(Put(c, key, value), id) <= Behind(c, id) + (if key == id then {} else {key})
  {
    var p := Put(c, key, value);
    PutKeeps(c, key, value, id, 0);
    var n := Find(c, id);
    assert p[n].key == id;
    FindIs(p, id, n);
    forall i | n + 1 <= i < |p| ensures p[i].key in Behind(c, id) + (if key == id then {} else {key}) {
      if i < |c| { assert p[i].key == c[i].key; }
    }
  }

  lemma PopBehind(c: Counts, key: MessageId, id: MessageId)
    requires Distinct(c) && Has(c, id) && key != id
    ensures Has(Pop(c, key), id) && Behind(Pop(c, key), id) <= Behind(c, id)
  {
    var p := Pop(c, key);
    var n := Find(c, id);
    var k := Find(c, key);
    PopKeeps(c, key, id, 0);
    var m := if k < n then n - 1 else n;
    assert p[m] == c[n];
    FindIs(p, id, m);
    forall i | m + 1 <= i < |p| ensures p[i].key in Behind(c, id) {
      assert p[i] == if i < k then c[i] else c[i + 1];
    }
  }

  // Pruning spares an id with at most max - (max + 1) / 2 ids behind it.
  lemma PruneBehind(c: Counts, max: nat, id: MessageId)
    requires Distinct(c) && Has(c, id) && |c| <= max + 1
    requires |Behind(c, id)| <= max - (max + 1) / 2
    ensures Has(Pruned(c, max), id) && Behind(Pruned(c, max), id) == Behind(c, id)
  {
    var r := Pruned(c, max);
    var n := Find(c, id);
    KeysFromSize(c, n + 1);
    if |c| > max {
      var k := |c| / 2;
      assert r[n - k] == c[n];
      FindIs(r, id, n - k);
      forall x | x in Behind(c, id) ensures x in Behind(r, id) {
        var i :| n + 1 <= i < |c| && c[i].key == x;
        assert r[i - k].key == x;
      }
    }
  }

  lemma CountMeansHas(par: Params, c: Counts, id: MessageId)
    requires Inv(par, c)
    ensures Has(c, id) <==> CountOf(c, id) > 0
  {
    if Has(c, id) {
      var i :| 0 <= i < |c| && c[i].key == id;
      FindIs(c, id, i);
    }
  }

  lemma PutKeepsPlace(c: Counts, key: MessageId, value: nat, id: MessageId, others: set<MessageId>)
    requires Distinct(c)
    requires if Has(c, id) then Behind(c, id) + (if key == id then {} else {key}) <= others else key == id
    ensures var p := Put(c, key, value);
            Distinct(p) && Has(p, id) && Behind(p, id) <= others && |p| <= |c| + 1
  {
    if Has(c, id) {
      PutBehind(c, key, value, id);
    } else {
      PutKeeps(c, id, value, id, 0);
      FirstFailureIsLast(c, id, value);
    }
  }

  lemma PrunedKeepsPlace(c: Counts, max: nat, id: MessageId, others: set<MessageId>)
    requires Distinct(c) && Has(c, id) && |c| <= max + 1
    requires Behind(c, id) <= others && |others| <= max - (max + 1) / 2
    ensures Has(Pruned(c, max), id) && Behind(Pruned(c, max), id) <= others
  {
    SubsetSize(Behind(c, id), others);
    PruneBehind(c, max, id);
  }

  lemma CountedKeepsPlace(par: Params, c: Counts, key: MessageId, id: MessageId, others: set<MessageId>)
    requires Inv(par, c) && |others| <= par.maxTracked - (par.maxTracked + 1) / 2
    requires if Has(c, id) then Behind(c, id) + (if key == id then {} else {key}) <= others else key == id
    ensures var r := Counted(par, c, key); Has(r, id) && Behind(r, id) <= others
  {
    PutKeepsPlace(c, key, CountOf(c, key) + 1, id, others);
    PrunedKeepsPlace(Put(c, key, CountOf(c, key) + 1), par.maxTracked, id, others);
  }

  // A failure leaves the counter of `id` in place when few enough ids are behind it.
  lemma FailureKeepsPlace(par: Params, c: Counts, key: MessageId, id: MessageId, others: set<MessageId>)
    requires Inv(par, c) && par.maxTracked >= 1 && |others| <= par.maxTracked - (par.maxTracked + 1) / 2
    requires if Has(c, id) then Behind(c, id) + (if key == id then {} else {key}) <= others else key == id
    requires key == id ==> !GivesUp(par, c, id)
    ensures var r := Process(par, c, Failure(key)); Has(r, id) && Behind(r, id) <= others
  {
    CountedKeepsPlace(par, c, key, id, others);
    PruningKeepsTheNewCount(par, c, key);
    if key != id { PopBehind(Counted(par, c, key), key, id); }
  }

  // Whatever else happens, the counter keeps its place.
  lemma ProcessKeepsPlace(par: Params, c: Counts, o: Outcome, id: MessageId, others: set<MessageId>)
    requires Inv(par, c) && par.maxTracked >= 1 && |others| <= par.maxTracked - (par.maxTracked + 1) / 2
    requires !o.Restart? && (Has(c, id) || o == Failure(id)) && (Has(c, id) ==> Behind(c, id) <= others)
    requires o != Success(id) && (o.Failure? && o.id != id ==> o.id in others)
    requires o == Failure(id) ==> !GivesUp(par, c, id)
    ensures var r := Process(par, c, o); Has(r, id) && Behind(r, id) <= others
  {
    match o
    case Success(k) => PopBehind(c, k, id);
    case Failure(k) => FailureKeepsPlace(par, c, k, id, others);
    case Undecodable(_) =>
  }

  /** When no restart intervenes, a counter is not lost as long as at most
      maxTracked - (maxTracked + 1) / 2 other ids fail meanwhile. */
  lemma {:induction false} FewOtherFailuresLoseNothing(par: Params, history: seq<Outcome>, id: MessageId)
    requires par.maxTracked >= 1 && Restart !in history
    requires |FailedSince(par, history, id)| <= par.maxTracked - (par.maxTracked + 1) / 2
    ensures !Lost(par, history, id)
    ensures Failures(par, history, id) > 0 ==>
              Has(After(par, history), id) && Behind(After(par, history), id) <= FailedSince(par, history, id)
  {
    if history != [] && Failures(par, history, id) > 0 {
      var before := history[..|history| - 1];
      var o := history[|history| - 1];
      var c := After(par, before);
      assert o in history;
      SubsetSize(FailedSince(par, before, id), FailedSince(par, history, id));
      FewOtherFailuresLoseNothing(par, before, id);
      CountsStayBounded(par, before);
      CountsStayBounded(par, history);
      CountMeansHas(par, c, id);
      CountAgainstFailures(par, before, id);
      ProcessKeepsPlace(par, c, o, id, FailedSince(par, history, id));
      CountMeansHas(par, After(par, history), id);
    }
  }

  lemma FirstFailureIsLast(c: Counts, id: MessageId, value: nat)
    requires Distinct(c) && !Has(c, id)
    ensures Has(Put(c, id, value), id) && Behind(Put(c, id, value), id) == {}
  {
    var p := Put(c, id, value);
    PutKeeps(c, id, value, id, 0);
    assert Find(c, id) == |c|;
    FindIs(p, id, |c|);
  }

  // -------------------------------------------------------- ... and is

  // Different messages, each of which fails once.
  ghost predicate DifferentFailures(history: seq<Outcome>) {
    && (forall i | 0 <= i < |history| :: history[i].Failure?)
    && (forall i, j | 0 <= i < j < |history| :: history[i].id != history[j].id)
  }

  lemma FirstFailureIsAppended(par: Params, c: Counts, id: MessageId)
    requires Find(c, id) == |c| < par.maxTracked && par.maxRetries >= 2
    ensures Process(par, c, Failure(id)) == c + [Pair(id, 1)]
  {
    assert CountOf(c, id) == 0;
  }

  lemma FirstFailureIsPruned(par: Params, c: Counts, id: MessageId)
    requires Find(c, id) == |c| == par.maxTracked && par.maxRetries >= 2
    ensures Process(par, c, Failure(id)) == (c + [Pair(id, 1)])[(|c| + 1) / 2..]
  {
    assert CountOf(c, id) == 0;
  }

  ghost predicate CountsOnce(c: Counts, history: seq<Outcome>) {
    |c| == |history| && forall i | 0 <= i < |c| :: c[i].value == 1 && history[i] == Failure(c[i].key)
  }

  lemma NextIsNew(c: Counts, history: seq<Outcome>)
    requires DifferentFailures(history) && history != [] && CountsOnce(c, history[..|history| - 1])
    ensures Find(c, history[|history| - 1].id) == |c| && CountOf(c, history[|history| - 1].id) == 0
  {
    FindAbsent(c, history[|history| - 1].id);
  }

  lemma NextIsCountedOnce(c: Counts, history: seq<Outcome>)
    requires DifferentFailures(history) && history != [] && CountsOnce(c, history[..|history| - 1])
    ensures CountsOnce(c + [Pair(history[|history| - 1].id, 1)], history)
  {}

  lemma {:induction false} EachCountedOnce(par: Params, history: seq<Outcome>)
    requires DifferentFailures(history) && par.maxRetries >= 2 && |history| <= par.maxTracked
    ensures CountsOnce(After(par, history), history)
  {
    if history != [] {
      var n := |history| - 1;
      var c := After(par, history[..n]);
      EachCountedOnce(par, history[..n]);
      NextIsNew(c, history);
      FirstFailureIsAppended(par, c, history[n].id);
      NextIsCountedOnce(c, history);
    }
  }

  // What one failure more, without giving up, does to the failures counted here.
  lemma OneMoreFailure(par: Params, history: seq<Outcome>, id: MessageId)
    requires history != [] && history[|history| - 1].Failure?
    requires !GivesUp(par, After(par, history[..|history| - 1]), history[|history| - 1].id)
    ensures var before, last := history[..|history| - 1], history[|history| - 1].id;
            && Failures(par, history, id) == Failures(par, before, id) + (if last == id then 1 else 0)
            && FailedSince(par, history, id)
               == (if Failures(par, history, id) == 0 then {}
                   else FailedSince(par, before, id) + if last != id then {last} else {})
  {}

  ghost function IdsFrom(history: seq<Outcome>, k: nat): set<MessageId>
    requires DifferentFailures(history)
  {
    set i | k <= i < |history| :: history[i].id
  }

  lemma IdsFromLast(history: seq<Outcome>, k: nat)
    requires DifferentFailures(history) && k < |history|
    ensures IdsFrom(history, k) == IdsFrom(history[..|history| - 1], k) + {history[|history| - 1].id}
    ensures history[|history| - 1].id !in IdsFrom(history[..|history| - 1], k)
  {
    var before := history[..|history| - 1];
    forall x | x in IdsFrom(history, k) ensures x in IdsFrom(before, k) + {history[|history| - 1].id} {
      var i :| k <= i < |history| && history[i].id == x;
      if i < |before| { assert before[i].id == x; }
    }
    forall x | x in IdsFrom(before, k) ensures x in IdsFrom(history, k) && x != history[|history| - 1].id {
      var i :| k <= i < |before| && before[i].id == x;
      assert history[i].id == x;
    }
    assert history[|history| - 1].id in IdsFrom(history, k);
  }

  lemma {:induction false} IdsFromCount(history: seq<Outcome>, k: nat)
    requires DifferentFailures(history) && k <= |history|
    ensures |IdsFrom(history, k)| == |history| - k
  {
    if k < |history| {
      IdsFromCount(history[..|history| - 1], k);
      IdsFromLast(history, k);
    } else {
      assert IdsFrom(history, k) == {};
    }
  }

  lemma {:induction false} NeverFailed(par: Params, history: seq<Outcome>, id: MessageId)
    requires forall i | 0 <= i < |history| :: history[i].Failure? && history[i].id != id
    ensures Failures(par, history, id) == 0 && FailedSince(par, history, id) == {}
  {
    if history != [] { NeverFailed(par, history[..|history| - 1], id); }
  }

  // The k-th has failed once, and all later ones failed after it.
  lemma {:induction false} FailedOnce(par: Params, history: seq<Outcome>, k: nat)
    requires DifferentFailures(history) && par.maxRetries >= 2 && k < |history| <= par.maxTracked + 1
    ensures Failures(par, history, history[k].id) == 1
    ensures FailedSince(par, history, history[k].id) == IdsFrom(history, k + 1)
  {
    var n := |history| - 1;
    var before := history[..n];
    EachCountedOnce(par, before);
    NextIsNew(After(par, before), history);
    OneMoreFailure(par, history, history[k].id);
    if k == n {
      NeverFailed(par, before, history[n].id);
      assert IdsFrom(history, k + 1) == {};
    } else {
      FailedOnce(par, before, k);
      IdsFromLast(history, k + 1);
    }
  }

  lemma CountedOnce(c: Counts, history: seq<Outcome>, k: nat)
    requires DifferentFailures(history) && k < |c| <= |history| && CountsOnce(c, history[..|c|])
    ensures CountOf(c, history[k].id) == 1
  {
    assert c[k].key == history[k].id;
    FindIs(c, history[k].id, k);
  }

  lemma FrontIsDropped(c: Counts, history: seq<Outcome>, k: nat)
    requires DifferentFailures(history) && CountsOnce(c, history) && k < |c|
    ensures CountOf(c[k + 1..], history[k].id) == 0
  {
    FindAbsent(c[k + 1..], history[k].id);
  }

  // The failure that is one too many prunes the older half.
  lemma HalfIsDropped(par: Params, c: Counts, history: seq<Outcome>)
    requires DifferentFailures(history) && par.maxRetries >= 2 && |history| == par.maxTracked + 1 >= 2
    requires CountsOnce(c, history[..|history| - 1])
    ensures CountOf(Process(par, c, history[|history| - 1]), history[|history| / 2 - 1].id) == 0
  {
    var last := history[|history| - 1].id;
    NextIsNew(c, history);
    FirstFailureIsPruned(par, c, last);
    NextIsCountedOnce(c, history);
    FrontIsDropped(c + [Pair(last, 1)], history, |history| / 2 - 1);
  }

  lemma TheHalfIsDropped(par: Params, history: seq<Outcome>)
    requires DifferentFailures(history) && par.maxRetries >= 2 && |history| == par.maxTracked + 1 >= 2
    ensures var id := history[|history| / 2 - 1].id;
            CountOf(After(par, history[..|history| - 1]), id) == 1 && CountOf(After(par, history), id) == 0
  {
    EachCountedOnce(par, history[..|history| - 1]);
    CountedOnce(After(par, history[..|history| - 1]), history, |history| / 2 - 1);
    HalfIsDropped(par, After(par, history[..|history| - 1]), history);
  }

  lemma LostNow(par: Params, history: seq<Outcome>, id: MessageId)
    requires history != [] && Failures(par, history, id) > 0 && CountOf(After(par, history), id) == 0
    requires Failures(par, history[..|history| - 1], id) > 0 && CountOf(After(par, history[..|history| - 1]), id) > 0
    ensures Lost(par, history, id)
  {}

  lemma LaterFailures(par: Params, history: seq<Outcome>, k: nat, id: MessageId)
    requires DifferentFailures(history) && par.maxRetries >= 2 && k < |history| <= par.maxTracked + 1
    requires history[k].id == id
    ensures Failures(par, history, id) == 1 && |FailedSince(par, history, id)| == |history| - k - 1
  {
    FailedOnce(par, history, k);
    IdsFromCount(history, k + 1);
  }

  /** The bound is sharp: when as many different messages fail once each as can be tracked, and one
      more, the last of the older half has lost its counter after one failure, although just one
      other message more than the bound failed since. */
  lemma OneMoreFailureLosesTheCounter(par: Params, history: seq<Outcome>, id: MessageId)
    requires DifferentFailures(history) && par.maxRetries >= 2 && |history| == par.maxTracked + 1 >= 2
    requires id == history[|history| / 2 - 1].id
    ensures |FailedSince(par, history, id)| == par.maxTracked - (par.maxTracked + 1) / 2 + 1
    ensures Failures(par, history, id) == 1 && Lost(par, history, id)
  {
    LaterFailures(par, history, |history| / 2 - 1, id);
    LaterFailures(par, history[..|history| - 1], |history| / 2 - 1, id);
    TheHalfIsDropped(par, history);
    LostNow(par, history, id);
  }

  // ------------------------------------------ failing again is no protection

  lemma SecondFailureKeepsPlace(par: Params, c: Counts)
    requires Distinct(c) && 1 <= |c| <= par.maxTracked && par.maxRetries >= 3 && c[0].value == 1
    ensures var r := Process(par, c, Failure(c[0].key)); r == c[0 := Pair(c[0].key, 2)] && Distinct(r)
  {
    FindIs(c, c[0].key, 0);
  }

  lemma FirstOfFullIsPruned(par: Params, c: Counts, id: MessageId)
    requires Distinct(c) && 1 <= |c| == par.maxTracked && par.maxRetries >= 2 && !Has(c, id)
    ensures CountOf(Process(par, c, Failure(id)), c[0].key) == 0
  {
    FindAbsent(c, id);
    FirstFailureIsPruned(par, c, id);
    FindAbsent((c + [Pair(id, 1)])[(|c| + 1) / 2..], c[0].key);
  }

  lemma CountsOnceDistinct(c: Counts, history: seq<Outcome>)
    requires DifferentFailures(history) && CountsOnce(c, history)
    ensures Distinct(c)
  {}

  /** Counters are pruned by the order of first failures: when as many messages as can be tracked
      have failed, and the first of them fails again, the next new one still takes its counter. */
  lemma FailingAgainDoesNotHelp(par: Params, history: seq<Outcome>, id: MessageId)
    requires DifferentFailures(history) && 1 <= |history| == par.maxTracked && par.maxRetries >= 3
    requires Failure(id) !in history
    ensures var first := history[0].id;
            var again := history + [Failure(first)];
            && CountOf(After(par, again), first) == 2
            && CountOf(After(par, again + [Failure(id)]), first) == 0
  {
    var c, first := After(par, history), history[0].id;
    var again := history + [Failure(first)];
    EachCountedOnce(par, history);
    CountsOnceDistinct(c, history);
    SecondFailureKeepsPlace(par, c);
    assert again[..|history|] == history && (again + [Failure(id)])[..|again|] == again;
    var d := After(par, again);
    FindIs(d, first, 0);
    forall i | 0 <= i < |d| ensures d[i].key != id { assert history[i] in history; }
    FirstOfFullIsPruned(par, d, id);
  }

  // ------------------------------------------ restarts

  /** After a restart counting starts afresh, whatever happened before. */
  lemma {:induction false} RestartStartsAfresh(par: Params, before: seq<Outcome>, later: seq<Outcome>)
    ensures After(par, before + [Restart] + later) == After(par, later)
  {
    var all := before + [Restart] + later;
    if later == [] {
      assert all[..|before|] == before && all[|before|] == Restart;
    } else {
      var n := |later| - 1;
      RestartStartsAfresh(par, before, later[..n]);
      assert all[..|all| - 1] == before + [Restart] + later[..n];
    }
  }
}
