// The dead-letter processor (dlq.py), while any others move between any two of its commands.
module Reprocessing {
  import opened DeadLetters
  import opened EventDelivery
  import opened Subscriber

  ghost predicate Within(letters: seq<LetterId>, size: nat) {
    forall i | 0 <= i < |letters| :: letters[i] < size
  }

  // The letters in the dead-letter queue, oldest first.
  function PresentAmong(letters: seq<Letter>): (present: seq<LetterId>)
    ensures Within(present, |letters|)
  {
    if letters == [] then []
    else
      var n := |letters| - 1;
      PresentAmong(letters[..n]) + if letters[n].deleted then [] else [n]
  }

  function Present(s: State): (present: seq<LetterId>)
    ensures Within(present, |s.letters|)
  {
    PresentAmong(s.letters)
  }

  // XRANGE with a positive COUNT.
  function Oldest(s: State, count: nat): (letters: seq<LetterId>)
    ensures Within(letters, |s.letters|)
  {
    var present := Present(s);
    if count < |present| then present[..count] else present
  }

  ghost predicate Ascending(letters: seq<LetterId>) {
    forall i, j | 0 <= i < j < |letters| :: letters[i] < letters[j]
  }

  // Every letter that was not deleted, none twice.
  lemma {:induction false} PresentMembers(letters: seq<Letter>)
    ensures forall d: LetterId :: d in PresentAmong(letters) <==> d < |letters| && !letters[d].deleted
    ensures Ascending(PresentAmong(letters))
  {
    if letters != [] {
      var n := |letters| - 1;
      var p, before := PresentAmong(letters), PresentAmong(letters[..n]);
      PresentMembers(letters[..n]);
      forall d: LetterId ensures d in p <==> d < |letters| && !letters[d].deleted {
        if d < n { assert letters[..n][d] == letters[d]; }
      }
    }
  }

  ghost predicate InQueue(s: State, d: LetterId) { d < |s.letters| && !s.letters[d].deleted }

  /** XRANGE gives letters that are in the queue, in order, `count` at most; any that it leaves out
      comes after all of these, and is left out only when there are `count` of them. */
  lemma OldestAreFirst(s: State, count: nat)
    ensures var letters := Oldest(s, count);
            && Ascending(letters) && |letters| <= count
            && (forall d: LetterId | d in letters :: InQueue(s, d))
            && (forall d: LetterId | InQueue(s, d) && d !in letters ::
                  |letters| == count && forall e | e in letters :: e < d)
  {
    var p, letters := Present(s), Oldest(s, count);
    PresentMembers(s.letters);
    forall d: LetterId | d in letters ensures InQueue(s, d) { assert d in p; }
    forall d: LetterId | InQueue(s, d) && d !in letters
      ensures |letters| == count && forall e | e in letters :: e < d
    {
      assert d in p;
      var i :| 0 <= i < |p| && p[i] == d;
      assert i >= |letters|;
    }
  }

  lemma {:induction false} PresentCount(letters: seq<Letter>)
    ensures |PresentAmong(letters)| == |set d: LetterId | d < |letters| && !letters[d].deleted|
  {
    var all := set d: LetterId | d < |letters| && !letters[d].deleted;
    if letters != [] {
      var n := |letters| - 1;
      var before := set d: LetterId | d < |letters[..n]| && !letters[..n][d].deleted;
      PresentCount(letters[..n]);
      forall d: LetterId ensures d in before <==> d in all && d != n {
        if d < n { assert letters[..n][d] == letters[d]; }
      }
      assert all == if letters[n].deleted then before else before + {n};
    }
  }

  // Re-publishing one letter under the id that the server gives, and a batch of them.
  function LetterSteps(w: Worker, d: LetterId, id: Bytes): seq<Action> {
    [Pick(w, d), ExecRepublish(w, id), ExecXDel(w)]
  }

  function BatchSteps(w: Worker, letters: seq<LetterId>, ids: nat -> Bytes): seq<Action> {
    if letters == [] then []
    else
      var n := |letters| - 1;
      BatchSteps(w, letters[..n], ids) + LetterSteps(w, letters[n], ids(n))
  }

  lemma BatchOneMore(w: Worker, letters: seq<LetterId>, ids: nat -> Bytes, n: nat)
    requires n < |letters|
    ensures BatchSteps(w, letters[..n + 1], ids)
         == BatchSteps(w, letters[..n], ids) + LetterSteps(w, letters[n], ids(n))
  {
    assert letters[..n + 1][..n] == letters[..n];
  }

  // Deleted, after it was re-published or found to have nothing to re-publish.
  predicate Reprocessed(s: State, d: LetterId) {
    d < |s.letters| && s.letters[d].deleted && (d in s.republished || Strip(s.letters[d].fields) == map[])
  }

  lemma ReprocessedStays(s: State, t: State, d: LetterId)
    requires Reprocessed(s, d) && Later(s, t)
    ensures Reprocessed(t, d)
  {
    assert LaterLetter(s.letters[d], t.letters[d]);
  }

  ghost predicate AllReprocessed(s: State, letters: seq<LetterId>) {
    forall i | 0 <= i < |letters| :: Reprocessed(s, letters[i])
  }

  lemma AllStay(s: State, t: State, letters: seq<LetterId>)
    requires AllReprocessed(s, letters) && Later(s, t)
    ensures AllReprocessed(t, letters)
  {
    forall i | 0 <= i < |letters| ensures Reprocessed(t, letters[i]) {
      ReprocessedStays(s, t, letters[i]);
    }
  }

  class DeadLetterProcessor {
    const redis: Connection

    constructor (redis: Connection)
      ensures this.redis == redis
    {
      this.redis := redis;
    }

    function Pc(): Pc
      reads redis, redis.store
    {
      PcOf(redis.store.s, redis.me)
    }

    method Count() returns (n: nat)
      requires redis.Consistent()
      modifies redis.store, redis`trace
      ensures redis.Consistent() && Later(old(redis.store.s), redis.store.s) && Pc() == old(Pc())
      ensures Own(redis.trace, redis.me) == Own(old(redis.trace), redis.me)
      ensures n == |set d: LetterId | d < |redis.store.s.letters| && !redis.store.s.letters[d].deleted|
    {
      redis.Sync();
      PresentCount(redis.store.s.letters);
      n := |Present(redis.store.s)|;
    }

    // The body of the loop of `reprocess`.
    method ReprocessLetter(d: LetterId, id: Bytes)
      requires redis.Consistent() && Pc().Idle? && d < |redis.store.s.letters|
      modifies redis.store, redis`trace
      ensures redis.Consistent() && Pc().Idle? && Later(old(redis.store.s), redis.store.s)
      ensures Own(redis.trace, redis.me) == Own(old(redis.trace), redis.me) + LetterSteps(redis.me, d, id)
      ensures Reprocessed(redis.store.s, d)
    {
      ghost var s0 := redis.store.s;
      ghost var found := redis.Perform(Pick(redis.me, d));
      ghost var s1 := redis.store.s;
      found := redis.Perform(ExecRepublish(redis.me, id));
      ghost var s2 := redis.store.s;
      LaterTransitive(s0, s1, s2);
      assert LaterLetter(s1.letters[d], found.letters[d]) && LaterLetter(s1.letters[d], s2.letters[d]);
      found := redis.Perform(ExecXDel(redis.me));
      assert LaterLetter(s2.letters[d], found.letters[d]);
      LaterTransitive(s0, s2, redis.store.s);
    }

    // The loop of `reprocess`.
    method ReprocessAll(messages: seq<LetterId>, ids: nat -> Bytes) returns (reprocessed: nat)
      requires redis.Consistent() && Pc().Idle? && Within(messages, |redis.store.s.letters|)
      modifies redis.store, redis`trace
      ensures redis.Consistent() && Pc().Idle? && Later(old(redis.store.s), redis.store.s)
      ensures reprocessed == |messages|
      ensures Own(redis.trace, redis.me) == Own(old(redis.trace), redis.me) + BatchSteps(redis.me, messages, ids)
      ensures AllReprocessed(redis.store.s, messages)
    {
      ghost var s0 := redis.store.s;
      LaterReflexive(s0);
      reprocessed := 0;
      while reprocessed < |messages|
        invariant 0 <= reprocessed <= |messages|
        invariant redis.Consistent() && Pc().Idle? && Later(s0, redis.store.s)
        invariant Own(redis.trace, redis.me)
               == Own(old(redis.trace), redis.me) + BatchSteps(redis.me, messages[..reprocessed], ids)
        invariant AllReprocessed(redis.store.s, messages[..reprocessed])
      {
        ghost var s1 := redis.store.s;
        BatchOneMore(redis.me, messages, ids, reprocessed);
        ReprocessLetter(messages[reprocessed], ids(reprocessed));
        LaterTransitive(s0, s1, redis.store.s);
        AllStay(s1, redis.store.s, messages[..reprocessed]);
        reprocessed := reprocessed + 1;
      }
      assert messages[..reprocessed] == messages;
    }

    /** The oldest letters that XRANGE finds, `count` at most, are all reprocessed, in order,
        whatever others do meanwhile: others may have dealt with some of them too, so that those
        are re-published twice. */
    method Reprocess(count: nat, ids: nat -> Bytes)
      returns (reprocessed: nat, ghost found: State, ghost letters: seq<LetterId>)
      requires redis.Consistent() && Pc().Idle? && count >= 1
      modifies redis.store, redis`trace
      ensures redis.Consistent() && Pc().Idle?
      ensures Later(old(redis.store.s), found) && Later(found, redis.store.s)
      ensures letters == Oldest(found, count) && reprocessed == |letters|
      ensures Own(redis.trace, redis.me) == Own(old(redis.trace), redis.me) + BatchSteps(redis.me, letters, ids)
      ensures AllReprocessed(redis.store.s, letters)
    {
      redis.Sync();
      found := redis.store.s;
      var messages := Oldest(redis.store.s, count);
      letters := messages;
      reprocessed := ReprocessAll(messages, ids);
    }

    // DEL of the whole stream.
    method Purge()
      requires redis.Consistent() && Pc().Idle?
      modifies redis.store, redis`trace
      ensures redis.Consistent() && Pc().Idle? && Later(old(redis.store.s), redis.store.s)
      ensures Own(redis.trace, redis.me) == Own(old(redis.trace), redis.me) + [EventDelivery.Purge(redis.me)]
      ensures forall d :: !InQueue(redis.store.s, d)
    {
      ghost var found := redis.Perform(EventDelivery.Purge(redis.me));
    }
  }

  lemma LaterReflexive(s: State)
    ensures Later(s, s)
  {}

  // ------------------------------------------------------------ alone

  // The messages that reprocessing these letters adds to the origin stream.
  function Requeued(s: State, letters: seq<LetterId>, ids: nat -> Bytes): seq<Message>
    requires Within(letters, |s.letters|)
  {
    if letters == [] then []
    else
      var n := |letters| - 1;
      var clean := Strip(s.letters[letters[n]].fields);
      Requeued(s, letters[..n], ids)
      + if clean == map[] then [] else [Message(ids(n), s.letters[letters[n]].event, clean, New)]
  }

  function Payloads(stream: seq<Message>): seq<Fields> {
    if stream == [] then [] else Payloads(stream[..|stream| - 1]) + [stream[|stream| - 1].fields]
  }

  function FieldsOf(s: State, letters: seq<LetterId>): seq<Fields>
    requires Within(letters, |s.letters|)
  {
    if letters == [] then []
    else
      var n := |letters| - 1;
      FieldsOf(s, letters[..n]) + [s.letters[letters[n]].fields]
  }

  // They carry the letters' own fields, in order.
  lemma {:induction false} RequeuedPayloads(s: State, letters: seq<LetterId>, ids: nat -> Bytes)
    requires Within(letters, |s.letters|)
    ensures Payloads(Requeued(s, letters, ids)) == Republished(FieldsOf(s, letters))
  {
    if letters != [] {
      var n := |letters| - 1;
      var fields := s.letters[letters[n]].fields;
      var before, after := Requeued(s, letters[..n], ids), Requeued(s, letters, ids);
      RequeuedPayloads(s, letters[..n], ids);
      RepublishedOneMore(FieldsOf(s, letters[..n]), fields);
      if Strip(fields) != map[] {
        assert after[..|after| - 1] == before;
      } else {
        assert after == before;
      }
    }
  }

  lemma {:induction false} DeleteOldest(letters: seq<Letter>, letter: Letter)
    requires PresentAmong(letters) != [] && letter.deleted
    ensures PresentAmong(letters)[0] < |letters|
    ensures PresentAmong(letters[PresentAmong(letters)[0] := letter]) == PresentAmong(letters)[1..]
  {
    var n := |letters| - 1;
    var p := PresentAmong(letters[..n]);
    var d := PresentAmong(letters)[0];
    var r := letters[d := letter];
    if p == [] {
      assert r[..n] == letters[..n];
    } else {
      DeleteOldest(letters[..n], letter);
      assert r[..n] == letters[..n][d := letter];
    }
  }

  // After the n oldest letters.
  ghost predicate Progress(s: State, t: State, w: Worker, ids: nat -> Bytes, n: nat)
    requires n <= |Present(s)|
  {
    && PcOf(t, w).Idle? && Later(s, t) && |t.letters| == |s.letters|
    && t.stream == s.stream + Requeued(s, Present(s)[..n], ids)
    && Present(t) == Present(s)[n..]
    && t.events == s.events && t.finished == s.finished && t.gone == s.gone
  }

  // Letter d, the oldest, was reprocessed.
  ghost predicate OldestGone(s: State, t: State, w: Worker, d: LetterId, id: Bytes)
    requires d < |s.letters|
  {
    var clean := Strip(s.letters[d].fields);
    && PcOf(t, w).Idle? && Later(s, t) && |t.letters| == |s.letters|
    && t.stream == s.stream + (if clean == map[] then [] else [Message(id, s.letters[d].event, clean, New)])
    && Present(s) == [d] + Present(t)
    && t.events == s.events && t.finished == s.finished && t.gone == s.gone
  }

  // What is left of reprocessing one letter.
  function LetterDone(s: State, w: Worker, d: LetterId, id: Bytes): State
    requires d < |s.letters|
  {
    var clean := Strip(s.letters[d].fields);
    var t := if clean == map[] then s
             else s.(stream := s.stream + [Message(id, s.letters[d].event, clean, New)],
                     republished := s.republished + {d});
    Goto(t, w, Idle).(letters := s.letters[d := s.letters[d].(deleted := true)])
  }

  lemma LetterStepsAlone(par: Params, s: State, w: Worker, d: LetterId, id: Bytes)
    requires PcOf(s, w).Idle? && d < |s.letters|
    ensures Leads(par, s, LetterSteps(w, d, id), LetterDone(s, w, d, id))
  {
    var s1 := Do(par, s, Pick(w, d));
    var s2 := Do(par, s1, ExecRepublish(w, id));
    LeadsOneStep(par, s, Pick(w, d));
    LeadsOneStep(par, s1, ExecRepublish(w, id));
    LeadsOneStep(par, s2, ExecXDel(w));
    LeadsOn(par, s, [Pick(w, d)], s1, [ExecRepublish(w, id)], s2);
    LeadsOn(par, s, [Pick(w, d)] + [ExecRepublish(w, id)], s2, [ExecXDel(w)], LetterDone(s, w, d, id));
    assert [Pick(w, d)] + [ExecRepublish(w, id)] + [ExecXDel(w)] == LetterSteps(w, d, id);
  }

  lemma LetterAlone(par: Params, s: State, w: Worker, d: LetterId, id: Bytes)
    requires PcOf(s, w).Idle? && Present(s) != [] && Present(s)[0] == d
    ensures Valid(par, s, LetterSteps(w, d, id))
    ensures OldestGone(s, After(par, s, LetterSteps(w, d, id)), w, d, id)
  {
    LetterStepsAlone(par, s, w, d, id);
    DeleteOldest(s.letters, s.letters[d].(deleted := true));
  }

  lemma OneMoreGone(s: State, t: State, u: State, w: Worker, ids: nat -> Bytes, n: nat)
    requires n < |Present(s)| && Progress(s, t, w, ids, n)
    requires OldestGone(t, u, w, Present(s)[n], ids(n))
    ensures Progress(s, u, w, ids, n + 1)
  {
    var d := Present(s)[n];
    assert LaterLetter(s.letters[d], t.letters[d]);
    LaterTransitive(s, t, u);
    assert Present(s)[..n + 1][..n] == Present(s)[..n];
  }

  /** When nobody else moves, the oldest letters leave the queue in order, their unreserved fields
      join the origin stream in order, and no other message, letter or event changes. */
  lemma {:induction false} ReprocessedAlone(par: Params, s: State, w: Worker, n: nat, ids: nat -> Bytes)
    requires PcOf(s, w).Idle? && n <= |Present(s)|
    ensures Valid(par, s, BatchSteps(w, Present(s)[..n], ids))
    ensures Progress(s, After(par, s, BatchSteps(w, Present(s)[..n], ids)), w, ids, n)
  {
    if n > 0 {
      var d, id := Present(s)[n - 1], ids(n - 1);
      var first := BatchSteps(w, Present(s)[..n - 1], ids);
      ReprocessedAlone(par, s, w, n - 1, ids);
      var t := After(par, s, first);
      LetterAlone(par, t, w, d, id);
      JoinRuns(par, s, first, LetterSteps(w, d, id));
      BatchOneMore(w, Present(s), ids, n - 1);
      OneMoreGone(s, t, After(par, t, LetterSteps(w, d, id)), w, ids, n - 1);
    }
  }

  lemma {:induction false} PayloadsJoin(a: seq<Message>, b: seq<Message>)
    ensures Payloads(a + b) == Payloads(a) + Payloads(b)
  {
    if b == [] {
      assert a + b == a;
    } else {
      assert (a + b)[..|a + b| - 1] == a + b[..|b| - 1];
      PayloadsJoin(a, b[..|b| - 1]);
    }
  }

  /** When the queue holds what dead-lettering made of these messages, non-empty and free of
      reserved names, reprocessing it alone puts the very messages back, in order, and empties it. */
  lemma DeadLetteredComesBack(par: Params, s: State, w: Worker, ids: nat -> Bytes, failed: seq<Failed>)
    requires PcOf(s, w).Idle? && FieldsOf(s, Present(s)) == Wrapped(failed)
    requires forall f | f in failed :: f.data != map[] && f.data.Keys !! RESERVED
    ensures Valid(par, s, BatchSteps(w, Present(s), ids))
    ensures var t := After(par, s, BatchSteps(w, Present(s), ids));
            Present(t) == [] && Payloads(t.stream) == Payloads(s.stream) + DataOf(failed)
  {
    var n := |Present(s)|;
    assert Present(s)[..n] == Present(s);
    ReprocessedAlone(par, s, w, n, ids);
    RequeuedPayloads(s, Present(s), ids);
    PayloadsJoin(s.stream, Requeued(s, Present(s), ids));
    ReprocessingUndoesDeadLettering(failed);
  }
}
