// Delivery of events through a consumer group and its dead-letter queue (publisher.py,
// subscriber.py and dlq.py) as a step protocol for one event type.
//
// Each Redis command and each handler call is one step.  Between two steps anything may happen:
// other consumers and dead-letter processors move, a worker crashes, a pending message is
// delivered again.  `events`, `finished`, `purged` and the origin of each copy are bookkeeping
// that no step reads.
module EventDelivery {
  import opened DeadLetters
  import opened Runs

  type Worker = nat
  type EventId = nat        // position in `events`
  type MessageId = nat      // position in `stream`
  type LetterId = nat       // position in `letters`

  datatype Status = New | Pending | Acked

  datatype Message = Message(id: Bytes, event: EventId, fields: Fields, status: Status)

  datatype Letter = Letter(event: EventId, fields: Fields, source: MessageId, deleted: bool, purged: bool)

  datatype Pc =
    | Idle
    | Handling(m: MessageId, returned: nat)       // this many handlers have returned
    | Handled(m: MessageId)                       // all have; XACK in flight
    | DeadLettering(m: MessageId, error: Bytes)   // XADD to the dead-letter stream in flight
    | Acking(m: MessageId)                        // copy written; XACK in flight
    | Republishing(d: LetterId)                   // entry read; XADD to the origin in flight
    | Deleting(d: LetterId)                       // XDEL in flight

  datatype State = State(
    events: seq<Fields>,
    stream: seq<Message>,
    letters: seq<Letter>,
    republished: set<LetterId>,
    finished: set<MessageId>,
    pcs: map<Worker, Pc>,
    gone: nat)                                    // this many messages, the oldest, are trimmed

  datatype Action =
    | Publish(id: Bytes, fields: Fields)          // ids are chosen by the server
    | Trim(gone: nat)                             // the MAXLEN of a publisher's XADD
    | Deliver(m: MessageId)                       // XREADGROUP ">"
    | Begin(w: Worker, m: MessageId)              // first processing from memory, or a redelivery
    | Undecodable(w: Worker)
    | HandlerReturns(w: Worker)
    | AllReturned(w: Worker)
    | HandlerFails(w: Worker, error: Bytes, giveUp: bool)
    | ExecDlqAdd(w: Worker)
    | ExecAck(w: Worker)
    | Pick(w: Worker, d: LetterId)                // from a possibly stale XRANGE
    | ExecRepublish(w: Worker, id: Bytes)
    | ExecXDel(w: Worker)
    | Crash(w: Worker)
    | Purge(w: Worker)                            // DEL of the dead-letter stream

  // `handlers` is how many handlers are registered for the event type, `maxLen` how many messages
  // a trim leaves at least (it is approximate, so it may leave more).
  datatype Params = Params(streamName: Bytes, handlers: nat, maxLen: nat)

  const INIT: State := State([], [], [], {}, {}, map[], 0)

  function PcOf(s: State, w: Worker): Pc { if w in s.pcs then s.pcs[w] else Idle }

  predicate Enabled(par: Params, s: State, a: Action) {
    match a
    case Publish(_, _) => true
    case Trim(gone) => s.gone <= gone && gone + par.maxLen <= |s.stream|
    case Deliver(m) => s.gone <= m < |s.stream| && s.stream[m].status.New?
    case Begin(w, m) => PcOf(s, w).Idle? && m < |s.stream| && !s.stream[m].status.New?
    case Undecodable(w) => PcOf(s, w).Handling? && PcOf(s, w).returned == 0
    case HandlerReturns(w) => PcOf(s, w).Handling? && PcOf(s, w).returned < par.handlers
    case AllReturned(w) => PcOf(s, w).Handling? && PcOf(s, w).returned == par.handlers
    case HandlerFails(w, _, _) => PcOf(s, w).Handling? && PcOf(s, w).returned < par.handlers
    case ExecDlqAdd(w) => PcOf(s, w).DeadLettering? && PcOf(s, w).m < |s.stream|
    case ExecAck(w) => (PcOf(s, w).Handled? || PcOf(s, w).Acking?) && PcOf(s, w).m < |s.stream|
    case Pick(w, d) => PcOf(s, w).Idle? && d < |s.letters|
    case ExecRepublish(w, _) => PcOf(s, w).Republishing? && PcOf(s, w).d < |s.letters|
    case ExecXDel(w) => PcOf(s, w).Deleting? && PcOf(s, w).d < |s.letters|
    case Crash(_) => true
    case Purge(w) => PcOf(s, w).Idle?
  }

  function Goto(s: State, w: Worker, pc: Pc): State { s.(pcs := s.pcs[w := pc]) }

  function SetStatus(s: State, m: MessageId, status: Status): State
    requires m < |s.stream|
  {
    s.(stream := s.stream[m := s.stream[m].(status := status)])
  }

  function Do(par: Params, s: State, a: Action): State
    requires Enabled(par, s, a)
  {
    match a
    case Publish(id, fields) =>
      s.(events := s.events + [fields], stream := s.stream + [Message(id, |s.events|, fields, New)])
    case Trim(gone) => s.(gone := gone)
    case Deliver(m) => SetStatus(s, m, Pending)
    case Begin(w, m) => Goto(s, w, Handling(m, 0))
    case Undecodable(w) => Goto(s, w, DeadLettering(PcOf(s, w).m, "deserialization_error"))
    case HandlerReturns(w) => Goto(s, w, Handling(PcOf(s, w).m, PcOf(s, w).returned + 1))
    case AllReturned(w) =>
      Goto(s, w, Handled(PcOf(s, w).m)).(finished := s.finished + {PcOf(s, w).m})
    case HandlerFails(w, error, giveUp) =>
      Goto(s, w, if giveUp then DeadLettering(PcOf(s, w).m, error) else Idle)
    case ExecDlqAdd(w) =>
      var m := PcOf(s, w).m;
      var copy := Wrap(par.streamName, s.stream[m].id, PcOf(s, w).error, s.stream[m].fields);
      Goto(s, w, Acking(m)).(letters := s.letters + [Letter(s.stream[m].event, copy, m, false, false)])
    case ExecAck(w) => Goto(SetStatus(s, PcOf(s, w).m, Acked), w, Idle)
    case Pick(w, d) => Goto(s, w, Republishing(d))
    case ExecRepublish(w, id) =>
      var d := PcOf(s, w).d;
      var clean := Strip(s.letters[d].fields);
      if clean == map[] then Goto(s, w, Deleting(d))
      else Goto(s, w, Deleting(d)).(
             stream := s.stream + [Message(id, s.letters[d].event, clean, New)],
             republished := s.republished + {d})
    case ExecXDel(w) =>
      var d := PcOf(s, w).d;
      Goto(s, w, Idle).(letters := s.letters[d := s.letters[d].(deleted := true)])
    case Crash(w) => Goto(s, w, Idle)
    case Purge(w) =>
      s.(letters := seq(|s.letters|, i requires 0 <= i < |s.letters| => Purged(s.letters[i])))
  }

  function Purged(letter: Letter): Letter {
    if letter.deleted then letter else letter.(deleted := true, purged := true)
  }

  predicate Valid(par: Params, s: State, run: seq<Action>)
    decreases run
  {
    run == [] || (Enabled(par, s, run[0]) && Valid(par, Do(par, s, run[0]), run[1..]))
  }

  function After(par: Params, s: State, run: seq<Action>): State
    requires Valid(par, s, run)
    decreases run
  {
    if run == [] then s else After(par, Do(par, s, run[0]), run[1..])
  }

  lemma {:induction false} JoinRuns(par: Params, s: State, run: seq<Action>, more: seq<Action>)
    requires Valid(par, s, run) && Valid(par, After(par, s, run), more)
    ensures Valid(par, s, run + more) && After(par, s, run + more) == After(par, After(par, s, run), more)
    decreases run
  {
    if run == [] {
      assert run + more == more;
    } else {
      assert (run + more)[1..] == run[1..] + more;
      JoinRuns(par, Do(par, s, run[0]), run[1..], more);
    }
  }

  lemma ExtendRun(par: Params, s: State, run: seq<Action>, a: Action)
    requires Valid(par, s, run) && Enabled(par, After(par, s, run), a)
    ensures Valid(par, s, run + [a]) && After(par, s, run + [a]) == Do(par, After(par, s, run), a)
  {
    assert [a][1..] == [];
    JoinRuns(par, s, run, [a]);
  }

  // ------------------------------------------------------------- one worker among others

  predicate By(a: Action, w: Worker) {
    match a
    case Publish(_, _) => false
    case Trim(_) => false
    case Deliver(_) => false
    case _ => a.w == w
  }

  function Mine(w: Worker): Action -> bool { (a: Action) => By(a, w) }

  // The worker's own steps in a run.
  function Own(run: seq<Action>, w: Worker): seq<Action> { Select(run, Mine(w)) }

  ghost predicate OthersOnly(run: seq<Action>, w: Worker) { NoneOf(run, Mine(w)) }

  // What nobody ever undoes.
  ghost predicate Later(s: State, t: State) {
    && |s.stream| <= |t.stream| && |s.letters| <= |t.letters|
    && (forall m {:trigger LaterMessage(s.stream[m], t.stream[m])} | 0 <= m < |s.stream| ::
          LaterMessage(s.stream[m], t.stream[m]))
    && (forall d {:trigger LaterLetter(s.letters[d], t.letters[d])} | 0 <= d < |s.letters| ::
          LaterLetter(s.letters[d], t.letters[d]))
    && s.finished <= t.finished && s.republished <= t.republished
  }

  predicate LaterMessage(a: Message, b: Message) {
    && b.id == a.id && b.event == a.event && b.fields == a.fields
    && (b.status.New? ==> a.status.New?) && (a.status.Acked? ==> b.status.Acked?)
  }

  predicate LaterLetter(a: Letter, b: Letter) {
    b.event == a.event && b.fields == a.fields && b.source == a.source
    && (a.deleted ==> b.deleted) && (a.purged ==> b.purged)
  }

  lemma LaterTransitive(s: State, t: State, u: State)
    requires Later(s, t) && Later(t, u)
    ensures Later(s, u)
  {
    forall m | 0 <= m < |s.stream| ensures LaterMessage(s.stream[m], u.stream[m]) {
      assert LaterMessage(s.stream[m], t.stream[m]) && LaterMessage(t.stream[m], u.stream[m]);
    }
    forall d | 0 <= d < |s.letters| ensures LaterLetter(s.letters[d], u.letters[d]) {
      assert LaterLetter(s.letters[d], t.letters[d]) && LaterLetter(t.letters[d], u.letters[d]);
    }
  }

  lemma StepIsLater(par: Params, s: State, a: Action)
    requires Enabled(par, s, a)
    ensures Later(s, Do(par, s, a))
  {}

  lemma {:induction false} OthersLeavePc(par: Params, s: State, run: seq<Action>, w: Worker)
    requires Valid(par, s, run) && OthersOnly(run, w)
    ensures PcOf(After(par, s, run), w) == PcOf(s, w) && Later(s, After(par, s, run))
    decreases run
  {
    if run != [] {
      var t := Do(par, s, run[0]);
      assert !Mine(w)(run[0]);
      StepIsLater(par, s, run[0]);
      OthersLeavePc(par, t, run[1..], w);
      LaterTransitive(s, t, After(par, t, run[1..]));
    }
  }

  // Others cannot disable a worker's step.
  lemma StaysEnabled(par: Params, s: State, t: State, a: Action, w: Worker)
    requires By(a, w) && Enabled(par, s, a) && PcOf(t, w) == PcOf(s, w) && Later(s, t)
    ensures Enabled(par, t, a)
  {
    if a.Begin? { assert LaterMessage(s.stream[a.m], t.stream[a.m]); }
  }

  // ------------------------------------------------------------- invariant

  // A dead-letter copy of this message was written at some time.
  ghost predicate Copied(s: State, m: MessageId) {
    exists d | 0 <= d < |s.letters| :: s.letters[d].source == m
  }

  // The message (letter) that still answers for its event.
  predicate Unacked(s: State, m: MessageId, e: EventId) {
    m < |s.stream| && s.stream[m].event == e && !s.stream[m].status.Acked?
  }

  predicate InDlq(s: State, d: LetterId, e: EventId) {
    d < |s.letters| && s.letters[d].event == e && !s.letters[d].deleted
  }

  // In the dead-letter queue, but for a purge.
  predicate Held(s: State, d: LetterId, e: EventId) {
    d < |s.letters| && s.letters[d].event == e && (!s.letters[d].deleted || s.letters[d].purged)
  }

  ghost predicate MessageAnswers(s: State, e: EventId) {
    exists m :: Unacked(s, m, e) && !Copied(s, m)
  }

  ghost predicate LetterAnswers(s: State, e: EventId) {
    exists d :: Held(s, d, e) && d !in s.republished
  }

  // All handlers returned for some copy of the event.
  ghost predicate FullyHandled(s: State, e: EventId) {
    exists m :: m in s.finished && m < |s.stream| && s.stream[m].event == e
  }

  ghost predicate Answered(s: State, e: EventId) {
    FullyHandled(s, e) || MessageAnswers(s, e) || LetterAnswers(s, e)
  }

  predicate HasPayload(s: State, e: EventId)
    requires e < |s.events|
  {
    Strip(s.events[e]) != map[]
  }

  ghost predicate PcInv(s: State, pc: Pc) {
    match pc
    case Idle => true
    case Handling(m, _) => m < |s.stream|
    case Handled(m) => m < |s.stream| && m in s.finished
    case DeadLettering(m, _) => m < |s.stream|
    case Acking(m) => m < |s.stream| && Copied(s, m)
    case Republishing(d) => d < |s.letters|
    case Deleting(d) => d < |s.letters| && (d in s.republished || Strip(s.letters[d].fields) == map[])
  }

  // Every copy carries its event's unreserved fields.
  ghost predicate CopiesFaithful(s: State) {
    && (forall m | 0 <= m < |s.stream| ::
          s.stream[m].event < |s.events| && Strip(s.stream[m].fields) == Strip(s.events[s.stream[m].event]))
    && (forall d | 0 <= d < |s.letters| ::
          s.letters[d].source < |s.stream| && s.letters[d].event < |s.events|
          && Strip(s.letters[d].fields) == Strip(s.events[s.letters[d].event]))
    && (forall d | d in s.republished :: d < |s.letters|)
  }

  ghost predicate Inv(s: State) {
    && CopiesFaithful(s)
    && (forall w :: PcInv(s, PcOf(s, w)))
    && (forall m | 0 <= m < |s.stream| && s.stream[m].status.Acked? :: m in s.finished || Copied(s, m))
    && (forall e | 0 <= e < |s.events| && HasPayload(s, e) :: Answered(s, e))
  }

  // ------------------------------------------------------ steps keep it

  // A step that removes no letter and acknowledges nothing keeps every event answered.
  ghost predicate Extends(s: State, t: State) {
    && |s.events| <= |t.events| && (forall e | 0 <= e < |s.events| :: t.events[e] == s.events[e])
    && |s.stream| <= |t.stream|
    && (forall m | 0 <= m < |s.stream| ::
          t.stream[m].event == s.stream[m].event && t.stream[m].fields == s.stream[m].fields
          && (t.stream[m].status.Acked? ==> s.stream[m].status.Acked?))
    && (forall m | |s.stream| <= m < |t.stream| :: t.stream[m].status.New?)
    && s.letters <= t.letters
    && s.republished == t.republished
    && s.finished <= t.finished
  }

  lemma ExtendingKeepsCopies(s: State, t: State)
    requires Extends(s, t)
    ensures forall m | Copied(s, m) :: Copied(t, m)
  {
    forall m | Copied(s, m) ensures Copied(t, m) {
      var d :| 0 <= d < |s.letters| && s.letters[d].source == m;
      assert t.letters[d].source == m;
    }
  }

  lemma ExtendingKeepsPcs(s: State, t: State)
    requires Extends(s, t)
    ensures forall pc | PcInv(s, pc) :: PcInv(t, pc)
  {
    ExtendingKeepsCopies(s, t);
  }

  // With no new letter.
  lemma ExtendingKeepsAnswers(s: State, t: State, e: EventId)
    requires Extends(s, t) && s.letters == t.letters && Answered(s, e)
    ensures Answered(t, e)
  {
    if MessageAnswers(s, e) {
      var m :| Unacked(s, m, e) && !Copied(s, m);
      assert Unacked(t, m, e) && !Copied(t, m);
    } else if LetterAnswers(s, e) {
      var d :| Held(s, d, e) && d !in s.republished;
      assert Held(t, d, e);
    }
  }

  lemma PlainStep(par: Params, s: State, a: Action)
    requires Inv(s) && Enabled(par, s, a)
    requires a.Trim? || a.Deliver? || a.Begin? || a.Undecodable? || a.HandlerReturns? || a.AllReturned?
             || a.HandlerFails? || a.Pick? || a.Crash?
    ensures Inv(Do(par, s, a))
  {
    var t := Do(par, s, a);
    assert Extends(s, t);
    ExtendingKeepsPcs(s, t);
    ExtendingKeepsCopies(s, t);
    forall w ensures PcInv(t, PcOf(t, w)) {
      assert PcInv(s, PcOf(s, w));
    }
    forall e | 0 <= e < |t.events| && HasPayload(t, e) ensures Answered(t, e) {
      ExtendingKeepsAnswers(s, t, e);
    }
  }

  lemma PublishStep(par: Params, s: State, id: Bytes, fields: Fields)
    requires Inv(s)
    ensures Inv(Do(par, s, Publish(id, fields)))
  {
    var t := Do(par, s, Publish(id, fields));
    assert Extends(s, t);
    ExtendingKeepsPcs(s, t);
    ExtendingKeepsCopies(s, t);
    forall w ensures PcInv(t, PcOf(t, w)) { assert PcInv(s, PcOf(s, w)); }
    forall e | 0 <= e < |t.events| && HasPayload(t, e) ensures Answered(t, e) {
      if e < |s.events| {
        assert HasPayload(s, e);
        ExtendingKeepsAnswers(s, t, e);
      } else {
        assert Unacked(t, |s.stream|, e) && !Copied(t, |s.stream|);
      }
    }
  }

  // XADD to the dead-letter stream: the copy takes over from the message.
  lemma DlqAddStep(par: Params, s: State, w: Worker)
    requires Inv(s) && Enabled(par, s, ExecDlqAdd(w))
    ensures Inv(Do(par, s, ExecDlqAdd(w)))
  {
    var t := Do(par, s, ExecDlqAdd(w));
    var m := PcOf(s, w).m;
    StripUndoesWrap(par.streamName, s.stream[m].id, PcOf(s, w).error, s.stream[m].fields);
    assert Extends(s, t);
    ExtendingKeepsPcs(s, t);
    ExtendingKeepsCopies(s, t);
    assert t.letters[|s.letters|].source == m;
    forall v ensures PcInv(t, PcOf(t, v)) { assert PcInv(s, PcOf(s, v)); }
    forall e | 0 <= e < |t.events| && HasPayload(t, e) ensures Answered(t, e) {
      assert HasPayload(s, e);
      DlqAddKeepsAnswer(par, s, w, e);
    }
  }

  lemma DlqAddKeepsAnswer(par: Params, s: State, w: Worker, e: EventId)
    requires CopiesFaithful(s) && Enabled(par, s, ExecDlqAdd(w)) && Answered(s, e)
    ensures Answered(Do(par, s, ExecDlqAdd(w)), e)
  {
    var t := Do(par, s, ExecDlqAdd(w));
    if FullyHandled(s, e) {
      var k :| k in s.finished && k < |s.stream| && s.stream[k].event == e;
      assert t.stream[k].event == e;
    } else if MessageAnswers(s, e) {
      var k :| Unacked(s, k, e) && !Copied(s, k);
      if k == PcOf(s, w).m {
        assert Held(t, |s.letters|, e);
      } else {
        assert Unacked(t, k, e) && !Copied(t, k);
      }
    } else {
      var d :| Held(s, d, e) && d !in s.republished;
      assert Held(t, d, e);
    }
  }

  // XACK: all handlers of the message have returned, or its copy has been written.
  lemma AckStep(par: Params, s: State, w: Worker)
    requires Inv(s) && Enabled(par, s, ExecAck(w))
    ensures Inv(Do(par, s, ExecAck(w)))
  {
    var t := Do(par, s, ExecAck(w));
    var m := PcOf(s, w).m;
    assert PcInv(s, PcOf(s, w));
    assert s.letters == t.letters;
    forall k ensures Copied(s, k) <==> Copied(t, k) {}
    forall v ensures PcInv(t, PcOf(t, v)) { assert PcInv(s, PcOf(s, v)); }
    forall e | 0 <= e < |t.events| && HasPayload(t, e) ensures Answered(t, e) {
      assert HasPayload(s, e);
      if FullyHandled(s, e) {
        var k :| k in s.finished && k < |s.stream| && s.stream[k].event == e;
        assert t.stream[k].event == e;
      } else if MessageAnswers(s, e) {
        var k :| Unacked(s, k, e) && !Copied(s, k);
        assert k != m && Unacked(t, k, e);
      } else {
        var d :| Held(s, d, e) && d !in s.republished;
        assert Held(t, d, e);
      }
    }
  }

  // XADD back to the origin: the new message takes over from the letter.
  lemma RepublishStep(par: Params, s: State, w: Worker, id: Bytes)
    requires Inv(s) && Enabled(par, s, ExecRepublish(w, id))
    ensures Inv(Do(par, s, ExecRepublish(w, id)))
  {
    var t := Do(par, s, ExecRepublish(w, id));
    assert Strip(Strip(s.letters[PcOf(s, w).d].fields)) == Strip(s.letters[PcOf(s, w).d].fields);
    forall k ensures Copied(s, k) <==> Copied(t, k) {}
    forall v ensures PcInv(t, PcOf(t, v)) { assert PcInv(s, PcOf(s, v)); }
    forall e | 0 <= e < |t.events| && HasPayload(t, e) ensures Answered(t, e) {
      assert HasPayload(s, e);
      RepublishKeepsAnswer(par, s, w, id, e);
    }
  }

  lemma RepublishKeepsAnswer(par: Params, s: State, w: Worker, id: Bytes, e: EventId)
    requires CopiesFaithful(s) && Enabled(par, s, ExecRepublish(w, id))
    requires e < |s.events| && HasPayload(s, e) && Answered(s, e)
    ensures Answered(Do(par, s, ExecRepublish(w, id)), e)
  {
    var t := Do(par, s, ExecRepublish(w, id));
    var d := PcOf(s, w).d;
    assert s.letters == t.letters;
    if FullyHandled(s, e) {
      var k :| k in s.finished && k < |s.stream| && s.stream[k].event == e;
      assert t.stream[k].event == e;
    } else if MessageAnswers(s, e) {
      var k :| Unacked(s, k, e) && !Copied(s, k);
      assert Unacked(t, k, e) && !Copied(t, k);
    } else {
      var k :| Held(s, k, e) && k !in s.republished;
      if k == d {
        assert Unacked(t, |s.stream|, e) && !Copied(t, |s.stream|);
      } else {
        assert Held(t, k, e) && k !in t.republished;
      }
    }
  }

  // XDEL: the letter was re-published, or had nothing to re-publish.
  lemma XDelStep(par: Params, s: State, w: Worker)
    requires Inv(s) && Enabled(par, s, ExecXDel(w))
    ensures Inv(Do(par, s, ExecXDel(w)))
  {
    var t := Do(par, s, ExecXDel(w));
    var d := PcOf(s, w).d;
    assert PcInv(s, PcOf(s, w));
    forall k ensures Copied(s, k) <==> Copied(t, k) {
      if Copied(s, k) {
        var i :| 0 <= i < |s.letters| && s.letters[i].source == k;
        assert t.letters[i].source == k;
      }
    }
    forall v ensures PcInv(t, PcOf(t, v)) { assert PcInv(s, PcOf(s, v)); }
    forall e | 0 <= e < |t.events| && HasPayload(t, e) ensures Answered(t, e) {
      assert HasPayload(s, e);
      if FullyHandled(s, e) {
        var k :| k in s.finished && k < |s.stream| && s.stream[k].event == e;
        assert t.stream[k].event == e;
      } else if MessageAnswers(s, e) {
        var k :| Unacked(s, k, e) && !Copied(s, k);
        assert Unacked(t, k, e);
      } else {
        var k :| Held(s, k, e) && k !in s.republished;
        assert k != d && Held(t, k, e);
      }
    }
  }

  // DEL of the dead-letter stream: what it held is marked as purged.
  lemma PurgeStep(par: Params, s: State, w: Worker)
    requires Inv(s) && Enabled(par, s, Purge(w))
    ensures Inv(Do(par, s, Purge(w)))
  {
    var t := Do(par, s, Purge(w));
    forall k ensures Copied(s, k) <==> Copied(t, k) {
      if Copied(s, k) {
        var i :| 0 <= i < |s.letters| && s.letters[i].source == k;
        assert t.letters[i].source == k;
      }
    }
    forall v ensures PcInv(t, PcOf(t, v)) { assert PcInv(s, PcOf(s, v)); }
    forall e | 0 <= e < |t.events| && HasPayload(t, e) ensures Answered(t, e) {
      assert HasPayload(s, e);
      if FullyHandled(s, e) {
        var k :| k in s.finished && k < |s.stream| && s.stream[k].event == e;
        assert t.stream[k].event == e;
      } else if MessageAnswers(s, e) {
        var k :| Unacked(s, k, e) && !Copied(s, k);
        assert Unacked(t, k, e) && !Copied(t, k);
      } else {
        var k :| Held(s, k, e) && k !in s.republished;
        assert Held(t, k, e);
      }
    }
  }

  lemma StepKeepsInv(par: Params, s: State, a: Action)
    requires Inv(s) && Enabled(par, s, a)
    ensures Inv(Do(par, s, a))
  {
    match a
    case Publish(id, fields) => PublishStep(par, s, id, fields);
    case ExecDlqAdd(w) => DlqAddStep(par, s, w);
    case ExecAck(w) => AckStep(par, s, w);
    case ExecRepublish(w, id) => RepublishStep(par, s, w, id);
    case ExecXDel(w) => XDelStep(par, s, w);
    case Purge(w) => PurgeStep(par, s, w);
    case _ => PlainStep(par, s, a);
  }

  lemma {:induction false} RunKeepsInv(par: Params, s: State, run: seq<Action>)
    requires Inv(s) && Valid(par, s, run)
    ensures Inv(After(par, s, run))
    decreases run
  {
    if run != [] {
      StepKeepsInv(par, s, run[0]);
      RunKeepsInv(par, Do(par, s, run[0]), run[1..]);
    }
  }

  // ------------------------------------------------------------- theorems

  // A copy of the event is undelivered or pending in the stream and not trimmed, or in the
  // dead-letter queue, with the event's own data.
  ghost predicate Recoverable(s: State, e: EventId)
    requires e < |s.events|
  {
    || (exists m: MessageId :: Unacked(s, m, e) && s.gone <= m && Strip(s.stream[m].fields) == Strip(s.events[e]))
    || (exists d: LetterId :: InDlq(s, d, e) && Strip(s.letters[d].fields) == Strip(s.events[e]))
  }

  // The event's message was trimmed before it was acknowledged or copied, which takes at least
  // `maxLen` later messages.
  ghost predicate LostToTrim(par: Params, s: State, e: EventId) {
    exists m: MessageId :: Unacked(s, m, e) && !Copied(s, m) && m < s.gone && m + par.maxLen < |s.stream|
  }

  lemma {:induction false} TrimLeavesTheNewest(par: Params, s: State, run: seq<Action>)
    requires Valid(par, s, run) && (s.gone == 0 || s.gone + par.maxLen <= |s.stream|)
    ensures var t := After(par, s, run); t.gone == 0 || t.gone + par.maxLen <= |t.stream|
    decreases run
  {
    if run != [] { TrimLeavesTheNewest(par, Do(par, s, run[0]), run[1..]); }
  }

  // The event's letter was purged before it was re-published.
  ghost predicate LostToPurge(s: State, e: EventId) {
    exists d: LetterId :: Held(s, d, e) && s.letters[d].purged && d !in s.republished
  }

  /** Nothing is lost but to the length limit or a purge: at every step of every run, with any
      number of publishers, consumers, dead-letter processors, crashes and redeliveries, a
      published event with a payload that has not been fully handled is still undelivered, pending,
      dead-lettered or re-published, unless its message was trimmed with at least `maxLen` later
      ones in the stream, or its letter was purged. */
  lemma NothingIsLost(par: Params, run: seq<Action>)
    requires Valid(par, INIT, run)
    ensures var s := After(par, INIT, run);
            forall e | 0 <= e < |s.events| && HasPayload(s, e) ::
              FullyHandled(s, e) || Recoverable(s, e) || LostToTrim(par, s, e) || LostToPurge(s, e)
  {
    RunKeepsInv(par, INIT, run);
    TrimLeavesTheNewest(par, INIT, run);
    var s := After(par, INIT, run);
    forall e | 0 <= e < |s.events| && HasPayload(s, e)
      ensures FullyHandled(s, e) || Recoverable(s, e) || LostToTrim(par, s, e) || LostToPurge(s, e)
    {
      assert Answered(s, e);
      if MessageAnswers(s, e) {
        var m :| Unacked(s, m, e) && !Copied(s, m);
      } else if LetterAnswers(s, e) {
        var d: LetterId :| Held(s, d, e) && d !in s.republished;
        assert s.letters[d].purged || InDlq(s, d, e);
      }
    }
  }

  lemma {:induction false} NoPurgeNothingPurged(par: Params, s: State, run: seq<Action>)
    requires Valid(par, s, run) && (forall a | a in run :: !a.Purge?) && forall l | l in s.letters :: !l.purged
    ensures forall l | l in After(par, s, run).letters :: !l.purged
    decreases run
  {
    if run != [] {
      assert run[0] in run;
      NoPurgeNothingPurged(par, Do(par, s, run[0]), run[1..]);
    }
  }

  /** So no event is lost in a run without a purge while no more messages were ever added than the
      stream may hold. */
  lemma ShortStreamsLoseNothing(par: Params, run: seq<Action>)
    requires Valid(par, INIT, run) && forall a | a in run :: !a.Purge?
    requires |After(par, INIT, run).stream| <= par.maxLen
    ensures var s := After(par, INIT, run);
            forall e | 0 <= e < |s.events| && HasPayload(s, e) :: FullyHandled(s, e) || Recoverable(s, e)
  {
    NothingIsLost(par, run);
    NoPurgeNothingPurged(par, INIT, run);
  }

  // Every event of the run is published as the publisher serializes it: one field, the JSON text.
  ghost predicate Serialized(run: seq<Action>) {
    forall a | a in run && a.Publish? :: a.fields.Keys == {"data"}
  }

  lemma {:induction false} EventsStaySerialized(par: Params, s: State, run: seq<Action>)
    requires Valid(par, s, run) && Serialized(run) && forall f | f in s.events :: f.Keys == {"data"}
    ensures forall f | f in After(par, s, run).events :: f.Keys == {"data"}
    decreases run
  {
    if run != [] {
      assert run[0] in run;
      EventsStaySerialized(par, Do(par, s, run[0]), run[1..]);
    }
  }

  /** For events as they are published the payload condition holds of itself: none is lost but to
      the length limit or a purge. */
  lemma NoSerializedEventIsLost(par: Params, run: seq<Action>)
    requires Valid(par, INIT, run) && Serialized(run)
    ensures var s := After(par, INIT, run);
            forall e | 0 <= e < |s.events| ::
              FullyHandled(s, e) || Recoverable(s, e) || LostToTrim(par, s, e) || LostToPurge(s, e)
  {
    var s := After(par, INIT, run);
    NothingIsLost(par, run);
    EventsStaySerialized(par, INIT, run);
    forall e | 0 <= e < |s.events| ensures HasPayload(s, e) {
      assert s.events[e] in s.events && "data" in s.events[e];
      StripKeepsTheRest(s.events[e]);
      assert |"data"| == 4 && "data" != "error";
      assert "data" in Strip(s.events[e]);
    }
  }

  // n publications, and nobody reads.
  function Backlog(id: Bytes, fields: Fields, n: nat): seq<Action> {
    if n == 0 then [] else Backlog(id, fields, n - 1) + [Publish(id, fields)]
  }

  lemma {:induction false} BacklogEnds(par: Params, id: Bytes, fields: Fields, n: nat)
    ensures Valid(par, INIT, Backlog(id, fields, n))
    ensures var s := After(par, INIT, Backlog(id, fields, n));
            && |s.events| == |s.stream| == n && s.letters == [] && s.finished == {} && s.gone == 0
            && (forall m | 0 <= m < n :: s.stream[m].event == m && s.events[m] == fields)
  {
    if n > 0 {
      BacklogEnds(par, id, fields, n - 1);
      ExtendRun(par, INIT, Backlog(id, fields, n - 1), Publish(id, fields));
    }
  }

  /** The limit is sharp: one unread message more, and the oldest event is lost for good. */
  lemma LongBacklogLosesTheOldest(par: Params, id: Bytes, fields: Fields)
    requires Strip(fields) != map[]
    ensures var run := Backlog(id, fields, par.maxLen + 1) + [Trim(1)];
            && Valid(par, INIT, run)
            && var s := After(par, INIT, run);
            && |s.stream| == par.maxLen + 1 == |s.events| && HasPayload(s, 0)
            && !FullyHandled(s, 0) && !Recoverable(s, 0)
  {
    BacklogEnds(par, id, fields, par.maxLen + 1);
    ExtendRun(par, INIT, Backlog(id, fields, par.maxLen + 1), Trim(1));
  }

  /** In every run, purges included, an acknowledged message was handled to the end, or a dead-letter
      copy of it was written. */
  lemma AckedMeansHandledOrCopied(par: Params, run: seq<Action>)
    requires Valid(par, INIT, run)
    ensures var s := After(par, INIT, run);
            forall m | 0 <= m < |s.stream| && s.stream[m].status.Acked? :: m in s.finished || Copied(s, m)
  {
    RunKeepsInv(par, INIT, run);
  }

  // ------------------------------------------------------------- what was handled

  // What a worker is at, told from the run alone: the message it last began, unless it stopped,
  // and how many handlers have returned for it since.
  datatype Delivery = NoDelivery | Delivery(m: MessageId, returned: nat)

  function DeliveryOf(run: seq<Action>, w: Worker): Delivery {
    if run == [] then NoDelivery
    else
      var before, a := DeliveryOf(run[..|run| - 1], w), run[|run| - 1];
      if !By(a, w) then before
      else
        match a
        case Begin(_, m) => Delivery(m, 0)
        case HandlerReturns(_) => if before.Delivery? then before.(returned := before.returned + 1) else before
        case Purge(_) => before
        case _ => NoDelivery
  }

  // In this run a worker began the message, saw all handlers return, and stopped there.
  ghost predicate EveryHandlerReturned(par: Params, run: seq<Action>, m: MessageId) {
    exists i, w :: 0 <= i < |run| && run[i] == AllReturned(w) && DeliveryOf(run[..i], w) == Delivery(m, par.handlers)
  }

  ghost predicate DeliveriesTold(par: Params, run: seq<Action>, s: State) {
    && (forall w | PcOf(s, w).Handling? :: DeliveryOf(run, w) == Delivery(PcOf(s, w).m, PcOf(s, w).returned))
    && (forall m | m in s.finished :: EveryHandlerReturned(par, run, m))
  }

  lemma OneMoreActionTold(par: Params, run: seq<Action>, s: State, a: Action)
    requires DeliveriesTold(par, run, s) && Enabled(par, s, a)
    ensures DeliveriesTold(par, run + [a], Do(par, s, a))
  {
    var more, t := run + [a], Do(par, s, a);
    assert more[..|run|] == run;
    forall w | PcOf(t, w).Handling? ensures DeliveryOf(more, w) == Delivery(PcOf(t, w).m, PcOf(t, w).returned) {
      if !By(a, w) { assert PcOf(t, w) == PcOf(s, w); }
    }
    forall m | m in t.finished ensures EveryHandlerReturned(par, more, m) {
      if m in s.finished {
        var i, w :|
          0 <= i < |run| && run[i] == AllReturned(w) && DeliveryOf(run[..i], w) == Delivery(m, par.handlers);
        assert more[..i] == run[..i] && more[i] == AllReturned(w);
      } else {
        assert more[|run|] == AllReturned(a.w) && DeliveryOf(more[..|run|], a.w) == Delivery(m, par.handlers);
      }
    }
  }

  lemma {:induction false} RunTold(par: Params, before: seq<Action>, s: State, run: seq<Action>)
    requires DeliveriesTold(par, before, s) && Valid(par, s, run)
    ensures DeliveriesTold(par, before + run, After(par, s, run))
    decreases run
  {
    if run == [] {
      assert before + run == before;
    } else {
      OneMoreActionTold(par, before, s, run[0]);
      RunTold(par, before + [run[0]], Do(par, s, run[0]), run[1..]);
      assert before + run == before + [run[0]] + run[1..];
    }
  }

  // Every letter is a copy of its message, with the reason why.
  ghost predicate LettersAreCopies(par: Params, s: State) {
    forall d | 0 <= d < |s.letters| :: LetterIsCopy(par, s, s.letters[d])
  }

  ghost predicate LetterIsCopy(par: Params, s: State, letter: Letter) {
    && letter.source < |s.stream| && letter.event == s.stream[letter.source].event
    && exists error ::
         letter.fields == Wrap(par.streamName, s.stream[letter.source].id, error, s.stream[letter.source].fields)
  }

  lemma {:induction false} LettersStayCopies(par: Params, s: State, run: seq<Action>)
    requires LettersAreCopies(par, s) && Valid(par, s, run)
    ensures LettersAreCopies(par, After(par, s, run))
    decreases run
  {
    if run != [] {
      var t := Do(par, s, run[0]);
      StepIsLater(par, s, run[0]);
      forall d | 0 <= d < |t.letters| ensures LetterIsCopy(par, t, t.letters[d]) {
        if d < |s.letters| {
          assert LetterIsCopy(par, s, s.letters[d]) && LaterLetter(s.letters[d], t.letters[d]);
          assert LaterMessage(s.stream[t.letters[d].source], t.stream[t.letters[d].source]);
        }
      }
      LettersStayCopies(par, t, run[1..]);
    }
  }

  /** The same from the run and the data alone: in every run an acknowledged message was begun by
      some worker for which then every handler returned, or the dead-letter queue got a copy of all
      its fields. */
  lemma AckedOnlyAfterEveryHandler(par: Params, run: seq<Action>, m: MessageId)
    requires Valid(par, INIT, run)
    requires m < |After(par, INIT, run).stream| && After(par, INIT, run).stream[m].status.Acked?
    ensures var s := After(par, INIT, run);
            || EveryHandlerReturned(par, run, m)
            || exists d, error :: 0 <= d < |s.letters| && s.letters[d].event == s.stream[m].event
                 && s.letters[d].fields == Wrap(par.streamName, s.stream[m].id, error, s.stream[m].fields)
  {
    var s := After(par, INIT, run);
    AckedMeansHandledOrCopied(par, run);
    RunTold(par, [], INIT, run);
    assert [] + run == run;
    LettersStayCopies(par, INIT, run);
    if m !in s.finished {
      var d :| 0 <= d < |s.letters| && s.letters[d].source == m;
      assert LetterIsCopy(par, s, s.letters[d]);
    }
  }

  // ------------------------------------------------------------- known runs

  // Dead-letter an event ...
  function DeadLetterRun(id: Bytes, fields: Fields): seq<Action> {
    [Publish(id, fields), Deliver(0), Begin(0, 0), Undecodable(0), ExecDlqAdd(0), ExecAck(0)]
  }

  // ... which leaves one acknowledged message and one letter ...
  function DeadLettered(par: Params, id: Bytes, fields: Fields): State {
    State([fields], [Message(id, 0, fields, Acked)],
          [Letter(0, Wrap(par.streamName, id, "deserialization_error", fields), 0, false, false)],
          {}, {}, map[0 := Idle], 0)
  }

  // The same, for a run whose end state is known.
  lemma Continue(par: Params, run: seq<Action>, s: State, a: Action, t: State)
    requires Valid(par, INIT, run) && After(par, INIT, run) == s && Enabled(par, s, a) && Do(par, s, a) == t
    ensures Valid(par, INIT, run + [a]) && After(par, INIT, run + [a]) == t
  {
    ExtendRun(par, INIT, run, a);
  }

  lemma DeliveredOnce(par: Params, id: Bytes, fields: Fields)
    ensures var run := [Publish(id, fields), Deliver(0), Begin(0, 0)];
            Valid(par, INIT, run)
            && After(par, INIT, run)
               == State([fields], [Message(id, 0, fields, Pending)], [], {}, {}, map[0 := Handling(0, 0)], 0)
  {
    var r1 := [Publish(id, fields)];
    var r2 := r1 + [Deliver(0)];
    var m := Message(id, 0, fields, New);
    var s1 := INIT.(events := [fields], stream := [m]);
    var s2 := s1.(stream := [m.(status := Pending)]);
    assert [] + r1 == r1;
    Continue(par, [], INIT, Publish(id, fields), s1);
    Continue(par, r1, s1, Deliver(0), s2);
    Continue(par, r2, s2, Begin(0, 0), s2.(pcs := map[0 := Handling(0, 0)]));
    assert r2 + [Begin(0, 0)] == [Publish(id, fields), Deliver(0), Begin(0, 0)];
  }

  lemma DeadLetterRunEnds(par: Params, id: Bytes, fields: Fields)
    ensures Valid(par, INIT, DeadLetterRun(id, fields))
    ensures After(par, INIT, DeadLetterRun(id, fields)) == DeadLettered(par, id, fields)
  {
    var r3 := [Publish(id, fields), Deliver(0), Begin(0, 0)];
    var r4 := r3 + [Undecodable(0)];
    var r5 := r4 + [ExecDlqAdd(0)];
    var s3 := State([fields], [Message(id, 0, fields, Pending)], [], {}, {}, map[0 := Handling(0, 0)], 0);
    var s4 := State([fields], s3.stream, [], {}, {}, map[0 := DeadLettering(0, "deserialization_error")], 0);
    var s6 := DeadLettered(par, id, fields);
    var s5 := State([fields], s3.stream, s6.letters, {}, {}, map[0 := Acking(0)], 0);
    DeliveredOnce(par, id, fields);
    Continue(par, r3, s3, Undecodable(0), s4);
    Continue(par, r4, s4, ExecDlqAdd(0), s5);
    Continue(par, r5, s5, ExecAck(0), s6);
    assert r5 + [ExecAck(0)] == DeadLetterRun(id, fields);
  }

  /** A purge is such a loss: the letter's event is gone for good. */
  lemma PurgeLosesTheLetters(par: Params, id: Bytes, fields: Fields, w: Worker)
    requires Strip(fields) != map[] && w != 0
    ensures var run := DeadLetterRun(id, fields) + [Purge(w)];
            && Valid(par, INIT, run)
            && var s := After(par, INIT, run);
            |s.events| == 1 && HasPayload(s, 0) && !FullyHandled(s, 0) && !Recoverable(s, 0)
  {
    DeadLetterRunEnds(par, id, fields);
    var s := DeadLettered(par, id, fields);
    Continue(par, DeadLetterRun(id, fields), s, Purge(w), Do(par, s, Purge(w)));
  }

  // ... then reprocess it.
  function RoundTrip(id: Bytes, fields: Fields): seq<Action> {
    DeadLetterRun(id, fields) + [Pick(1, 0)] + [ExecRepublish(1, id)] + [ExecXDel(1)]
  }

  /** The payload condition is exact: the round trip through the dead-letter queue loses the
      event if and only if all its fields are reserved names. */
  lemma RoundTripLosesEmptyPayloads(par: Params, id: Bytes, fields: Fields)
    ensures Valid(par, INIT, RoundTrip(id, fields))
    ensures var s := After(par, INIT, RoundTrip(id, fields));
            |s.events| == 1 && (Recoverable(s, 0) <==> HasPayload(s, 0)) && !FullyHandled(s, 0)
  {
    var r6 := DeadLetterRun(id, fields);
    var r7 := r6 + [Pick(1, 0)];
    var r8 := r7 + [ExecRepublish(1, id)];
    var s6 := DeadLettered(par, id, fields);
    var s7 := Do(par, s6, Pick(1, 0));
    var s8 := Do(par, s7, ExecRepublish(1, id));
    var s9 := Do(par, s8, ExecXDel(1));
    DeadLetterRunEnds(par, id, fields);
    Continue(par, r6, s6, Pick(1, 0), s7);
    Continue(par, r7, s7, ExecRepublish(1, id), s8);
    Continue(par, r8, s8, ExecXDel(1), s9);
    ReprocessedLetter(par, id, fields, s9);
  }

  lemma ReprocessedLetter(par: Params, id: Bytes, fields: Fields, s: State)
    requires var clean := Strip(Wrap(par.streamName, id, "deserialization_error", fields));
             var was := DeadLettered(par, id, fields);
             && s.events == was.events && s.finished == {} && s.gone == 0
             && s.letters == [was.letters[0].(deleted := true)]
             && s.stream == was.stream + (if clean == map[] then [] else [Message(id, 0, clean, New)])
    ensures (Recoverable(s, 0) <==> HasPayload(s, 0)) && !FullyHandled(s, 0)
  {
    StripUndoesWrap(par.streamName, id, "deserialization_error", fields);
    assert Strip(Strip(fields)) == Strip(fields);
    if HasPayload(s, 0) {
      assert Unacked(s, 1, 0);
    }
  }
}
