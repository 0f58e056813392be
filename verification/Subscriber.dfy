// One message through the body of the read loop (subscriber.py, `_read_loop`), while any others
// move between any two commands.
module Subscriber {
  import opened Common
  import opened DeadLetters
  import opened EventDelivery
  import opened Runs
  import R = RetryCounters
  import OD = OrderedDict

  // What a handler does: return, or raise with this text.
  type HandlerResult = Option<Bytes>

  // The first error, and how many handlers return before it.
  function FirstError(results: seq<HandlerResult>): Option<Bytes> {
    if results == [] then None
    else if results[0].Some? then results[0]
    else FirstError(results[1..])
  }

  function Returned(results: seq<HandlerResult>): (n: nat)
    ensures n <= |results| && (FirstError(results).None? <==> n == |results|)
  {
    if results == [] || results[0].Some? then 0 else 1 + Returned(results[1..])
  }

  /** The error that is kept is that of the first handler that raised, in the order of the handlers;
      those before it returned. */
  lemma {:induction false} FirstErrorIsTheFirst(results: seq<HandlerResult>)
    ensures FirstError(results).None? <==> forall i | 0 <= i < |results| :: results[i].None?
    ensures forall i | 0 <= i < |results| && results[i].Some? && (forall j | 0 <= j < i :: results[j].None?) ::
              FirstError(results) == results[i] && Returned(results) == i
  {
    if results != [] {
      FirstErrorIsTheFirst(results[1..]);
      forall i | 0 <= i < |results| && results[i].Some? && (forall j | 0 <= j < i :: results[j].None?)
        ensures FirstError(results) == results[i] && Returned(results) == i
      {
        if i > 0 {
          assert results[0].None? && results[1..][i - 1] == results[i];
          forall j | 0 <= j < i - 1 ensures results[1..][j].None? { assert results[j + 1].None?; }
        }
      }
      if FirstError(results).None? {
        forall i | 0 <= i < |results| ensures results[i].None? {
          if i > 0 { assert results[1..][i - 1] == results[i]; }
        }
      }
    }
  }

  // How the counters see the delivery.
  function OutcomeOf(id: Bytes, decodes: bool, results: seq<HandlerResult>): R.Outcome {
    if !decodes then R.Undecodable(id)
    else if FirstError(results).Some? then R.Failure(id)
    else R.Success(id)
  }

  // The error a message is dead-lettered with, when it is.
  function DeadLetterError(decodes: bool, results: seq<HandlerResult>, giveUp: bool): Option<Bytes> {
    if !decodes then Some("deserialization_error")
    else if giveUp then FirstError(results)
    else None
  }

  function Returns(w: Worker, n: nat): seq<Action> {
    if n == 0 then [] else Returns(w, n - 1) + [HandlerReturns(w)]
  }

  function MoveSteps(w: Worker): seq<Action> { [ExecDlqAdd(w), ExecAck(w)] }

  function FailureSteps(w: Worker, error: Bytes, giveUp: bool): seq<Action> {
    [HandlerFails(w, error, giveUp)] + if giveUp then MoveSteps(w) else []
  }

  function SuccessSteps(w: Worker): seq<Action> { [AllReturned(w), ExecAck(w)] }

  function DecodedSteps(w: Worker, results: seq<HandlerResult>, giveUp: bool): seq<Action> {
    Returns(w, Returned(results))
    + match FirstError(results) {
        case None => SuccessSteps(w)
        case Some(error) => FailureSteps(w, error, giveUp)
      }
  }

  // The commands and handler calls of one delivery.
  function DeliverySteps(
    w: Worker, m: MessageId, decodes: bool, results: seq<HandlerResult>, giveUp: bool): seq<Action>
  {
    [Begin(w, m)] + if decodes then DecodedSteps(w, results, giveUp) else [Undecodable(w)] + MoveSteps(w)
  }

  // A copy of the message in the dead-letter stream.
  ghost predicate HasCopy(par: Params, s: State, m: MessageId, error: Bytes)
    requires m < |s.stream|
  {
    exists d | 0 <= d < |s.letters| :: IsCopy(par, s, m, error, s.letters[d])
  }

  predicate IsCopy(par: Params, s: State, m: MessageId, error: Bytes, letter: Letter)
    requires m < |s.stream|
  {
    var msg := s.stream[m];
    && letter.source == m && letter.event == msg.event
    && letter.fields == Wrap(par.streamName, msg.id, error, msg.fields)
  }

  lemma CopyStays(par: Params, s: State, t: State, m: MessageId, error: Bytes)
    requires m < |s.stream| && HasCopy(par, s, m, error) && Later(s, t)
    ensures HasCopy(par, t, m, error)
  {
    var d :| 0 <= d < |s.letters| && IsCopy(par, s, m, error, s.letters[d]);
    assert LaterLetter(s.letters[d], t.letters[d]) && LaterMessage(s.stream[m], t.stream[m]);
    assert IsCopy(par, t, m, error, t.letters[d]);
  }

  // What a delivery leaves behind.
  ghost predicate Settled(par: Params, s: State, m: MessageId, decodes: bool, results: seq<HandlerResult>, giveUp: bool)
    requires m < |s.stream|
  {
    match DeadLetterError(decodes, results, giveUp)
    case Some(error) => s.stream[m].status.Acked? && HasCopy(par, s, m, error)
    case None => FirstError(results).None? ==> s.stream[m].status.Acked? && m in s.finished
  }

  class Store {
    const par: Params
    var s: State

    constructor (par: Params)
      ensures this.par == par && s == INIT
    {
      this.par := par;
      s := INIT;
    }

    method Perform(a: Action)
      requires Enabled(par, s, a)
      modifies this
      ensures s == Do(par, old(s), a)
    {
      s := Do(par, s, a);
    }

    // Others may move: callers know that they did nothing in the name of `w`, and no more.
    method Others(w: Worker) returns (ghost run: seq<Action>)
      modifies this
      ensures Valid(par, old(s), run) && OthersOnly(run, w) && s == After(par, old(s), run)
    {
      run := [];
    }
  }

  // A connection to the store, in the name of one worker.
  class Connection {
    const store: Store
    const me: Worker
    // Everything that happened in the store since the connection was opened.
    ghost var trace: seq<Action>
    ghost const origin: State

    ghost predicate Consistent()
      reads this, store
    {
      Valid(store.par, origin, trace) && After(store.par, origin, trace) == store.s
    }

    constructor (store: Store, me: Worker)
      ensures this.store == store && this.me == me
      ensures trace == [] && origin == store.s && Consistent()
    {
      this.store := store;
      this.me := me;
      trace := [];
      origin := store.s;
    }

    // A command takes effect some time after it is sent, in the state that it finds then.
    method Perform(a: Action) returns (ghost found: State)
      requires Consistent() && By(a, me) && Enabled(store.par, store.s, a)
      modifies store, `trace
      ensures Consistent() && Own(trace, me) == Own(old(trace), me) + [a]
      ensures Later(old(store.s), found) && PcOf(found, me) == PcOf(old(store.s), me)
      ensures Enabled(store.par, found, a) && store.s == Do(store.par, found, a)
      ensures Later(old(store.s), store.s)
    {
      ghost var s0 := store.s;
      ghost var others := store.Others(me);
      found := store.s;
      JoinRuns(store.par, origin, trace, others);
      SelectAfterOthers(trace, others, a, Mine(me));
      OthersLeavePc(store.par, s0, others, me);
      StaysEnabled(store.par, s0, found, a, me);
      ExtendRun(store.par, origin, trace + others, a);
      trace := trace + others + [a];
      store.Perform(a);
      StepIsLater(store.par, found, a);
      LaterTransitive(s0, found, store.s);
    }

    // A command that only reads finds what others left.
    method Sync()
      requires Consistent()
      modifies store, `trace
      ensures Consistent() && Own(trace, me) == Own(old(trace), me)
      ensures Later(old(store.s), store.s) && PcOf(store.s, me) == PcOf(old(store.s), me)
    {
      ghost var s0 := store.s;
      ghost var others := store.Others(me);
      JoinRuns(store.par, origin, trace, others);
      SelectWithOthers(trace, others, Mine(me));
      OthersLeavePc(store.par, s0, others, me);
      trace := trace + others;
    }
  }

  class EventSubscriber {
    const redis: Connection
    const retry: R.Params
    var retryCounts: R.Counts

    ghost predicate Consistent()
      reads this, redis, redis.store
    {
      OD.Distinct(retryCounts) && redis.Consistent()
    }

    constructor (redis: Connection, retry: R.Params)
      requires redis.Consistent()
      ensures this.redis == redis && this.retry == retry && retryCounts == [] && Consistent()
    {
      this.redis := redis;
      this.retry := retry;
      retryCounts := [];
    }

    function Pc(): Pc
      reads redis, redis.store
    {
      PcOf(redis.store.s, redis.me)
    }

    method MoveToDlq(m: MessageId, error: Bytes)
      requires redis.Consistent() && m < |redis.store.s.stream| && Pc() == DeadLettering(m, error)
      modifies redis.store, redis`trace
      ensures redis.Consistent() && Pc().Idle? && Later(old(redis.store.s), redis.store.s)
      ensures Own(redis.trace, redis.me) == Own(old(redis.trace), redis.me) + MoveSteps(redis.me)
      ensures redis.store.s.stream[m].status.Acked? && HasCopy(redis.store.par, redis.store.s, m, error)
    {
      ghost var s0 := redis.store.s;
      ghost var found := redis.Perform(ExecDlqAdd(redis.me));
      ghost var s1 := redis.store.s;
      assert IsCopy(redis.store.par, s1, m, error, s1.letters[|found.letters|]);
      found := redis.Perform(ExecAck(redis.me));
      CopyStays(redis.store.par, s1, redis.store.s, m, error);
      LaterTransitive(s0, s1, redis.store.s);
    }

    // Calls the handlers in turn until one raises.
    method RunHandlers(m: MessageId, results: seq<HandlerResult>) returns (lastError: Option<Bytes>)
      requires redis.Consistent() && |results| == redis.store.par.handlers && Pc() == Handling(m, 0)
      modifies redis.store, redis`trace
      ensures redis.Consistent() && Later(old(redis.store.s), redis.store.s)
      ensures lastError == FirstError(results) && Pc() == Handling(m, Returned(results))
      ensures Own(redis.trace, redis.me) == Own(old(redis.trace), redis.me) + Returns(redis.me, Returned(results))
    {
      ghost var s0 := redis.store.s;
      var k := 0;
      while k < |results|
        invariant 0 <= k <= |results| && redis.Consistent() && Later(s0, redis.store.s)
        invariant Pc() == Handling(m, k)
        invariant Own(redis.trace, redis.me) == Own(old(redis.trace), redis.me) + Returns(redis.me, k)
        invariant FirstError(results) == FirstError(results[k..])
        invariant Returned(results) == k + Returned(results[k..])
      {
        if results[k].Some? { return results[k]; }
        assert results[k..][1..] == results[k + 1..];
        ghost var s1 := redis.store.s;
        ghost var found := redis.Perform(HandlerReturns(redis.me));
        LaterTransitive(s0, s1, redis.store.s);
        k := k + 1;
      }
      lastError := None;
    }

    // The branch of a message that does not decode.
    method OnUndecodable(m: MessageId)
      requires redis.Consistent() && m < |redis.store.s.stream| && Pc() == Handling(m, 0)
      modifies redis.store, redis`trace
      ensures redis.Consistent() && Pc().Idle? && Later(old(redis.store.s), redis.store.s)
      ensures Own(redis.trace, redis.me)
           == Own(old(redis.trace), redis.me) + ([Undecodable(redis.me)] + MoveSteps(redis.me))
      ensures redis.store.s.stream[m].status.Acked?
      ensures HasCopy(redis.store.par, redis.store.s, m, "deserialization_error")
    {
      ghost var s0 := redis.store.s;
      ghost var found := redis.Perform(Undecodable(redis.me));
      ghost var s1 := redis.store.s;
      MoveToDlq(m, "deserialization_error");
      LaterTransitive(s0, s1, redis.store.s);
    }

    // Counts a failure; must the message be given up?
    method CountFailure(id: Bytes) returns (giveUp: bool)
      requires OD.Distinct(retryCounts)
      modifies `retryCounts
      ensures OD.Distinct(retryCounts) && retryCounts == R.Counted(retry, old(retryCounts), id)
      ensures giveUp == R.GivesUp(retry, old(retryCounts), id)
    {
      var counts, verdict := R.CountFailure(retry, retryCounts, id);
      CountedDistinct(retry, retryCounts, id);
      retryCounts, giveUp := counts, verdict;
    }

    method Forget(id: Bytes)
      requires OD.Distinct(retryCounts)
      modifies `retryCounts
      ensures OD.Distinct(retryCounts) && retryCounts == OD.Pop(old(retryCounts), id)
    {
      OD.PopKeeps(retryCounts, id, id, 0);
      retryCounts := OD.Pop(retryCounts, id);
    }

    // The branch of a failed handler.
    method OnFailure(m: MessageId, error: Bytes, k: nat)
      requires Consistent() && m < |redis.store.s.stream| && Pc() == Handling(m, k) && k < redis.store.par.handlers
      modifies `retryCounts, redis.store, redis`trace
      ensures Consistent() && Pc().Idle? && Later(old(redis.store.s), redis.store.s)
      ensures var id := old(redis.store.s).stream[m].id;
              var giveUp := R.GivesUp(retry, old(retryCounts), id);
              && retryCounts == R.Process(retry, old(retryCounts), R.Failure(id))
              && Own(redis.trace, redis.me)
                 == Own(old(redis.trace), redis.me) + FailureSteps(redis.me, error, giveUp)
              && (giveUp ==> redis.store.s.stream[m].status.Acked?
                             && HasCopy(redis.store.par, redis.store.s, m, error))
    {
      ghost var s0 := redis.store.s;
      var id := redis.store.s.stream[m].id;
      var giveUp := CountFailure(id);
      ghost var found := redis.Perform(HandlerFails(redis.me, error, giveUp));
      if giveUp {
        ghost var s1 := redis.store.s;
        MoveToDlq(m, error);
        LaterTransitive(s0, s1, redis.store.s);
        Forget(id);
      }
    }

    // The branch of a message whose handlers all returned.
    method OnSuccess(m: MessageId)
      requires Consistent() && m < |redis.store.s.stream| && Pc() == Handling(m, redis.store.par.handlers)
      modifies `retryCounts, redis.store, redis`trace
      ensures Consistent() && Pc().Idle? && Later(old(redis.store.s), redis.store.s)
      ensures retryCounts == R.Process(retry, old(retryCounts), R.Success(old(redis.store.s).stream[m].id))
      ensures Own(redis.trace, redis.me) == Own(old(redis.trace), redis.me) + SuccessSteps(redis.me)
      ensures redis.store.s.stream[m].status.Acked? && m in redis.store.s.finished
    {
      ghost var s0 := redis.store.s;
      var id := redis.store.s.stream[m].id;
      ghost var found := redis.Perform(AllReturned(redis.me));
      ghost var s1 := redis.store.s;
      found := redis.Perform(ExecAck(redis.me));
      LaterTransitive(s0, s1, redis.store.s);
      Forget(id);
    }

    // The branch of a message that decodes.
    method OnDecoded(m: MessageId, results: seq<HandlerResult>)
      requires Consistent() && |results| == redis.store.par.handlers
      requires m < |redis.store.s.stream| && Pc() == Handling(m, 0)
      modifies `retryCounts, redis.store, redis`trace
      ensures Consistent() && Pc().Idle? && Later(old(redis.store.s), redis.store.s)
      ensures var id := old(redis.store.s).stream[m].id;
              var giveUp := R.GivesUp(retry, old(retryCounts), id);
              && retryCounts == R.Process(retry, old(retryCounts), OutcomeOf(id, true, results))
              && Own(redis.trace, redis.me)
                 == Own(old(redis.trace), redis.me) + DecodedSteps(redis.me, results, giveUp)
              && Settled(redis.store.par, redis.store.s, m, true, results, giveUp)
    {
      ghost var s0, own := redis.store.s, Own(redis.trace, redis.me);
      var lastError := RunHandlers(m, results);
      ghost var s1, calls := redis.store.s, Returns(redis.me, Returned(results));
      assert LaterMessage(s0.stream[m], s1.stream[m]);
      if lastError.Some? {
        ghost var giveUp := R.GivesUp(retry, retryCounts, s0.stream[m].id);
        OnFailure(m, lastError.value, Returned(results));
        Regroup(own, calls, FailureSteps(redis.me, lastError.value, giveUp));
      } else {
        OnSuccess(m);
        Regroup(own, calls, SuccessSteps(redis.me));
      }
      LaterTransitive(s0, s1, redis.store.s);
    }

    /** Whatever the handlers do and whatever others do meanwhile: the subscriber's own steps are
        those of the delivery, the message ends up settled accordingly, and the counters change as
        their own model says. */
    method HandleMessage(m: MessageId, decodes: bool, results: seq<HandlerResult>)
      requires Consistent() && |results| == redis.store.par.handlers && Pc().Idle?
      requires m < |redis.store.s.stream| && !redis.store.s.stream[m].status.New?
      modifies `retryCounts, redis.store, redis`trace
      ensures Consistent() && Pc().Idle? && Later(old(redis.store.s), redis.store.s)
      ensures var id := old(redis.store.s).stream[m].id;
              var giveUp := R.GivesUp(retry, old(retryCounts), id);
              && retryCounts == R.Process(retry, old(retryCounts), OutcomeOf(id, decodes, results))
              && Own(redis.trace, redis.me)
                 == Own(old(redis.trace), redis.me) + DeliverySteps(redis.me, m, decodes, results, giveUp)
              && Settled(redis.store.par, redis.store.s, m, decodes, results, giveUp)
    {
      ghost var s0, own := redis.store.s, Own(redis.trace, redis.me);
      ghost var giveUp := R.GivesUp(retry, retryCounts, s0.stream[m].id);
      ghost var found := redis.Perform(Begin(redis.me, m));
      ghost var s1 := redis.store.s;
      assert LaterMessage(s0.stream[m], s1.stream[m]);
      if !decodes {
        OnUndecodable(m);
        Regroup(own, [Begin(redis.me, m)], [Undecodable(redis.me)] + MoveSteps(redis.me));
      } else {
        OnDecoded(m, results);
        Regroup(own, [Begin(redis.me, m)], DecodedSteps(redis.me, results, giveUp));
      }
      LaterTransitive(s0, s1, redis.store.s);
    }
  }

  lemma Regroup(a: seq<Action>, b: seq<Action>, c: seq<Action>)
    ensures a + b + c == a + (b + c)
  {}

  lemma CountedDistinct(par: R.Params, c: R.Counts, id: Bytes)
    requires OD.Distinct(c)
    ensures OD.Distinct(R.Counted(par, c, id))
  {
    OD.PutKeeps(c, id, R.CountOf(c, id) + 1, id, 0);
  }

  // ------------------------------------------------------------ alone

  function MovedToDlq(par: Params, s: State, m: MessageId, error: Bytes): State
    requires m < |s.stream|
  {
    var msg := s.stream[m];
    var copy := Letter(msg.event, Wrap(par.streamName, msg.id, error, msg.fields), m, false, false);
    SetStatus(s.(letters := s.letters + [copy]), m, Acked)
  }

  function Finished(s: State, m: MessageId): State
    requires m < |s.stream|
  {
    SetStatus(s.(finished := s.finished + {m}), m, Acked)
  }

  // What is left of one delivery, the worker's program counter aside, when nobody else moves.
  function Delivered(
    par: Params, s: State, m: MessageId, decodes: bool, results: seq<HandlerResult>, giveUp: bool): State
    requires m < |s.stream|
  {
    match DeadLetterError(decodes, results, giveUp)
    case Some(error) => MovedToDlq(par, s, m, error)
    case None => if FirstError(results).None? then Finished(s, m) else s
  }

  // The run leads from s to t.
  ghost predicate Leads(par: Params, s: State, run: seq<Action>, t: State) {
    Valid(par, s, run) && After(par, s, run) == t
  }

  lemma LeadsOn(par: Params, s: State, run: seq<Action>, t: State, more: seq<Action>, u: State)
    requires Leads(par, s, run, t) && Leads(par, t, more, u)
    ensures Leads(par, s, run + more, u)
  {
    JoinRuns(par, s, run, more);
  }

  lemma LeadsOneStep(par: Params, s: State, a: Action)
    requires Enabled(par, s, a)
    ensures Leads(par, s, [a], Do(par, s, a))
  {
    assert [a][1..] == [];
  }

  lemma GotoTwice(s: State, w: Worker, a: Pc, b: Pc)
    ensures Goto(Goto(s, w, a), w, b) == Goto(s, w, b)
  {}

  lemma {:induction false} ReturnsAlone(par: Params, s: State, w: Worker, m: MessageId, n: nat)
    requires n <= par.handlers
    ensures Leads(par, Goto(s, w, Handling(m, 0)), Returns(w, n), Goto(s, w, Handling(m, n)))
  {
    if n > 0 {
      ReturnsAlone(par, s, w, m, n - 1);
      LeadsOneStep(par, Goto(s, w, Handling(m, n - 1)), HandlerReturns(w));
      GotoTwice(s, w, Handling(m, n - 1), Handling(m, n));
      LeadsOn(par, Goto(s, w, Handling(m, 0)), Returns(w, n - 1), Goto(s, w, Handling(m, n - 1)),
              [HandlerReturns(w)], Goto(s, w, Handling(m, n)));
    }
  }

  lemma MoveAlone(par: Params, s: State, w: Worker, m: MessageId, error: Bytes)
    requires m < |s.stream|
    ensures Leads(par, Goto(s, w, DeadLettering(m, error)), MoveSteps(w), Goto(MovedToDlq(par, s, m, error), w, Idle))
  {
    var s0 := Goto(s, w, DeadLettering(m, error));
    var s1 := Do(par, s0, ExecDlqAdd(w));
    var s2 := Do(par, s1, ExecAck(w));
    LeadsOneStep(par, s0, ExecDlqAdd(w));
    LeadsOneStep(par, s1, ExecAck(w));
    LeadsOn(par, s0, [ExecDlqAdd(w)], s1, [ExecAck(w)], s2);
    assert s2 == Goto(MovedToDlq(par, s, m, error), w, Idle);
  }

  lemma SuccessAlone(par: Params, s: State, w: Worker, m: MessageId)
    requires m < |s.stream|
    ensures Leads(par, Goto(s, w, Handling(m, par.handlers)), SuccessSteps(w), Goto(Finished(s, m), w, Idle))
  {
    var s0 := Goto(s, w, Handling(m, par.handlers));
    var s1 := Do(par, s0, AllReturned(w));
    var s2 := Do(par, s1, ExecAck(w));
    LeadsOneStep(par, s0, AllReturned(w));
    LeadsOneStep(par, s1, ExecAck(w));
    LeadsOn(par, s0, [AllReturned(w)], s1, [ExecAck(w)], s2);
    assert s2 == Goto(Finished(s, m), w, Idle);
  }

  lemma FailureAlone(par: Params, s: State, w: Worker, m: MessageId, k: nat, error: Bytes, giveUp: bool)
    requires m < |s.stream| && k < par.handlers
    ensures Leads(par, Goto(s, w, Handling(m, k)), FailureSteps(w, error, giveUp),
                  Goto(if giveUp then MovedToDlq(par, s, m, error) else s, w, Idle))
  {
    var s0 := Goto(s, w, Handling(m, k));
    LeadsOneStep(par, s0, HandlerFails(w, error, giveUp));
    if giveUp {
      GotoTwice(s, w, Handling(m, k), DeadLettering(m, error));
      MoveAlone(par, s, w, m, error);
      LeadsOn(par, s0, [HandlerFails(w, error, giveUp)], Goto(s, w, DeadLettering(m, error)),
              MoveSteps(w), Goto(MovedToDlq(par, s, m, error), w, Idle));
    } else {
      GotoTwice(s, w, Handling(m, k), Idle);
      assert FailureSteps(w, error, giveUp) == [HandlerFails(w, error, giveUp)];
    }
  }

  lemma UndecodableAlone(par: Params, s: State, w: Worker, m: MessageId)
    requires m < |s.stream|
    ensures Leads(par, Goto(s, w, Handling(m, 0)), [Undecodable(w)] + MoveSteps(w),
                  Goto(MovedToDlq(par, s, m, "deserialization_error"), w, Idle))
  {
    var s0 := Goto(s, w, Handling(m, 0));
    var error := "deserialization_error";
    LeadsOneStep(par, s0, Undecodable(w));
    GotoTwice(s, w, Handling(m, 0), DeadLettering(m, error));
    MoveAlone(par, s, w, m, error);
    LeadsOn(par, s0, [Undecodable(w)], Goto(s, w, DeadLettering(m, error)),
            MoveSteps(w), Goto(MovedToDlq(par, s, m, error), w, Idle));
  }

  /** When nobody else moves, the steps of a delivery change the store exactly so. */
  lemma DeliveredAlone(
    par: Params, s: State, w: Worker, m: MessageId, decodes: bool, results: seq<HandlerResult>, giveUp: bool)
    requires PcOf(s, w).Idle? && m < |s.stream| && !s.stream[m].status.New? && |results| == par.handlers
    ensures Leads(par, s, DeliverySteps(w, m, decodes, results, giveUp),
                  Goto(Delivered(par, s, m, decodes, results, giveUp), w, Idle))
  {
    var s0 := Goto(s, w, Handling(m, 0));
    var end := Goto(Delivered(par, s, m, decodes, results, giveUp), w, Idle);
    LeadsOneStep(par, s, Begin(w, m));
    if !decodes {
      UndecodableAlone(par, s, w, m);
      LeadsOn(par, s, [Begin(w, m)], s0, [Undecodable(w)] + MoveSteps(w), end);
    } else {
      var k := Returned(results);
      var s1 := Goto(s, w, Handling(m, k));
      var rest := match FirstError(results)
                  case None => SuccessSteps(w)
                  case Some(error) => FailureSteps(w, error, giveUp);
      ReturnsAlone(par, s, w, m, k);
      if FirstError(results).Some? {
        FailureAlone(par, s, w, m, k, FirstError(results).value, giveUp);
      } else {
        SuccessAlone(par, s, w, m);
      }
      LeadsOn(par, s0, Returns(w, k), s1, rest, end);
      LeadsOn(par, s, [Begin(w, m)], s0, Returns(w, k) + rest, end);
    }
  }
}
