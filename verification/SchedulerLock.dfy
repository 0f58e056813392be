// The Redis branch of services/task-graph-engine (distributed_lock.py) as a step protocol.
//
// Every Redis command is one atomic step; anything may happen between two steps of a
// coroutine, including the passing of time, the steps of others, and a crash.  `owner` and
// `claimLog` are bookkeeping: the Redis values are the constant "1", and no step reads them.
module SchedulerLock {
  import opened Common
  import opened Runs

  type Proc = nat
  type Task = string

  // Seconds a lock lives (EX 30) and a claim lives (EX 3600).
  datatype Params = Params(lease: real, claimTtl: real)

  datatype Key = Key(owner: Proc, expires: real)

  datatype Pc =
    | Idle
    | Polling(deadline: real)                    // at the head of the acquire loop
    | Setting(deadline: real)                    // SET NX EX in flight
    | Sleeping(deadline: real, until: real)      // between two polls
    | Critical(at: real)                         // SET took effect at `at`
    | Deleting(at: real)                         // left the critical section, DELETE in flight
    | Unclaiming(task: Task)                     // SADD done, DELETE of the claim in flight

  datatype Claimed = Claimed(task: Task, winner: Proc, at: real, afterCompletion: bool)

  datatype State = State(
    now: real,
    lock: Option<Key>,
    claims: map<Task, Key>,
    completed: set<Task>,
    pcs: map<Proc, Pc>,
    claimLog: seq<Claimed>)

  datatype Action =
    | Tick(seconds: real)
    | Start(p: Proc, timeout: real)
    | CheckDeadline(p: Proc)
    | ExecSet(p: Proc)
    | Wake(p: Proc)
    | Leave(p: Proc)
    | ExecDelete(p: Proc)
    | Crash(p: Proc)
    | TryClaim(p: Proc, task: Task)
    | ExecSAdd(p: Proc, task: Task)
    | ExecDeleteClaim(p: Proc)
    | Reset

  const POLL_INTERVAL: real := 0.1

  const INIT: State := State(0.0, None, map[], {}, map[], [])

  function PcOf(s: State, p: Proc): Pc { if p in s.pcs then s.pcs[p] else Idle }

  predicate Live(k: Option<Key>, now: real) { k.Some? && now < k.value.expires }

  function ClaimOf(s: State, task: Task): Option<Key> {
    if task in s.claims then Some(s.claims[task]) else None
  }

  predicate Enabled(s: State, a: Action) {
    match a
    case Tick(d) => d >= 0.0
    case Start(p, _) => PcOf(s, p).Idle?
    case CheckDeadline(p) => PcOf(s, p).Polling?
    case ExecSet(p) => PcOf(s, p).Setting?
    case Wake(p) => PcOf(s, p).Sleeping? && s.now >= PcOf(s, p).until
    case Leave(p) => PcOf(s, p).Critical?
    case ExecDelete(p) => PcOf(s, p).Deleting?
    case Crash(p) => true
    case TryClaim(_, _) => true
    case ExecSAdd(p, _) => PcOf(s, p).Idle?
    case ExecDeleteClaim(p) => PcOf(s, p).Unclaiming?
    case Reset => true
  }

  function Do(par: Params, s: State, a: Action): State
    requires Enabled(s, a)
  {
    match a
    case Tick(d) => s.(now := s.now + d)
    case Start(p, timeout) => s.(pcs := s.pcs[p := Polling(s.now + timeout)])
    case CheckDeadline(p) =>
      // Past the deadline: RuntimeError, and nothing is deleted.
      var d := PcOf(s, p).deadline;
      s.(pcs := s.pcs[p := if s.now < d then Setting(d) else Idle])
    case ExecSet(p) =>
      var d := PcOf(s, p).deadline;
      if Live(s.lock, s.now) then s.(pcs := s.pcs[p := Sleeping(d, s.now + POLL_INTERVAL)])
      else s.(lock := Some(Key(p, s.now + par.lease)), pcs := s.pcs[p := Critical(s.now)])
    case Wake(p) => s.(pcs := s.pcs[p := Polling(PcOf(s, p).deadline)])
    case Leave(p) => s.(pcs := s.pcs[p := Deleting(PcOf(s, p).at)])
    case ExecDelete(p) => s.(lock := None, pcs := s.pcs[p := Idle])
    case Crash(p) => s.(pcs := s.pcs[p := Idle])
    case TryClaim(p, task) =>
      if Live(ClaimOf(s, task), s.now) then s
      else s.(claims := s.claims[task := Key(p, s.now + par.claimTtl)],
              claimLog := s.claimLog + [Claimed(task, p, s.now, task in s.completed)])
    case ExecSAdd(p, task) =>
      s.(completed := s.completed + {task}, pcs := s.pcs[p := Unclaiming(task)])
    case ExecDeleteClaim(p) =>
      s.(claims := s.claims - {PcOf(s, p).task}, pcs := s.pcs[p := Idle])
    case Reset => s.(lock := None, claims := map[], completed := {})
  }

  // A run from `s`: every action enabled where it is taken.
  predicate Valid(par: Params, s: State, run: seq<Action>)
    decreases run
  {
    run == [] || (Enabled(s, run[0]) && Valid(par, Do(par, s, run[0]), run[1..]))
  }

  function After(par: Params, s: State, run: seq<Action>): State
    requires Valid(par, s, run)
    decreases run
  {
    if run == [] then s else After(par, Do(par, s, run[0]), run[1..])
  }

  lemma {:induction false} JoinRuns(par: Params, s: State, run: seq<Action>, more: seq<Action>)
    requires Valid(par, s, run) && Valid(par, After(par, s, run), more)
    ensures Valid(par, s, run + more) && After(par, s, run + more) == After(par, After(par, s, run), more)
    decreases run
  {
    if run == [] {
      assert run + more == more;
    } else {
      assert (run + more)[1..] == run[1..] + more;
      JoinRuns(par, Do(par, s, run[0]), run[1..], more);
    }
  }

  lemma ExtendRun(par: Params, s: State, run: seq<Action>, a: Action)
    requires Valid(par, s, run) && Enabled(After(par, s, run), a)
    ensures Valid(par, s, run + [a]) && After(par, s, run + [a]) == Do(par, After(par, s, run), a)
  {
    assert [a][1..] == [];
    JoinRuns(par, s, run, [a]);
  }

  // ------------------------------------------------------- mutual exclusion

  predicate Holding(s: State, p: Proc) { PcOf(s, p).Critical? || PcOf(s, p).Deleting? }

  // Everyone between the SET and the DELETE got the lock less than a lease ago.
  ghost predicate OnTime(par: Params, s: State) {
    forall p | Holding(s, p) :: s.now < PcOf(s, p).at + par.lease
  }

  ghost predicate OnTimeThroughout(par: Params, s: State, run: seq<Action>)
    requires Valid(par, s, run)
    decreases run
  {
    OnTime(par, s) && (run != [] ==> OnTimeThroughout(par, Do(par, s, run[0]), run[1..]))
  }

  ghost predicate LockInv(par: Params, s: State) {
    && (forall p | Holding(s, p) :: s.lock == Some(Key(p, PcOf(s, p).at + par.lease)))
  }

  ghost predicate AtMostOneHolder(s: State) {
    forall p, q | Holding(s, p) && Holding(s, q) :: p == q
  }

  // Each DELETE of the run removes the live key its own process set.
  ghost predicate DeletesOwnKeys(par: Params, s: State, run: seq<Action>)
    requires Valid(par, s, run)
    decreases run
  {
    run == []
    || (&& (run[0].ExecDelete? ==> Live(s.lock, s.now) && s.lock.value.owner == run[0].p)
        && DeletesOwnKeys(par, Do(par, s, run[0]), run[1..]))
  }

  lemma LockStep(par: Params, s: State, a: Action)
    requires LockInv(par, s) && OnTime(par, s) && Enabled(s, a) && !a.Reset?
    ensures LockInv(par, Do(par, s, a))
  {
    var s' := Do(par, s, a);
    forall p | Holding(s', p) ensures s'.lock == Some(Key(p, PcOf(s', p).at + par.lease)) {
      if !(a.ExecSet? && a.p == p) {
        assert Holding(s, p) && PcOf(s, p).at == PcOf(s', p).at;
      }
    }
  }

  lemma {:induction false} MutualExclusionFrom(par: Params, s: State, run: seq<Action>)
    requires LockInv(par, s) && Valid(par, s, run) && Reset !in run
    requires OnTimeThroughout(par, s, run)
    ensures AtMostOneHolder(After(par, s, run)) && DeletesOwnKeys(par, s, run)
    decreases run
  {
    if run != [] {
      LockStep(par, s, run[0]);
      MutualExclusionFrom(par, Do(par, s, run[0]), run[1..]);
    }
  }

  /** Whatever the interleaving, crashes and timeouts included: if every holder is done within
      its lease, no two processes are ever between SET and DELETE, and every DELETE removes the
      deleter's own key. */
  lemma MutualExclusion(par: Params, run: seq<Action>)
    requires Valid(par, INIT, run) && Reset !in run && OnTimeThroughout(par, INIT, run)
    ensures AtMostOneHolder(After(par, INIT, run))
    ensures DeletesOwnKeys(par, INIT, run)
  {
    MutualExclusionFrom(par, INIT, run);
  }

  // p takes the lock and holds it for some time ...
  function HoldRun(p: Proc, hold: real): seq<Action> {
    [Start(p, 5.0), CheckDeadline(p), ExecSet(p), Tick(hold)]
  }

  // ... then q polls it ...
  function OverrunRun(p: Proc, q: Proc, hold: real): seq<Action> {
    HoldRun(p, hold) + [Start(q, 5.0), CheckDeadline(q), ExecSet(q)]
  }

  // ... and p is done.
  function DeleteRun(p: Proc): seq<Action> { [Leave(p), ExecDelete(p)] }

  // Runs from states that are known.
  lemma TwoSteps(par: Params, s: State, a: Action, b: Action)
    requires Enabled(s, a) && Enabled(Do(par, s, a), b)
    ensures Valid(par, s, [a, b]) && After(par, s, [a, b]) == Do(par, Do(par, s, a), b)
  {
    ExtendRun(par, s, [a], b);
    assert [a] + [b] == [a, b] && [a][1..] == [];
  }

  lemma PollRun(par: Params, s: State, p: Proc)
    requires PcOf(s, p).Idle?
    ensures var run := [Start(p, 5.0), CheckDeadline(p), ExecSet(p)];
            && Valid(par, s, run)
            && After(par, s, run) == Do(par, s.(pcs := s.pcs[p := Setting(s.now + 5.0)]), ExecSet(p))
  {
    var t := s.(pcs := s.pcs[p := Setting(s.now + 5.0)]);
    TwoSteps(par, s, Start(p, 5.0), CheckDeadline(p));
    assert Do(par, Do(par, s, Start(p, 5.0)), CheckDeadline(p)) == t;
    ExtendRun(par, s, [Start(p, 5.0), CheckDeadline(p)], ExecSet(p));
    assert [Start(p, 5.0), CheckDeadline(p)] + [ExecSet(p)] == [Start(p, 5.0), CheckDeadline(p), ExecSet(p)];
  }

  lemma HoldRunEnds(par: Params, p: Proc, hold: real)
    requires hold >= 0.0
    ensures Valid(par, INIT, HoldRun(p, hold))
    ensures After(par, INIT, HoldRun(p, hold))
         == State(hold, Some(Key(p, par.lease)), map[], {}, map[p := Critical(0.0)], [])
  {
    var r := [Start(p, 5.0), CheckDeadline(p), ExecSet(p)];
    PollRun(par, INIT, p);
    assert After(par, INIT, r) == State(0.0, Some(Key(p, par.lease)), map[], {}, map[p := Critical(0.0)], []);
    ExtendRun(par, INIT, r, Tick(hold));
    assert r + [Tick(hold)] == HoldRun(p, hold);
  }

  lemma OverrunRunEnds(par: Params, p: Proc, q: Proc, hold: real)
    requires p != q && hold >= 0.0
    ensures Valid(par, INIT, OverrunRun(p, q, hold))
    ensures var s := After(par, INIT, OverrunRun(p, q, hold));
            && PcOf(s, p) == Critical(0.0) && s.now == hold
            && (if hold >= par.lease then PcOf(s, q).Critical? && s.lock == Some(Key(q, hold + par.lease))
                else PcOf(s, q).Sleeping?)
  {
    var s := State(hold, Some(Key(p, par.lease)), map[], {}, map[p := Critical(0.0)], []);
    HoldRunEnds(par, p, hold);
    PollRun(par, s, q);
    JoinRuns(par, INIT, HoldRun(p, hold), [Start(q, 5.0), CheckDeadline(q), ExecSet(q)]);
  }

  /** The lease is exactly the bound: a holder of `hold` seconds can be joined by a second one
      if and only if `hold` is at least the lease; the first one's DELETE then removes the
      second one's key. */
  lemma OverrunBreaksTheLock(par: Params, p: Proc, q: Proc, hold: real)
    requires p != q && hold >= 0.0
    ensures Valid(par, INIT, OverrunRun(p, q, hold))
    ensures var s := After(par, INIT, OverrunRun(p, q, hold));
            && PcOf(s, p) == Critical(0.0) && s.now == hold
            && (PcOf(s, q).Critical? <==> hold >= par.lease)
            && (hold >= par.lease ==> s.lock == Some(Key(q, hold + par.lease)))
    ensures hold >= par.lease ==>
              var run := OverrunRun(p, q, hold) + DeleteRun(p);
              && Valid(par, INIT, run)
              && After(par, INIT, run).lock == None && PcOf(After(par, INIT, run), q).Critical?
  {
    OverrunRunEnds(par, p, q, hold);
    var s := After(par, INIT, OverrunRun(p, q, hold));
    TwoSteps(par, s, Leave(p), ExecDelete(p));
    JoinRuns(par, INIT, OverrunRun(p, q, hold), DeleteRun(p));
  }

  // p takes the lock, crashes after some time, and q polls it.
  function CrashedHolderRun(p: Proc, q: Proc, hold: real): seq<Action> {
    HoldRun(p, hold) + [Crash(p)] + [Start(q, 5.0), CheckDeadline(q), ExecSet(q)]
  }

  /** A crash frees nothing: the key of a crashed holder keeps others out for its whole lease, and no
      longer. */
  lemma CrashedHolderKeepsTheLease(par: Params, p: Proc, q: Proc, hold: real)
    requires p != q && hold >= 0.0
    ensures Valid(par, INIT, CrashedHolderRun(p, q, hold))
    ensures PcOf(After(par, INIT, CrashedHolderRun(p, q, hold)), q).Critical? <==> hold >= par.lease
  {
    var s := State(hold, Some(Key(p, par.lease)), map[], {}, map[p := Idle], []);
    HoldRunEnds(par, p, hold);
    ExtendRun(par, INIT, HoldRun(p, hold), Crash(p));
    assert After(par, INIT, HoldRun(p, hold) + [Crash(p)]) == s;
    PollRun(par, s, q);
    JoinRuns(par, INIT, HoldRun(p, hold) + [Crash(p)], [Start(q, 5.0), CheckDeadline(q), ExecSet(q)]);
  }

  // However many processes crash, the lock is never held for longer than a lease from now.
  lemma {:induction false} LockNeverSticks(par: Params, s: State, run: seq<Action>)
    requires par.lease >= 0.0 && Valid(par, s, run)
    requires s.lock.Some? ==> s.lock.value.expires <= s.now + par.lease
    ensures var s' := After(par, s, run); s'.lock.Some? ==> !Live(s'.lock, s'.now + par.lease)
    decreases run
  {
    if run != [] { LockNeverSticks(par, Do(par, s, run[0]), run[1..]); }
  }

  // ------------------------------------------------------- claims

  // A claimed task is completed, or still claimed, or its claim has outlived the TTL.
  ghost predicate Accounted(par: Params, s: State, e: Claimed) {
    || e.task in s.completed
    || s.now >= e.at + par.claimTtl
    || (e.task in s.claims && s.claims[e.task].expires >= e.at + par.claimTtl)
  }

  // Two claims of one task: the later one comes a TTL later, or after completion.
  ghost predicate Separated(par: Params, first: Claimed, second: Claimed) {
    first.task == second.task ==> second.at >= first.at + par.claimTtl || second.afterCompletion
  }

  ghost predicate ClaimInv(par: Params, s: State) {
    && (forall p | PcOf(s, p).Unclaiming? :: PcOf(s, p).task in s.completed)
    && (forall i | 0 <= i < |s.claimLog| :: Accounted(par, s, s.claimLog[i]))
    && (forall i, j | 0 <= i < j < |s.claimLog| :: Separated(par, s.claimLog[i], s.claimLog[j]))
  }

  lemma ClaimStep(par: Params, s: State, a: Action)
    requires ClaimInv(par, s) && Enabled(s, a) && !a.Reset?
    ensures ClaimInv(par, Do(par, s, a))
  {
    var s' := Do(par, s, a);
    forall p | PcOf(s', p).Unclaiming? ensures PcOf(s', p).task in s'.completed {
      if !(a.ExecSAdd? && a.p == p) { assert PcOf(s, p) == PcOf(s', p); }
    }
    forall i | 0 <= i < |s'.claimLog| ensures Accounted(par, s', s'.claimLog[i]) {
      if i < |s.claimLog| { assert Accounted(par, s, s.claimLog[i]) && s'.claimLog[i] == s.claimLog[i]; }
    }
    forall i, j | 0 <= i < j < |s'.claimLog| ensures Separated(par, s'.claimLog[i], s'.claimLog[j]) {
      assert Accounted(par, s, s.claimLog[i]);
      if j < |s.claimLog| { assert Separated(par, s.claimLog[i], s.claimLog[j]); }
    }
  }

  lemma {:induction false} ClaimsFrom(par: Params, s: State, run: seq<Action>)
    requires ClaimInv(par, s) && Valid(par, s, run) && Reset !in run
    ensures ClaimInv(par, After(par, s, run))
    decreases run
  {
    if run != [] {
      ClaimStep(par, s, run[0]);
      ClaimsFrom(par, Do(par, s, run[0]), run[1..]);
    }
  }

  /** In every run without a reset, crashes between SADD and DELETE included: a task has one
      claimant per TTL until it is completed, and within the TTL of a claim the task is always
      in claimed or completed. */
  lemma OneClaimantUntilCompletion(par: Params, run: seq<Action>)
    requires Valid(par, INIT, run) && Reset !in run
    ensures var s := After(par, INIT, run);
            && (forall i, j | 0 <= i < j < |s.claimLog| && s.claimLog[i].task == s.claimLog[j].task ::
                  s.claimLog[j].at >= s.claimLog[i].at + par.claimTtl || s.claimLog[j].afterCompletion)
            && (forall i | 0 <= i < |s.claimLog| && s.now < s.claimLog[i].at + par.claimTtl ::
                  Live(ClaimOf(s, s.claimLog[i].task), s.now) || s.claimLog[i].task in s.completed)
  {
    ClaimsFrom(par, INIT, run);
    var s := After(par, INIT, run);
    forall i, j | 0 <= i < j < |s.claimLog| && s.claimLog[i].task == s.claimLog[j].task
      ensures s.claimLog[j].at >= s.claimLog[i].at + par.claimTtl || s.claimLog[j].afterCompletion
    {
      assert Separated(par, s.claimLog[i], s.claimLog[j]);
    }
    forall i | 0 <= i < |s.claimLog| && s.now < s.claimLog[i].at + par.claimTtl
      ensures Live(ClaimOf(s, s.claimLog[i].task), s.now) || s.claimLog[i].task in s.completed
    {
      assert Accounted(par, s, s.claimLog[i]);
    }
  }

  // ------------------------------------------------------- claims end

  // The i-th claim won was for this task, and its TTL is not over.
  predicate WithinTtl(par: Params, s: State, i: nat, task: Task) {
    i < |s.claimLog| && s.claimLog[i].task == task && s.now < s.claimLog[i].at + par.claimTtl
  }

  // Every claim on record expires a TTL after it was won.
  ghost predicate ClaimsExpire(par: Params, s: State) {
    forall task | task in s.claims :: exists i: nat ::
      i < |s.claimLog| && s.claimLog[i].task == task
      && s.claims[task].expires == s.claimLog[i].at + par.claimTtl
  }

  lemma {:induction false} ClaimsExpireAfter(par: Params, s: State, run: seq<Action>)
    requires ClaimsExpire(par, s) && Valid(par, s, run)
    ensures ClaimsExpire(par, After(par, s, run))
    decreases run
  {
    if run != [] {
      var a, t := run[0], Do(par, s, run[0]);
      forall task | task in t.claims
        ensures exists i: nat :: i < |t.claimLog| && t.claimLog[i].task == task
                                 && t.claims[task].expires == t.claimLog[i].at + par.claimTtl
      {
        if task in s.claims && t.claims[task] == s.claims[task] {
          var i: nat :| i < |s.claimLog| && s.claimLog[i].task == task
                        && s.claims[task].expires == s.claimLog[i].at + par.claimTtl;
          assert t.claimLog[i] == s.claimLog[i];
        } else {
          assert t.claimLog[|s.claimLog|].task == task;
        }
      }
      ClaimsExpireAfter(par, t, run[1..]);
    }
  }

  /** A crashed claimant does not keep its task for ever: in every run, resets included, a claim is
      refused only within a TTL of one that was won. */
  lemma ClaimsEnd(par: Params, run: seq<Action>, task: Task)
    requires Valid(par, INIT, run)
    ensures var s := After(par, INIT, run);
            Live(ClaimOf(s, task), s.now) ==> exists i: nat :: WithinTtl(par, s, i, task)
  {
    ClaimsExpireAfter(par, INIT, run);
    var s := After(par, INIT, run);
    if Live(ClaimOf(s, task), s.now) {
      var i: nat :| i < |s.claimLog| && s.claimLog[i].task == task
                    && s.claims[task].expires == s.claimLog[i].at + par.claimTtl;
      assert WithinTtl(par, s, i, task);
    }
  }

  // What happens to a task whose claimant crashes.
  function CrashRun(p: Proc, q: Proc, task: Task, wait: real): seq<Action> {
    [TryClaim(p, task), Crash(p), Tick(wait), TryClaim(q, task)]
  }

  /** The TTL is exactly the wait: after a crash another process wins the task if and only if the TTL is over. */
  lemma CrashedClaimIsFreedByTheTtl(par: Params, p: Proc, q: Proc, task: Task, wait: real)
    requires wait >= 0.0 && par.claimTtl > 0.0
    ensures Valid(par, INIT, CrashRun(p, q, task, wait))
    ensures After(par, INIT, CrashRun(p, q, task, wait)).claimLog
         == [Claimed(task, p, 0.0, false)] + if wait >= par.claimTtl then [Claimed(task, q, wait, false)] else []
  {
    var r2 := [TryClaim(p, task), Crash(p)];
    TwoSteps(par, INIT, TryClaim(p, task), Crash(p));
    var s := After(par, INIT, r2);
    TwoSteps(par, s, Tick(wait), TryClaim(q, task));
    JoinRuns(par, INIT, r2, [Tick(wait), TryClaim(q, task)]);
    assert r2 + [Tick(wait), TryClaim(q, task)] == CrashRun(p, q, task, wait);
  }

  /** A reset frees the lock and every claim, and forgets every completion. */
  lemma ResetFreesEverything(par: Params, s: State, p: Proc, task: Task)
    ensures var run := [Reset, TryClaim(p, task)];
            && Valid(par, s, run)
            && var t := After(par, s, run);
            t.lock == None && t.completed == {} && t.claims.Keys == {task}
            && t.claimLog == s.claimLog + [Claimed(task, p, s.now, false)]
  {
    TwoSteps(par, s, Reset, TryClaim(p, task));
  }

  // ------------------------------------------------------- polling

  /** The timeout is exact: a process gives up at the first poll that comes `timeout` seconds or
      more after it started. */
  lemma GivesUpAtTheTimeout(par: Params, s: State, p: Proc, timeout: real, wait: real)
    requires PcOf(s, p).Idle? && wait >= 0.0
    ensures var run := [Start(p, timeout), Tick(wait), CheckDeadline(p)];
            && Valid(par, s, run)
            && var t := After(par, s, run);
            PcOf(t, p).Idle? <==> wait >= timeout
  {
    var r2 := [Start(p, timeout), Tick(wait)];
    TwoSteps(par, s, Start(p, timeout), Tick(wait));
    ExtendRun(par, s, r2, CheckDeadline(p));
    assert r2 + [CheckDeadline(p)] == [Start(p, timeout), Tick(wait), CheckDeadline(p)];
  }

  /** A process that finds a live key polls again as soon as a tenth of a second has passed. */
  lemma PollsAgainAfterATenth(par: Params, s: State, p: Proc, wait: real)
    requires PcOf(s, p).Setting? && Live(s.lock, s.now) && wait >= 0.0
    ensures var run := [ExecSet(p), Tick(wait)];
            && Valid(par, s, run)
            && (Enabled(After(par, s, run), Wake(p)) <==> wait >= 0.1)
  {
    TwoSteps(par, s, ExecSet(p), Tick(wait));
  }

  // Completion is permanent.
  lemma {:induction false} CompletedStays(par: Params, s: State, run: seq<Action>, task: Task)
    requires Valid(par, s, run) && Reset !in run && task in s.completed
    ensures task in After(par, s, run).completed
    decreases run
  {
    if run != [] { CompletedStays(par, Do(par, s, run[0]), run[1..], task); }
  }

  // "Until completion" is sharp: once `mark_completed` has removed the claim, any process whose
  // view of the completed set is stale can claim the task again, at once.
  lemma CompletedTaskCanBeReclaimed(par: Params, p: Proc, q: Proc, task: Task)
    requires par.claimTtl > 0.0
    ensures var run := [TryClaim(p, task), ExecSAdd(p, task), ExecDeleteClaim(p), TryClaim(q, task)];
            && Valid(par, INIT, run)
            && After(par, INIT, run).claimLog == [Claimed(task, p, 0.0, false), Claimed(task, q, 0.0, true)]
  {
    var r1 := [TryClaim(p, task)];
    var r2 := r1 + [ExecSAdd(p, task)];
    var r3 := r2 + [ExecDeleteClaim(p)];
    ExtendRun(par, INIT, r1, ExecSAdd(p, task));
    ExtendRun(par, INIT, r2, ExecDeleteClaim(p));
    ExtendRun(par, INIT, r3, TryClaim(q, task));
    assert r3 + [TryClaim(q, task)] == [TryClaim(p, task), ExecSAdd(p, task), ExecDeleteClaim(p), TryClaim(q, task)];
  }

  // ------------------------------------------------------- one process among others

  predicate By(a: Action, p: Proc) {
    match a
    case Tick(_) => false
    case Reset => false
    case _ => a.p == p
  }

  function Mine(p: Proc): Action -> bool { (a: Action) => By(a, p) }

  // The process's own steps in a run.
  function Own(run: seq<Action>, p: Proc): seq<Action> { Select(run, Mine(p)) }

  ghost predicate OthersOnly(run: seq<Action>, p: Proc) { NoneOf(run, Mine(p)) }

  lemma {:induction false} OthersLeavePc(par: Params, s: State, run: seq<Action>, p: Proc)
    requires Valid(par, s, run) && OthersOnly(run, p)
    ensures PcOf(After(par, s, run), p) == PcOf(s, p) && After(par, s, run).now >= s.now
    decreases run
  {
    if run != [] {
      assert !Mine(p)(run[0]);
      OthersLeavePc(par, Do(par, s, run[0]), run[1..], p);
    }
  }

  // A run of the protocol between two states of the store.
  ghost predicate Leads(par: Params, s: State, run: seq<Action>, t: State) {
    Valid(par, s, run) && After(par, s, run) == t
  }

  lemma LeadsFurther(par: Params, s: State, run: seq<Action>, t: State, others: seq<Action>, a: Action, p: Proc)
    requires Leads(par, s, run, t) && Valid(par, t, others) && OthersOnly(others, p)
    requires By(a, p) && Enabled(t, a)
    ensures Enabled(After(par, t, others), a)
    ensures Leads(par, s, run + others + [a], Do(par, After(par, t, others), a))
    ensures Own(run + others + [a], p) == Own(run, p) + [a]
    ensures PcOf(After(par, t, others), p) == PcOf(t, p) && After(par, t, others).now >= t.now
  {
    JoinRuns(par, s, run, others);
    SelectAfterOthers(run, others, a, Mine(p));
    OthersLeavePc(par, t, others, p);
    ExtendRun(par, s, run + others, a);
  }

  lemma LeadsWaiting(par: Params, s: State, run: seq<Action>, t: State, others: seq<Action>, p: Proc)
    requires Leads(par, s, run, t) && Valid(par, t, others) && OthersOnly(others, p)
    ensures Leads(par, s, run + others, After(par, t, others)) && Own(run + others, p) == Own(run, p)
    ensures PcOf(After(par, t, others), p) == PcOf(t, p) && After(par, t, others).now >= t.now
  {
    JoinRuns(par, s, run, others);
    SelectWithOthers(run, others, Mine(p));
    OthersLeavePc(par, t, others, p);
  }

  /** A free lock is taken by the first poll when nobody moves in between. */
  lemma FreeLockIsTakenAtOnce(par: Params, s: State, p: Proc, timeout: real)
    requires PcOf(s, p).Idle? && !Live(s.lock, s.now) && timeout > 0.0
    ensures var run := [Start(p, timeout), CheckDeadline(p), ExecSet(p)];
            && Valid(par, s, run)
            && var t := After(par, s, run);
            PcOf(t, p) == Critical(s.now) && t.now == s.now && t.lock == Some(Key(p, s.now + par.lease))
  {
    var r1 := [Start(p, timeout)];
    var r2 := r1 + [CheckDeadline(p)];
    assert After(par, s, r1) == Do(par, s, r1[0]);
    ExtendRun(par, s, r1, CheckDeadline(p));
    ExtendRun(par, s, r2, ExecSet(p));
    assert r2 + [ExecSet(p)] == [Start(p, timeout), CheckDeadline(p), ExecSet(p)];
  }

  // ------------------------------------------------------- the class

  // The shared store, changed by one command at a time.
  class Store {
    const par: Params
    var s: State

    constructor (par: Params)
      ensures this.par == par && s == INIT
    {
      this.par := par;
      s := INIT;
    }

    method Perform(a: Action)
      requires Enabled(s, a)
      modifies this
      ensures s == Do(par, old(s), a)
    {
      s := Do(par, s, a);
    }

    // Others may move: callers know that they did nothing in the name of `p`, and no more.
    method Others(p: Proc) returns (ghost run: seq<Action>)
      modifies this
      ensures Valid(par, old(s), run) && OthersOnly(run, p) && s == After(par, old(s), run)
    {
      run := [];
    }

    // ... until some time.
    method OthersUntil(p: Proc, until: real) returns (ghost run: seq<Action>)
      modifies this
      ensures Valid(par, old(s), run) && OthersOnly(run, p) && s == After(par, old(s), run) && s.now >= until
    {
      run := [];
      if s.now < until {
        run := [Tick(until - s.now)];
        assert run[1..] == [];
        Perform(Tick(until - s.now));
      }
    }
  }

  // The polls of the acquire loop that found a live key.
  function Polls(p: Proc, timeout: real, n: nat): seq<Action> {
    if n == 0 then [Start(p, timeout)]
    else Polls(p, timeout, n - 1) + [CheckDeadline(p)] + [ExecSet(p)] + [Wake(p)]
  }

  class DistributedSchedulerLock {
    const store: Store
    const me: Proc
    var localCompleted: set<Task>

    constructor (store: Store, me: Proc)
      ensures this.store == store && this.me == me && localCompleted == {}
    {
      this.store := store;
      this.me := me;
      localCompleted := {};
    }

    // A command takes effect some time after it is sent, in the state that it finds then.
    method Perform(a: Action, ghost start: State, ghost run: seq<Action>)
      returns (ghost more: seq<Action>, ghost found: State)
      requires Leads(store.par, start, run, store.s) && By(a, me) && Enabled(store.s, a)
      modifies store
      ensures Leads(store.par, start, more, store.s) && Own(more, me) == Own(run, me) + [a]
      ensures PcOf(found, me) == PcOf(old(store.s), me) && found.now >= old(store.s).now
      ensures Enabled(found, a) && store.s == Do(store.par, found, a)
      ensures Reset !in more ==> Reset !in run && old(store.s).completed <= found.completed
    {
      ghost var s0 := store.s;
      ghost var others := store.Others(me);
      found := store.s;
      LeadsFurther(store.par, start, run, s0, others, a, me);
      more := run + others + [a];
      if Reset !in more {
        forall task | task in s0.completed ensures task in found.completed {
          CompletedStays(store.par, s0, others, task);
        }
      }
      store.Perform(a);
    }

    /** The acquire loop, whatever others do meanwhile: it polls until it has set the key, and then
        holds it for a lease from that moment, or until a poll comes past the deadline. */
    method Acquire(timeout: real) returns (acquired: bool, ghost run: seq<Action>, ghost polls: nat)
      requires PcOf(store.s, me).Idle?
      modifies store
      ensures Leads(store.par, old(store.s), run, store.s)
      ensures Own(run, me) == Polls(me, timeout, polls) + [CheckDeadline(me)] + if acquired then [ExecSet(me)] else []
      ensures if acquired then
                PcOf(store.s, me) == Critical(store.s.now)
                && store.s.lock == Some(Key(me, store.s.now + store.par.lease))
              else PcOf(store.s, me).Idle? && store.s.now >= old(store.s.now) + timeout
    {
      ghost var s0 := store.s;
      ghost var found: State;
      run, found := Perform(Start(me, timeout), s0, []);
      ghost var deadline := PcOf(store.s, me).deadline;
      polls := 0;
      while true
        invariant PcOf(store.s, me) == Polling(deadline) && deadline >= s0.now + timeout
        invariant Leads(store.par, s0, run, store.s) && Own(run, me) == Polls(me, timeout, polls)
        decreases ((deadline - store.s.now) * 10.0).Floor + 1
      {
        run, found := Perform(CheckDeadline(me), s0, run);
        if PcOf(store.s, me).Idle? { return false, run, polls; }
        run, found := Perform(ExecSet(me), s0, run);
        if PcOf(store.s, me).Critical? { return true, run, polls; }
        ghost var s1 := store.s;
        ghost var others := store.OthersUntil(me, PcOf(store.s, me).until);
        LeadsWaiting(store.par, s0, run, s1, others, me);
        run, found := Perform(Wake(me), s0, run + others);
        polls := polls + 1;
      }
    }

    // The `finally` block: the key is deleted, whoever set it.
    method Release() returns (ghost run: seq<Action>)
      requires PcOf(store.s, me).Critical?
      modifies store
      ensures Leads(store.par, old(store.s), run, store.s) && Own(run, me) == [Leave(me), ExecDelete(me)]
      ensures store.s.lock == None && PcOf(store.s, me).Idle?
    {
      ghost var s0, found := store.s, store.s;
      run, found := Perform(Leave(me), s0, []);
      run, found := Perform(ExecDelete(me), s0, run);
    }

    // The claim is won if and only if the command finds no live one.
    method TryClaimTask(task: Task) returns (won: bool, ghost run: seq<Action>, ghost found: State)
      modifies store
      ensures Leads(store.par, old(store.s), run, store.s) && Own(run, me) == [TryClaim(me, task)]
      ensures won <==> !Live(ClaimOf(found, task), found.now)
      ensures store.s == Do(store.par, found, TryClaim(me, task))
      ensures store.s.claimLog
           == found.claimLog + if won then [Claimed(task, me, found.now, task in found.completed)] else []
    {
      ghost var s0 := store.s;
      ghost var others := store.Others(me);
      found := store.s;
      LeadsFurther(store.par, s0, [], s0, others, TryClaim(me, task), me);
      run := [] + others + [TryClaim(me, task)];
      won := !Live(ClaimOf(store.s, task), store.s.now);
      store.Perform(TryClaim(me, task));
    }

    method MarkCompleted(task: Task) returns (ghost run: seq<Action>)
      requires PcOf(store.s, me).Idle?
      modifies store, this
      ensures localCompleted == old(localCompleted) + {task}
      ensures Leads(store.par, old(store.s), run, store.s)
      ensures Own(run, me) == [ExecSAdd(me, task), ExecDeleteClaim(me)]
      ensures task !in store.s.claims && PcOf(store.s, me).Idle?
      ensures Reset !in run ==> task in store.s.completed
    {
      ghost var s0, found := store.s, store.s;
      run, found := Perform(ExecSAdd(me, task), s0, []);
      run, found := Perform(ExecDeleteClaim(me), s0, run);
      localCompleted := localCompleted + {task};
    }

    method GetCompleted() returns (done: set<Task>)
      ensures done == store.s.completed
    {
      done := store.s.completed;
    }
  }
}
