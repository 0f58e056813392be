// The dual token-bucket limiter of libs/architect-llm (rate_limiter.py).
//
// One iteration of the retry loop of `acquire` runs under an asyncio lock and is
// therefore one atomic attempt; a run is any interleaving of the attempts of any
// number of coroutines, in clock order.  Time is an exact real.
module RateLimiter {

  // The floor of the computed sleep, in seconds.
  const MIN_SLEEP: real := 0.01

  datatype Config = Config(maxTokens: int, maxRequests: int)

  datatype Buckets = Buckets(tokens: real, requests: real, lastRefill: real)

  datatype Outcome =
    | Granted
    | Wait(seconds: real)
    | ZeroDivision

  datatype Request = Request(now: real, estimate: nat)

  // The two buckets are independent; the bounds below are stated for either.
  datatype Kind = Tokens | Requests

  function Min(x: real, y: real): real { if x <= y then x else y }

  function Max(x: real, y: real): real { if x >= y then x else y }

  function Capacity(cfg: Config, kind: Kind): int {
    if kind.Tokens? then cfg.maxTokens else cfg.maxRequests
  }

  function Level(b: Buckets, kind: Kind): real {
    if kind.Tokens? then b.tokens else b.requests
  }

  function Cost(r: Request, kind: Kind): nat {
    if kind.Tokens? then r.estimate else 1
  }

  // What flows into a bucket of capacity `max` in `seconds`.
  function Inflow(seconds: real, max: int): real {
    seconds / 60.0 * (max as real)
  }

  function Full(cfg: Config, now: real): Buckets {
    Buckets(cfg.maxTokens as real, cfg.maxRequests as real, now)
  }

  function Refilled(cfg: Config, b: Buckets, now: real): Buckets {
    Buckets(Min(cfg.maxTokens as real, b.tokens + Inflow(now - b.lastRefill, cfg.maxTokens)),
            Min(cfg.maxRequests as real, b.requests + Inflow(now - b.lastRefill, cfg.maxRequests)),
            now)
  }

  // The time for `max` per minute to cover a shortfall; no time when there is none.
  function Shortfall(level: real, wanted: real, max: int): real
    requires level < wanted ==> max != 0
  {
    if level < wanted then (wanted - level) / (max as real) * 60.0 else 0.0
  }

  // One pass through the loop body of `acquire`.
  function Attempt(cfg: Config, b: Buckets, now: real, estimate: int): (Buckets, Outcome) {
    var r := Refilled(cfg, b, now);
    var want := estimate as real;
    if r.tokens >= want && r.requests >= 1.0 then
      (r.(tokens := r.tokens - want, requests := r.requests - 1.0), Granted)
    else if (r.tokens < want && cfg.maxTokens == 0) || (r.requests < 1.0 && cfg.maxRequests == 0) then
      (r, ZeroDivision)
    else
      (r, Wait(Max(Max(Shortfall(r.tokens, want, cfg.maxTokens),
                       Shortfall(r.requests, 1.0, cfg.maxRequests)), MIN_SLEEP)))
  }

  // ---------------------------------------------------------------- the class

  datatype AcquireResult =
    | Acquired(attempts: nat)
    | StillWaiting
    | Failed

  // The retry loop, on the clock readings its iterations see.
  function AcquireSpec(cfg: Config, b: Buckets, clock: seq<real>, estimate: int): (Buckets, AcquireResult)
    decreases |clock|
  {
    if clock == [] then (b, StillWaiting)
    else
      var (b', o) := Attempt(cfg, b, clock[0], estimate);
      match o
      case Granted => (b', Acquired(1))
      case ZeroDivision => (b', Failed)
      case Wait(_) =>
        var (b'', r) := AcquireSpec(cfg, b', clock[1..], estimate);
        (b'', if r.Acquired? then Acquired(r.attempts + 1) else r)
  }

  class TokenBucketRateLimiter {
    const maxTokens: int
    const maxRequests: int
    var availableTokens: real
    var availableRequests: real
    var lastRefill: real

    function Cfg(): Config { Config(maxTokens, maxRequests) }

    function State(): Buckets
      reads this
    {
      Buckets(availableTokens, availableRequests, lastRefill)
    }

    constructor (maxTokensPerMinute: int, maxRequestsPerMinute: int, now: real)
      ensures Cfg() == Config(maxTokensPerMinute, maxRequestsPerMinute)
      ensures State() == Full(Cfg(), now)
    {
      maxTokens := maxTokensPerMinute;
      maxRequests := maxRequestsPerMinute;
      availableTokens := maxTokensPerMinute as real;
      availableRequests := maxRequestsPerMinute as real;
      lastRefill := now;
    }

    method Refill(now: real)
      modifies this
      ensures State() == Refilled(Cfg(), old(State()), now)
    {
      var elapsedMinutes := (now - lastRefill) / 60.0;
      lastRefill := now;
      availableTokens := Min(maxTokens as real, availableTokens + elapsedMinutes * (maxTokens as real));
      availableRequests := Min(maxRequests as real, availableRequests + elapsedMinutes * (maxRequests as real));
    }

    // The body of the loop, under the lock.
    method AttemptOnce(now: real, estimate: int) returns (o: Outcome)
      modifies this
      ensures (State(), o) == Attempt(Cfg(), old(State()), now, estimate)
    {
      Refill(now);
      if availableTokens >= estimate as real && availableRequests >= 1.0 {
        availableTokens := availableTokens - estimate as real;
        availableRequests := availableRequests - 1.0;
        return Granted;
      }
      var waitTokens := 0.0;
      if availableTokens < estimate as real {
        if maxTokens == 0 { return ZeroDivision; }
        waitTokens := (estimate as real - availableTokens) / (maxTokens as real) * 60.0;
      }
      var waitRequests := 0.0;
      if availableRequests < 1.0 {
        if maxRequests == 0 { return ZeroDivision; }
        waitRequests := (1.0 - availableRequests) / (maxRequests as real) * 60.0;
      }
      o := Wait(Max(Max(waitTokens, waitRequests), MIN_SLEEP));
    }

    method Acquire(clock: seq<real>, estimate: int) returns (r: AcquireResult)
      modifies this
      ensures (State(), r) == AcquireSpec(Cfg(), old(State()), clock, estimate)
    {
      ghost var start := State();
      var i := 0;
      while i < |clock|
        invariant 0 <= i <= |clock|
        invariant var (b, w) := AcquireSpec(Cfg(), State(), clock[i..], estimate);
                  AcquireSpec(Cfg(), start, clock, estimate)
                  == (b, if w.Acquired? then Acquired(w.attempts + i) else w)
      {
        var o := AttemptOnce(clock[i], estimate);
        assert clock[i..][1..] == clock[i + 1..];
        if o.Granted? { return Acquired(i + 1); }
        if o.ZeroDivision? { return Failed; }
        i := i + 1;
      }
      r := StillWaiting;
    }
  }

  // ------------------------------------------------------------- properties

  ghost predicate Bounded(cfg: Config, b: Buckets) {
    b.tokens <= cfg.maxTokens as real && b.requests <= cfg.maxRequests as real
  }

  ghost predicate Solvent(b: Buckets) {
    0.0 <= b.tokens && 0.0 <= b.requests
  }

  predicate Chronological(from: real, run: seq<Request>)
    decreases run
  {
    run == [] || (from <= run[0].now && Chronological(run[0].now, run[1..]))
  }

  // Units of `kind` granted at times in [s, t], over a whole run.
  function Taken(cfg: Config, b: Buckets, run: seq<Request>, kind: Kind, s: real, t: real): nat
    decreases run
  {
    if run == [] then 0
    else
      var (b', o) := Attempt(cfg, b, run[0].now, run[0].estimate);
      (if o.Granted? && s <= run[0].now <= t then Cost(run[0], kind) else 0)
      + Taken(cfg, b', run[1..], kind, s, t)
  }

  lemma InflowAdds(x: real, y: real, max: int)
    ensures Inflow(x, max) + Inflow(y, max) == Inflow(x + y, max)
  {
    assert x / 60.0 + y / 60.0 == (x + y) / 60.0;
  }

  lemma InflowNonNegative(x: real, max: int)
    requires x >= 0.0 && max >= 0
    ensures Inflow(x, max) >= 0.0
  {}

  lemma AttemptKeepsInvariant(cfg: Config, b: Buckets, now: real, estimate: nat)
    requires Bounded(cfg, b) && b.lastRefill <= now
    ensures var b' := Attempt(cfg, b, now, estimate).0; Bounded(cfg, b') && b'.lastRefill == now
    ensures Solvent(b) && cfg.maxTokens >= 0 && cfg.maxRequests >= 0
            ==> Solvent(Attempt(cfg, b, now, estimate).0)
  {
    if cfg.maxTokens >= 0 && cfg.maxRequests >= 0 {
      InflowNonNegative(now - b.lastRefill, cfg.maxTokens);
      InflowNonNegative(now - b.lastRefill, cfg.maxRequests);
    }
  }

  // What a granted attempt takes comes out of the refilled bucket.
  lemma AttemptAccounts(cfg: Config, b: Buckets, r: Request, kind: Kind)
    ensures var (b', o) := Attempt(cfg, b, r.now, r.estimate);
            var after := Level(b', kind) + (if o.Granted? then Cost(r, kind) as real else 0.0);
            && after <= Level(b, kind) + Inflow(r.now - b.lastRefill, Capacity(cfg, kind))
            && after <= Capacity(cfg, kind) as real
  {}

  lemma {:induction false} NothingTakenAfter(
    cfg: Config, b: Buckets, run: seq<Request>, kind: Kind, s: real, t: real, from: real)
    requires Chronological(from, run) && t < from
    ensures Taken(cfg, b, run, kind, s, t) == 0
    decreases run
  {
    if run != [] {
      NothingTakenAfter(cfg, Attempt(cfg, b, run[0].now, run[0].estimate).0, run[1..], kind, s, t, run[0].now);
    }
  }

  // What can be granted up to `t` is what is in the bucket now plus the inflow until `t`.
  lemma {:induction false} TakenAtMostLevelPlusInflow(
    cfg: Config, b: Buckets, run: seq<Request>, kind: Kind, s: real, t: real)
    requires cfg.maxTokens >= 0 && cfg.maxRequests >= 0
    requires Bounded(cfg, b) && Solvent(b)
    requires Chronological(b.lastRefill, run) && b.lastRefill <= t
    ensures Taken(cfg, b, run, kind, s, t) as real
            <= Level(b, kind) + Inflow(t - b.lastRefill, Capacity(cfg, kind))
    decreases run
  {
    var max := Capacity(cfg, kind);
    InflowNonNegative(t - b.lastRefill, max);
    if run != [] {
      var r := run[0];
      var b' := Attempt(cfg, b, r.now, r.estimate).0;
      AttemptKeepsInvariant(cfg, b, r.now, r.estimate);
      if t < r.now {
        NothingTakenAfter(cfg, b', run[1..], kind, s, t, r.now);
      } else {
        TakenAtMostLevelPlusInflow(cfg, b', run[1..], kind, s, t);
        InflowAdds(r.now - b.lastRefill, t - r.now, max);
        AttemptAccounts(cfg, b, r, kind);
      }
    }
  }

  // A request above the capacity, or no request capacity, is never granted, at any time:
  // the loop of `acquire` then never returns normally.
  lemma NeverGranted(cfg: Config, b: Buckets, now: real, estimate: int)
    requires estimate > cfg.maxTokens || cfg.maxRequests < 1
    ensures !Attempt(cfg, b, now, estimate).1.Granted?
  {}

  lemma {:induction false} NothingTakenWithoutCapacity(
    cfg: Config, b: Buckets, run: seq<Request>, kind: Kind, s: real, t: real)
    requires cfg.maxTokens < 0 || cfg.maxRequests < 0
    ensures Taken(cfg, b, run, kind, s, t) == 0
    decreases run
  {
    if run != [] {
      NeverGranted(cfg, b, run[0].now, run[0].estimate);
      NothingTakenWithoutCapacity(cfg, Attempt(cfg, b, run[0].now, run[0].estimate).0, run[1..], kind, s, t);
    }
  }

  // From any reachable bucket state.
  lemma {:induction false} IntervalBoundFrom(cfg: Config, b: Buckets, run: seq<Request>, kind: Kind, s: real, t: real)
    requires cfg.maxTokens >= 0 && cfg.maxRequests >= 0
    requires Bounded(cfg, b) && Solvent(b) && Chronological(b.lastRefill, run) && s <= t
    ensures Taken(cfg, b, run, kind, s, t) as real
            <= Capacity(cfg, kind) as real + Inflow(t - s, Capacity(cfg, kind))
    decreases run
  {
    var max := Capacity(cfg, kind);
    InflowNonNegative(t - s, max);
    if run != [] {
      var r := run[0];
      var (b', o) := Attempt(cfg, b, r.now, r.estimate);
      AttemptKeepsInvariant(cfg, b, r.now, r.estimate);
      if r.now < s {
        IntervalBoundFrom(cfg, b', run[1..], kind, s, t);
      } else if t < r.now {
        NothingTakenAfter(cfg, b', run[1..], kind, s, t, r.now);
      } else {
        TakenAtMostLevelPlusInflow(cfg, b', run[1..], kind, s, t);
        InflowAdds(r.now - s, t - r.now, max);
        InflowNonNegative(r.now - s, max);
        AttemptAccounts(cfg, b, r, kind);
      }
    }
  }

  // The most a bucket may grant in `seconds`: when either limit is negative, neither grants anything.
  function Allowance(cfg: Config, kind: Kind, seconds: real): real {
    if cfg.maxTokens < 0 || cfg.maxRequests < 0 then 0.0
    else Capacity(cfg, kind) as real * (1.0 + seconds / 60.0)
  }

  lemma AllowanceIsCapacityPlusInflow(cfg: Config, kind: Kind, seconds: real)
    requires cfg.maxTokens >= 0 && cfg.maxRequests >= 0
    ensures Allowance(cfg, kind, seconds) == Capacity(cfg, kind) as real + Inflow(seconds, Capacity(cfg, kind))
  {}

  /** In every run of a fresh limiter, for every interval [s, t] and either bucket, at most
      max * (1 + (t - s) / 60) is granted, and nothing at all when either limit is negative. */
  lemma IntervalBound(cfg: Config, start: real, run: seq<Request>, kind: Kind, s: real, t: real)
    requires Chronological(start, run) && s <= t
    ensures Taken(cfg, Full(cfg, start), run, kind, s, t) as real <= Allowance(cfg, kind, t - s)
  {
    if cfg.maxTokens < 0 || cfg.maxRequests < 0 {
      NothingTakenWithoutCapacity(cfg, Full(cfg, start), run, kind, s, t);
    } else {
      AllowanceIsCapacityPlusInflow(cfg, kind, t - s);
      IntervalBoundFrom(cfg, Full(cfg, start), run, kind, s, t);
    }
  }

  // Sleeping for at least the time a shortfall takes covers it.
  lemma SleepCoversShortfall(level: real, wanted: real, max: int, seconds: real)
    requires max > 0 && level <= wanted && seconds >= Shortfall(level, wanted, max)
    ensures level + Inflow(seconds, max) >= wanted
  {
    var m := max as real;
    if level < wanted {
      var need := Shortfall(level, wanted, max);
      calc {
        Inflow(need, max);
        (wanted - level) / m * 60.0 / 60.0 * m;
        (wanted - level) / m * m;
        wanted - level;
      }
      InflowAdds(need, seconds - need, max);
      InflowNonNegative(seconds - need, max);
    } else {
      InflowNonNegative(seconds, max);
    }
  }

  lemma RefillCovers(level: real, wanted: real, max: int, seconds: real)
    requires max >= 0 && wanted <= max as real && seconds >= 0.0
    requires level < wanted ==> max > 0 && seconds >= Shortfall(level, wanted, max)
    ensures Min(max as real, level + Inflow(seconds, max)) >= wanted
  {
    if level < wanted {
      SleepCoversShortfall(level, wanted, max, seconds);
    } else {
      InflowNonNegative(seconds, max);
    }
  }

  /** Uncontended, one sleep of the computed wait is enough exactly when the estimate fits the
      token bucket and at least one request per minute is allowed. */
  lemma OneSleepIsEnough(cfg: Config, b: Buckets, now: real, later: real, estimate: nat)
    requires cfg.maxTokens >= 0 && cfg.maxRequests >= 0 && Bounded(cfg, b) && Solvent(b)
    requires b.lastRefill <= now <= later
    requires var o := Attempt(cfg, b, now, estimate).1; o.Wait? ==> later >= now + o.seconds
    ensures var (b', o) := Attempt(cfg, b, now, estimate);
            (o.Granted? || Attempt(cfg, b', later, estimate).1.Granted?)
            <==> (estimate <= cfg.maxTokens && cfg.maxRequests >= 1)
  {
    var (b', o) := Attempt(cfg, b, now, estimate);
    AttemptKeepsInvariant(cfg, b, now, estimate);
    if estimate <= cfg.maxTokens && cfg.maxRequests >= 1 {
      if !o.Granted? {
        assert o.Wait?;
        RefillCovers(b'.tokens, estimate as real, cfg.maxTokens, later - now);
        RefillCovers(b'.requests, 1.0, cfg.maxRequests, later - now);
      }
    } else {
      NeverGranted(cfg, b, now, estimate);
      NeverGranted(cfg, b', later, estimate);
    }
  }

  // The same fact about the retry loop itself: whatever readings its clock gives, as long as each
  // sleep lasts at least as long as asked, `acquire` returns on the first or second attempt.
  lemma AcquireReturnsByTheSecondAttempt(cfg: Config, b: Buckets, clock: seq<real>, estimate: nat)
    requires cfg.maxTokens >= 0 && cfg.maxRequests >= 1 && Bounded(cfg, b) && Solvent(b)
    requires estimate <= cfg.maxTokens
    requires |clock| >= 2 && b.lastRefill <= clock[0] <= clock[1]
    requires var o := Attempt(cfg, b, clock[0], estimate).1; o.Wait? ==> clock[1] >= clock[0] + o.seconds
    ensures var r := AcquireSpec(cfg, b, clock, estimate).1; r.Acquired? && r.attempts <= 2
  {
    OneSleepIsEnough(cfg, b, clock[0], clock[1], estimate);
    var (b', o) := Attempt(cfg, b, clock[0], estimate);
    AttemptKeepsInvariant(cfg, b, clock[0], estimate);
    assert clock[1..][0] == clock[1];
    if !o.Granted? { assert o.Wait?; }
  }

  // ... and when the estimate does not fit, no number of attempts is enough.
  lemma {:induction false} AcquireNeverReturns(cfg: Config, b: Buckets, clock: seq<real>, estimate: int)
    requires estimate > cfg.maxTokens || cfg.maxRequests < 1
    ensures !AcquireSpec(cfg, b, clock, estimate).1.Acquired?
    decreases |clock|
  {
    if clock != [] {
      NeverGranted(cfg, b, clock[0], estimate);
      AcquireNeverReturns(cfg, Attempt(cfg, b, clock[0], estimate).0, clock[1..], estimate);
    }
  }

  // ------------------------------------------------------- no more waiting than needed

  lemma TooShortForShortfall(level: real, wanted: real, max: int, seconds: real)
    requires max > 0 && level < wanted && seconds < Shortfall(level, wanted, max)
    ensures level + Inflow(seconds, max) < wanted
  {
    var m := max as real;
    var need := Shortfall(level, wanted, max);
    calc {
      Inflow(need, max);
      (wanted - level) / m * 60.0 / 60.0 * m;
      wanted - level;
    }
    InflowAdds(seconds, need - seconds, max);
    InflowPositive(need - seconds, max);
  }

  lemma InflowPositive(seconds: real, max: int)
    requires seconds > 0.0 && max > 0
    ensures Inflow(seconds, max) > 0.0
  {}

  /** The computed wait is never below the minimum of 10 ms; above it, it is the shortest that will
      do: at any earlier time the attempt is still not granted. */
  lemma NoShorterSleepIsEnough(cfg: Config, b: Buckets, now: real, later: real, estimate: nat)
    requires cfg.maxTokens > 0 && cfg.maxRequests > 0
    requires var o := Attempt(cfg, b, now, estimate).1; o.Wait? && now <= later < now + o.seconds
    ensures var (r, o) := Attempt(cfg, b, now, estimate);
            o.seconds >= 0.01 && (o.seconds > 0.01 ==> !Attempt(cfg, r, later, estimate).1.Granted?)
  {
    var (r, o) := Attempt(cfg, b, now, estimate);
    if o.seconds > 0.01 {
      if later - now < Shortfall(r.tokens, estimate as real, cfg.maxTokens) {
        TooShortForShortfall(r.tokens, estimate as real, cfg.maxTokens, later - now);
      } else {
        TooShortForShortfall(r.requests, 1.0, cfg.maxRequests, later - now);
      }
    }
  }

  lemma WithinAMinute(seconds: real, max: int)
    requires max > 0
    ensures Inflow(seconds, max) >= max as real <==> seconds >= 60.0
  {
    assert Inflow(60.0, max) == max as real;
    InflowAdds(60.0, seconds - 60.0, max);
    if seconds > 60.0 { InflowPositive(seconds - 60.0, max); }
    if seconds < 60.0 {
      InflowPositive(60.0 - seconds, max);
      InflowAdds(seconds, 60.0 - seconds, max);
    }
  }

  /** An empty bucket is full again after one minute and not before ... */
  lemma EmptyBucketFillsInAMinute(cfg: Config, b: Buckets, now: real, kind: Kind)
    requires Level(b, kind) == 0.0 && Capacity(cfg, kind) > 0
    ensures Level(Refilled(cfg, b, now), kind) == Capacity(cfg, kind) as real <==> now >= b.lastRefill + 60.0
  {
    WithinAMinute(now - b.lastRefill, Capacity(cfg, kind));
  }

  /** ... and looking at it in between makes no difference. */
  lemma RefillsCompose(cfg: Config, b: Buckets, mid: real, now: real)
    requires cfg.maxTokens >= 0 && cfg.maxRequests >= 0 && b.lastRefill <= mid <= now
    ensures Refilled(cfg, Refilled(cfg, b, mid), now) == Refilled(cfg, b, now)
  {
    InflowAdds(mid - b.lastRefill, now - mid, cfg.maxTokens);
    InflowAdds(mid - b.lastRefill, now - mid, cfg.maxRequests);
    InflowNonNegative(now - mid, cfg.maxTokens);
    InflowNonNegative(now - mid, cfg.maxRequests);
  }

  function TotalCost(run: seq<Request>, kind: Kind): nat
    decreases run
  {
    if run == [] then 0 else Cost(run[0], kind) + TotalCost(run[1..], kind)
  }

  lemma {:induction false} BurstFrom(cfg: Config, b: Buckets, now: real, run: seq<Request>, kind: Kind)
    requires cfg.maxTokens >= 0 && cfg.maxRequests >= 0 && Bounded(cfg, b) && b.lastRefill <= now
    requires forall r | r in run :: r.now == now
    requires TotalCost(run, Tokens) as real <= b.tokens && TotalCost(run, Requests) as real <= b.requests
    ensures Taken(cfg, b, run, kind, now, now) == TotalCost(run, kind)
    decreases run
  {
    if run != [] {
      var r := run[0];
      assert r in run;
      InflowNonNegative(now - b.lastRefill, cfg.maxTokens);
      InflowNonNegative(now - b.lastRefill, cfg.maxRequests);
      AttemptKeepsInvariant(cfg, b, now, r.estimate);
      BurstFrom(cfg, Attempt(cfg, b, now, r.estimate).0, now, run[1..], kind);
    }
  }

  /** A fresh limiter grants a whole burst that fits both limits: a grant takes no more than was asked. */
  lemma BurstIsGranted(cfg: Config, now: real, run: seq<Request>, kind: Kind)
    requires forall r | r in run :: r.now == now
    requires TotalCost(run, Tokens) <= cfg.maxTokens && TotalCost(run, Requests) <= cfg.maxRequests
    ensures Taken(cfg, Full(cfg, now), run, kind, now, now) == TotalCost(run, kind)
  {
    BurstFrom(cfg, Full(cfg, now), now, run, kind);
  }

  /** With limits of at least zero, the wait divides by zero exactly when no request is allowed, or
      no token is and some are asked for. */
  lemma ZeroLimitIsAnError(cfg: Config, b: Buckets, now: real, estimate: nat)
    requires cfg.maxTokens >= 0 && cfg.maxRequests >= 0 && Bounded(cfg, b) && Solvent(b) && b.lastRefill <= now
    ensures Attempt(cfg, b, now, estimate).1.ZeroDivision?
       <==> cfg.maxRequests == 0 || (cfg.maxTokens == 0 && estimate > 0)
  {
    InflowNonNegative(now - b.lastRefill, cfg.maxTokens);
    InflowNonNegative(now - b.lastRefill, cfg.maxRequests);
  }

  /** ... and then the loop fails on its first pass. */
  lemma ZeroLimitFailsAtOnce(cfg: Config, b: Buckets, clock: seq<real>, estimate: nat)
    requires cfg.maxTokens >= 0 && cfg.maxRequests >= 0 && Bounded(cfg, b) && Solvent(b)
    requires clock != [] && b.lastRefill <= clock[0]
    requires cfg.maxRequests == 0 || (cfg.maxTokens == 0 && estimate > 0)
    ensures AcquireSpec(cfg, b, clock, estimate).1 == Failed
  {
    ZeroLimitIsAnError(cfg, b, clock[0], estimate);
  }
}
