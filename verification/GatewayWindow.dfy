// The sliding-window rate limiter of the API gateway (`RateLimitMiddleware.dispatch`), over exact
// reals and a non-decreasing clock.
module GatewayWindow {
  import opened Rounding

  type ClientKey = string

  const WINDOW: real := 60.0

  datatype Outcome =
    | Bypassed                       // exempt path, or rate limiting switched off
    | Admitted
    | Rejected(retryAfter: int)

  datatype Request = Request(key: ClientKey, now: real, exempt: bool)

  type Windows = map<ClientKey, seq<real>>

  function Recent(stamps: seq<real>, now: real): seq<real> {
    if stamps == [] then []
    else
      var last := stamps[|stamps| - 1];
      Recent(stamps[..|stamps| - 1], now) + (if last > now - WINDOW then [last] else [])
  }

  function Delay(now: real, oldest: real): int { Truncate(WINDOW - (now - oldest)) + 1 }

  function WindowOf(w: Windows, key: ClientKey): seq<real> { if key in w then w[key] else [] }

  function Dispatched(w: Windows, r: Request, limit: int): (Windows, Outcome) {
    if r.exempt || limit <= 0 then (w, Bypassed)
    else
      var stamps := Recent(WindowOf(w, r.key), r.now);
      if |stamps| >= limit then
        (w[r.key := stamps], Rejected(Delay(r.now, stamps[0])))
      else
        (w[r.key := stamps + [r.now]], Admitted)
  }

  class RateLimiter {
    var windows: Windows

    constructor ()
      ensures windows == map[]
    {
      windows := map[];
    }

    method Dispatch(r: Request, limit: int) returns (o: Outcome)
      modifies this
      ensures (windows, o) == Dispatched(old(windows), r, limit)
    {
      if r.exempt || limit <= 0 { return Bypassed; }
      windows := windows[r.key := Recent(WindowOf(windows, r.key), r.now)];
      var stamps := windows[r.key];
      if |stamps| >= limit {
        var retryAfter := Truncate(WINDOW - (r.now - stamps[0])) + 1;
        return Rejected(retryAfter);
      }
      windows := windows[r.key := stamps + [r.now]];
      assert windows == old(windows)[r.key := stamps + [r.now]];
      o := Admitted;
    }

    method Reset()
      modifies this
      ensures windows == map[]
    {
      windows := map[];
    }
  }

  // ------------------------------------------------------------------ runs

  // In clock order, up to `now`.
  predicate Chronological(run: seq<Request>, now: real) {
    run == []
    || (run[|run| - 1].now <= now && Chronological(run[..|run| - 1], run[|run| - 1].now))
  }

  function After(run: seq<Request>, limit: int): Windows {
    if run == [] then map[] else Dispatched(After(run[..|run| - 1], limit), run[|run| - 1], limit).0
  }

  // The times at which requests of `key` were admitted (not bypassed) in the run.
  function AdmittedAt(run: seq<Request>, limit: int, key: ClientKey): seq<real> {
    if run == [] then []
    else
      var before := run[..|run| - 1];
      var r := run[|run| - 1];
      AdmittedAt(before, limit, key)
      + (if r.key == key && Dispatched(After(before, limit), r, limit).1.Admitted? then [r.now] else [])
  }

  // Non-decreasing, up to `now`.
  predicate Sorted(s: seq<real>, now: real) {
    s == [] || (s[|s| - 1] <= now && Sorted(s[..|s| - 1], s[|s| - 1]))
  }

  predicate Inside(x: real, from: real, upTo: real, closedLeft: bool) {
    if closedLeft then from <= x < upTo else from < x <= upTo
  }

  // How many of the times lie in the half-open interval; `closedLeft` says which end belongs to it.
  function CountIn(s: seq<real>, from: real, upTo: real, closedLeft: bool): nat {
    if s == [] then 0
    else
      CountIn(s[..|s| - 1], from, upTo, closedLeft)
      + (if Inside(s[|s| - 1], from, upTo, closedLeft) then 1 else 0)
  }

  // The stored window is the tail of the admissions, and misses only ones that are out of date.
  ghost predicate IsTail(admitted: seq<real>, window: seq<real>, now: real) {
    && Sorted(admitted, now)
    && |window| <= |admitted| && window == admitted[|admitted| - |window|..]
    && (forall i | 0 <= i < |admitted| - |window| :: admitted[i] <= now - WINDOW)
  }

  lemma {:induction false} SortedAt(s: seq<real>, now: real, i: nat, j: nat)
    requires Sorted(s, now) && i <= j < |s|
    ensures s[i] <= s[j] <= now
  {
    var n := |s| - 1;
    if i < n { SortedAt(s[..n], s[n], i, if j < n then j else n - 1); }
  }

  lemma SortedLater(s: seq<real>, last: real, now: real)
    requires Sorted(s, last) && last <= now
    ensures Sorted(s, now)
  {}

  // On sorted times pruning drops a prefix: the times that are out of date.
  lemma {:induction false} RecentIsSuffix(s: seq<real>, top: real, now: real) returns (k: nat)
    requires Sorted(s, top)
    ensures k <= |s| && Recent(s, now) == s[k..]
    ensures forall i | 0 <= i < k :: s[i] <= now - WINDOW
    ensures k < |s| ==> s[k] > now - WINDOW
    ensures top <= now - WINDOW ==> k == |s|
    decreases |s|
  {
    k := 0;
    if s != [] {
      var n := |s| - 1;
      k := RecentIsSuffix(s[..n], s[n], now);
      if s[n] > now - WINDOW {
        assert s[..n][k..] + [s[n]] == s[k..];
      } else {
        k := n + 1;
      }
    }
  }

  lemma PruneKeepsTail(admitted: seq<real>, window: seq<real>, now: real)
    requires IsTail(admitted, window, now)
    ensures var recent := Recent(window, now);
            && IsTail(admitted, recent, now) && |recent| <= |window|
            && (recent != [] ==> now - WINDOW < recent[0] == admitted[|admitted| - |recent|] <= now)
  {
    var d := |admitted| - |window|;
    TailSorted(admitted, d, now);
    var k := RecentIsSuffix(window, now, now);
    assert window[k..] == admitted[d + k..];
    forall i | 0 <= i < d + k ensures admitted[i] <= now - WINDOW {
      if i >= d { assert admitted[i] == window[i - d]; }
    }
    if k < |window| { SortedAt(admitted, now, d + k, d + k); }
  }

  lemma {:induction false} TailSorted(s: seq<real>, d: nat, now: real)
    requires Sorted(s, now) && d <= |s|
    ensures Sorted(s[d..], now)
    decreases |s|
  {
    if d < |s| {
      var n := |s| - 1;
      TailSorted(s[..n], d, s[n]);
      assert s[d..][..n - d] == s[..n][d..];
    }
  }

  lemma AdmitKeepsTail(admitted: seq<real>, window: seq<real>, now: real)
    requires IsTail(admitted, window, now)
    ensures IsTail(admitted + [now], window + [now], now)
  {
    assert (admitted + [now])[..|admitted|] == admitted;
  }

  lemma TailLater(admitted: seq<real>, window: seq<real>, last: real, now: real)
    requires IsTail(admitted, window, last) && last <= now
    ensures IsTail(admitted, window, now)
  {
    SortedLater(admitted, last, now);
  }

  // What the last request of a run does to one key.
  lemma LastStep(run: seq<Request>, limit: int, key: ClientKey)
    requires run != []
    ensures var before := run[..|run| - 1];
            var r := run[|run| - 1];
            var admitted := AdmittedAt(before, limit, key);
            var window := WindowOf(After(before, limit), key);
            var recent := Recent(window, r.now);
            var admitted' := AdmittedAt(run, limit, key);
            var window' := WindowOf(After(run, limit), key);
            if r.key != key || r.exempt || limit <= 0 then admitted' == admitted && window' == window
            else if |recent| >= limit then admitted' == admitted && window' == recent
            else admitted' == admitted + [r.now] && window' == recent + [r.now]
  {}

  lemma {:induction false} WindowIsTail(run: seq<Request>, limit: int, key: ClientKey, now: real)
    requires Chronological(run, now)
    ensures IsTail(AdmittedAt(run, limit, key), WindowOf(After(run, limit), key), now)
    ensures |WindowOf(After(run, limit), key)| <= if limit < 0 then 0 else limit
    decreases |run|
  {
    if run != [] {
      var before := run[..|run| - 1];
      var r := run[|run| - 1];
      var admitted := AdmittedAt(before, limit, key);
      var window := WindowOf(After(before, limit), key);
      var recent := Recent(window, r.now);
      WindowIsTail(before, limit, key, r.now);
      LastStep(run, limit, key);
      PruneKeepsTail(admitted, window, r.now);
      AdmitKeepsTail(admitted, recent, r.now);
      TailLater(admitted, window, r.now, now);
      TailLater(admitted, recent, r.now, now);
      TailLater(admitted + [r.now], recent + [r.now], r.now, now);
    }
  }

  lemma {:induction false} CountAtMostTail(s: seq<real>, k: nat, from: real, upTo: real, closedLeft: bool)
    requires k <= |s| && forall i | 0 <= i < k :: !Inside(s[i], from, upTo, closedLeft)
    ensures CountIn(s, from, upTo, closedLeft) <= |s| - k
  {
    if s != [] {
      var n := |s| - 1;
      CountAtMostTail(s[..n], if k <= n then k else n, from, upTo, closedLeft);
    }
  }

  lemma CountFitsTail(admitted: seq<real>, window: seq<real>, now: real, from: real, closedLeft: bool)
    requires IsTail(admitted, window, now) && Inside(now, from, from + WINDOW, closedLeft)
    ensures CountIn(admitted, from, from + WINDOW, closedLeft) <= |window|
  {
    CountAtMostTail(admitted, |admitted| - |window|, from, from + WINDOW, closedLeft);
  }

  /** Whatever the requests, of any clients, in any half-open interval of 60 seconds at most `limit`
      requests of one key are admitted. */
  lemma {:induction false} AtMostLimitPerWindow(run: seq<Request>, now: real, limit: int, key: ClientKey,
                                                from: real, closedLeft: bool)
    requires Chronological(run, now) && limit >= 1
    ensures CountIn(AdmittedAt(run, limit, key), from, from + 60.0, closedLeft) <= limit
    decreases |run|
  {
    if run != [] {
      var r := run[|run| - 1];
      var before := AdmittedAt(run[..|run| - 1], limit, key);
      var admitted := AdmittedAt(run, limit, key);
      AtMostLimitPerWindow(run[..|run| - 1], r.now, limit, key, from, closedLeft);
      if Inside(r.now, from, from + WINDOW, closedLeft) {
        WindowIsTail(run, limit, key, r.now);
        CountFitsTail(admitted, WindowOf(After(run, limit), key), r.now, from, closedLeft);
      } else {
        LastStep(run, limit, key);
        if admitted != before { assert admitted == before + [r.now] && admitted[..|before|] == before; }
      }
    }
  }

  // The delay for a rejection at `now` whose oldest counted admission was at `oldest`.
  lemma DelayBounds(now: real, oldest: real)
    requires now - WINDOW < oldest <= now
    ensures var d := Delay(now, oldest);
            1 <= d <= 61 && now + d as real - 1.0 <= oldest + WINDOW < now + d as real
  {}

  // The pruned window: the last few admissions, all recent.
  ghost predicate IsPruned(admitted: seq<real>, recent: seq<real>, limit: int, now: real) {
    && Sorted(admitted, now)
    && |recent| <= |admitted| && |recent| <= (if limit < 0 then 0 else limit)
    && (|recent| > 0 ==> now - WINDOW < recent[0] == admitted[|admitted| - |recent|] <= now)
  }

  lemma PrunedWindow(run: seq<Request>, limit: int, key: ClientKey, now: real)
    requires Chronological(run, now)
    ensures IsPruned(AdmittedAt(run, limit, key), Recent(WindowOf(After(run, limit), key), now), limit, now)
  {
    WindowIsTail(run, limit, key, now);
    PruneKeepsTail(AdmittedAt(run, limit, key), WindowOf(After(run, limit), key), now);
  }

  lemma DispatchOutcome(w: Windows, r: Request, limit: int)
    requires limit >= 1 && !r.exempt
    ensures var recent := Recent(WindowOf(w, r.key), r.now);
            var o := Dispatched(w, r, limit).1;
            if |recent| < limit then o == Admitted else o == Rejected(Delay(r.now, recent[0]))
  {}

  // The limit-th last admission: what a rejected client waits for.
  function Oldest(admitted: seq<real>, limit: int): real {
    if 1 <= limit <= |admitted| then admitted[|admitted| - limit] else 0.0
  }

  lemma FullWindow(admitted: seq<real>, recent: seq<real>, limit: int, now: real)
    requires IsPruned(admitted, recent, limit, now) && 1 <= limit <= |recent|
    ensures limit <= |admitted| && recent[0] == Oldest(admitted, limit)
    ensures now - WINDOW < recent[0] <= now
  {}

  // Once that one is out of date, there is room in the window.
  lemma RoomAgain(admitted: seq<real>, recent: seq<real>, limit: int, now: real)
    requires IsPruned(admitted, recent, limit, now) && 1 <= limit <= |admitted|
    requires Oldest(admitted, limit) <= now - WINDOW
    ensures |recent| < limit
  {
    if |recent| >= limit { FullWindow(admitted, recent, limit, now); }
  }

  /** A rejected client is told to wait between 1 and 61 seconds: just past the moment the oldest of
      its last `limit` admissions goes out of date. */
  lemma RetryAfterRange(run: seq<Request>, r: Request, limit: int)
    requires Chronological(run, r.now) && Dispatched(After(run, limit), r, limit).1.Rejected?
    ensures var retryAfter := Dispatched(After(run, limit), r, limit).1.retryAfter;
            var oldest := Oldest(AdmittedAt(run, limit, r.key), limit);
            && 1 <= retryAfter <= 61 && 1 <= limit <= |AdmittedAt(run, limit, r.key)|
            && r.now + retryAfter as real - 1.0 <= oldest + 60.0 < r.now + retryAfter as real
  {
    var w := After(run, limit);
    PrunedWindow(run, limit, r.key, r.now);
    DispatchOutcome(w, r, limit);
    FullWindow(AdmittedAt(run, limit, r.key), Recent(WindowOf(w, r.key), r.now), limit, r.now);
    DelayBounds(r.now, Oldest(AdmittedAt(run, limit, r.key), limit));
  }

  /** ... and a request sent after that long is admitted, whatever happened since, unless another
      request of the same key was admitted meanwhile. */
  lemma RetryAfterIsHonest(run: seq<Request>, r: Request, later: seq<Request>, again: Request, limit: int)
    requires Chronological(run, r.now) && Dispatched(After(run, limit), r, limit).1.Rejected?
    requires Chronological(later, again.now) && again.key == r.key && !again.exempt
    requires AdmittedAt(later, limit, r.key) == AdmittedAt(run, limit, r.key)
    requires again.now >= r.now + Dispatched(After(run, limit), r, limit).1.retryAfter as real
    ensures Dispatched(After(later, limit), again, limit).1.Admitted?
  {
    var w := After(later, limit);
    RetryAfterRange(run, r, limit);
    PrunedWindow(later, limit, r.key, again.now);
    RoomAgain(AdmittedAt(later, limit, r.key), Recent(WindowOf(w, r.key), again.now), limit, again.now);
    DispatchOutcome(w, again, limit);
  }

  lemma {:induction false} CountOfTail(s: seq<real>, k: nat, from: real, upTo: real, closedLeft: bool)
    requires k <= |s| && (forall i | 0 <= i < k :: !Inside(s[i], from, upTo, closedLeft))
    requires forall i | k <= i < |s| :: Inside(s[i], from, upTo, closedLeft)
    ensures CountIn(s, from, upTo, closedLeft) == |s| - k
  {
    if s != [] {
      var n := |s| - 1;
      CountOfTail(s[..n], if k <= n then k else n, from, upTo, closedLeft);
    }
  }

  // The pruned window holds all recent admissions and no others.
  lemma RecentAdmissions(run: seq<Request>, limit: int, key: ClientKey, now: real)
    requires Chronological(run, now)
    ensures CountIn(AdmittedAt(run, limit, key), now - 60.0, now, false)
         == |Recent(WindowOf(After(run, limit), key), now)|
  {
    var admitted, window := AdmittedAt(run, limit, key), WindowOf(After(run, limit), key);
    var recent := Recent(window, now);
    WindowIsTail(run, limit, key, now);
    PruneKeepsTail(admitted, window, now);
    var k := |admitted| - |recent|;
    forall i | k <= i < |admitted| ensures Inside(admitted[i], now - 60.0, now, false) {
      SortedAt(admitted, now, k, i);
    }
    CountOfTail(admitted, k, now - 60.0, now, false);
  }

  /** A request is let through unchecked exactly when its path is exempt or limiting is off, and is
      rejected exactly when it is checked and `limit` requests of its key or more were admitted in
      the last 60 seconds. */
  lemma RejectedExactly(run: seq<Request>, r: Request, limit: int)
    requires Chronological(run, r.now)
    ensures var o := Dispatched(After(run, limit), r, limit).1;
            && (o.Bypassed? <==> r.exempt || limit <= 0)
            && (o.Rejected? <==> !r.exempt && limit > 0
                                 && CountIn(AdmittedAt(run, limit, r.key), r.now - 60.0, r.now, false) >= limit)
  {
    RecentAdmissions(run, limit, r.key, r.now);
  }
}
