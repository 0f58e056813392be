// The budget tracker of services/economic-governor (budget_tracker.py, config.py): enforcement
// levels, per-phase totals, the burn-rate window and the budget arithmetic, over exact reals.
module BudgetTracker {
  import opened Common
  import opened Rounding

  datatype Phase = Specification | Planning | Implementation | Testing | Review | Debugging | Contingency

  datatype Level = NoLevel | Alert | Restrict | Halt

  datatype Config = Config(
    totalTokens: nat,
    alertPct: real, restrictPct: real, haltPct: real,
    specPct: real, planningPct: real, implementationPct: real, testingPct: real,
    reviewPct: real, debuggingPct: real, contingencyPct: real)

  const BURN_RATE_WINDOW: real := 300.0

  predicate Percentage(p: real) { 0.0 <= p <= 100.0 }

  function Abs(x: real): real { if x < 0.0 then -x else x }

  function PctSum(c: Config): real {
    c.specPct + c.planningPct + c.implementationPct + c.testingPct + c.reviewPct + c.debuggingPct + c.contingencyPct
  }

  // Field bounds and the two validators.
  predicate ValidConfig(c: Config) {
    && Percentage(c.alertPct) && Percentage(c.restrictPct) && Percentage(c.haltPct)
    && c.alertPct <= c.restrictPct <= c.haltPct
    && Percentage(c.specPct) && Percentage(c.planningPct) && Percentage(c.implementationPct)
    && Percentage(c.testingPct) && Percentage(c.reviewPct) && Percentage(c.debuggingPct)
    && Percentage(c.contingencyPct)
    && Abs(PctSum(c) - 100.0) <= 0.01
  }

  function PctOf(c: Config, p: Phase): real {
    match p
    case Specification => c.specPct
    case Planning => c.planningPct
    case Implementation => c.implementationPct
    case Testing => c.testingPct
    case Review => c.reviewPct
    case Debugging => c.debuggingPct
    case Contingency => c.contingencyPct
  }

  // ------------------------------------------------------- levels

  function ConsumedPct(budget: nat, consumed: int): real {
    if budget == 0 then 0.0 else RoundTo(consumed as real / budget as real * 100.0, 100)
  }

  function LevelAt(c: Config, pct: real): Level {
    if pct >= c.haltPct then Halt
    else if pct >= c.restrictPct then Restrict
    else if pct >= c.alertPct then Alert
    else NoLevel
  }

  function LevelOf(c: Config, consumed: int): Level {
    LevelAt(c, ConsumedPct(c.totalTokens, consumed))
  }

  function Rank(l: Level): nat {
    match l case NoLevel => 0 case Alert => 1 case Restrict => 2 case Halt => 3
  }

  lemma PctMonotone(budget: nat, less: int, more: int)
    requires less <= more
    ensures ConsumedPct(budget, less) <= ConsumedPct(budget, more)
  {
    if budget > 0 {
      var a := budget as real;
      assert less as real / a <= more as real / a;
      RoundToMonotone(less as real / a * 100.0, more as real / a * 100.0, 100);
    }
  }

  lemma LevelMonotone(c: Config, less: int, more: int)
    requires ValidConfig(c) && less <= more
    ensures Rank(LevelOf(c, less)) <= Rank(LevelOf(c, more))
  {
    PctMonotone(c.totalTokens, less, more);
  }

  // ------------------------------------------------------- the class

  datatype Stamp = Stamp(now: real, tokens: int)

  // The deque loses its front while the front is too old.
  function DropOld(w: seq<Stamp>, cutoff: real): seq<Stamp> {
    if w == [] || w[0].now >= cutoff then w else DropOld(w[1..], cutoff)
  }

  type Totals = map<Phase, int>

  const ZERO: Totals :=
    map[Specification := 0, Planning := 0, Implementation := 0, Testing := 0, Review := 0,
        Debugging := 0, Contingency := 0]

  datatype State = State(consumed: int, level: Level, phases: Totals, window: seq<Stamp>)

  const FRESH: State := State(0, NoLevel, ZERO, [])

  function TotalFor(t: Totals, p: Phase): int { if p in t then t[p] else 0 }

  function Recorded(c: Config, s: State, tokens: int, phase: Phase, now: real): State {
    State(s.consumed + tokens,
          LevelOf(c, s.consumed + tokens),
          s.phases[phase := TotalFor(s.phases, phase) + tokens],
          DropOld(s.window + [Stamp(now, tokens)], now - BURN_RATE_WINDOW))
  }

  function Polled(c: Config, s: State): State { s.(level := LevelOf(c, s.consumed)) }

  function Pruned(s: State, now: real): State { s.(window := DropOld(s.window, now - BURN_RATE_WINDOW)) }

  // Tokens per minute since the oldest entry of the window.
  function BurnRate(w: seq<Stamp>, now: real): real {
    if w == [] then 0.0
    else
      var elapsedMinutes := (now - w[0].now) / 60.0;
      if elapsedMinutes < 0.001 then 0.0 else RoundTo(TokensIn(w) as real / elapsedMinutes, 100)
  }

  function TokensIn(w: seq<Stamp>): int { if w == [] then 0 else w[0].tokens + TokensIn(w[1..]) }

  datatype PhaseStatus = PhaseStatus(
    phase: Phase, planned: int, plannedPct: real, consumed: int, consumedPct: real)

  const PHASES: seq<Phase> := [Specification, Planning, Implementation, Testing, Review, Debugging, Contingency]

  function PctOfBudget(part: int, whole: int): real {
    if whole > 0 then RoundTo(part as real / whole as real * 100.0, 100) else 0.0
  }

  function StatusOf(c: Config, phases: Totals, p: Phase): PhaseStatus {
    var planned := Allocation(c.totalTokens, PctOf(c, p));
    PhaseStatus(p, planned, PctOfBudget(planned, c.totalTokens),
                TotalFor(phases, p), PctOfBudget(TotalFor(phases, p), planned))
  }

  datatype BudgetSnapshot = BudgetSnapshot(
    budget: int, consumed: int, consumedPct: real, usd: real, burnRate: real, level: Level,
    breakdown: seq<PhaseStatus>)

  class BudgetTracker {
    const config: Config
    var consumedTokens: int
    var consumedUsd: real
    var enforcementLevel: Level
    var phaseConsumed: Totals
    var consumptionWindow: seq<Stamp>

    function Abstract(): State
      reads this
    {
      State(consumedTokens, enforcementLevel, phaseConsumed, consumptionWindow)
    }

    constructor (config: Config)
      ensures this.config == config && Abstract() == FRESH && consumedUsd == 0.0
    {
      this.config := config;
      consumedTokens := 0;
      consumedUsd := 0.0;
      enforcementLevel := NoLevel;
      phaseConsumed := ZERO;
      consumptionWindow := [];
    }

    method PruneWindow(now: real)
      modifies `consumptionWindow
      ensures consumptionWindow == DropOld(old(consumptionWindow), now - BURN_RATE_WINDOW)
    {
      var cutoff := now - BURN_RATE_WINDOW;
      while consumptionWindow != [] && consumptionWindow[0].now < cutoff
        invariant DropOld(consumptionWindow, cutoff) == DropOld(old(consumptionWindow), cutoff)
        decreases |consumptionWindow|
      {
        consumptionWindow := consumptionWindow[1..];
      }
    }

    method RecordConsumption(tokens: int, costUsd: real, phase: Phase, now: real) returns (level: Level)
      modifies this
      ensures Abstract() == Recorded(config, old(Abstract()), tokens, phase, now)
      ensures consumedUsd == old(consumedUsd) + costUsd && level == enforcementLevel
    {
      consumedTokens := consumedTokens + tokens;
      consumedUsd := consumedUsd + costUsd;
      phaseConsumed := phaseConsumed[phase := TotalFor(phaseConsumed, phase) + tokens];
      consumptionWindow := consumptionWindow + [Stamp(now, tokens)];
      PruneWindow(now);
      enforcementLevel := LevelOf(config, consumedTokens);
      level := enforcementLevel;
    }

    method ThresholdCrossed() returns (crossed: Option<Level>)
      modifies `enforcementLevel
      ensures Abstract() == Polled(config, old(Abstract()))
      ensures crossed == if enforcementLevel == old(enforcementLevel) then None else Some(enforcementLevel)
    {
      var newLevel := LevelOf(config, consumedTokens);
      if newLevel != enforcementLevel {
        enforcementLevel := newLevel;
        return Some(newLevel);
      }
      crossed := None;
    }

    // One line for each phase.
    method BuildPhaseBreakdown() returns (breakdown: seq<PhaseStatus>)
      ensures |breakdown| == |PHASES|
      ensures forall i | 0 <= i < |PHASES| :: breakdown[i] == StatusOf(config, phaseConsumed, PHASES[i])
    {
      breakdown := [];
      for i := 0 to |PHASES|
        invariant |breakdown| == i
        invariant forall j | 0 <= j < i :: breakdown[j] == StatusOf(config, phaseConsumed, PHASES[j])
      {
        breakdown := breakdown + [StatusOf(config, phaseConsumed, PHASES[i])];
      }
    }

    // The burn rate reads the clock again, at `later`.
    method GetSnapshot(now: real, later: real) returns (r: BudgetSnapshot)
      modifies `consumptionWindow
      ensures Abstract() == Pruned(old(Abstract()), now)
      ensures r.budget == config.totalTokens && r.consumed == consumedTokens && r.usd == consumedUsd
      ensures r.consumedPct == ConsumedPct(config.totalTokens, consumedTokens) && r.level == enforcementLevel
      ensures r.burnRate == BurnRate(consumptionWindow, later)
      ensures |r.breakdown| == |PHASES|
      ensures forall i | 0 <= i < |PHASES| :: r.breakdown[i] == StatusOf(config, phaseConsumed, PHASES[i])
    {
      PruneWindow(now);
      var breakdown := BuildPhaseBreakdown();
      r := BudgetSnapshot(config.totalTokens, consumedTokens, ConsumedPct(config.totalTokens, consumedTokens),
                          consumedUsd, BurnRate(consumptionWindow, later), enforcementLevel, breakdown);
    }
  }

  // ------------------------------------------------------------ runs

  datatype Op =
    | Consume(tokens: nat, phase: Phase, now: real)
    | Poll                                         // threshold_crossed
    | Snapshot(now: real)

  function Applied(c: Config, s: State, op: Op): State {
    match op
    case Consume(tokens, phase, now) => Recorded(c, s, tokens, phase, now)
    case Poll => Polled(c, s)
    case Snapshot(now) => Pruned(s, now)
  }

  function After(c: Config, run: seq<Op>): State {
    if run == [] then FRESH else Applied(c, After(c, run[..|run| - 1]), run[|run| - 1])
  }

  function Changes(c: Config, run: seq<Op>): nat {
    if run == [] then 0
    else
      Changes(c, run[..|run| - 1])
      + (if After(c, run).level != After(c, run[..|run| - 1]).level then 1 else 0)
  }

  // `threshold_crossed` would report something.
  predicate Crossed(c: Config, s: State) { s.level != LevelOf(c, s.consumed) }

  function PhaseSum(t: Totals): int {
    TotalFor(t, Specification) + TotalFor(t, Planning) + TotalFor(t, Implementation) + TotalFor(t, Testing)
    + TotalFor(t, Review) + TotalFor(t, Debugging) + TotalFor(t, Contingency)
  }

  lemma LevelOfNothing(c: Config)
    requires ValidConfig(c)
    ensures LevelOf(c, 0) == NoLevel <==> c.alertPct > 0.0
  {
    assert 0.0 / 1.0 * 100.0 == 0.0;
    if c.totalTokens > 0 { assert 0.0 / c.totalTokens as real == 0.0; }
  }

  predicate TotalsAdd(s: State) { PhaseSum(s.phases) == s.consumed && s.consumed >= 0 }

  lemma TotalsStillAdd(c: Config, s: State, op: Op)
    requires TotalsAdd(s)
    ensures TotalsAdd(Applied(c, s, op))
  {
    if op.Consume? { PhaseSumAdds(s.phases, op.phase, op.tokens); }
  }

  lemma {:induction false} TotalsAgree(c: Config, run: seq<Op>)
    ensures TotalsAdd(After(c, run))
  {
    if run != [] {
      TotalsAgree(c, run[..|run| - 1]);
      TotalsStillAdd(c, After(c, run[..|run| - 1]), run[|run| - 1]);
    }
  }

  predicate OnlySnapshots(run: seq<Op>) {
    run == [] || (run[|run| - 1].Snapshot? && OnlySnapshots(run[..|run| - 1]))
  }

  lemma {:induction false} LevelFollows(c: Config, run: seq<Op>)
    ensures var s := After(c, run);
            if OnlySnapshots(run) then s.level == NoLevel && s.consumed == 0 else s.level == LevelOf(c, s.consumed)
  {
    if run != [] { LevelFollows(c, run[..|run| - 1]); }
  }

  /** After every run of records, polls and snapshots the stored level is the level of the running
      total, so `threshold_crossed` has nothing to report, unless nothing has been recorded or polled
      yet and the alert threshold is zero; and the per-phase totals add up to the running total. */
  lemma StoredLevelIsCurrent(c: Config, run: seq<Op>)
    requires ValidConfig(c)
    ensures var s := After(c, run);
            (Crossed(c, s) <==> OnlySnapshots(run) && c.alertPct == 0.0) && TotalsAdd(s)
  {
    LevelOfNothing(c);
    LevelFollows(c, run);
    TotalsAgree(c, run);
  }

  lemma PhaseSumAdds(t: Totals, p: Phase, tokens: int)
    ensures PhaseSum(t[p := TotalFor(t, p) + tokens]) == PhaseSum(t) + tokens
  {
    var u := t[p := TotalFor(t, p) + tokens];
    assert forall q: Phase :: TotalFor(u, q) == if q == p then TotalFor(t, p) + tokens else TotalFor(t, q);
  }

  /** The level never falls, so it changes at most three times in a run. */
  lemma {:induction false} LevelChangesAtMostThreeTimes(c: Config, run: seq<Op>)
    requires ValidConfig(c)
    ensures Changes(c, run) <= Rank(After(c, run).level) <= 3
    ensures run != [] ==> Rank(After(c, run[..|run| - 1]).level) <= Rank(After(c, run).level)
  {
    if run != [] {
      var before := run[..|run| - 1];
      LevelChangesAtMostThreeTimes(c, before);
      LevelFollows(c, before);
      LevelFollows(c, run);
      LevelMonotone(c, After(c, before).consumed, After(c, run).consumed);
    }
  }

  // ------------------------------------------------------- burn window

  // Everything that was ever recorded.
  function History(run: seq<Op>): seq<Stamp> {
    if run == [] then []
    else
      var op := run[|run| - 1];
      History(run[..|run| - 1]) + if op.Consume? then [Stamp(op.now, op.tokens)] else []
  }

  // The entries no older than the cutoff, wherever they are.
  function NotOlder(h: seq<Stamp>, cutoff: real): seq<Stamp> {
    if h == [] then []
    else (if h[0].now >= cutoff then [h[0]] else []) + NotOlder(h[1..], cutoff)
  }

  // The last time at which the window was pruned.
  function LastTime(run: seq<Op>): Option<real> {
    if run == [] then None
    else if run[|run| - 1].Poll? then LastTime(run[..|run| - 1])
    else Some(run[|run| - 1].now)
  }

  // On a clock that does not run backwards.
  predicate Chronological(run: seq<Op>) {
    run == []
    || (&& Chronological(run[..|run| - 1])
        && (!run[|run| - 1].Poll? && LastTime(run[..|run| - 1]).Some? ==>
              LastTime(run[..|run| - 1]).value <= run[|run| - 1].now))
  }

  ghost predicate InOrder(h: seq<Stamp>) { forall i, j | 0 <= i < j < |h| :: h[i].now <= h[j].now }

  ghost predicate UpTo(h: seq<Stamp>, t: real) { forall i | 0 <= i < |h| :: h[i].now <= t }

  lemma OrderExtends(h: seq<Stamp>, t: real, more: seq<Stamp>, now: real)
    requires InOrder(h) && UpTo(h, t) && t <= now && (more == [] || (|more| == 1 && more[0].now == now))
    ensures InOrder(h + more) && UpTo(h + more, now)
  {}

  lemma {:induction false} DropTwice(h: seq<Stamp>, more: seq<Stamp>, c1: real, c2: real)
    requires c1 <= c2
    ensures DropOld(DropOld(h, c1) + more, c2) == DropOld(h + more, c2)
    decreases |h|
  {
    if h != [] && h[0].now < c1 {
      DropTwice(h[1..], more, c1, c2);
      assert (h + more)[1..] == h[1..] + more;
    }
  }

  lemma {:induction false} InOrderDrops(h: seq<Stamp>, cutoff: real)
    requires InOrder(h)
    ensures DropOld(h, cutoff) == NotOlder(h, cutoff)
  {
    if h != [] {
      if h[0].now >= cutoff { NoneOlder(h, cutoff); } else { InOrderDrops(h[1..], cutoff); }
    }
  }

  lemma {:induction false} NoneOlder(h: seq<Stamp>, cutoff: real)
    requires forall i | 0 <= i < |h| :: h[i].now >= cutoff
    ensures NotOlder(h, cutoff) == h
  {
    if h != [] { NoneOlder(h[1..], cutoff); }
  }

  // The window holds the history from the last pruning, at `last`, on.
  ghost predicate Tracks(h: seq<Stamp>, last: Option<real>, window: seq<Stamp>) {
    match last
    case None => h == window == []
    case Some(t) =>
      InOrder(h) && UpTo(h, t) && window == DropOld(h, t - BURN_RATE_WINDOW)
  }

  lemma TracksStep(h: seq<Stamp>, last: Option<real>, window: seq<Stamp>, more: seq<Stamp>, now: real)
    requires Tracks(h, last, window) && (last.Some? ==> last.value <= now)
    requires more == [] || (|more| == 1 && more[0].now == now)
    ensures Tracks(h + more, Some(now), DropOld(window + more, now - BURN_RATE_WINDOW))
  {
    OrderExtends(h, if last.Some? then last.value else now, more, now);
    if last.Some? { DropTwice(h, more, last.value - BURN_RATE_WINDOW, now - BURN_RATE_WINDOW); }
  }

  lemma {:induction false} WindowTracksHistory(c: Config, run: seq<Op>)
    requires Chronological(run)
    ensures Tracks(History(run), LastTime(run), After(c, run).window)
  {
    if run != [] {
      var before, op := run[..|run| - 1], run[|run| - 1];
      var s := After(c, before);
      WindowTracksHistory(c, before);
      match op
      case Consume(tokens, _, now) =>
        TracksStep(History(before), LastTime(before), s.window, [Stamp(now, tokens)], now);
      case Poll => assert History(before) + [] == History(before);
      case Snapshot(now) =>
        TracksStep(History(before), LastTime(before), s.window, [], now);
        assert s.window + [] == s.window;
    }
  }

  /** After each record or snapshot, polls in between or not, with a non-decreasing clock, the
      burn-rate window is exactly the recorded entries no older than 300 seconds. */
  lemma BurnWindowIsRecentHistory(c: Config, run: seq<Op>)
    requires Chronological(run) && LastTime(run).Some?
    ensures After(c, run).window == NotOlder(History(run), LastTime(run).value - 300.0)
  {
    WindowTracksHistory(c, run);
    InOrderDrops(History(run), LastTime(run).value - BURN_RATE_WINDOW);
  }

  ghost predicate NonNegative(w: seq<Stamp>) { forall e | e in w :: e.tokens >= 0 }

  lemma {:induction false} NotOlderNonNegative(h: seq<Stamp>, cutoff: real)
    requires NonNegative(h)
    ensures NonNegative(NotOlder(h, cutoff)) && TokensIn(NotOlder(h, cutoff)) <= TokensIn(h)
  {
    if h != [] {
      assert h[0] in h;
      NotOlderNonNegative(h[1..], cutoff);
      var rest := NotOlder(h[1..], cutoff);
      assert ([h[0]] + rest)[1..] == rest && [] + rest == rest;
    }
  }

  lemma {:induction false} TokensAppend(h: seq<Stamp>, e: Stamp)
    ensures TokensIn(h + [e]) == TokensIn(h) + e.tokens
  {
    if h == [] {
      assert h + [e] == [e];
    } else {
      TokensAppend(h[1..], e);
      assert (h + [e])[1..] == h[1..] + [e];
    }
  }

  // The history adds up to the running total.
  lemma {:induction false} HistoryAddsUp(c: Config, run: seq<Op>)
    ensures NonNegative(History(run)) && TokensIn(History(run)) == After(c, run).consumed
  {
    if run != [] {
      HistoryAddsUp(c, run[..|run| - 1]);
      var op := run[|run| - 1];
      if op.Consume? { TokensAppend(History(run[..|run| - 1]), Stamp(op.now, op.tokens)); }
      else { assert History(run[..|run| - 1]) + [] == History(run[..|run| - 1]); }
    }
  }

  /** The burn window never holds more than was consumed in all, and the burn rate is not negative. */
  lemma WindowWithinTotal(c: Config, run: seq<Op>, later: real)
    requires Chronological(run) && LastTime(run).Some?
    ensures var s := After(c, run); 0 <= TokensIn(s.window) <= s.consumed && BurnRate(s.window, later) >= 0.0
  {
    var s := After(c, run);
    BurnWindowIsRecentHistory(c, run);
    HistoryAddsUp(c, run);
    NotOlderNonNegative(History(run), LastTime(run).value - BURN_RATE_WINDOW);
    TokensNonNegative(s.window);
    if s.window != [] { RateNonNegative(TokensIn(s.window), (later - s.window[0].now) / 60.0); }
  }

  lemma {:induction false} TokensNonNegative(w: seq<Stamp>)
    requires NonNegative(w)
    ensures TokensIn(w) >= 0
  {
    if w != [] {
      assert w[0] in w;
      TokensNonNegative(w[1..]);
    }
  }

  lemma RateNonNegative(tokens: int, minutes: real)
    requires tokens >= 0
    ensures minutes >= 0.001 ==> RoundTo(tokens as real / minutes, 100) >= 0.0
  {
    if minutes >= 0.001 {
      assert tokens as real / minutes >= 0.0;
      RoundToMonotone(0.0, tokens as real / minutes, 100);
      RoundToWhole(0, 100);
    }
  }

  /** The reported burn rate, up to its rounding: the tokens of the last 300 seconds before the window
      was last pruned, per minute since the first of them; zero without any, or within 60 ms. */
  lemma BurnRateIsRecentTokensPerMinute(c: Config, run: seq<Op>, later: real)
    requires Chronological(run) && LastTime(run).Some?
    ensures var recent := NotOlder(History(run), LastTime(run).value - 300.0);
            var rate := BurnRate(After(c, run).window, later);
            if recent == [] || later - recent[0].now < 0.06 then rate == 0.0
            else -0.005 <= rate - TokensIn(recent) as real / ((later - recent[0].now) / 60.0) <= 0.005
  {
    BurnWindowIsRecentHistory(c, run);
    var recent := After(c, run).window;
    if recent != [] && later - recent[0].now >= 0.06 {
      RoundToIsNear(TokensIn(recent) as real / ((later - recent[0].now) / 60.0), 100, 0.005);
    }
  }

  // Tokens recorded in one phase.
  function ConsumedIn(run: seq<Op>, p: Phase): nat {
    if run == [] then 0
    else
      var op := run[|run| - 1];
      ConsumedIn(run[..|run| - 1], p) + if op.Consume? && op.phase == p then op.tokens else 0
  }

  /** A phase's total is what was recorded in that phase. */
  lemma {:induction false} PhaseTotalsAreOwn(c: Config, run: seq<Op>, p: Phase)
    ensures TotalFor(After(c, run).phases, p) == ConsumedIn(run, p)
  {
    if run != [] { PhaseTotalsAreOwn(c, run[..|run| - 1], p); }
  }

  // ------------------------------------------------------- arithmetic

  function Allocation(total: nat, pct: real): int { Truncate(total as real * pct / 100.0) }

  function AllocationSum(c: Config, total: nat): int {
    Allocation(total, c.specPct) + Allocation(total, c.planningPct) + Allocation(total, c.implementationPct)
    + Allocation(total, c.testingPct) + Allocation(total, c.reviewPct) + Allocation(total, c.debuggingPct)
    + Allocation(total, c.contingencyPct)
  }

  function Share(total: nat, pct: real): real { total as real * pct / 100.0 }

  predicate FloorOf(n: int, x: real) { x - 1.0 < n as real <= x }

  lemma AllocationIsFloor(total: nat, pct: real)
    requires Percentage(pct)
    ensures FloorOf(Allocation(total, pct), Share(total, pct))
  {
    assert total as real * pct >= 0.0;
  }

  lemma SevenFloors(n1: int, n2: int, n3: int, n4: int, n5: int, n6: int, n7: int,
                    x1: real, x2: real, x3: real, x4: real, x5: real, x6: real, x7: real)
    requires FloorOf(n1, x1) && FloorOf(n2, x2) && FloorOf(n3, x3) && FloorOf(n4, x4)
    requires FloorOf(n5, x5) && FloorOf(n6, x6) && FloorOf(n7, x7)
    ensures x1 + x2 + x3 + x4 + x5 + x6 + x7 - 7.0 < (n1 + n2 + n3 + n4 + n5 + n6 + n7) as real
            <= x1 + x2 + x3 + x4 + x5 + x6 + x7
  {}

  lemma SharesAdd(total: nat, c: Config)
    ensures Share(total, c.specPct) + Share(total, c.planningPct) + Share(total, c.implementationPct)
            + Share(total, c.testingPct) + Share(total, c.reviewPct) + Share(total, c.debuggingPct)
            + Share(total, c.contingencyPct) == Share(total, PctSum(c))
  {}

  /** With S the sum of the phase percentages, the seven floored allocations of T tokens add up to
      more than T*S/100 - 7 and at most T*S/100. */
  lemma AllocationsSumBounds(c: Config, total: nat)
    requires ValidConfig(c)
    ensures Share(total, PctSum(c)) - 7.0 < AllocationSum(c, total) as real <= Share(total, PctSum(c))
  {
    forall p: Phase ensures FloorOf(Allocation(total, PctOf(c, p)), Share(total, PctOf(c, p))) {
      AllocationIsFloor(total, PctOf(c, p));
    }
    SharesAdd(total, c);
    SevenFloors(Allocation(total, PctOf(c, Specification)), Allocation(total, PctOf(c, Planning)),
                Allocation(total, PctOf(c, Implementation)), Allocation(total, PctOf(c, Testing)),
                Allocation(total, PctOf(c, Review)), Allocation(total, PctOf(c, Debugging)),
                Allocation(total, PctOf(c, Contingency)),
                Share(total, PctOf(c, Specification)), Share(total, PctOf(c, Planning)),
                Share(total, PctOf(c, Implementation)), Share(total, PctOf(c, Testing)),
                Share(total, PctOf(c, Review)), Share(total, PctOf(c, Debugging)),
                Share(total, PctOf(c, Contingency)));
  }

  /** The seven allocations use up the budget, up to seven tokens and a hundredth of a percent. */
  lemma AllocationsFillTheBudget(c: Config, total: nat)
    requires ValidConfig(c)
    ensures 0.9999 * total as real - 7.0 < AllocationSum(c, total) as real <= 1.0001 * total as real
  {
    AllocationsSumBounds(c, total);
    ShareMonotone(total, 99.99, PctSum(c));
    ShareMonotone(total, PctSum(c), 100.01);
    assert Share(total, 99.99) == 0.9999 * total as real && Share(total, 100.01) == 1.0001 * total as real;
  }

  lemma ShareMonotone(total: nat, less: real, more: real)
    requires less <= more
    ensures Share(total, less) <= Share(total, more)
  {
    var x, y := total as real * less, total as real * more;
    assert x <= y;
    assert x / 100.0 <= y / 100.0;
  }

  // What a percentage that is reported says: `part` of `whole`, up to rounding.
  predicate Reports(pct: real, part: int, whole: int) {
    if whole > 0 then -0.005 <= pct - part as real / whole as real * 100.0 <= 0.005 else pct == 0.0
  }

  lemma PctIsReported(part: int, whole: int)
    ensures Reports(PctOfBudget(part, whole), part, whole)
  {
    if whole > 0 { RoundToIsNear(part as real / whole as real * 100.0, 100, 0.005); }
  }

  // The line of a phase with this percentage.
  predicate IsLine(line: PhaseStatus, total: nat, phase: Phase, pct: real, consumed: int) {
    && line.phase == phase && line.consumed == consumed
    && line.planned as real <= total as real * pct / 100.0 < line.planned as real + 1.0
    && Reports(line.plannedPct, line.planned, total)
    && Reports(line.consumedPct, line.consumed, line.planned)
  }

  lemma StatusIsLine(c: Config, phases: Totals, p: Phase)
    requires Percentage(PctOf(c, p))
    ensures IsLine(StatusOf(c, phases, p), c.totalTokens, p, PctOf(c, p), TotalFor(phases, p))
  {
    var line := StatusOf(c, phases, p);
    AllocationIsFloor(c.totalTokens, PctOf(c, p));
    PctIsReported(line.planned, c.totalTokens);
    PctIsReported(line.consumed, line.planned);
  }

  /** The breakdown: one line for each phase in the order of the enumeration, with the whole tokens of
      the percentage that is configured for that phase, and what was consumed in it. */
  lemma BreakdownFollowsTheConfig(c: Config, phases: Totals, i: nat)
    requires ValidConfig(c) && i < 7
    ensures |PHASES| == 7
    ensures var phase := [Specification, Planning, Implementation, Testing, Review, Debugging, Contingency][i];
            var pct := [c.specPct, c.planningPct, c.implementationPct, c.testingPct, c.reviewPct, c.debuggingPct,
                        c.contingencyPct][i];
            IsLine(StatusOf(c, phases, PHASES[i]), c.totalTokens, phase, pct, TotalFor(phases, phase))
  {
    StatusIsLine(c, phases, PHASES[i]);
  }

  /** The configuration of the documented defaults is accepted. */
  lemma DefaultsAreValid(total: nat)
    ensures ValidConfig(Config(total, 80.0, 95.0, 100.0, 5.0, 10.0, 40.0, 20.0, 5.0, 15.0, 5.0))
  {
    assert 5.0 + 10.0 + 40.0 + 20.0 + 5.0 + 15.0 + 5.0 == 100.0;
  }

  function PriorityFactor(priority: int): real { 0.8 + (priority - 1) as real * 0.1 }

  function ProjectTokens(base: nat, complexity: real, priority: int): int {
    Truncate(base as real * (0.5 + complexity) * PriorityFactor(priority))
  }

  // The products are named.
  lemma ProductMonotone(x: real, x': real, y: real, y': real, p: real, p': real)
    requires 0.0 <= x <= x' && 0.0 <= y <= y' && p == x * y && p' == x' * y'
    ensures 0.0 <= p <= p'
  {
    assert x * y <= x' * y;
    assert x' * y <= x' * y';
  }

  /** A project's budget grows with its complexity and its priority. */
  lemma ProjectTokensMonotone(base: nat, c1: real, c2: real, p1: int, p2: int)
    requires 0.0 <= c1 <= c2 && 1 <= p1 <= p2
    ensures ProjectTokens(base, c1, p1) <= ProjectTokens(base, c2, p2)
  {
    var b := base as real;
    var x1, x2 := b * (0.5 + c1), b * (0.5 + c2);
    ProductMonotone(b, b, 0.5 + c1, 0.5 + c2, x1, x2);
    var y1, y2 := PriorityFactor(p1), PriorityFactor(p2);
    var z1, z2 := x1 * y1, x2 * y2;
    ProductMonotone(x1, x2, y1, y2, z1, z2);
    TruncateMonotone(z1, z2);
  }

  /** Within the request's field bounds it lies between 0.4 and 1.8 times the base, both of which
      are attained; middling complexity and priority give the base itself. */
  lemma ProjectTokensBounds(base: nat, complexity: real, priority: int)
    requires 0.0 <= complexity <= 1.0 && 1 <= priority <= 5
    ensures 0.4 * base as real - 1.0 < ProjectTokens(base, complexity, priority) as real <= 1.8 * base as real
    ensures ProjectTokens(base, 0.5, 3) == base
    ensures ProjectTokens(base, 0.0, 1) == Truncate(0.4 * base as real)
    ensures ProjectTokens(base, 1.0, 5) == Truncate(1.8 * base as real)
  {
    ProjectTokensMonotone(base, 0.0, complexity, 1, priority);
    ProjectTokensMonotone(base, complexity, 1.0, priority, 5);
    assert base as real * 0.5 * 0.8 == 0.4 * base as real;
    assert base as real * 1.5 * 1.2 == 1.8 * base as real;
  }

  /** Exactly: the whole tokens of base * (0.5 + complexity) * (7 + priority) / 10. */
  lemma ProjectTokensExactly(base: nat, complexity: real, priority: int)
    requires complexity >= 0.0 && priority >= 1
    ensures var exact := base as real * (0.5 + complexity) * (7 + priority) as real / 10.0;
            ProjectTokens(base, complexity, priority) as real <= exact
            < ProjectTokens(base, complexity, priority) as real + 1.0
  {
    var x, p := base as real * (0.5 + complexity), (7 + priority) as real;
    assert PriorityFactor(priority) == p / 10.0;
    assert x * (p / 10.0) == x * p / 10.0;
    ProductMonotone(0.0, x, 0.0, PriorityFactor(priority), 0.0, x * PriorityFactor(priority));
    TruncateTowardsZero(x * PriorityFactor(priority));
  }

  // Enough of the budget for the threshold, which is a percentage: consumption is compared in
  // hundredths of a percent, rounded half to even.
  predicate Reaches(consumed: int, total: nat, threshold: real) {
    var n := -((-(threshold * 100.0)).Floor);
    if n % 2 == 0 then 20_000 * consumed >= (2 * n - 1) * total else 20_000 * consumed > (2 * n - 1) * total
  }

  lemma HundredthsReach(n: int, threshold: real)
    ensures Over(n, 100) >= threshold <==> n >= -((-(threshold * 100.0)).Floor)
  {}

  lemma ReachesExactly(consumed: int, total: nat, threshold: real)
    requires total > 0
    ensures ConsumedPct(total, consumed) >= threshold <==> Reaches(consumed, total, threshold)
  {
    var n := -((-(threshold * 100.0)).Floor);
    var q := consumed as real / total as real;
    var x := Times(q * 100.0, 100);
    HundredthsReach(Round(x), threshold);
    RoundReaches(x, n);
    HalfBelow(consumed, total, n, q);
    assert ConsumedPct(total, consumed) == Over(Round(x), 100);
  }

  lemma HalfBelow(consumed: int, total: nat, n: int, q: real)
    requires total > 0 && q * total as real == consumed as real
    ensures q * 100.0 * 100.0 >= n as real - 0.5 <==> 20_000 * consumed >= (2 * n - 1) * total
    ensures q * 100.0 * 100.0 > n as real - 0.5 <==> 20_000 * consumed > (2 * n - 1) * total
  {
    var a := total as real;
    var gap := q * 20_000.0 - (2 * n - 1) as real;
    var excess := gap * a;
    calc {
      excess;
      q * 20_000.0 * a - (2 * n - 1) as real * a;
      20_000.0 * (q * a) - (2 * n - 1) as real * a;
      (20_000 * consumed - (2 * n - 1) * total) as real;
    }
    SignOfProduct(gap, a, excess);
    SignOfProduct(-gap, a, -excess);
  }

  /** The level of a positive budget, at any thresholds: the highest whose threshold is reached, where
      rounding brings each forward by half a hundredth of a percent. */
  lemma LevelsExactly(c: Config, consumed: int)
    requires ValidConfig(c) && c.totalTokens > 0
    ensures LevelOf(c, consumed) == Halt <==> Reaches(consumed, c.totalTokens, c.haltPct)
    ensures LevelOf(c, consumed) in {Halt, Restrict} <==> Reaches(consumed, c.totalTokens, c.restrictPct)
    ensures LevelOf(c, consumed) != NoLevel <==> Reaches(consumed, c.totalTokens, c.alertPct)
  {
    ReachesExactly(consumed, c.totalTokens, c.haltPct);
    ReachesExactly(consumed, c.totalTokens, c.restrictPct);
    ReachesExactly(consumed, c.totalTokens, c.alertPct);
  }

  /** Without a budget only thresholds of zero are reached. */
  lemma LevelWithoutBudget(c: Config, consumed: int)
    requires ValidConfig(c) && c.totalTokens == 0
    ensures LevelOf(c, consumed) == Halt <==> c.haltPct == 0.0
    ensures LevelOf(c, consumed) in {Halt, Restrict} <==> c.restrictPct == 0.0
    ensures LevelOf(c, consumed) != NoLevel <==> c.alertPct == 0.0
  {}

  /** The percentage that is reported is the share of the budget, up to its rounding. */
  lemma ConsumedPctIsReported(budget: nat, consumed: int)
    ensures Reports(ConsumedPct(budget, consumed), consumed, budget)
  {
    if budget > 0 { RoundToIsNear(consumed as real / budget as real * 100.0, 100, 0.005); }
  }

  /** With the halt threshold at 100 and a positive budget, the two-decimal rounding moves the halt
      to exactly 99.995% of the budget: never later than the budget itself. */
  lemma HaltExactly(c: Config, consumed: nat)
    requires ValidConfig(c) && c.haltPct == 100.0 && c.totalTokens > 0
    ensures LevelOf(c, consumed) == Halt <==> consumed * 100000 >= 99995 * c.totalTokens
    ensures consumed >= c.totalTokens ==> LevelOf(c, consumed) == Halt
  {
    LevelsExactly(c, consumed);
    assert -((-(100.0 * 100.0)).Floor) == 10_000;
  }

  lemma SignOfProduct(x: real, a: real, product: real)
    requires a > 0.0 && product == x * a
    ensures x >= 0.0 <==> product >= 0.0
  {}
}
