// Failure-driven tier escalation of services/multi-model-router (escalation.py): a scan of a
// task's history on every failure, against plain arithmetic on the number of failures.
module Escalation {
  import opened Common

  datatype Reason = FailureRecorded | EscalatedAfter(failures: nat)

  datatype Entry = Entry(tier: Tier, reason: Reason)

  datatype Record = Record(failureCount: nat, currentTier: Tier, history: seq<Entry>, needsHuman: bool)

  datatype Params = Params(maxTierFailures: int, maxTotalFailures: int)

  type Records = map<TaskId, Record>

  function NextTier(current: Tier): Option<Tier> {
    match current
    case Tier3 => Some(Tier2)
    case Tier2 => Some(Tier1)
    case Tier1 => None
  }

  // Entries at `tier` at the end of the history.
  function Trailing(history: seq<Entry>, tier: Tier): nat {
    if history == [] || history[|history| - 1].tier != tier then 0
    else 1 + Trailing(history[..|history| - 1], tier)
  }

  function RecordOf(records: Records, task: TaskId): Option<Record> {
    if task in records then Some(records[task]) else None
  }

  function Failed(par: Params, existing: Option<Record>, tier: Tier): Record {
    var count := (if existing.Some? then existing.value.failureCount else 0) + 1;
    var history := if existing.Some? then existing.value.history else [];
    var tierFailures := 1 + Trailing(history, tier);
    var human := count >= par.maxTotalFailures;
    if tierFailures >= par.maxTierFailures then
      var next := NextTier(tier);
      Record(count, if next.Some? then next.value else tier,
             history + [Entry(tier, EscalatedAfter(tierFailures))], human || next.None?)
    else
      Record(count, tier, history + [Entry(tier, FailureRecorded)], human)
  }

  function ShouldEscalate(par: Params, record: Option<Record>): bool {
    record.Some? && Trailing(record.value.history, record.value.currentTier) >= par.maxTierFailures
  }

  class EscalationPolicy {
    const par: Params
    var records: Records

    constructor (par: Params)
      ensures this.par == par && records == map[]
    {
      this.par := par;
      records := map[];
    }

    // The scan over `reversed(history)`.
    method CountTrailing(history: seq<Entry>, tier: Tier, start: nat) returns (n: nat)
      ensures n == start + Trailing(history, tier)
    {
      n := start;
      var i := |history|;
      assert history[..i] == history;
      while i > 0
        invariant 0 <= i <= |history|
        invariant n + Trailing(history[..i], tier) == start + Trailing(history, tier)
      {
        assert history[..i][..i - 1] == history[..i - 1];
        if history[i - 1].tier != tier { break; }
        n := n + 1;
        i := i - 1;
      }
    }

    method RecordFailure(task: TaskId, currentTier: Tier) returns (record: Record)
      modifies this
      ensures record == Failed(par, RecordOf(old(records), task), currentTier)
      ensures records == old(records)[task := record]
    {
      var existing := RecordOf(records, task);
      var failureCount := 1;
      var history := [];
      if existing.Some? {
        failureCount := existing.value.failureCount + 1;
        history := existing.value.history;
      }
      var needsHuman := failureCount >= par.maxTotalFailures;
      var tierFailures := CountTrailing(history, currentTier, 1);
      var newTier := currentTier;
      if tierFailures >= par.maxTierFailures {
        var next := NextTier(currentTier);
        if next.None? { needsHuman := true; } else { newTier := next.value; }
        history := history + [Entry(currentTier, EscalatedAfter(tierFailures))];
      } else {
        history := history + [Entry(currentTier, FailureRecorded)];
      }
      record := Record(failureCount, newTier, history, needsHuman);
      records := records[task := record];
    }

    method MustEscalate(task: TaskId) returns (b: bool)
      ensures b == ShouldEscalate(par, RecordOf(records, task))
    {
      if task !in records { return false; }
      var n := CountTrailing(records[task].history, records[task].currentTier, 0);
      b := n >= par.maxTierFailures;
    }

    method Reset(task: TaskId)
      modifies this
      ensures records == old(records) - {task}
    {
      records := records - {task};
    }
  }

  // ------------------------------------------------------------ runs

  // A caller that feeds back the record's tier, starting new tasks at tier 3.
  datatype Op = Fail(task: TaskId) | Clear(task: TaskId)

  function TierOf(records: Records, task: TaskId): Tier {
    if task in records then records[task].currentTier else Tier3
  }

  function After(par: Params, ops: seq<Op>): Records {
    if ops == [] then map[]
    else
      var r := After(par, ops[..|ops| - 1]);
      match ops[|ops| - 1]
      case Fail(t) => r[t := Failed(par, RecordOf(r, t), TierOf(r, t))]
      case Clear(t) => r - {t}
  }

  // Failures of the task since it was last cleared.
  function FailuresOf(ops: seq<Op>, task: TaskId): nat {
    if ops == [] then 0
    else
      var n := FailuresOf(ops[..|ops| - 1], task);
      match ops[|ops| - 1]
      case Fail(t) => if t == task then n + 1 else n
      case Clear(t) => if t == task then 0 else n
  }

  // A threshold below one acts as one: the first failure already counts.
  function Threshold(par: Params): nat {
    if par.maxTierFailures < 1 then 1 else par.maxTierFailures
  }

  // The tier after n failures, m of them per tier.
  function TierAfter(m: nat, n: nat): Tier {
    if n < m then Tier3 else if n < 2 * m then Tier2 else Tier1
  }

  ghost predicate ClosedForm(par: Params, record: Record, n: nat) {
    var m := Threshold(par);
    && record.failureCount == n && |record.history| == n
    && record.currentTier == TierAfter(m, n)
    && (record.needsHuman <==> n >= 3 * m || n >= par.maxTotalFailures)
    && (forall i | 0 <= i < n :: record.history[i] == Entry(TierAfter(m, i), ReasonFor(m, i)))
  }

  // Failure i was this many in a row at its tier; it escalates from the m-th on.
  function InARow(m: nat, i: nat): nat {
    if i < m then i + 1 else if i < 2 * m then i - m + 1 else i - 2 * m + 1
  }

  function ReasonFor(m: nat, i: nat): Reason {
    if InARow(m, i) >= m then EscalatedAfter(InARow(m, i)) else FailureRecorded
  }

  lemma {:induction false} TrailingIs(history: seq<Entry>, tier: Tier, k: nat)
    requires k <= |history| && (forall i | |history| - k <= i < |history| :: history[i].tier == tier)
    requires k < |history| ==> history[|history| - k - 1].tier != tier
    ensures Trailing(history, tier) == k
    decreases k
  {
    if k > 0 { TrailingIs(history[..|history| - 1], tier, k - 1); }
  }

  // How many trailing entries the closed-form history has at the tier it leads to.
  lemma ClosedFormTrailing(par: Params, history: seq<Entry>)
    requires forall i | 0 <= i < |history| :: history[i].tier == TierAfter(Threshold(par), i)
    ensures var m := Threshold(par);
            var n := |history|;
            Trailing(history, TierAfter(m, n)) == if n < m then n else if n < 2 * m then n - m else n - 2 * m
  {
    var m := Threshold(par);
    var n := |history|;
    TrailingIs(history, TierAfter(m, n), if n < m then n else if n < 2 * m then n - m else n - 2 * m);
  }

  lemma FailureAdvances(par: Params, existing: Option<Record>, n: nat)
    requires if existing.Some? then ClosedForm(par, existing.value, n) else n == 0
    ensures ClosedForm(par, Failed(par, existing, TierAfter(Threshold(par), n)), n + 1)
  {
    ClosedFormTrailing(par, if existing.Some? then existing.value.history else []);
  }

  lemma {:induction false} RecordsAreClosedForm(par: Params, ops: seq<Op>, task: TaskId)
    ensures var n := FailuresOf(ops, task);
            var records := After(par, ops);
            && (task in records <==> n > 0)
            && (n > 0 ==> ClosedForm(par, records[task], n))
  {
    if ops != [] {
      var before := ops[..|ops| - 1];
      RecordsAreClosedForm(par, before, task);
      if ops[|ops| - 1] == Fail(task) {
        FailureAdvances(par, RecordOf(After(par, before), task), FailuresOf(before, task));
      }
    }
  }

  lemma EscalationIsDue(par: Params, record: Record, n: nat)
    requires n > 0 && ClosedForm(par, record, n)
    ensures ShouldEscalate(par, Some(record)) <==> par.maxTierFailures < 1 || n >= 3 * par.maxTierFailures
  {
    ClosedFormTrailing(par, record.history);
  }

  /** In every interleaving of failures and resets of any tasks, a task's record is a function of
      its own number n of failures since its last reset, with m the per-tier threshold: tier 3
      while n < m, tier 2 while n < 2m, tier 1 from there; a human from n >= 3m or
      n >= max_total_failures on; `should_escalate` exactly from n >= 3m. */
  lemma EscalationIsArithmetic(par: Params, ops: seq<Op>, task: TaskId)
    ensures var n := FailuresOf(ops, task);
            var records := After(par, ops);
            && (task in records <==> n > 0)
            && (n > 0 ==> ClosedForm(par, records[task], n))
            && (ShouldEscalate(par, RecordOf(records, task))
                <==> n > 0 && (par.maxTierFailures < 1 || n >= 3 * par.maxTierFailures))
  {
    RecordsAreClosedForm(par, ops, task);
    var records := After(par, ops);
    if task in records { EscalationIsDue(par, records[task], FailuresOf(ops, task)); }
  }

  function Rank(t: Tier): nat {
    match t case Tier3 => 0 case Tier2 => 1 case Tier1 => 2
  }

  /** Until a task is reset its tier only rises and its need for a human does not go away, and
      operations on other tasks leave its record alone. */
  lemma TierOnlyRises(par: Params, ops: seq<Op>, op: Op, task: TaskId)
    requires op != Clear(task) && task in After(par, ops)
    ensures var r := After(par, ops)[task];
            && task in After(par, ops + [op])
            && var r' := After(par, ops + [op])[task];
            && Rank(r.currentTier) <= Rank(r'.currentTier)
            && (r.needsHuman ==> r'.needsHuman)
            && (op.task != task ==> r' == r)
  {
    assert (ops + [op])[..|ops|] == ops;
    RecordsAreClosedForm(par, ops, task);
    RecordsAreClosedForm(par, ops + [op], task);
  }

  // ------------------------------------------------------------ any tiers

  // The record of a task that failed at these tiers, whatever its record said.
  function AfterFailuresAt(par: Params, tiers: seq<Tier>): Option<Record> {
    if tiers == [] then None
    else Some(Failed(par, AfterFailuresAt(par, tiers[..|tiers| - 1]), tiers[|tiers| - 1]))
  }

  // The last k of the tiers are all this one.
  ghost predicate EndsIn(tiers: seq<Tier>, tier: Tier, k: nat) {
    k <= |tiers| && forall i | |tiers| - k <= i < |tiers| :: tiers[i] == tier
  }

  function TiersOf(history: seq<Entry>): seq<Tier> {
    seq(|history|, i requires 0 <= i < |history| => history[i].tier)
  }

  lemma {:induction false} TrailingAtLeast(history: seq<Entry>, tier: Tier, k: nat)
    ensures Trailing(history, tier) >= k <==> EndsIn(TiersOf(history), tier, k)
    decreases |history|
  {
    if history != [] && k > 0 {
      var n := |history| - 1;
      TrailingAtLeast(history[..n], tier, k - 1);
      if EndsIn(TiersOf(history), tier, k) { assert TiersOf(history)[n] == tier; }
      if history[n].tier == tier && EndsIn(TiersOf(history[..n]), tier, k - 1) {
        forall i | |history| - k <= i < |history| ensures TiersOf(history)[i] == tier {
          if i < n { assert TiersOf(history)[i] == TiersOf(history[..n])[i]; }
        }
      }
      if EndsIn(TiersOf(history), tier, k) {
        forall i | n - (k - 1) <= i < n ensures TiersOf(history[..n])[i] == tier {
          assert TiersOf(history)[i] == tier;
        }
      }
    }
  }

  // The record lists failures at these tiers.
  predicate Lists(r: Option<Record>, tiers: seq<Tier>) {
    if r.Some? then r.value.failureCount == |tiers| && TiersOf(r.value.history) == tiers else tiers == []
  }

  lemma OneMoreListed(par: Params, existing: Option<Record>, before: seq<Tier>, tier: Tier)
    requires Lists(existing, before)
    ensures Lists(Some(Failed(par, existing, tier)), before + [tier])
  {}

  lemma {:induction false} HistoryIsTheTiers(par: Params, tiers: seq<Tier>)
    ensures Lists(AfterFailuresAt(par, tiers), tiers)
  {
    if tiers != [] {
      var before, tier := tiers[..|tiers| - 1], tiers[|tiers| - 1];
      var existing := AfterFailuresAt(par, before);
      HistoryIsTheTiers(par, before);
      OneMoreListed(par, existing, before, tier);
      assert AfterFailuresAt(par, tiers) == Some(Failed(par, existing, tier)) && before + [tier] == tiers;
    }
  }

  lemma DueExactly(par: Params, history: seq<Entry>, tiers: seq<Tier>)
    requires tiers != [] && TiersOf(history) == tiers[..|tiers| - 1]
    ensures var tier := tiers[|tiers| - 1];
            1 + Trailing(history, tier) >= par.maxTierFailures <==> EndsIn(tiers, tier, Threshold(par))
  {
    var n := |tiers| - 1;
    TrailingAtLeast(history, tiers[n], Threshold(par) - 1);
    assert EndsIn(tiers, tiers[n], Threshold(par)) <==> EndsIn(tiers[..n], tiers[n], Threshold(par) - 1);
  }

  // Every failure in turn.
  lemma LastFailure(par: Params, existing: Option<Record>, tier: Tier, due: bool)
    requires var history := if existing.Some? then existing.value.history else [];
             due <==> 1 + Trailing(history, tier) >= par.maxTierFailures
    ensures var r := Failed(par, existing, tier);
            && r.currentTier == (if !due then tier else match tier { case Tier3 => Tier2 case _ => Tier1 })
            && (r.needsHuman <==> r.failureCount >= par.maxTotalFailures || (due && tier == Tier1))
  {}

  /** Whatever tiers the failures come at: the last one escalates if and only if the failures at the
      end, as many as the threshold, were all at its tier; then the tier is the next one up, or a
      human is needed when there is none. */
  lemma EscalatesOnRepeatedFailures(par: Params, tiers: seq<Tier>)
    requires tiers != []
    ensures var tier, r := tiers[|tiers| - 1], AfterFailuresAt(par, tiers).value;
            var due := EndsIn(tiers, tier, if par.maxTierFailures < 1 then 1 else par.maxTierFailures);
            && r.currentTier == (if !due then tier else match tier { case Tier3 => Tier2 case _ => Tier1 })
            && (r.needsHuman <==> |tiers| >= par.maxTotalFailures || (due && tier == Tier1))
  {
    var n := |tiers| - 1;
    var existing := AfterFailuresAt(par, tiers[..n]);
    var history := if existing.Some? then existing.value.history else [];
    HistoryIsTheTiers(par, tiers);
    HistoryIsTheTiers(par, tiers[..n]);
    assert TiersOf(history) == tiers[..n];
    DueExactly(par, history, tiers);
    LastFailure(par, existing, tiers[n], EndsIn(tiers, tiers[n], Threshold(par)));
  }

  /** `should_escalate` says whether the failures at the end, as many as the threshold, were all at
      the tier that the task has now. */
  lemma ShouldEscalateExactly(par: Params, tiers: seq<Tier>)
    requires tiers != []
    ensures var r := AfterFailuresAt(par, tiers);
            ShouldEscalate(par, r)
            <==> par.maxTierFailures < 1 || EndsIn(tiers, r.value.currentTier, par.maxTierFailures)
  {
    var r := AfterFailuresAt(par, tiers).value;
    HistoryIsTheTiers(par, tiers);
    if par.maxTierFailures >= 1 { TrailingAtLeast(r.history, r.currentTier, par.maxTierFailures); }
  }
}
