// Routing and its cost accounting, of services/multi-model-router (router.py, cost_collector.py)
// with the price table of libs/architect-llm (cost_tracker.py), over exact reals.
module CostAccounting {
  import opened Common
  import opened Rounding

  datatype Thresholds = Thresholds(tier1: real, tier2: real)

  datatype Decision = Decision(tier: Tier, modelId: string, score: real)

  // Dollars per token.
  datatype Price = Price(input: real, output: real)

  datatype Tariff = Tariff(prefix: string, price: Price)

  const OPUS: Price := Price(15.0 / 1_000_000.0, 75.0 / 1_000_000.0)
  const SONNET: Price := Price(3.0 / 1_000_000.0, 15.0 / 1_000_000.0)
  const HAIKU: Price := Price(0.25 / 1_000_000.0, 1.25 / 1_000_000.0)

  const MODEL_PRICING: seq<Tariff> :=
    [Tariff("claude-opus-4", OPUS), Tariff("claude-sonnet-4", SONNET), Tariff("claude-haiku-3", HAIKU)]

  const DEFAULT_PRICING: Price := SONNET

  // The first prefix of the table that the model id starts with.
  function Resolve(table: seq<Tariff>, modelId: string): Price {
    if table == [] then DEFAULT_PRICING
    else if table[0].prefix <= modelId then table[0].price
    else Resolve(table[1..], modelId)
  }

  function ModelOf(tier: Tier): string {
    match tier
    case Tier1 => "claude-opus-4-20250514"
    case Tier2 => "claude-sonnet-4-20250514"
    case Tier3 => "claude-haiku-3-20250305"
  }

  function PriceOf(tier: Tier): Price {
    match tier case Tier1 => OPUS case Tier2 => SONNET case Tier3 => HAIKU
  }

  /** Every tier's model resolves to that tier's own price, not to the fallback or to another tier's. */
  lemma TierPricing(tier: Tier)
    ensures Resolve(MODEL_PRICING, ModelOf(tier)) == PriceOf(tier)
  {
    var id := ModelOf(tier);
    var t1, t2 := MODEL_PRICING[1..], MODEL_PRICING[1..][1..];
    match tier {
      case Tier1 =>
        assert id[..13] == "claude-opus-4";
      case Tier2 =>
        assert id[7] == 's' && "claude-opus-4"[7] == 'o';
        assert id[..15] == "claude-sonnet-4";
        assert Resolve(t1, id) == SONNET;
      case Tier3 =>
        assert id[7] == 'h' && "claude-opus-4"[7] == 'o' && "claude-sonnet-4"[7] == 's';
        assert id[..14] == "claude-haiku-3";
        assert Resolve(t2, id) == HAIKU;
        assert Resolve(t1, id) == HAIKU;
    }
  }

  function Override(task: TaskType): Option<Tier> {
    match task
    case ReviewCode => Some(Tier1)
    case WriteTest => Some(Tier3)
    case _ => None
  }

  function Route(th: Thresholds, task: TaskType, score: real): Decision {
    var tier :=
      if Override(task).Some? then Override(task).value
      else if score >= th.tier1 then Tier1
      else if score >= th.tier2 then Tier2
      else Tier3;
    Decision(tier, ModelOf(tier), score)
  }

  predicate Unit(x: real) { 0.0 <= x <= 1.0 }

  ghost predicate Reachable(th: Thresholds, task: TaskType, tier: Tier) {
    exists score :: Unit(score) && Route(th, task, score).tier == tier
  }

  /** Reviews go to tier 1 and tests to tier 3 whatever their score; other tasks go to tier 1 from its
      threshold on, and to tier 3 below both thresholds; the model is that of the tier. */
  lemma RoutedExactly(th: Thresholds, task: TaskType, score: real)
    ensures var d := Route(th, task, score);
            && (task == ReviewCode ==> d.tier == Tier1) && (task == WriteTest ==> d.tier == Tier3)
            && (task != ReviewCode && task != WriteTest ==>
                  && (d.tier == Tier1 <==> score >= th.tier1)
                  && (d.tier == Tier3 <==> score < th.tier1 && score < th.tier2))
            && d.score == score
            && d.modelId == match d.tier {
                 case Tier1 => "claude-opus-4-20250514"
                 case Tier2 => "claude-sonnet-4-20250514"
                 case Tier3 => "claude-haiku-3-20250305"
               }
  {}

  /** Which tiers some score in [0, 1] leads to, for thresholds in [0, 1] in either order: tier 1 for
      reviews, tier 3 for tests, and no other; or else tier 1 always, tier 2 if and only if its
      threshold is below that of tier 1, and tier 3 if and only if neither threshold is zero. */
  lemma ReachableTiers(th: Thresholds, task: TaskType, tier: Tier)
    requires Unit(th.tier1) && Unit(th.tier2)
    ensures Reachable(th, task, tier) <==>
            if task == ReviewCode then tier == Tier1
            else if task == WriteTest then tier == Tier3
            else match tier {
              case Tier1 => true
              case Tier2 => th.tier2 < th.tier1
              case Tier3 => th.tier1 > 0.0 && th.tier2 > 0.0
            }
  {
    assert Unit(0.0) && Unit(1.0);
    var atZero, atOne, between := Route(th, task, 0.0), Route(th, task, 1.0), Route(th, task, th.tier2);
  }

  // ---------------------------------------------------------- accumulators

  datatype Acc = Acc(input: int, output: int, cost: real, requests: nat)

  const NOTHING: Acc := Acc(0, 0, 0.0, 0)

  type Tiers = map<Tier, Acc>

  datatype State = State(tiers: Tiers, requests: nat, complexity: real, hypothetical: real)

  const EMPTY: State := State(map[], 0, 0.0, 0.0)

  datatype Stats = Stats(
    requests: nat, distribution: map<Tier, nat>, escalations: nat, averageComplexity: real,
    totalCost: real, estimatedSavings: real)

  function AccOf(t: Tiers, tier: Tier): Acc { if tier in t then t[tier] else NOTHING }

  function Cost(p: Price, input: int, output: int): real { input as real * p.input + output as real * p.output }

  function Charged(modelId: string, input: int, output: int): real {
    Cost(Resolve(MODEL_PRICING, modelId), input, output)
  }

  function Added(acc: Acc, input: int, output: int, cost: real): Acc {
    Acc(acc.input + input, acc.output + output, acc.cost + cost, acc.requests + 1)
  }

  function Recorded(s: State, d: Decision, input: int, output: int): State {
    State(s.tiers[d.tier := Added(AccOf(s.tiers, d.tier), input, output, Charged(d.modelId, input, output))],
          s.requests + 1,
          s.complexity + d.score,
          s.hypothetical + Charged(ModelOf(Tier1), input, output))
  }

  // Sums over the tiers present; an absent tier adds nothing.
  function TotalCost(t: Tiers): real { AccOf(t, Tier1).cost + AccOf(t, Tier2).cost + AccOf(t, Tier3).cost }

  function TotalRequests(t: Tiers): nat {
    AccOf(t, Tier1).requests + AccOf(t, Tier2).requests + AccOf(t, Tier3).requests
  }

  // What the tiers visited so far add up to.
  function CostOver(t: Tiers, visited: set<Tier>): real {
    (if Tier1 in visited then AccOf(t, Tier1).cost else 0.0)
    + (if Tier2 in visited then AccOf(t, Tier2).cost else 0.0)
    + (if Tier3 in visited then AccOf(t, Tier3).cost else 0.0)
  }

  lemma CostOverOneMore(t: Tiers, visited: set<Tier>, tier: Tier)
    requires tier !in visited
    ensures CostOver(t, visited + {tier}) == CostOver(t, visited) + AccOf(t, tier).cost
  {
    match tier case Tier1 => case Tier2 => case Tier3 =>
  }

  datatype TierCost = TierCost(tier: Tier, total: int, input: int, output: int, cost: real)

  function Line(tier: Tier, acc: Acc): TierCost {
    TierCost(tier, acc.input + acc.output, acc.input, acc.output, RoundTo(acc.cost, 100_000_000))
  }

  function LinesOf(t: Tiers, order: seq<Tier>): seq<TierCost> {
    if order == [] then []
    else
      var last := order[|order| - 1];
      LinesOf(t, order[..|order| - 1]) + if last in t then [Line(last, t[last])] else []
  }

  function CostIn(t: Tiers, order: seq<Tier>): real {
    if order == [] then 0.0
    else CostIn(t, order[..|order| - 1]) + AccOf(t, order[|order| - 1]).cost
  }

  const ORDER: seq<Tier> := [Tier1, Tier2, Tier3]

  lemma CostInOrder(t: Tiers)
    ensures CostIn(t, ORDER) == TotalCost(t)
  {
    assert ORDER[..2] == [Tier1, Tier2] && [Tier1, Tier2][..1] == [Tier1];
    assert CostIn(t, [Tier1]) == AccOf(t, Tier1).cost;
    assert CostIn(t, [Tier1, Tier2]) == CostIn(t, [Tier1]) + AccOf(t, Tier2).cost;
  }

  datatype Savings = Savings(actual: real, hypothetical: real, saved: real, percentage: real)

  function Percentage(saved: real, hypothetical: real): real {
    if hypothetical > 0.0 then saved / hypothetical * 100.0 else 0.0
  }

  function SavingsOf(s: State): Savings {
    var saved := s.hypothetical - TotalCost(s.tiers);
    Savings(RoundTo(TotalCost(s.tiers), 100_000_000), RoundTo(s.hypothetical, 100_000_000),
            RoundTo(saved, 100_000_000), RoundTo(Percentage(saved, s.hypothetical), 100))
  }

  function Max(x: real, y: real): real { if x >= y then x else y }

  // The savings line of `get_stats`, which is clamped at zero.
  function EstimatedSavings(s: State): real {
    RoundTo(Max(s.hypothetical - TotalCost(s.tiers), 0.0), 100_000_000)
  }

  function AverageComplexity(s: State): real {
    if s.requests > 0 then s.complexity / s.requests as real else 0.0
  }

  function StatsOf(s: State, escalations: nat): Stats {
    Stats(s.requests, map t | t in s.tiers && s.tiers[t].requests > 0 :: s.tiers[t].requests, escalations,
          RoundTo(AverageComplexity(s), 10_000), RoundTo(TotalCost(s.tiers), 100_000_000), EstimatedSavings(s))
  }

  class CostCollector {
    var tiers: Tiers
    var totalRequests: nat
    var complexitySum: real
    var escalationCount: nat
    var hypotheticalTier1Cost: real

    function Abstract(): State
      reads this
    {
      State(tiers, totalRequests, complexitySum, hypotheticalTier1Cost)
    }

    constructor ()
      ensures Abstract() == EMPTY && escalationCount == 0
    {
      tiers := map[];
      totalRequests := 0;
      escalationCount := 0;
      complexitySum := 0.0;
      hypotheticalTier1Cost := 0.0;
    }

    method RecordEscalation()
      modifies `escalationCount
      ensures escalationCount == old(escalationCount) + 1
    {
      escalationCount := escalationCount + 1;
    }

    method RecordRouting(d: Decision, input: int, output: int) returns (cost: real)
      modifies `tiers, `totalRequests, `complexitySum, `hypotheticalTier1Cost
      ensures Abstract() == Recorded(old(Abstract()), d, input, output)
      ensures cost == Charged(d.modelId, input, output)
    {
      cost := Charged(d.modelId, input, output);
      tiers := tiers[d.tier := Added(AccOf(tiers, d.tier), input, output, cost)];
      hypotheticalTier1Cost := hypotheticalTier1Cost + Charged(ModelOf(Tier1), input, output);
      totalRequests := totalRequests + 1;
      complexitySum := complexitySum + d.score;
    }

    method GetCostSummary() returns (byTier: seq<TierCost>, total: real, requests: nat)
      ensures byTier == LinesOf(tiers, ORDER)
      ensures total == RoundTo(TotalCost(tiers), 100_000_000) && requests == totalRequests
    {
      byTier := [];
      total := 0.0;
      var i := 0;
      while i < |ORDER|
        invariant 0 <= i <= |ORDER|
        invariant byTier == LinesOf(tiers, ORDER[..i])
        invariant total == CostIn(tiers, ORDER[..i])
      {
        var tier := ORDER[i];
        if tier in tiers {
          byTier := byTier + [Line(tier, tiers[tier])];
          total := total + tiers[tier].cost;
        }
        assert ORDER[..i + 1][..i] == ORDER[..i];
        i := i + 1;
      }
      assert ORDER[..i] == ORDER;
      CostInOrder(tiers);
      total, requests := RoundTo(total, 100_000_000), totalRequests;
    }

    // `sum(... for acc in self._tiers.values())`, in whichever order the tiers come.
    method SumCosts() returns (total: real)
      ensures total == TotalCost(tiers)
    {
      total := 0.0;
      var rest := tiers.Keys;
      while rest != {}
        invariant rest <= tiers.Keys && total == CostOver(tiers, tiers.Keys - rest)
      {
        var tier :| tier in rest;
        CostOverOneMore(tiers, tiers.Keys - rest, tier);
        assert tiers.Keys - (rest - {tier}) == tiers.Keys - rest + {tier};
        total := total + tiers[tier].cost;
        rest := rest - {tier};
      }
      assert tiers.Keys - rest == tiers.Keys;
    }

    method GetCostSavings() returns (r: Savings)
      ensures r == SavingsOf(Abstract())
    {
      var actual := SumCosts();
      var hypothetical := hypotheticalTier1Cost;
      var savings := hypothetical - actual;
      var percentage := Percentage(savings, hypothetical);
      r := Savings(RoundTo(actual, 100_000_000), RoundTo(hypothetical, 100_000_000),
                   RoundTo(savings, 100_000_000), RoundTo(percentage, 100));
    }

    method GetStats() returns (r: Stats)
      ensures r == StatsOf(Abstract(), escalationCount)
    {
      var avgComplexity := if totalRequests > 0 then complexitySum / totalRequests as real else 0.0;
      var distribution: map<Tier, nat> := map t | t in tiers && tiers[t].requests > 0 :: tiers[t].requests;
      var total := SumCosts();
      var savings := hypotheticalTier1Cost - total;
      r := Stats(totalRequests, distribution, escalationCount, RoundTo(avgComplexity, 10_000),
                 RoundTo(total, 100_000_000), RoundTo(Max(savings, 0.0), 100_000_000));
    }
  }

  // ------------------------------------------------------------ runs

  datatype Call = Call(task: TaskType, score: real, input: nat, output: nat)

  function After(th: Thresholds, run: seq<Call>): State {
    if run == [] then EMPTY
    else
      var c := run[|run| - 1];
      Recorded(After(th, run[..|run| - 1]), Route(th, c.task, c.score), c.input, c.output)
  }

  ghost predicate ScoresInUnit(run: seq<Call>) { forall c | c in run :: 0.0 <= c.score <= 1.0 }

  lemma {:induction false} ComplexityInRange(th: Thresholds, run: seq<Call>)
    requires ScoresInUnit(run)
    ensures var s := After(th, run); s.requests == |run| && 0.0 <= s.complexity <= s.requests as real
  {
    if run != [] {
      assert run[|run| - 1] in run;
      ComplexityInRange(th, run[..|run| - 1]);
    }
  }

  lemma QuotientInUnit(x: real, n: nat)
    requires n > 0 && 0.0 <= x <= n as real
    ensures 0.0 <= x / n as real <= 1.0
  {}

  /** The reported average complexity lies where the scores do. */
  lemma AverageIsAScore(th: Thresholds, run: seq<Call>, escalations: nat)
    requires ScoresInUnit(run)
    ensures 0.0 <= StatsOf(After(th, run), escalations).averageComplexity <= 1.0
  {
    ComplexityInRange(th, run);
    var average := AverageComplexity(After(th, run));
    if run != [] { QuotientInUnit(After(th, run).complexity, |run|); }
    RoundToMonotone(0.0, average, 10_000);
    RoundToMonotone(average, 1.0, 10_000);
    RoundToWhole(0, 10_000);
    RoundToWhole(1, 10_000);
  }

  // Between a sixtieth of the all-tier-1 cost and all of it.
  predicate Within(cost: real, hypothetical: real) { hypothetical <= 60.0 * cost && cost <= hypothetical }

  lemma CallWithin(tier: Tier, input: nat, output: nat)
    ensures Within(Charged(ModelOf(tier), input, output), Charged(ModelOf(Tier1), input, output))
  {
    TierPricing(tier);
    TierPricing(Tier1);
  }

  lemma AddingOne(t: Tiers, tier: Tier, input: int, output: int, cost: real)
    ensures var u := t[tier := Added(AccOf(t, tier), input, output, cost)];
            TotalCost(u) == TotalCost(t) + cost && TotalRequests(u) == TotalRequests(t) + 1
  {}

  lemma {:induction false} RunWithin(th: Thresholds, run: seq<Call>)
    ensures var s := After(th, run);
            && TotalRequests(s.tiers) == s.requests == |run|
            && Within(TotalCost(s.tiers), s.hypothetical)
  {
    if run != [] {
      var c := run[|run| - 1];
      var s := After(th, run[..|run| - 1]);
      var d := Route(th, c.task, c.score);
      RunWithin(th, run[..|run| - 1]);
      CallWithin(d.tier, c.input, c.output);
      AddingOne(s.tiers, d.tier, c.input, c.output, Charged(d.modelId, c.input, c.output));
    }
  }

  lemma {:induction false} QuotientRange(q: real, h: real, product: real)
    requires h > 0.0 && product == q * h && 0.0 <= product && 60.0 * product <= 59.0 * h
    ensures 0.0 <= q && 60.0 * q <= 59.0
  {
    if q < 0.0 { NegativeProduct(-q, h, -product); }
    if 60.0 * q > 59.0 { NegativeProduct(60.0 * q - 59.0, h, 60.0 * product - 59.0 * h); }
  }

  lemma NegativeProduct(x: real, h: real, product: real)
    requires x > 0.0 && h > 0.0 && product == x * h
    ensures product > 0.0
  {}

  lemma PercentageBounds(cost: real, hypothetical: real)
    requires Within(cost, hypothetical)
    ensures 0.0 <= Percentage(hypothetical - cost, hypothetical) < 98.335
  {
    if hypothetical > 0.0 {
      var q := (hypothetical - cost) / hypothetical;
      QuotientRange(q, hypothetical, hypothetical - cost);
    }
  }

  lemma RoundedPercentage(p: real)
    requires 0.0 <= p < 98.335
    ensures 0.0 <= RoundTo(p, 100) <= 98.33
  {
    assert Times(p, 100) < 9833.5;
    assert 0 <= Round(Times(p, 100)) <= 9833;
  }

  lemma RoundedSavings(saved: real)
    requires saved >= 0.0
    ensures RoundTo(saved, 100_000_000) >= 0.0
  {
    RoundToMonotone(0.0, saved, 100_000_000);
    RoundToWhole(0, 100_000_000);
  }

  /** In every run of routed calls the per-tier requests add up to the total, the actual cost is
      between a sixtieth of the all-tier-1 cost and all of it, reported savings are never negative
      and at most 98.33 per cent, and the clamp of `get_stats` changes nothing. */
  lemma SavingsAreGenuine(th: Thresholds, run: seq<Call>)
    ensures var s := After(th, run);
            && TotalRequests(s.tiers) == s.requests == |run|
            && s.hypothetical / 60.0 <= TotalCost(s.tiers) <= s.hypothetical
            && SavingsOf(s).saved >= 0.0 && 0.0 <= SavingsOf(s).percentage <= 98.33
            && EstimatedSavings(s) == SavingsOf(s).saved
  {
    var s := After(th, run);
    RunWithin(th, run);
    WithinIsGenuine(s);
  }

  lemma WithinIsGenuine(s: State)
    requires Within(TotalCost(s.tiers), s.hypothetical)
    ensures s.hypothetical / 60.0 <= TotalCost(s.tiers) <= s.hypothetical
    ensures SavingsOf(s).saved >= 0.0 && 0.0 <= SavingsOf(s).percentage <= 98.33
    ensures EstimatedSavings(s) == SavingsOf(s).saved
  {
    var cost, saved := TotalCost(s.tiers), s.hypothetical - TotalCost(s.tiers);
    PercentageBounds(cost, s.hypothetical);
    RoundedPercentage(Percentage(saved, s.hypothetical));
    RoundedSavings(saved);
  }

  function CallsTo(th: Thresholds, run: seq<Call>, tier: Tier): nat {
    if run == [] then 0
    else
      var c := run[|run| - 1];
      CallsTo(th, run[..|run| - 1], tier) + if Route(th, c.task, c.score).tier == tier then 1 else 0
  }

  // Tokens of the calls routed to a tier.
  function InputTo(th: Thresholds, run: seq<Call>, tier: Tier): nat {
    if run == [] then 0
    else
      var c := run[|run| - 1];
      InputTo(th, run[..|run| - 1], tier) + if Route(th, c.task, c.score).tier == tier then c.input else 0
  }

  function OutputTo(th: Thresholds, run: seq<Call>, tier: Tier): nat {
    if run == [] then 0
    else
      var c := run[|run| - 1];
      OutputTo(th, run[..|run| - 1], tier) + if Route(th, c.task, c.score).tier == tier then c.output else 0
  }

  // Millionths of a dollar.
  function MicroDollars(tier: Tier, input: int, output: int): real {
    match tier
    case Tier1 => 15.0 * input as real + 75.0 * output as real
    case Tier2 => 3.0 * input as real + 15.0 * output as real
    case Tier3 => 0.25 * input as real + 1.25 * output as real
  }

  lemma MicroDollarsAre(tier: Tier, input: int, output: int)
    ensures 1_000_000.0 * Cost(PriceOf(tier), input, output) == MicroDollars(tier, input, output)
    ensures 1_000_000.0 * Charged(ModelOf(tier), input, output) == MicroDollars(tier, input, output)
  {
    TierPricing(tier);
  }

  lemma PriceByPrefix(modelId: string)
    ensures Resolve(MODEL_PRICING, modelId)
         == if "claude-opus-4" <= modelId then OPUS else if "claude-haiku-3" <= modelId then HAIKU else SONNET
  {
    var t1, t2 := MODEL_PRICING[1..], MODEL_PRICING[1..][1..];
    assert t1[0] == Tariff("claude-sonnet-4", SONNET) && t2[0] == Tariff("claude-haiku-3", HAIKU) && t2[1..] == [];
    assert "claude-sonnet-4"[7] == 's' && "claude-haiku-3"[7] == 'h';
    assert Resolve(t2[1..], modelId) == SONNET;
    assert Resolve(t2, modelId) == if "claude-haiku-3" <= modelId then HAIKU else SONNET;
    assert Resolve(t1, modelId) == if "claude-sonnet-4" <= modelId then SONNET else Resolve(t2, modelId);
    if "claude-sonnet-4" <= modelId { assert modelId[7] == 's'; }
    if "claude-haiku-3" <= modelId { assert modelId[7] == 'h'; }
  }

  /** What a call costs, by the beginning of its model's id: 15 and 75 dollars per million tokens for
      Opus, 3 and 15 for Sonnet and for any unknown model, 0.25 and 1.25 for Haiku. */
  lemma CallPrice(modelId: string, input: int, output: int)
    ensures 1_000_000.0 * Charged(modelId, input, output)
         == if "claude-opus-4" <= modelId then 15.0 * input as real + 75.0 * output as real
            else if "claude-haiku-3" <= modelId then 0.25 * input as real + 1.25 * output as real
            else 3.0 * input as real + 15.0 * output as real
  {
    PriceByPrefix(modelId);
    MicroDollarsAre(Tier1, input, output);
    MicroDollarsAre(Tier2, input, output);
    MicroDollarsAre(Tier3, input, output);
  }

  predicate Answers(acc: Acc, tier: Tier, requests: nat, input: int, output: int) {
    && acc.requests == requests && acc.input == input && acc.output == output
    && 1_000_000.0 * acc.cost == MicroDollars(tier, input, output)
  }

  lemma OneMoreCallTo(s: State, d: Decision, input: int, output: int, tier: Tier, acc: Acc)
    requires d.modelId == ModelOf(d.tier) && acc == AccOf(s.tiers, tier)
    requires Answers(acc, tier, acc.requests, acc.input, acc.output)
    ensures var more := AccOf(Recorded(s, d, input, output).tiers, tier);
            if d.tier == tier then Answers(more, tier, acc.requests + 1, acc.input + input, acc.output + output)
            else more == acc
  {
    if d.tier == tier {
      MicroDollarsAre(tier, input, output);
      match tier case Tier1 => case Tier2 => case Tier3 =>
    }
  }

  /** Every tier answers for the calls routed to it and no others: its requests and tokens are theirs,
      its cost is its own price for them, and it is listed if and only if there are any. */
  lemma {:induction false} TiersAnswerForTheirCalls(th: Thresholds, run: seq<Call>, tier: Tier)
    ensures Answers(AccOf(After(th, run).tiers, tier), tier,
                    CallsTo(th, run, tier), InputTo(th, run, tier), OutputTo(th, run, tier))
    ensures tier in After(th, run).tiers <==> CallsTo(th, run, tier) > 0
  {
    if run != [] {
      var c := run[|run| - 1];
      var s, d := After(th, run[..|run| - 1]), Route(th, c.task, c.score);
      TiersAnswerForTheirCalls(th, run[..|run| - 1], tier);
      OneMoreCallTo(s, d, c.input, c.output, tier, AccOf(s.tiers, tier));
    }
  }

  // A call that costs the same as it would on tier 1, and one that costs a sixtieth of it.
  predicate FullPrice(th: Thresholds, c: Call) {
    Route(th, c.task, c.score).tier == Tier1 || c.input == c.output == 0
  }

  predicate Cheapest(th: Thresholds, c: Call) {
    Route(th, c.task, c.score).tier == Tier3 || c.input == c.output == 0
  }

  lemma CallExtremes(th: Thresholds, c: Call)
    ensures var d := Route(th, c.task, c.score);
            var cost, top := Charged(d.modelId, c.input, c.output), Charged(ModelOf(Tier1), c.input, c.output);
            && Within(cost, top)
            && (cost == top <==> FullPrice(th, c))
            && (60.0 * cost == top <==> Cheapest(th, c))
  {
    var tier := Route(th, c.task, c.score).tier;
    TierPricing(tier);
    TierPricing(Tier1);
  }

  /** Both bounds are attained, and exactly when expected: nothing is saved if and only if every
      call that used tokens went to tier 1, and everything that can be saved is saved if and only
      if every such call went to tier 3. */
  lemma {:induction false} BoundsAreAttained(th: Thresholds, run: seq<Call>)
    ensures var s := After(th, run);
            && Within(TotalCost(s.tiers), s.hypothetical)
            && (TotalCost(s.tiers) == s.hypothetical <==> forall c :: c in run ==> FullPrice(th, c))
            && (60.0 * TotalCost(s.tiers) == s.hypothetical <==> forall c :: c in run ==> Cheapest(th, c))
  {
    if run != [] {
      var rest, c := run[..|run| - 1], run[|run| - 1];
      var s, d := After(th, rest), Route(th, c.task, c.score);
      assert run == rest + [c];
      BoundsAreAttained(th, rest);
      CallExtremes(th, c);
      AddingOne(s.tiers, d.tier, c.input, c.output, Charged(d.modelId, c.input, c.output));
      assert forall x :: x in run <==> x in rest || x == c;
    }
  }

  // ------------------------------------------------------------ reports

  // What the calls cost by their tiers, and on tier 1, in millionths of a dollar.
  function ActualMicros(th: Thresholds, run: seq<Call>): real {
    if run == [] then 0.0
    else
      var c := run[|run| - 1];
      ActualMicros(th, run[..|run| - 1]) + MicroDollars(Route(th, c.task, c.score).tier, c.input, c.output)
  }

  function TopMicros(run: seq<Call>): real {
    if run == [] then 0.0
    else
      var c := run[|run| - 1];
      TopMicros(run[..|run| - 1]) + (15.0 * c.input as real + 75.0 * c.output as real)
  }

  /** The totals are the sums over the calls: of their tiers' prices, and of those of tier 1. */
  lemma {:induction false} TotalsAreSums(th: Thresholds, run: seq<Call>)
    ensures var s := After(th, run);
            1_000_000.0 * TotalCost(s.tiers) == ActualMicros(th, run)
            && 1_000_000.0 * s.hypothetical == TopMicros(run)
  {
    if run != [] {
      var c := run[|run| - 1];
      var s, d := After(th, run[..|run| - 1]), Route(th, c.task, c.score);
      TotalsAreSums(th, run[..|run| - 1]);
      MicroDollarsAre(d.tier, c.input, c.output);
      MicroDollarsAre(Tier1, c.input, c.output);
      AddingOne(s.tiers, d.tier, c.input, c.output, Charged(d.modelId, c.input, c.output));
    }
  }

  // A reported sum of dollars, up to its rounding to eight decimals.
  predicate ReportsMicros(reported: real, micros: real) {
    -0.000000005 <= reported - micros / 1_000_000.0 <= 0.000000005
  }

  lemma MicrosAreReported(dollars: real, micros: real)
    requires 1_000_000.0 * dollars == micros
    ensures ReportsMicros(RoundTo(dollars, 100_000_000), micros)
  {
    RoundToIsNear(dollars, 100_000_000, 0.000000005);
  }

  // A percentage that is reported, up to its rounding.
  predicate ReportsShare(reported: real, part: real, whole: real) {
    if whole > 0.0 then -0.005 <= reported - part / whole * 100.0 <= 0.005 else reported == 0.0
  }

  lemma PercentageIsReported(x: real, y: real, mx: real, my: real)
    requires mx == 1_000_000.0 * x && my == 1_000_000.0 * y
    ensures ReportsShare(RoundTo(Percentage(x, y), 100), mx, my)
  {
    if my > 0.0 { SameShare(x, y, mx, my); }
    RoundToIsNear(Percentage(x, y), 100, 0.005);
    RoundToWhole(0, 100);
  }

  predicate IsReport(r: Savings, actual: real, top: real) {
    && ReportsMicros(r.actual, actual) && ReportsMicros(r.hypothetical, top)
    && ReportsMicros(r.saved, top - actual) && ReportsShare(r.percentage, top - actual, top)
  }

  lemma SavingsReport(s: State, cost: real, actual: real, top: real)
    requires cost == TotalCost(s.tiers) && 1_000_000.0 * cost == actual && 1_000_000.0 * s.hypothetical == top
    ensures IsReport(SavingsOf(s), actual, top)
  {
    MicrosAreReported(cost, actual);
    MicrosAreReported(s.hypothetical, top);
    MicrosAreReported(s.hypothetical - cost, top - actual);
    PercentageIsReported(s.hypothetical - cost, s.hypothetical, top - actual, top);
  }

  /** The savings report: what was spent, what tier 1 would have cost, the difference, and its share
      in percent, each up to its rounding. */
  lemma SavingsAreReported(th: Thresholds, run: seq<Call>)
    ensures IsReport(SavingsOf(After(th, run)), ActualMicros(th, run), TopMicros(run))
  {
    var s := After(th, run);
    TotalsAreSums(th, run);
    SavingsReport(s, TotalCost(s.tiers), ActualMicros(th, run), TopMicros(run));
  }

  lemma SameShare(x: real, y: real, mx: real, my: real)
    requires y > 0.0 && mx == 1_000_000.0 * x && my == 1_000_000.0 * y
    ensures mx / my == x / y
  {
    var q := x / y;
    assert q * y == x;
    assert q * my == mx;
  }

  function ScoreSum(run: seq<Call>): real {
    if run == [] then 0.0 else ScoreSum(run[..|run| - 1]) + run[|run| - 1].score
  }

  lemma {:induction false} ComplexityIsSum(th: Thresholds, run: seq<Call>)
    ensures After(th, run).complexity == ScoreSum(run) && After(th, run).requests == |run|
  {
    if run != [] { ComplexityIsSum(th, run[..|run| - 1]); }
  }

  /** The statistics: the calls in all and by tier, the mean of their scores, what was spent and what
      was saved on tier 1, each up to its rounding. */
  lemma StatsAreReported(th: Thresholds, run: seq<Call>, escalations: nat)
    ensures var r := StatsOf(After(th, run), escalations);
            && r.requests == |run| && r.escalations == escalations
            && (forall t :: t in r.distribution <==> CallsTo(th, run, t) > 0)
            && (forall t | t in r.distribution :: r.distribution[t] == CallsTo(th, run, t))
            && (if run == [] then r.averageComplexity == 0.0
                else -0.00005 <= r.averageComplexity - ScoreSum(run) / |run| as real <= 0.00005)
            && ReportsMicros(r.totalCost, ActualMicros(th, run))
            && ReportsMicros(r.estimatedSavings, TopMicros(run) - ActualMicros(th, run))
  {
    var s := After(th, run);
    ComplexityIsSum(th, run);
    RoundToIsNear(AverageComplexity(s), 10_000, 0.00005);
    RoundToWhole(0, 10_000);
    TotalsAreSums(th, run);
    SavingsAreGenuine(th, run);
    SavingsAreReported(th, run);
    MicrosAreReported(TotalCost(s.tiers), ActualMicros(th, run));
    forall t ensures s.requests == |run| && AccOf(s.tiers, t).requests == CallsTo(th, run, t)
                     && (t in s.tiers <==> CallsTo(th, run, t) > 0) {
      TiersAnswerForTheirCalls(th, run, t);
    }
  }

  function LineFor(th: Thresholds, run: seq<Call>, tier: Tier): seq<TierCost> {
    var input, output := InputTo(th, run, tier), OutputTo(th, run, tier);
    if CallsTo(th, run, tier) == 0 then []
    else [TierCost(tier, input + output, input, output,
                   RoundTo(MicroDollars(tier, input, output) / 1_000_000.0, 100_000_000))]
  }

  /** The cost summary: the tiers in use in order, each with the tokens of its calls and their cost. */
  lemma SummaryListsTheTiers(th: Thresholds, run: seq<Call>)
    ensures LinesOf(After(th, run).tiers, ORDER)
         == LineFor(th, run, Tier1) + LineFor(th, run, Tier2) + LineFor(th, run, Tier3)
  {
    var t := After(th, run).tiers;
    assert ORDER[..2] == [Tier1, Tier2] && [Tier1, Tier2][..1] == [Tier1] && [Tier1][..0] == [];
    LineIsFor(th, run, Tier1);
    LineIsFor(th, run, Tier2);
    LineIsFor(th, run, Tier3);
    assert LinesOf(t, [Tier1]) == LineFor(th, run, Tier1);
    assert LinesOf(t, [Tier1, Tier2]) == LinesOf(t, [Tier1]) + LineFor(th, run, Tier2);
  }

  lemma Millionth(dollars: real, micros: real)
    requires 1_000_000.0 * dollars == micros
    ensures dollars == micros / 1_000_000.0
  {}

  lemma LineOf(acc: Acc, tier: Tier, requests: nat, input: int, output: int)
    requires Answers(acc, tier, requests, input, output)
    ensures Line(tier, acc) == TierCost(tier, input + output, input, output,
                                        RoundTo(MicroDollars(tier, input, output) / 1_000_000.0, 100_000_000))
  {
    Millionth(acc.cost, MicroDollars(tier, input, output));
  }

  lemma LineIsFor(th: Thresholds, run: seq<Call>, tier: Tier)
    ensures var t := After(th, run).tiers;
            LineFor(th, run, tier) == if tier in t then [Line(tier, t[tier])] else []
  {
    TiersAnswerForTheirCalls(th, run, tier);
    LineOf(AccOf(After(th, run).tiers, tier), tier,
           CallsTo(th, run, tier), InputTo(th, run, tier), OutputTo(th, run, tier));
  }
}
