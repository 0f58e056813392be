// Agent efficiency scores of services/economic-governor (efficiency_scorer.py): accumulators, a
// ranked and normalised leaderboard, and its cache, over exact reals.
module Leaderboard {
  import opened Common
  import opened OrderedDict
  import opened Rounding
  import opened Sorting

  type AgentId = string

  datatype Stats = Stats(completed: nat, failed: nat, qualitySum: real, tokens: int, costUsd: real)

  type Agents = Dict<AgentId, Stats>

  const NO_STATS: Stats := Stats(0, 0, 0.0, 0, 0.0)

  datatype Raw = Raw(agent: AgentId, avgQuality: real, stats: Stats)

  // An agent with its raw efficiency, which is sorted by, and its place in the dictionary.
  type Row = Keyed<Raw>

  datatype Score = Score(
    agent: AgentId, efficiency: real, completed: nat, failed: nat, quality: real,
    tokens: int, costUsd: real, rank: nat)

  function AvgQuality(s: Stats): real {
    if s.completed > 0 then s.qualitySum / s.completed as real else 0.0
  }

  function PerToken(x: real, tokens: int): real { x / (if tokens > 1 then tokens else 1) as real }

  function RawEfficiency(s: Stats): real { PerToken(s.completed as real * AvgQuality(s), s.tokens) }

  function RowOf(agents: Agents, i: nat): Row
    requires i < |agents|
  {
    var s := agents[i].value;
    Keyed(RawEfficiency(s), i, Raw(agents[i].key, AvgQuality(s), s))
  }

  function Rows(agents: Agents): seq<Row> {
    seq(|agents|, i requires 0 <= i < |agents| => RowOf(agents, i))
  }

  // What the raw efficiencies are divided by.
  function Scale(sorted: seq<Row>): real {
    var top := if sorted == [] then 1.0 else sorted[0].key;
    if top <= 0.0 then 1.0 else top
  }

  function ScoreOf(r: Row, scale: real, rank: nat): Score
    requires scale > 0.0
  {
    var Raw(agent, avgQuality, stats) := r.item;
    Score(agent, RoundTo(r.key / scale, 10_000), stats.completed, stats.failed,
          RoundTo(avgQuality, 10_000), stats.tokens, RoundTo(stats.costUsd, 1_000_000), rank)
  }

  function Entries(sorted: seq<Row>): seq<Score> {
    seq(|sorted|, i requires 0 <= i < |sorted| => ScoreOf(sorted[i], Scale(sorted), i + 1))
  }

  function LeaderboardOf(agents: Agents): seq<Score> { Entries(SortDescending(Rows(agents))) }

  function FirstFor(entries: seq<Score>, agent: AgentId, default: Score): Score {
    if entries == [] then default
    else if entries[0].agent == agent then entries[0]
    else FirstFor(entries[1..], agent, default)
  }

  function Untracked(agent: AgentId, rank: nat): Score { Score(agent, 0.0, 0, 0, 0.0, 0, 0.0, rank) }

  // The entry of an agent, or a zero score ranked after everyone.
  function AgentScore(entries: seq<Score>, agent: AgentId): Score {
    FirstFor(entries, agent, Untracked(agent, |entries| + 1))
  }

  datatype Report =
    | Completed(agent: AgentId, quality: real, tokens: int, costUsd: real)
    | Failed(agent: AgentId, tokens: int, costUsd: real)

  function Added(s: Stats, r: Report): Stats {
    match r
    case Completed(_, quality, tokens, cost) =>
      Stats(s.completed + 1, s.failed, s.qualitySum + quality, s.tokens + tokens, s.costUsd + cost)
    case Failed(_, tokens, cost) =>
      Stats(s.completed, s.failed + 1, s.qualitySum, s.tokens + tokens, s.costUsd + cost)
  }

  function WithReport(agents: Agents, r: Report): Agents {
    Put(agents, r.agent, Added(Get(agents, r.agent, NO_STATS), r))
  }

  class EfficiencyScorer {
    var agents: Agents
    var cached: Option<seq<Score>>

    // The cache is empty or what a recomputation would give.
    ghost predicate Valid()
      reads this
    {
      Distinct(agents) && (cached.Some? ==> cached.value == LeaderboardOf(agents))
    }

    constructor ()
      ensures Valid() && agents == [] && cached == None
    {
      agents := [];
      cached := None;
    }

    method RecordTaskCompleted(agent: AgentId, quality: real, tokens: int, costUsd: real)
      requires Valid()
      modifies this
      ensures Valid() && cached == None
      ensures agents == WithReport(old(agents), Completed(agent, quality, tokens, costUsd))
    {
      var s := Get(agents, agent, NO_STATS);
      var t := Stats(s.completed + 1, s.failed, s.qualitySum + quality, s.tokens + tokens, s.costUsd + costUsd);
      PutKeeps(agents, agent, t, agent, NO_STATS);
      agents := Put(agents, agent, t);
      cached := None;
    }

    method RecordTaskFailed(agent: AgentId, tokens: int, costUsd: real)
      requires Valid()
      modifies this
      ensures Valid() && cached == None
      ensures agents == WithReport(old(agents), Failed(agent, tokens, costUsd))
    {
      var s := Get(agents, agent, NO_STATS);
      var t := Stats(s.completed, s.failed + 1, s.qualitySum, s.tokens + tokens, s.costUsd + costUsd);
      PutKeeps(agents, agent, t, agent, NO_STATS);
      agents := Put(agents, agent, t);
      cached := None;
    }

    method ComputeScores() returns (entries: seq<Score>)
      requires Valid()
      modifies `cached
      ensures Valid() && entries == LeaderboardOf(agents) && cached == Some(entries)
    {
      var rawScores: seq<Row> := [];
      var i := 0;
      while i < |agents|
        invariant 0 <= i <= |agents| && rawScores == Rows(agents)[..i]
      {
        var s := agents[i].value;
        assert Rows(agents)[..i + 1] == Rows(agents)[..i] + [Rows(agents)[i]];
        rawScores := rawScores + [Keyed(RawEfficiency(s), i, Raw(agents[i].key, AvgQuality(s), s))];
        i := i + 1;
      }
      assert rawScores == Rows(agents);
      rawScores := SortDescending(rawScores);
      var maxEff := if rawScores == [] then 1.0 else rawScores[0].key;
      if maxEff <= 0.0 { maxEff := 1.0; }
      entries := [];
      var k := 0;
      while k < |rawScores|
        invariant 0 <= k <= |rawScores| && entries == Entries(rawScores)[..k]
      {
        assert Entries(rawScores)[..k + 1] == Entries(rawScores)[..k] + [Entries(rawScores)[k]];
        entries := entries + [ScoreOf(rawScores[k], maxEff, k + 1)];
        k := k + 1;
      }
      assert entries == Entries(rawScores);
      cached := Some(entries);
    }

    method GetAgentScore(agent: AgentId) returns (score: Score)
      requires Valid()
      modifies `cached
      ensures Valid() && score == AgentScore(LeaderboardOf(agents), agent)
    {
      var entries: seq<Score>;
      if cached.Some? { entries := cached.value; } else { entries := ComputeScores(); }
      var default := Untracked(agent, |entries| + 1);
      var i := 0;
      while i < |entries|
        invariant 0 <= i <= |entries|
        invariant FirstFor(entries, agent, default) == FirstFor(entries[i..], agent, default)
      {
        if entries[i].agent == agent { return entries[i]; }
        assert entries[i..][1..] == entries[i + 1..];
        i := i + 1;
      }
      score := default;
    }
  }

  // ------------------------------------------------------------ runs

  function After(run: seq<Report>): Agents {
    if run == [] then [] else WithReport(After(run[..|run| - 1]), run[|run| - 1])
  }

  // What the reports about one agent add up to.
  function Completions(run: seq<Report>, agent: AgentId): nat {
    if run == [] then 0
    else
      var r := run[|run| - 1];
      Completions(run[..|run| - 1], agent) + if r.agent == agent && r.Completed? then 1 else 0
  }

  function Failures(run: seq<Report>, agent: AgentId): nat {
    if run == [] then 0
    else
      var r := run[|run| - 1];
      Failures(run[..|run| - 1], agent) + if r.agent == agent && r.Failed? then 1 else 0
  }

  function QualityTotal(run: seq<Report>, agent: AgentId): real {
    if run == [] then 0.0
    else
      var r := run[|run| - 1];
      QualityTotal(run[..|run| - 1], agent) + if r.agent == agent && r.Completed? then r.quality else 0.0
  }

  function TokensUsed(run: seq<Report>, agent: AgentId): int {
    if run == [] then 0
    else
      var r := run[|run| - 1];
      TokensUsed(run[..|run| - 1], agent) + if r.agent == agent then r.tokens else 0
  }

  function CostIncurred(run: seq<Report>, agent: AgentId): real {
    if run == [] then 0.0
    else
      var r := run[|run| - 1];
      CostIncurred(run[..|run| - 1], agent) + if r.agent == agent then r.costUsd else 0.0
  }

  function OwnStats(run: seq<Report>, agent: AgentId): Stats {
    Stats(Completions(run, agent), Failures(run, agent), QualityTotal(run, agent), TokensUsed(run, agent),
          CostIncurred(run, agent))
  }

  predicate Reported(run: seq<Report>, agent: AgentId) {
    run != [] && (run[|run| - 1].agent == agent || Reported(run[..|run| - 1], agent))
  }

  /** In every run an agent's statistics are the sums over the reports about that agent, whatever
      is reported of others, and exactly the agents reported about are tracked. */
  lemma {:induction false} StatsAreOwnReports(run: seq<Report>, agent: AgentId)
    ensures Distinct(After(run)) && Get(After(run), agent, NO_STATS) == OwnStats(run, agent)
    ensures Has(After(run), agent) <==> Reported(run, agent)
  {
    if run != [] {
      var before, r := After(run[..|run| - 1]), run[|run| - 1];
      StatsAreOwnReports(run[..|run| - 1], agent);
      PutKeeps(before, r.agent, Added(Get(before, r.agent, NO_STATS), r), agent, NO_STATS);
    }
  }

  /** The raw efficiency is the sum of the qualities of the completed tasks per token, where no
      tokens count as one. */
  lemma EfficiencyIsQualityPerToken(run: seq<Report>, agent: AgentId)
    ensures RawEfficiency(OwnStats(run, agent)) * Weight(run, agent) as real == QualityTotal(run, agent)
  {
    NothingCompleted(run, agent);
    RawIsPerToken(OwnStats(run, agent));
    TimesQuotient(Weight(run, agent) as real, QualityTotal(run, agent));
  }

  function Weight(run: seq<Report>, agent: AgentId): (n: nat)
    ensures n >= 1
  {
    if TokensUsed(run, agent) > 1 then TokensUsed(run, agent) else 1
  }

  lemma RawIsPerToken(s: Stats)
    requires s.completed == 0 ==> s.qualitySum == 0.0
    ensures RawEfficiency(s) == PerToken(s.qualitySum, s.tokens)
  {
    var product := s.completed as real * AvgQuality(s);
    assert product == s.qualitySum by { if s.completed > 0 { TimesQuotient(s.completed as real, s.qualitySum); } }
    assert RawEfficiency(s) == PerToken(product, s.tokens);
  }

  lemma TimesQuotient(n: real, x: real)
    requires n > 0.0
    ensures n * (x / n) == x
  {}

  lemma {:induction false} NothingCompleted(run: seq<Report>, agent: AgentId)
    ensures var s := OwnStats(run, agent); s.completed == 0 ==> s.qualitySum == 0.0
  {
    if run != [] { NothingCompleted(run[..|run| - 1], agent); }
  }

  // ------------------------------------------------------------ theorems

  /** The leaderboard lists every tracked agent once, by descending raw efficiency, equal agents in
      the order they were first seen, ranked 1 to n. */
  lemma LeaderboardRanksEveryAgent(agents: Agents)
    ensures var rows := SortDescending(Rows(agents));
            var entries := LeaderboardOf(agents);
            && multiset(rows) == multiset(Rows(agents)) && Ordered(rows)
            && |entries| == |agents|
            && (forall i | 0 <= i < |entries| :: entries[i].agent == rows[i].item.agent && entries[i].rank == i + 1)
  {
    SortOrders(Rows(agents));
  }

  ghost predicate NonNegativeQuality(agents: Agents) {
    forall i | 0 <= i < |agents| :: agents[i].value.qualitySum >= 0.0
  }

  lemma RawNonNegative(s: Stats)
    requires s.qualitySum >= 0.0
    ensures RawEfficiency(s) >= 0.0
  {
    if s.completed > 0 { assert AvgQuality(s) >= 0.0; }
  }

  lemma QuotientInUnit(x: real, scale: real)
    requires 0.0 <= x <= scale && scale > 0.0
    ensures 0.0 <= x / scale <= 1.0
  {
    var q := x / scale;
    assert q * scale == x;
    if q > 1.0 { Exceeds(q, scale); }
  }

  lemma Exceeds(q: real, scale: real)
    requires q > 1.0 && scale > 0.0
    ensures q * scale > scale
  {}

  lemma SelfQuotient(x: real)
    requires x > 0.0
    ensures x / x == 1.0
  {}

  lemma RatioInUnit(x: real, scale: real)
    requires 0.0 <= x <= scale && scale > 0.0
    ensures 0.0 <= RoundTo(x / scale, 10_000) <= 1.0
    ensures x == scale ==> RoundTo(x / scale, 10_000) == 1.0
  {
    QuotientInUnit(x, scale);
    if x == scale { SelfQuotient(scale); }
    RoundToMonotone(0.0, x / scale, 10_000);
    RoundToMonotone(x / scale, 1.0, 10_000);
    RoundToWhole(0, 10_000);
    RoundToWhole(1, 10_000);
  }

  // Rows whose raw efficiencies run from the first one down to nothing below zero.
  ghost predicate FromTopToZero(rows: seq<Row>) {
    forall i | 0 <= i < |rows| :: 0.0 <= rows[i].key <= rows[0].key
  }

  lemma EntriesNormalised(rows: seq<Row>)
    requires FromTopToZero(rows)
    ensures forall i | 0 <= i < |rows| :: 0.0 <= Entries(rows)[i].efficiency <= 1.0
    ensures rows != [] && rows[0].key > 0.0 ==> Entries(rows)[0].efficiency == 1.0
  {
    forall i | 0 <= i < |rows| ensures 0.0 <= Entries(rows)[i].efficiency <= 1.0 {
      RatioInUnit(rows[i].key, Scale(rows));
    }
    if rows != [] { RatioInUnit(rows[0].key, Scale(rows)); }
  }

  // The rows are the agents' rows, all of them.
  ghost predicate Lists(rows: seq<Row>, agents: Agents) {
    && |rows| == |agents|
    && (forall i | 0 <= i < |rows| :: rows[i].place < |agents| && rows[i] == RowOf(agents, rows[i].place))
    && (forall k | 0 <= k < |agents| :: RowOf(agents, k) in rows)
  }

  lemma SortedRowsListAgents(agents: Agents)
    ensures Lists(SortDescending(Rows(agents)), agents)
  {
    var rows := SortDescending(Rows(agents));
    SortOrders(Rows(agents));
    forall i | 0 <= i < |rows|
      ensures rows[i].place < |agents| && rows[i] == RowOf(agents, rows[i].place)
    {
      assert rows[i] in multiset(Rows(agents));
    }
    forall k | 0 <= k < |agents| ensures RowOf(agents, k) in rows {
      assert Rows(agents)[k] in multiset(Rows(agents));
    }
  }

  lemma TopIsFirst(rows: seq<Row>, agents: Agents)
    requires Ordered(rows) && Lists(rows, agents) && NonNegativeQuality(agents)
    ensures FromTopToZero(rows)
    ensures forall k | 0 <= k < |agents| :: RawEfficiency(agents[k].value) <= rows[0].key
  {
    forall i | 0 <= i < |rows| ensures 0.0 <= rows[i].key <= rows[0].key {
      RawNonNegative(agents[rows[i].place].value);
    }
    forall k | 0 <= k < |agents| ensures RawEfficiency(agents[k].value) <= rows[0].key {
      assert RowOf(agents, k) in rows;
    }
  }

  // With non-negative qualities all scores lie in [0, 1], and the first is 1 whenever some agent
  // has a positive raw efficiency.
  lemma NormalisedFor(agents: Agents)
    requires NonNegativeQuality(agents)
    ensures var entries := LeaderboardOf(agents);
            && (forall i | 0 <= i < |entries| :: 0.0 <= entries[i].efficiency <= 1.0)
            && ((exists k | 0 <= k < |agents| :: RawEfficiency(agents[k].value) > 0.0) ==>
                  entries != [] && entries[0].efficiency == 1.0)
  {
    var rows := SortDescending(Rows(agents));
    SortOrders(Rows(agents));
    SortedRowsListAgents(agents);
    TopIsFirst(rows, agents);
    EntriesNormalised(rows);
  }

  // The entry reports the agent's own figures, quality and cost up to their rounding.
  predicate TellsOf(score: Score, s: Stats) {
    && score.completed == s.completed && score.failed == s.failed && score.tokens == s.tokens
    && (if s.completed > 0 then -0.00005 <= score.quality - s.qualitySum / s.completed as real <= 0.00005
        else score.quality == 0.0)
    && -0.0000005 <= score.costUsd - s.costUsd <= 0.0000005
  }

  lemma FiguresTell(r: Row, scale: real, rank: nat)
    requires scale > 0.0 && r.item.avgQuality == AvgQuality(r.item.stats)
    ensures TellsOf(ScoreOf(r, scale, rank), r.item.stats)
  {
    RoundToIsNear(r.item.avgQuality, 10_000, 0.00005);
    RoundToIsNear(r.item.stats.costUsd, 1_000_000, 0.0000005);
    RoundToWhole(0, 10_000);
  }

  /** An agent's own score is its one leaderboard entry, rank included; an untracked agent gets
      zeroes and the rank after the last. */
  lemma AgentScoreIsItsEntry(agents: Agents, agent: AgentId)
    requires Distinct(agents)
    ensures var entries := LeaderboardOf(agents);
            var score := AgentScore(entries, agent);
            if Has(agents, agent) then
              score.agent == agent && score in entries && 1 <= score.rank <= |agents|
              && TellsOf(score, Get(agents, agent, NO_STATS))
            else score == Score(agent, 0.0, 0, 0, 0.0, 0, 0.0, |agents| + 1)
  {
    SortedRowsListAgents(agents);
    ScoreAmong(SortDescending(Rows(agents)), agents, agent);
  }

  lemma ScoreAmong(rows: seq<Row>, agents: Agents, agent: AgentId)
    requires Distinct(agents) && Lists(rows, agents)
    ensures var entries := Entries(rows);
            var score := AgentScore(entries, agent);
            if Has(agents, agent) then
              score.agent == agent && score in entries && 1 <= score.rank <= |agents|
              && TellsOf(score, Get(agents, agent, NO_STATS))
            else score == Score(agent, 0.0, 0, 0, 0.0, 0, 0.0, |agents| + 1)
  {
    var entries := Entries(rows);
    var j := FirstForIs(entries, agent, Untracked(agent, |entries| + 1));
    if j < |entries| {
      assert agents[rows[j].place].key == agent;
      FindIs(agents, agent, rows[j].place);
      FiguresTell(rows[j], Scale(rows), j + 1);
    } else {
      forall k | 0 <= k < |agents| ensures agents[k].key != agent {
        var i :| 0 <= i < |rows| && rows[i] == RowOf(agents, k);
        assert entries[i].agent == agents[k].key;
      }
    }
  }

  lemma FirstForIs(entries: seq<Score>, agent: AgentId, default: Score) returns (j: nat)
    ensures j <= |entries|
    ensures FirstFor(entries, agent, default) == if j < |entries| then entries[j] else default
    ensures j < |entries| ==> entries[j].agent == agent
    ensures j == |entries| ==> forall i | 0 <= i < |entries| :: entries[i].agent != agent
  {
    if entries == [] || entries[0].agent == agent {
      j := 0;
    } else {
      j := FirstForIs(entries[1..], agent, default);
      j := j + 1;
    }
  }

  // The scores as they are reported, rounded.
  ghost predicate Descending(entries: seq<Score>) {
    forall i, j | 0 <= i < j < |entries| :: entries[i].efficiency >= entries[j].efficiency
  }

  lemma RoundedRatioMonotone(x: real, y: real, scale: real)
    requires x <= y && scale > 0.0
    ensures RoundTo(x / scale, 10_000) <= RoundTo(y / scale, 10_000)
  {
    RoundToMonotone(x / scale, y / scale, 10_000);
  }

  lemma EntriesDescend(rows: seq<Row>)
    requires Ordered(rows)
    ensures Descending(Entries(rows))
  {
    forall i, j | 0 <= i < j < |rows| ensures Entries(rows)[i].efficiency >= Entries(rows)[j].efficiency {
      assert Precedes(rows[i], rows[j]);
      RoundedRatioMonotone(rows[j].key, rows[i].key, Scale(rows));
    }
  }

  predicate QualitiesNonNegative(run: seq<Report>) {
    run == []
    || (&& QualitiesNonNegative(run[..|run| - 1])
        && (run[|run| - 1].Completed? ==> run[|run| - 1].quality >= 0.0))
  }

  lemma {:induction false} SumsNonNegative(run: seq<Report>, agent: AgentId)
    requires QualitiesNonNegative(run)
    ensures OwnStats(run, agent).qualitySum >= 0.0
  {
    if run != [] { SumsNonNegative(run[..|run| - 1], agent); }
  }

  /** After every run of reports the scores are reported in descending order; when no quality was
      negative they lie in [0, 1], and the first is 1 whenever some agent's raw efficiency is
      positive. */
  lemma ScoresAreNormalised(run: seq<Report>)
    ensures var entries := LeaderboardOf(After(run));
            && Descending(entries)
            && (QualitiesNonNegative(run) ==>
                  (forall i | 0 <= i < |entries| :: 0.0 <= entries[i].efficiency <= 1.0)
                  && ((exists agent :: RawEfficiency(OwnStats(run, agent)) > 0.0) ==>
                        entries != [] && entries[0].efficiency == 1.0))
  {
    var agents := After(run);
    SortOrders(Rows(agents));
    EntriesDescend(SortDescending(Rows(agents)));
    if QualitiesNonNegative(run) {
      StatsOfEveryPlace(run);
      forall k | 0 <= k < |agents| ensures agents[k].value.qualitySum >= 0.0 {
        SumsNonNegative(run, agents[k].key);
      }
      NormalisedFor(agents);
      if agent :| RawEfficiency(OwnStats(run, agent)) > 0.0 { SomeonePositive(run, agent); }
    }
  }

  lemma StatsOfEveryPlace(run: seq<Report>)
    ensures forall k | 0 <= k < |After(run)| :: After(run)[k].value == OwnStats(run, After(run)[k].key)
  {
    var agents := After(run);
    forall k | 0 <= k < |agents| ensures agents[k].value == OwnStats(run, agents[k].key) {
      StatsAreOwnReports(run, agents[k].key);
      FindIs(agents, agents[k].key, k);
    }
  }

  // An agent with a positive raw efficiency is tracked.
  lemma SomeonePositive(run: seq<Report>, agent: AgentId)
    requires RawEfficiency(OwnStats(run, agent)) > 0.0
    ensures exists k | 0 <= k < |After(run)| :: RawEfficiency(After(run)[k].value) > 0.0
  {
    var agents := After(run);
    StatsAreOwnReports(run, agent);
    NothingIsEfficient();
    assert agents[Find(agents, agent)].value == OwnStats(run, agent);
  }

  lemma NothingIsEfficient()
    ensures RawEfficiency(NO_STATS) == 0.0
  {
    assert PerToken(0.0, 0) == 0.0;
  }

  // ------------------------------------------------------------ the ranking

  // When an agent was first reported about.
  function FirstReport(run: seq<Report>, agent: AgentId): nat {
    if run == [] then 0
    else if Reported(run[..|run| - 1], agent) then FirstReport(run[..|run| - 1], agent)
    else |run| - 1
  }

  ghost predicate ByFirstReport(run: seq<Report>, agents: Agents) {
    forall i, j | 0 <= i < j < |agents| ::
      FirstReport(run, agents[i].key) < FirstReport(run, agents[j].key) < |run|
  }

  lemma TrackedIsReported(run: seq<Report>, k: nat)
    requires k < |After(run)|
    ensures Reported(run, After(run)[k].key)
  {
    StatsAreOwnReports(run, After(run)[k].key);
  }

  lemma {:induction false} FirstReportWithin(run: seq<Report>, agent: AgentId)
    requires run != []
    ensures FirstReport(run, agent) < |run|
  {
    if Reported(run[..|run| - 1], agent) { FirstReportWithin(run[..|run| - 1], agent); }
  }

  lemma {:induction false} AgentsByFirstReport(run: seq<Report>)
    ensures ByFirstReport(run, After(run))
  {
    if run != [] {
      var before, r := run[..|run| - 1], run[|run| - 1];
      var agents, more := After(before), After(run);
      AgentsByFirstReport(before);
      StatsAreOwnReports(before, r.agent);
      PutKeepsOrder(agents, r.agent, Added(Get(agents, r.agent, NO_STATS), r));
      forall i, j | 0 <= i < j < |more|
        ensures FirstReport(run, more[i].key) < FirstReport(run, more[j].key) < |run|
      {
        TrackedIsReported(before, i);
        FirstReportWithin(before, more[i].key);
        if j < |agents| { TrackedIsReported(before, j); }
      }
    }
  }

  function Times(x: real, n: nat): real { x * n as real }

  // More quality per token, or as much and reported about earlier.
  predicate Ahead(run: seq<Report>, a: AgentId, b: AgentId) {
    var x, y := Times(QualityTotal(run, a), Weight(run, b)), Times(QualityTotal(run, b), Weight(run, a));
    x > y || (x == y && FirstReport(run, a) < FirstReport(run, b))
  }

  lemma QuotientOrder(x: real, m: nat, mx: real, y: real, n: nat, ny: real)
    requires m >= 1 && n >= 1 && mx == Times(x, m) && ny == Times(y, n)
    ensures x > y ==> Times(mx, n) > Times(ny, m)
    ensures x == y ==> Times(mx, n) == Times(ny, m)
  {
    var d, p := x - y, m as real * n as real;
    assert p > 0.0;
    assert Times(mx, n) - Times(ny, m) == d * p;
    if d > 0.0 { assert d * p > 0.0; }
  }

  lemma AheadByEfficiency(run: seq<Report>, a: AgentId, b: AgentId, x: real, y: real)
    requires QualityTotal(run, a) == Times(x, Weight(run, a)) && QualityTotal(run, b) == Times(y, Weight(run, b))
    requires x > y || (x == y && FirstReport(run, a) < FirstReport(run, b))
    ensures Ahead(run, a, b)
  {
    QuotientOrder(x, Weight(run, a), QualityTotal(run, a), y, Weight(run, b), QualityTotal(run, b));
  }

  // The row of an agent that is tracked in this place.
  predicate OwnRow(run: seq<Report>, r: Row) {
    && r.place < |After(run)| && After(run)[r.place].key == r.item.agent
    && r.key == RawEfficiency(OwnStats(run, r.item.agent))
  }

  lemma PrecedingIsAhead(run: seq<Report>, x: Row, y: Row)
    requires OwnRow(run, x) && OwnRow(run, y) && Precedes(x, y)
    ensures Ahead(run, x.item.agent, y.item.agent)
  {
    EfficiencyIsQualityPerToken(run, x.item.agent);
    EfficiencyIsQualityPerToken(run, y.item.agent);
    if x.key == y.key { EarlierReport(run, x.place, y.place); }
    AheadByEfficiency(run, x.item.agent, y.item.agent, x.key, y.key);
  }

  lemma EarlierReport(run: seq<Report>, i: nat, j: nat)
    requires i < j < |After(run)|
    ensures FirstReport(run, After(run)[i].key) < FirstReport(run, After(run)[j].key)
  {
    AgentsByFirstReport(run);
  }

  lemma ListedRowIsOwn(run: seq<Report>, rows: seq<Row>, i: nat)
    requires Lists(rows, After(run)) && i < |rows|
    ensures OwnRow(run, rows[i])
  {
    StatsOfEveryPlace(run);
  }

  lemma OwnRows(run: seq<Report>)
    ensures var rows, entries := SortDescending(Rows(After(run))), LeaderboardOf(After(run));
            && |entries| == |rows| && Ordered(rows)
            && forall i | 0 <= i < |rows| ::
                 OwnRow(run, rows[i]) && entries[i].agent == rows[i].item.agent && entries[i].rank == i + 1
  {
    var rows := SortDescending(Rows(After(run)));
    LeaderboardRanksEveryAgent(After(run));
    SortedRowsListAgents(After(run));
    forall i | 0 <= i < |rows| ensures OwnRow(run, rows[i]) { ListedRowIsOwn(run, rows, i); }
  }

  /** After every run of reports the leaderboard is by quality per token, compared without rounding,
      and agents with the same are in the order in which they were first reported about. */
  lemma RankedByQualityPerToken(run: seq<Report>, i: nat, j: nat)
    requires i < j < |LeaderboardOf(After(run))|
    ensures var entries := LeaderboardOf(After(run));
            entries[i].rank == i + 1 && Ahead(run, entries[i].agent, entries[j].agent)
  {
    var rows := SortDescending(Rows(After(run)));
    OwnRows(run);
    PrecedingIsAhead(run, rows[i], rows[j]);
  }

  lemma EntryIsRatio(rows: seq<Row>, i: nat)
    requires i < |rows|
    ensures -0.00005
         <= Entries(rows)[i].efficiency - rows[i].key / (if rows[0].key > 0.0 then rows[0].key else 1.0)
         <= 0.00005
  {
    RoundToIsNear(rows[i].key / Scale(rows), 10_000, 0.00005);
  }

  /** A score is the raw efficiency over that of the first agent, or the raw efficiency itself when
      that is not positive, up to its rounding. */
  lemma ScoresAreRatios(run: seq<Report>, i: nat, top: real)
    requires i < |LeaderboardOf(After(run))|
    requires top == RawEfficiency(OwnStats(run, LeaderboardOf(After(run))[0].agent))
    ensures var score := LeaderboardOf(After(run))[i];
            var raw := RawEfficiency(OwnStats(run, score.agent));
            -0.00005 <= score.efficiency - raw / (if top > 0.0 then top else 1.0) <= 0.00005
  {
    OwnRows(run);
    EntryIsRatio(SortDescending(Rows(After(run))), i);
  }
}
