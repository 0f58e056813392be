// The spin detector of services/economic-governor (spin_detector.py): streak counters kept in
// an LRU-bounded ordered dictionary, against the unbounded counter they approximate.
module SpinDetector {
  import opened Common

  datatype Key = Key(agent: string, task: string)

  datatype Entry = Entry(key: Key, count: nat, tokens: int)

  // The ordered dictionary, least recently retried entry first.
  type Table = seq<Entry>

  datatype Op =
    | Retry(key: Key, hasDiff: bool, tokens: int)
    | Reset(agent: string)

  datatype Detection = Detection(isSpinning: bool, retryCount: nat, tokensSinceLastDiff: int)

  // What a removal takes out: one key, or every key of an agent.
  datatype Selection = One(key: Key) | OfAgent(agent: string)

  predicate Selected(sel: Selection, k: Key) {
    match sel
    case One(key) => k == key
    case OfAgent(agent) => k.agent == agent
  }

  // ------------------------------------------------------------ dictionary

  function Keys(t: Table): set<Key> { set i | 0 <= i < |t| :: t[i].key }

  predicate Distinct(t: Table) {
    t == [] || (t[0].key !in Keys(t[1..]) && Distinct(t[1..]))
  }

  function Discard(t: Table, sel: Selection): Table {
    if t == [] then []
    else (if Selected(sel, t[0].key) then [] else [t[0]]) + Discard(t[1..], sel)
  }

  // `dict.get(key, (0, 0))`
  function Lookup(t: Table, key: Key): Entry {
    if t == [] then Entry(key, 0, 0)
    else if t[0].key == key then t[0]
    else Lookup(t[1..], key)
  }

  function Newest(t: Table, max: nat): Table {
    if |t| <= max then t else t[|t| - max..]
  }

  // Keys stored after `key`.
  function Later(t: Table, key: Key): set<Key> {
    if t == [] then {}
    else if t[0].key == key then Keys(t[1..])
    else Later(t[1..], key)
  }

  // --------------------------------------------------------- specification

  function Bumped(t: Table, key: Key, tokens: int): Entry {
    var prev := Lookup(t, key);
    Entry(key, prev.count + 1, prev.tokens + tokens)
  }

  function Apply(t: Table, op: Op, max: nat): Table {
    match op
    case Retry(key, hasDiff, tokens) =>
      if hasDiff then Discard(t, One(key))
      else Newest(Discard(t, One(key)) + [Bumped(t, key, tokens)], max)
    case Reset(agent) => Discard(t, OfAgent(agent))
  }

  function Detect(t: Table, key: Key, hasDiff: bool, tokens: int, maxRetries: int): Detection {
    if hasDiff then Detection(false, 0, 0)
    else
      var e := Bumped(t, key, tokens);
      Detection(e.count >= maxRetries, e.count, e.tokens)
  }

  function After(history: seq<Op>, max: nat): Table {
    if history == [] then []
    else Apply(After(history[..|history| - 1], max), history[|history| - 1], max)
  }

  class SpinDetector {
    const maxRetries: int
    const maxTracked: nat
    var state: Table

    constructor (maxRetries: int, maxTracked: nat)
      ensures this.maxRetries == maxRetries && this.maxTracked == maxTracked && state == []
    {
      this.maxRetries := maxRetries;
      this.maxTracked := maxTracked;
      state := [];
    }

    method RecordRetry(key: Key, hasDiff: bool, tokens: int) returns (d: Detection)
      modifies this
      ensures state == Apply(old(state), Retry(key, hasDiff, tokens), maxTracked)
      ensures d == Detect(old(state), key, hasDiff, tokens, maxRetries)
    {
      if hasDiff {
        state := Discard(state, One(key));
        return Detection(false, 0, 0);
      }
      var prev := Lookup(state, key);
      var newCount := prev.count + 1;
      var newTokens := prev.tokens + tokens;
      state := Discard(state, One(key)) + [Entry(key, newCount, newTokens)];
      ghost var full, dropped := state, 0;
      while |state| > maxTracked
        invariant 0 <= dropped <= |full| && state == full[dropped..]
        invariant dropped > 0 ==> |state| >= maxTracked
      {
        assert full[dropped..][1..] == full[dropped + 1..];
        state := state[1..];
        dropped := dropped + 1;
      }
      assert state == Newest(full, maxTracked);
      d := Detection(newCount >= maxRetries, newCount, newTokens);
    }

    method Reset(agent: string)
      modifies this
      ensures state == Apply(old(state), Op.Reset(agent), maxTracked)
    {
      var keysToRemove := KeysOfAgent(state, agent);
      var i := 0;
      while i < |keysToRemove|
        invariant 0 <= i <= |keysToRemove|
        invariant DiscardAll(state, keysToRemove[i..]) == DiscardAll(old(state), keysToRemove)
      {
        assert keysToRemove[i..][1..] == keysToRemove[i + 1..];
        state := Discard(state, One(keysToRemove[i]));
        i := i + 1;
      }
      DiscardAllOfAgent(old(state), agent);
    }
  }

  function KeysOfAgent(t: Table, agent: string): seq<Key> {
    if t == [] then []
    else (if t[0].key.agent == agent then [t[0].key] else []) + KeysOfAgent(t[1..], agent)
  }

  ghost function DiscardAll(t: Table, keys: seq<Key>): Table
    decreases keys
  {
    if keys == [] then t else DiscardAll(Discard(t, One(keys[0])), keys[1..])
  }

  lemma {:induction false} DiscardAllFrom(t: Table, keys: seq<Key>)
    requires t != []
    ensures DiscardAll(t, keys) == (if t[0].key in keys then [] else [t[0]]) + DiscardAll(t[1..], keys)
    decreases keys
  {
    if keys != [] {
      var u := Discard(t, One(keys[0]));
      var v := Discard(t[1..], One(keys[0]));
      if t[0].key != keys[0] {
        assert u == [t[0]] + v && u[1..] == v;
        DiscardAllFrom(u, keys[1..]);
      } else {
        assert u == v;
      }
    }
  }

  lemma {:induction false} KeysOfAgentAre(t: Table, agent: string, key: Key)
    ensures key in KeysOfAgent(t, agent) <==> key in Keys(t) && key.agent == agent
  {
    if t != [] {
      KeysOfAgentAre(t[1..], agent, key);
      KeysCons(t);
    }
  }

  lemma KeysCons(t: Table)
    requires t != []
    ensures Keys(t) == {t[0].key} + Keys(t[1..])
  {
    forall k | k in Keys(t) ensures k in {t[0].key} + Keys(t[1..]) {
      var i :| 0 <= i < |t| && t[i].key == k;
      if i > 0 { assert t[1..][i - 1].key == k; }
    }
    assert t[0].key in Keys(t);
    forall k | k in Keys(t[1..]) ensures k in Keys(t) {
      var i :| 0 <= i < |t| - 1 && t[1..][i].key == k;
      assert t[i + 1].key == k;
    }
  }

  // Deleting an agent's keys one by one, as listed, leaves the other agents' entries.
  lemma {:induction false} DiscardAllOfAgentFrom(t: Table, agent: string, keys: seq<Key>)
    requires forall i | 0 <= i < |t| :: t[i].key in keys <==> t[i].key.agent == agent
    ensures DiscardAll(t, keys) == Discard(t, OfAgent(agent))
    decreases t
  {
    if t == [] {
      DiscardAllEmpty(keys);
    } else {
      DiscardAllFrom(t, keys);
      forall i | 0 <= i < |t[1..]| ensures t[1..][i].key in keys <==> t[1..][i].key.agent == agent {
        assert t[1..][i] == t[i + 1];
      }
      DiscardAllOfAgentFrom(t[1..], agent, keys);
    }
  }

  lemma {:induction false} DiscardAllEmpty(keys: seq<Key>)
    ensures DiscardAll([], keys) == []
  {
    if keys != [] { DiscardAllEmpty(keys[1..]); }
  }

  lemma DiscardAllOfAgent(t: Table, agent: string)
    ensures DiscardAll(t, KeysOfAgent(t, agent)) == Discard(t, OfAgent(agent))
  {
    forall i | 0 <= i < |t| ensures t[i].key in KeysOfAgent(t, agent) <==> t[i].key.agent == agent {
      KeysOfAgentAre(t, agent, t[i].key);
    }
    DiscardAllOfAgentFrom(t, agent, KeysOfAgent(t, agent));
  }

  // ---------------------------------------------------- dictionary lemmas

  lemma {:induction false} DiscardKeys(t: Table, sel: Selection)
    ensures Keys(Discard(t, sel)) == set k | k in Keys(t) && !Selected(sel, k)
    ensures Distinct(t) ==> Distinct(Discard(t, sel))
  {
    if t != [] {
      var rest := Discard(t[1..], sel);
      DiscardKeys(t[1..], sel);
      KeysCons(t);
      if !Selected(sel, t[0].key) {
        var d := [t[0]] + rest;
        assert d[1..] == rest;
        KeysCons(d);
      } else {
        assert Discard(t, sel) == rest;
      }
    }
  }

  lemma {:induction false} DiscardOthers(t: Table, sel: Selection, key: Key)
    requires !Selected(sel, key)
    ensures Lookup(Discard(t, sel), key) == Lookup(t, key)
    ensures Later(Discard(t, sel), key) == set k | k in Later(t, key) && !Selected(sel, k)
  {
    if t != [] {
      var rest := Discard(t[1..], sel);
      DiscardOthers(t[1..], sel, key);
      DiscardKeys(t[1..], sel);
      if !Selected(sel, t[0].key) {
        assert ([t[0]] + rest)[1..] == rest;
      } else {
        assert Discard(t, sel) == rest;
      }
    }
  }

  lemma {:induction false} AppendEntry(t: Table, e: Entry, key: Key)
    requires Distinct(t) && e.key !in Keys(t)
    ensures Distinct(t + [e]) && Keys(t + [e]) == Keys(t) + {e.key}
    ensures Lookup(t + [e], key) == if key == e.key then e else Lookup(t, key)
    ensures Later(t + [e], key) == if key in Keys(t) then Later(t, key) + {e.key} else {}
  {
    if t == [] {
      assert t + [e] == [e];
      KeysCons([e]);
    } else {
      KeysCons(t);
      AppendEntry(t[1..], e, key);
      assert (t + [e])[1..] == t[1..] + [e];
      KeysCons(t + [e]);
    }
  }

  lemma {:induction false} LookupAbsent(t: Table, key: Key)
    requires key !in Keys(t)
    ensures Lookup(t, key) == Entry(key, 0, 0) && Later(t, key) == {}
  {
    if t != [] {
      KeysCons(t);
      LookupAbsent(t[1..], key);
    }
  }

  lemma {:induction false} KeyCount(t: Table)
    requires Distinct(t)
    ensures |Keys(t)| == |t|
  {
    if t != [] {
      KeysCons(t);
      KeyCount(t[1..]);
    }
  }

  // Trimming to `max` entries keeps exactly the keys with fewer than `max` keys after them.
  lemma {:induction false} NewestKeeps(t: Table, max: nat, key: Key)
    requires Distinct(t)
    ensures Distinct(Newest(t, max)) && |Newest(t, max)| <= max && Keys(Newest(t, max)) <= Keys(t)
    ensures key in Keys(Newest(t, max)) <==> key in Keys(t) && |Later(t, key)| < max
    ensures key in Keys(Newest(t, max)) ==>
              Lookup(Newest(t, max), key) == Lookup(t, key) && Later(Newest(t, max), key) == Later(t, key)
  {
    if t != [] {
      KeysCons(t);
      KeyCount(t[1..]);
      if |t| > max {
        NewestKeeps(t[1..], max, key);
        assert Newest(t, max) == Newest(t[1..], max);
        if key == t[0].key { assert key !in Keys(Newest(t[1..], max)); }
      } else if key in Keys(t) {
        LaterIsFewer(t, key);
      }
    }
  }

  lemma {:induction false} LaterIsFewer(t: Table, key: Key)
    requires Distinct(t) && key in Keys(t)
    ensures |Later(t, key)| < |t|
  {
    KeysCons(t);
    if t[0].key == key { KeyCount(t[1..]); } else { LaterIsFewer(t[1..], key); }
  }

  // ------------------------------------------------- the unbounded counter

  // Retries without a diff since the last diff or reset.
  function Streak(history: seq<Op>, key: Key): nat {
    if history == [] then 0
    else
      var before := Streak(history[..|history| - 1], key);
      match history[|history| - 1]
      case Retry(k, hasDiff, _) => if k != key then before else if hasDiff then 0 else before + 1
      case Reset(agent) => if agent == key.agent then 0 else before
  }

  function StreakTokens(history: seq<Op>, key: Key): int {
    if history == [] then 0
    else
      var before := StreakTokens(history[..|history| - 1], key);
      match history[|history| - 1]
      case Retry(k, hasDiff, tokens) => if k != key then before else if hasDiff then 0 else before + tokens
      case Reset(agent) => if agent == key.agent then 0 else before
  }

  // Position (from 1) of the last retry without a diff, 0 if there was none.
  function LastRetry(history: seq<Op>, key: Key): nat {
    if history == [] then 0
    else
      var op := history[|history| - 1];
      if op.Retry? && op.key == key && !op.hasDiff then |history|
      else LastRetry(history[..|history| - 1], key)
  }

  // Other keys retried without a diff since `key` last was, and in a streak of their own still.
  function LiveSince(history: seq<Op>, key: Key): set<Key> {
    if history == [] then {}
    else
      var before := LiveSince(history[..|history| - 1], key);
      match history[|history| - 1]
      case Retry(k, hasDiff, _) =>
        if hasDiff then before - {k} else if k == key then {} else before + {k}
      case Reset(agent) => set k | k in before && k.agent != agent
  }

  // Other keys retried without a diff since `key` last was.
  function RecordedSince(history: seq<Op>, key: Key): set<Key> {
    if history == [] then {}
    else
      var before := RecordedSince(history[..|history| - 1], key);
      match history[|history| - 1]
      case Retry(k, hasDiff, _) =>
        if hasDiff then before else if k == key then {} else before + {k}
      case Reset(_) => before
  }

  // Throughout the current streak of `key`, fewer than `max` live others after each retry.
  ghost predicate Uncrowded(history: seq<Op>, key: Key, max: nat) {
    Streak(history, key) == 0
    || (|LiveSince(history, key)| < max && Uncrowded(history[..|history| - 1], key, max))
  }

  // The same with all others counted, live or not.
  ghost predicate FewRecorded(history: seq<Op>, key: Key, max: nat) {
    Streak(history, key) == 0
    || (|RecordedSince(history, key)| < max && FewRecorded(history[..|history| - 1], key, max))
  }

  // ------------------------------------------------------------ properties

  // What holds of a key's entry after every run.
  ghost predicate Tracked(history: seq<Op>, key: Key, max: nat, t: Table) {
    && Distinct(t) && |t| <= max
    && Lookup(t, key).count <= Streak(history, key)
    && (key in Keys(t) ==> Streak(history, key) > 0 && Later(t, key) == LiveSince(history, key))
    && (if Uncrowded(history, key, max) then
          Lookup(t, key) == Entry(key, Streak(history, key), StreakTokens(history, key))
        else
          Lookup(t, key).count < Streak(history, key))
    && (Streak(history, key) == 0 ==> StreakTokens(history, key) == 0)
  }

  lemma RemovalStep(history: seq<Op>, key: Key, max: nat, t: Table, op: Op, sel: Selection)
    requires Tracked(history, key, max, t)
    requires op == if sel.One? then Retry(sel.key, true, if op.Retry? then op.tokens else 0) else Reset(sel.agent)
    ensures Tracked(history + [op], key, max, Discard(t, sel))
  {
    assert (history + [op])[..|history|] == history;
    DiscardKeys(t, sel);
    KeyCount(t);
    KeyCount(Discard(t, sel));
    SubsetSize(Keys(Discard(t, sel)), Keys(t));
    if Selected(sel, key) {
      LookupAbsent(Discard(t, sel), key);
    } else {
      DiscardOthers(t, sel, key);
      if key !in Keys(t) { LookupAbsent(t, key); }
      SubsetSize(LiveSince(history + [op], key), LiveSince(history, key));
    }
  }

  // The key's own retry.
  lemma OwnRetryStep(history: seq<Op>, key: Key, tokens: int, max: nat, t: Table)
    requires Tracked(history, key, max, t)
    ensures var op := Retry(key, false, tokens); Tracked(history + [op], key, max, Apply(t, op, max))
  {
    var op := Retry(key, false, tokens);
    assert (history + [op])[..|history|] == history;
    var full := Discard(t, One(key)) + [Bumped(t, key, tokens)];
    DiscardKeys(t, One(key));
    AppendEntry(Discard(t, One(key)), Bumped(t, key, tokens), key);
    NewestKeeps(full, max, key);
    if key !in Keys(Newest(full, max)) { LookupAbsent(Newest(full, max), key); }
    assert LiveSince(history + [op], key) == {};
  }

  // A retry of some other key.
  lemma OtherRetryStep(history: seq<Op>, key: Key, max: nat, t: Table, op: Op)
    requires Tracked(history, key, max, t) && op.Retry? && !op.hasDiff && op.key != key
    ensures Tracked(history + [op], key, max, Apply(t, op, max))
  {
    assert (history + [op])[..|history|] == history;
    var d := Discard(t, One(op.key));
    var full := d + [Bumped(t, op.key, op.tokens)];
    DiscardKeys(t, One(op.key));
    DiscardOthers(t, One(op.key), key);
    AppendEntry(d, Bumped(t, op.key, op.tokens), key);
    NewestKeeps(full, max, key);
    if key in Keys(t) {
      assert Later(full, key) == LiveSince(history + [op], key);
      if key !in Keys(Newest(full, max)) { LookupAbsent(Newest(full, max), key); }
    } else {
      LookupAbsent(t, key);
      LookupAbsent(Newest(full, max), key);
    }
  }

  lemma {:induction false} RunTracks(history: seq<Op>, key: Key, max: nat)
    ensures Tracked(history, key, max, After(history, max))
  {
    if history != [] {
      var before := history[..|history| - 1];
      var op := history[|history| - 1];
      RunTracks(before, key, max);
      assert before + [op] == history;
      match op
      case Retry(k, hasDiff, _) =>
        if hasDiff { RemovalStep(before, key, max, After(before, max), op, One(k)); }
        else if k == key { OwnRetryStep(before, key, op.tokens, max, After(before, max)); }
        else { OtherRetryStep(before, key, max, After(before, max), op); }
      case Reset(agent) => RemovalStep(before, key, max, After(before, max), op, OfAgent(agent));
    }
  }

  /** In every run the tracked count never exceeds the true streak, and it equals it (tokens
      included) exactly when the key was uncrowded throughout its streak. */
  lemma CountIsExactIffUncrowded(history: seq<Op>, key: Key, max: nat)
    ensures var e := Lookup(After(history, max), key);
            && e.count <= Streak(history, key)
            && (e.count == Streak(history, key) <==> Uncrowded(history, key, max))
            && (Uncrowded(history, key, max) ==> e.tokens == StreakTokens(history, key))
  {
    RunTracks(history, key, max);
  }

  // Fewer than `max` distinct other keys between consecutive retries is enough.
  lemma {:induction false} FewRecordedIsUncrowded(history: seq<Op>, key: Key, max: nat)
    ensures LiveSince(history, key) <= RecordedSince(history, key)
    ensures FewRecorded(history, key, max) ==> Uncrowded(history, key, max)
  {
    if history != [] {
      FewRecordedIsUncrowded(history[..|history| - 1], key, max);
      SubsetSize(LiveSince(history, key), RecordedSince(history, key));
    }
  }

  /** The detector never flags a key whose true streak is below the limit; it reports the true
      streak if and only if the key was uncrowded, and then flags it as soon as the limit is
      reached. */
  lemma NeverFlagsANonSpinner(history: seq<Op>, key: Key, tokens: int, maxRetries: int, max: nat)
    ensures var d := Detect(After(history, max), key, false, tokens, maxRetries);
            var streak := Streak(history + [Retry(key, false, tokens)], key);
            && (d.isSpinning ==> streak >= maxRetries)
            && (d.retryCount == streak <==> Uncrowded(history, key, max))
            && (Uncrowded(history, key, max) ==> d.isSpinning == (streak >= maxRetries))
  {
    var op := Retry(key, false, tokens);
    assert (history + [op])[..|history|] == history;
    CountIsExactIffUncrowded(history, key, max);
  }

  /** What is reported, with or without a diff: never more than the true streak, spinning exactly
      when there was no diff and the reported count has reached the limit; and with a diff, or for
      an uncrowded key, the true streak and its tokens. */
  lemma ReportsTheStreak(history: seq<Op>, key: Key, hasDiff: bool, tokens: int, maxRetries: int, max: nat)
    ensures var d := Detect(After(history, max), key, hasDiff, tokens, maxRetries);
            var after := history + [Retry(key, hasDiff, tokens)];
            && d.retryCount <= Streak(after, key)
            && (d.isSpinning <==> !hasDiff && d.retryCount >= maxRetries)
            && (hasDiff || Uncrowded(history, key, max) ==>
                  d.retryCount == Streak(after, key) && d.tokensSinceLastDiff == StreakTokens(after, key))
  {
    assert (history + [Retry(key, hasDiff, tokens)])[..|history|] == history;
    CountIsExactIffUncrowded(history, key, max);
  }

  lemma {:induction false} LiveSinceIsMoreRecent(history: seq<Op>, key: Key, k: Key)
    ensures LastRetry(history, k) <= |history|
    ensures k in LiveSince(history, key) ==> LastRetry(history, key) < LastRetry(history, k)
    ensures Streak(history, key) > 0 ==> LastRetry(history, key) > 0
  {
    if history != [] {
      LiveSinceIsMoreRecent(history[..|history| - 1], key, k);
      LiveSinceIsMoreRecent(history[..|history| - 1], k, key);
    }
  }

  lemma {:induction false} LaterHolds(t: Table, i: nat, j: nat)
    requires Distinct(t) && i < j < |t|
    ensures t[j].key in Later(t, t[i].key)
    decreases i
  {
    KeysCons(t);
    if i > 0 {
      assert t[1..][i - 1] == t[i] && t[1..][j - 1] == t[j];
      assert t[i].key in Keys(t[1..]);
      LaterHolds(t[1..], i - 1, j - 1);
    } else {
      assert t[1..][j - 1] == t[j];
    }
  }

  ghost predicate InRetryOrder(history: seq<Op>, t: Table) {
    forall i, j | 0 <= i < j < |t| ::
      0 < LastRetry(history, t[i].key) < LastRetry(history, t[j].key) <= |history|
  }

  /** At most `max` keys are tracked, without repetition, in the order of their last retries. */
  lemma TableInLastRetryOrder(history: seq<Op>, max: nat)
    ensures var t := After(history, max);
            |t| <= max && Distinct(t) && InRetryOrder(history, t)
  {
    var t := After(history, max);
    RunTracks(history, Key("", ""), max);
    forall i, j | 0 <= i < j < |t|
      ensures 0 < LastRetry(history, t[i].key) < LastRetry(history, t[j].key) <= |history|
    {
      RunTracks(history, t[i].key, max);
      assert t[i].key in Keys(t);
      LaterHolds(t, i, j);
      LiveSinceIsMoreRecent(history, t[i].key, t[j].key);
    }
  }
}
