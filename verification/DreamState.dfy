/** Short-term dreaming memory: merging by key, phase signals, and the promotion score over real arithmetic. */
module DreamState {
  import opened DreamPhases
  import opened Wrappers
  import opened Order

  datatype Entry = Entry(
    key: string,
    text: string,
    recallCount: int,
    dailyCount: int,
    groundedCount: int,
    relevanceTotal: real,
    queryHashes: seq<string>,
    recallDays: seq<string>,
    conceptTags: seq<string>,
    updatedAt: string)

  /** The entry of one ingested line; `words` are the candidate tags of its text. */
  function FromText(key: string, text: string, queryHash: string, day: string, words: seq<string>, now: string): Entry {
    var tags := SortUnique(words);
    Entry(key, text, 1, 0, 1, 1.0, [queryHash], [day], if |tags| <= 12 then tags else tags[..12], now)
  }

  function Merge(existing: Entry, e: Entry): Entry {
    existing.(recallCount := existing.recallCount + e.recallCount,
              relevanceTotal := existing.relevanceTotal + e.relevanceTotal,
              groundedCount := existing.groundedCount + e.groundedCount,
              dailyCount := existing.dailyCount + e.dailyCount,
              queryHashes := SortUnique(existing.queryHashes + e.queryHashes),
              recallDays := SortUnique(existing.recallDays + e.recallDays),
              conceptTags := SortUnique(existing.conceptTags + e.conceptTags),
              updatedAt := e.updatedAt)
  }

  // ------------------------------------------------------------------ upserting

  function UpsertOne(m: map<string, Entry>, e: Entry): map<string, Entry> {
    m[e.key := if e.key in m then Merge(m[e.key], e) else e]
  }

  function UpsertAll(m: map<string, Entry>, batch: seq<Entry>): map<string, Entry>
    decreases |batch|
  {
    if batch == [] then m else UpsertAll(UpsertOne(m, batch[0]), batch[1..])
  }

  /** The dictionary a stored list stands for; the last entry of a key wins. */
  function Dictionary(entries: seq<Entry>): map<string, Entry> {
    if entries == [] then map[]
    else
      var last := entries[|entries| - 1];
      Dictionary(entries[..|entries| - 1])[last.key := last]
  }

  /** What a key's entries add up to. */
  datatype Totals = Totals(recall: int, daily: int, grounded: int, relevance: real, hashes: set<string>,
      days: set<string>, tags: set<string>)

  const NOTHING := Totals(0, 0, 0, 0.0, {}, {}, {})

  function TotalsOf(e: Entry): Totals {
    Totals(e.recallCount, e.dailyCount, e.groundedCount, e.relevanceTotal, Elements(e.queryHashes),
           Elements(e.recallDays), Elements(e.conceptTags))
  }

  function Plus(a: Totals, b: Totals): Totals {
    Totals(a.recall + b.recall, a.daily + b.daily, a.grounded + b.grounded, a.relevance + b.relevance,
           a.hashes + b.hashes, a.days + b.days, a.tags + b.tags)
  }

  function Stored(m: map<string, Entry>, key: string): Totals {
    if key in m then TotalsOf(m[key]) else NOTHING
  }

  function BatchTotals(batch: seq<Entry>, key: string): Totals {
    if batch == [] then NOTHING
    else Plus(Share(batch[0], key), BatchTotals(batch[1..], key))
  }

  /** What one entry brings for a key. */
  function Share(e: Entry, key: string): Totals {
    if e.key == key then TotalsOf(e) else NOTHING
  }

  lemma {:induction false} PlusLaws(a: Totals, b: Totals, c: Totals)
    ensures Plus(a, Plus(b, c)) == Plus(Plus(a, b), c)
    ensures Plus(a, b) == Plus(b, a)
    ensures Plus(a, NOTHING) == a && Plus(NOTHING, a) == a
  {}

  lemma {:induction false} MergeAdds(existing: Entry, e: Entry)
    ensures TotalsOf(Merge(existing, e)) == Plus(TotalsOf(existing), TotalsOf(e))
  {
    SortUniqueCorrect(existing.queryHashes + e.queryHashes);
    SortUniqueCorrect(existing.recallDays + e.recallDays);
    SortUniqueCorrect(existing.conceptTags + e.conceptTags);
    ElementsConcat(existing.queryHashes, e.queryHashes);
    ElementsConcat(existing.recallDays, e.recallDays);
    ElementsConcat(existing.conceptTags, e.conceptTags);
  }

  function KeysOf(batch: seq<Entry>): set<string> {
    set e | e in batch :: e.key
  }

  lemma {:induction false} UpsertOneAdds(m: map<string, Entry>, e: Entry, key: string)
    ensures Stored(UpsertOne(m, e), key) == Plus(Stored(m, key), Share(e, key))
  {
    PlusLaws(Stored(m, key), Share(e, key), NOTHING);
    PlusLaws(Share(e, key), NOTHING, NOTHING);
    if e.key in m {
      MergeAdds(m[e.key], e);
    }
  }

  /** Upserting conserves: every key holds what it held plus what the batch brings for it. */
  lemma {:induction false} UpsertConserves(m: map<string, Entry>, batch: seq<Entry>, key: string)
    ensures Stored(UpsertAll(m, batch), key) == Plus(Stored(m, key), BatchTotals(batch, key))
    decreases |batch|
  {
    if batch == [] {
      PlusLaws(Stored(m, key), NOTHING, NOTHING);
    } else {
      UpsertOneAdds(m, batch[0], key);
      UpsertConserves(UpsertOne(m, batch[0]), batch[1..], key);
      PlusLaws(Stored(m, key), Share(batch[0], key), BatchTotals(batch[1..], key));
    }
  }

  lemma {:induction false} UpsertKeys(m: map<string, Entry>, batch: seq<Entry>)
    requires forall k :: k in m ==> m[k].key == k
    ensures UpsertAll(m, batch).Keys == m.Keys + KeysOf(batch)
    ensures forall k :: k in UpsertAll(m, batch) ==> UpsertAll(m, batch)[k].key == k
    decreases |batch|
  {
    if batch != [] {
      UpsertKeys(UpsertOne(m, batch[0]), batch[1..]);
      assert batch == [batch[0]] + batch[1..];
      assert KeysOf(batch) == {batch[0].key} + KeysOf(batch[1..]);
    }
  }

  /** One batch or two in a row: the same entries. */
  lemma {:induction false} UpsertSplits(m: map<string, Entry>, a: seq<Entry>, b: seq<Entry>)
    ensures UpsertAll(m, a + b) == UpsertAll(UpsertAll(m, a), b)
    decreases |a|
  {
    if a == [] {
      assert a + b == b;
    } else {
      assert (a + b)[1..] == a[1..] + b;
      UpsertSplits(UpsertOne(m, a[0]), a[1..], b);
    }
  }

  lemma {:induction false} BatchTotalsConcat(a: seq<Entry>, b: seq<Entry>, key: string)
    ensures BatchTotals(a + b, key) == Plus(BatchTotals(a, key), BatchTotals(b, key))
  {
    if a == [] {
      assert a + b == b;
      PlusLaws(BatchTotals(b, key), NOTHING, NOTHING);
    } else {
      assert (a + b)[1..] == a[1..] + b;
      BatchTotalsConcat(a[1..], b, key);
      PlusLaws(Share(a[0], key), BatchTotals(a[1..], key), BatchTotals(b, key));
    }
  }

  lemma {:induction false} Exchange(a: Totals, b: Totals, c: Totals)
    ensures Plus(a, Plus(b, c)) == Plus(b, Plus(a, c))
  {
    PlusLaws(a, b, c);
    PlusLaws(b, a, c);
  }

  lemma {:induction false} BatchTotalsRemove(pre: seq<Entry>, e: Entry, post: seq<Entry>, key: string)
    ensures BatchTotals(pre + ([e] + post), key) == Plus(Share(e, key), BatchTotals(pre + post, key))
  {
    BatchTotalsConcat(pre, [e] + post, key);
    BatchTotalsConcat(pre, post, key);
    assert ([e] + post)[1..] == post;
    Exchange(BatchTotals(pre, key), Share(e, key), BatchTotals(post, key));
  }

  /** The first of `a` has a place in every list of the same members. */
  lemma {:induction false} Locate(a: seq<Entry>, b: seq<Entry>) returns (i: nat)
    requires a != [] && multiset(a) == multiset(b)
    ensures i < |b| && b[i] == a[0]
  {
    assert a[0] in multiset(b);
    i :| 0 <= i < |b| && b[i] == a[0];
  }

  lemma {:induction false} AddOne(pre: seq<Entry>, x: Entry, post: seq<Entry>)
    ensures multiset(pre + ([x] + post)) == multiset(pre + post) + multiset{x}
  {}

  lemma {:induction false} CancelOne(m: multiset<Entry>, n: multiset<Entry>, x: Entry)
    requires m + multiset{x} == n + multiset{x}
    ensures m == n
  {
    assert forall e :: m[e] + multiset{x}[e] == (m + multiset{x})[e];
    assert forall e :: n[e] + multiset{x}[e] == (n + multiset{x})[e];
  }

  lemma {:induction false} RemoveBoth(x: Entry, rest: seq<Entry>, pre: seq<Entry>, post: seq<Entry>)
    requires multiset([x] + rest) == multiset(pre + ([x] + post))
    ensures multiset(rest) == multiset(pre + post)
  {
    AddOne([], x, rest);
    assert [] + ([x] + rest) == [x] + rest && [] + rest == rest;
    AddOne(pre, x, post);
    CancelOne(multiset(rest), multiset(pre + post), x);
  }

  lemma {:induction false} BatchTotalsPermute(a: seq<Entry>, b: seq<Entry>, key: string)
    requires multiset(a) == multiset(b)
    ensures BatchTotals(a, key) == BatchTotals(b, key)
  {
    if a == [] {
      assert |multiset(b)| == 0;
    } else {
      var i := Locate(a, b);
      assert b == b[..i] + ([a[0]] + b[i + 1..]);
      assert a == [a[0]] + a[1..];
      RemoveBoth(a[0], a[1..], b[..i], b[i + 1..]);
      BatchTotalsPermute(a[1..], b[..i] + b[i + 1..], key);
      BatchTotalsRemove(b[..i], a[0], b[i + 1..], key);
    }
  }

  /** The order of a batch changes no counter, hash set, day set or tag set of any key. */
  lemma {:induction false} UpsertReorders(m: map<string, Entry>, a: seq<Entry>, b: seq<Entry>, key: string)
    requires multiset(a) == multiset(b)
    ensures Stored(UpsertAll(m, a), key) == Stored(UpsertAll(m, b), key)
  {
    UpsertConserves(m, a, key);
    UpsertConserves(m, b, key);
    BatchTotalsPermute(a, b, key);
  }

  /** The order of a batch changes no key. */
  lemma {:induction false} UpsertReordersKeys(m: map<string, Entry>, a: seq<Entry>, b: seq<Entry>)
    requires multiset(a) == multiset(b) && forall k :: k in m ==> m[k].key == k
    ensures UpsertAll(m, a).Keys == UpsertAll(m, b).Keys
  {
    UpsertKeys(m, a);
    UpsertKeys(m, b);
    assert forall e :: e in a <==> e in multiset(a);
    assert forall e :: e in b <==> e in multiset(b);
  }

  lemma {:induction false} DictionaryKeyed(entries: seq<Entry>)
    ensures forall k :: k in Dictionary(entries) ==> Dictionary(entries)[k].key == k
  {
    if entries != [] {
      DictionaryKeyed(entries[..|entries| - 1]);
    }
  }

  /** The stored list of a dictionary: one entry per key, in key order. */
  ghost predicate ListOf(m: map<string, Entry>, entries: seq<Entry>) {
    && Sorted(seq(|entries|, i requires 0 <= i < |entries| => entries[i].key))
    && (forall i :: 0 <= i < |entries| ==> entries[i].key in m && m[entries[i].key] == entries[i])
    && (forall k :: k in m ==> exists i :: 0 <= i < |entries| && entries[i].key == k)
  }

  lemma {:induction false} DictionaryHas(entries: seq<Entry>)
    requires forall i, j :: 0 <= i < j < |entries| ==> entries[i].key != entries[j].key
    ensures forall k :: k in Dictionary(entries) <==> exists i :: 0 <= i < |entries| && entries[i].key == k
    ensures forall i :: 0 <= i < |entries| ==>
              entries[i].key in Dictionary(entries) && Dictionary(entries)[entries[i].key] == entries[i]
  {
    if entries != [] {
      DictionaryHas(entries[..|entries| - 1]);
    }
  }

  /** A written list is read back as the dictionary it was written from. */
  lemma {:induction false} ListReadsBack(m: map<string, Entry>, entries: seq<Entry>)
    requires ListOf(m, entries)
    ensures Dictionary(entries) == m
  {
    var keys := seq(|entries|, i requires 0 <= i < |entries| => entries[i].key);
    forall i, j | 0 <= i < j < |entries|
      ensures entries[i].key != entries[j].key
    {
      LessTotal(keys[i], keys[i]);
      assert Less(keys[i], keys[j]);
    }
    DictionaryHas(entries);
  }

  // ------------------------------------------------------------------ phase signals

  /** How often a phase met a key, and when last. */
  datatype Signal = Signal(count: nat, lastSeenDay: string)

  type Signals = map<string, map<Phase, Signal>>

  function SignalCount(s: Signals, key: string, phase: Phase): nat {
    if key in s && phase in s[key] then s[key][phase].count else 0
  }

  function LastSeen(s: Signals, key: string, phase: Phase): Option<string> {
    if key in s && phase in s[key] then Some(s[key][phase].lastSeenDay) else None
  }

  /** Signals that differ from `s` by one more meeting of a key. */
  ghost predicate OneMore(s: Signals, next: Signals, key: string, phase: Phase, day: string) {
    forall k, p ::
      && SignalCount(next, k, p) == SignalCount(s, k, p) + (if k == key && p == phase then 1 else 0)
      && LastSeen(next, k, p) == if k == key && p == phase then Some(day) else LastSeen(s, k, p)
  }

  /** Signals that differ from `s` by the listed meetings. */
  ghost predicate Met(s: Signals, next: Signals, keys: seq<string>, phase: Phase, day: string) {
    forall k, p ::
      && SignalCount(next, k, p) == SignalCount(s, k, p) + (if p == phase then multiset(keys)[k] else 0)
      && LastSeen(next, k, p) == if p == phase && k in keys then Some(day) else LastSeen(s, k, p)
  }

  lemma {:induction false} MetMore(s: Signals, mid: Signals, next: Signals, keys: seq<string>, i: nat, phase: Phase,
      day: string)
    requires i < |keys| && Met(s, mid, keys[..i], phase, day) && OneMore(mid, next, keys[i], phase, day)
    ensures Met(s, next, keys[..i + 1], phase, day)
  {
    hide SignalCount, LastSeen;
    TakeOneMore(keys, i);
  }

  lemma {:induction false} TakeOneMore(keys: seq<string>, i: nat)
    requires i < |keys|
    ensures forall key :: multiset(keys[..i + 1])[key] == multiset(keys[..i])[key] + if key == keys[i] then 1 else 0
    ensures forall key :: key in keys[..i + 1] <==> key in keys[..i] || key == keys[i]
  {
    assert keys[..i + 1] == keys[..i] + [keys[i]];
  }

  class DreamingStateStore {
    var shortTerm: seq<Entry>
    var signals: Signals

    constructor ()
      ensures shortTerm == [] && signals == map[]
    {
      shortTerm, signals := [], map[];
    }

    method ReadShortTermEntries() returns (current: map<string, Entry>)
      ensures current == Dictionary(shortTerm)
    {
      current := map[];
      for i := 0 to |shortTerm|
        invariant current == Dictionary(shortTerm[..i])
      {
        assert shortTerm[..i + 1][..i] == shortTerm[..i];
        current := current[shortTerm[i].key := shortTerm[i]];
      }
      assert shortTerm[..|shortTerm|] == shortTerm;
    }

    method WriteShortTermEntries(current: map<string, Entry>)
      requires forall k :: k in current ==> current[k].key == k
      modifies this`shortTerm
      ensures ListOf(current, shortTerm)
    {
      var keys := SortSet(current.Keys);
      assert forall k :: k in keys <==> k in Elements(keys);
      var entries := seq(|keys|, i requires 0 <= i < |keys| && keys[i] in current => current[keys[i]]);
      assert seq(|entries|, i requires 0 <= i < |entries| => entries[i].key) == keys;
      forall k | k in current
        ensures exists i :: 0 <= i < |entries| && entries[i].key == k
      {
        var i :| 0 <= i < |keys| && keys[i] == k;
        assert entries[i].key == k;
      }
      shortTerm := entries;
    }

    method UpsertShortTermEntries(batch: seq<Entry>)
      modifies this`shortTerm
      ensures ListOf(UpsertAll(Dictionary(old(shortTerm)), batch), shortTerm)
    {
      var current := ReadShortTermEntries();
      ghost var stored := current;
      var i := 0;
      while i < |batch|
        invariant 0 <= i <= |batch|
        invariant UpsertAll(current, batch[i..]) == UpsertAll(stored, batch)
      {
        var e := batch[i];
        assert batch[i..][1..] == batch[i + 1..];
        if e.key in current {
          current := current[e.key := Merge(current[e.key], e)];
        } else {
          current := current[e.key := e];
        }
        i := i + 1;
      }
      DictionaryKeyed(shortTerm);
      UpsertKeys(stored, batch);
      WriteShortTermEntries(current);
    }

    method RecordSignal(phase: Phase, key: string, day: string)
      modifies this`signals
      ensures OneMore(old(signals), signals, key, phase, day)
    {
      var item := if key in signals then signals[key] else map[];
      var count := if phase in item then item[phase].count else 0;
      signals := signals[key := item[phase := Signal(count + 1, day)]];
    }

    /** Every listed key is counted once per listing, for this phase only, and was last seen on this day. */
    method RecordPhaseSignals(phase: Phase, keys: seq<string>, day: string)
      modifies this`signals
      ensures forall key, p :: SignalCount(signals, key, p) ==
                SignalCount(old(signals), key, p) + if p == phase then multiset(keys)[key] else 0
      ensures forall key, p :: LastSeen(signals, key, p) ==
                if p == phase && key in keys then Some(day) else LastSeen(old(signals), key, p)
    {
      hide SignalCount, LastSeen;
      var i := 0;
      while i < |keys|
        invariant 0 <= i <= |keys|
        invariant Met(old(signals), signals, keys[..i], phase, day)
      {
        ghost var mid := signals;
        RecordSignal(phase, keys[i], day);
        MetMore(old(signals), mid, signals, keys, i, phase, day);
        i := i + 1;
      }
      assert keys[..|keys|] == keys;
    }
  }

  // ------------------------------------------------------------------ the promotion score

  datatype Weights = Weights(frequency: real, relevance: real, queryDiversity: real, recency: real,
      consolidation: real, conceptualRichness: real)
  {
    function Total(): real {
      frequency + relevance + queryDiversity + recency + consolidation + conceptualRichness
    }

    predicate NonNegative() {
      frequency >= 0.0 && relevance >= 0.0 && queryDiversity >= 0.0 && recency >= 0.0 && consolidation >= 0.0
      && conceptualRichness >= 0.0
    }
  }

  datatype Config = Config(minScore: real, minRecallCount: int, minUniqueQueries: int, weights: Weights)

  function Min(a: real, b: real): real {
    if a <= b then a else b
  }

  function AverageRelevance(e: Entry): real {
    if e.recallCount <= 0 then 0.0 else e.relevanceTotal / e.recallCount as real
  }

  function UniqueQueries(e: Entry): nat {
    |Elements(e.queryHashes)|
  }

  function PhaseBoost(signal: map<Phase, Signal>): real {
    var total := (if Light in signal then signal[Light].count else 0) + (if Rem in signal then signal[Rem].count else 0)
                 + (if Deep in signal then signal[Deep].count else 0);
    Min(0.10, total as real * 0.03)
  }

  datatype Components = Components(frequency: real, relevance: real, queryDiversity: real, recency: real,
      consolidation: real, conceptualRichness: real)

  function ComponentsOf(e: Entry, day: string): Components {
    Components(
      Min(1.0, e.recallCount as real / 5.0),
      Min(1.0, AverageRelevance(e)),
      Min(1.0, UniqueQueries(e) as real / 3.0),
      if day in e.recallDays then 1.0 else 0.5,
      Min(1.0, |Elements(e.recallDays)| as real / 3.0),
      Min(1.0, |e.conceptTags| as real / 6.0))
  }

  function Weighted(c: Components, w: Weights): real {
    c.frequency * w.frequency + c.relevance * w.relevance + c.queryDiversity * w.queryDiversity + c.recency * w.recency
    + c.consolidation * w.consolidation + c.conceptualRichness * w.conceptualRichness
  }

  function Score(c: Config, e: Entry, signal: map<Phase, Signal>, day: string): real {
    Weighted(ComponentsOf(e, day), c.weights) + PhaseBoost(signal)
  }

  /** The thresholds an entry of this score must reach to be eligible. */
  predicate Passes(c: Config, e: Entry, score: real) {
    score >= c.minScore && e.recallCount >= c.minRecallCount && UniqueQueries(e) >= c.minUniqueQueries
  }

  predicate Eligible(c: Config, e: Entry, signal: map<Phase, Signal>, day: string) {
    Passes(c, e, Score(c, e, signal, day))
  }

  /** Entries as ingestion makes and merges them: tags are distinct, every recall brought its relevance. */
  ghost predicate Ingested(e: Entry) {
    e.recallCount >= 1 && e.relevanceTotal == e.recallCount as real && Sorted(e.conceptTags)
  }

  ghost predicate Within(c: Components, lo: real, hi: real) {
    && lo <= c.frequency <= hi && lo <= c.relevance <= hi && lo <= c.queryDiversity <= hi && lo <= c.recency <= hi
    && lo <= c.consolidation <= hi && lo <= c.conceptualRichness <= hi
  }

  ghost predicate AtMost(a: Components, b: Components) {
    && a.frequency <= b.frequency && a.relevance <= b.relevance && a.queryDiversity <= b.queryDiversity
    && a.recency <= b.recency && a.consolidation <= b.consolidation && a.conceptualRichness <= b.conceptualRichness
  }

  lemma {:induction false} MulMonotone(a: real, b: real, w: real)
    requires a <= b && w >= 0.0
    ensures a * w <= b * w
  {}

  /** The sum alone, over products that stay whole. */
  lemma {:induction false} SumMonotone(a1: real, b1: real, a2: real, b2: real, a3: real, b3: real, a4: real, b4: real,
      a5: real, b5: real, a6: real, b6: real)
    requires a1 <= b1 && a2 <= b2 && a3 <= b3 && a4 <= b4 && a5 <= b5 && a6 <= b6
    ensures a1 + a2 + a3 + a4 + a5 + a6 <= b1 + b2 + b3 + b4 + b5 + b6
  {}

  lemma {:induction false} WeightedMonotone(a: Components, b: Components, w: Weights)
    requires AtMost(a, b) && w.NonNegative()
    ensures Weighted(a, w) <= Weighted(b, w)
  {
    MulMonotone(a.frequency, b.frequency, w.frequency);
    MulMonotone(a.relevance, b.relevance, w.relevance);
    MulMonotone(a.queryDiversity, b.queryDiversity, w.queryDiversity);
    MulMonotone(a.recency, b.recency, w.recency);
    MulMonotone(a.consolidation, b.consolidation, w.consolidation);
    MulMonotone(a.conceptualRichness, b.conceptualRichness, w.conceptualRichness);
    SumMonotone(a.frequency * w.frequency, b.frequency * w.frequency, a.relevance * w.relevance,
                b.relevance * w.relevance, a.queryDiversity * w.queryDiversity, b.queryDiversity * w.queryDiversity,
                a.recency * w.recency, b.recency * w.recency, a.consolidation * w.consolidation,
                b.consolidation * w.consolidation, a.conceptualRichness * w.conceptualRichness,
                b.conceptualRichness * w.conceptualRichness);
  }

  const NONE := Components(0.0, 0.0, 0.0, 0.0, 0.0, 0.0)
  const ALL := Components(1.0, 1.0, 1.0, 1.0, 1.0, 1.0)

  /** With non-negative weights a score lies between 0 and the weight total plus the largest boost, for every
      entry whose recall count and relevance are not negative. */
  lemma {:induction false} ScoreBounded(c: Config, e: Entry, signal: map<Phase, Signal>, day: string)
    requires c.weights.NonNegative() && e.recallCount >= 0 && e.relevanceTotal >= 0.0
    ensures 0.0 <= Score(c, e, signal, day) <= c.weights.Total() + 0.10
  {
    var cs := ComponentsOf(e, day);
    if e.recallCount > 0 {
      DivNonNegative(e.relevanceTotal, e.recallCount as real);
    }
    WeightedMonotone(NONE, cs, c.weights);
    WeightedMonotone(cs, ALL, c.weights);
  }

  // ------------------------------------------------------------------ what a score is made of

  function Plus6(w: Weights, x: real, v: Weights): Weights {
    Weights(w.frequency + x * v.frequency, w.relevance + x * v.relevance, w.queryDiversity + x * v.queryDiversity,
            w.recency + x * v.recency, w.consolidation + x * v.consolidation,
            w.conceptualRichness + x * v.conceptualRichness)
  }

  lemma {:induction false} MulDistributes(c: real, a: real, x: real, b: real)
    ensures c * (a + x * b) == c * a + x * (c * b)
  {}

  /** The sum of products that stay whole. */
  lemma {:induction false} SumScales(x: real, a1: real, a2: real, a3: real, a4: real, a5: real, a6: real, b1: real,
      b2: real, b3: real, b4: real, b5: real, b6: real)
    ensures (a1 + x * b1) + (a2 + x * b2) + (a3 + x * b3) + (a4 + x * b4) + (a5 + x * b5) + (a6 + x * b6) ==
            (a1 + a2 + a3 + a4 + a5 + a6) + x * (b1 + b2 + b3 + b4 + b5 + b6)
  {}

  /** A score is linear in the weights. */
  lemma {:induction false} WeightedLinear(cs: Components, w: Weights, x: real, v: Weights)
    ensures Weighted(cs, Plus6(w, x, v)) == Weighted(cs, w) + x * Weighted(cs, v)
  {
    MulDistributes(cs.frequency, w.frequency, x, v.frequency);
    MulDistributes(cs.relevance, w.relevance, x, v.relevance);
    MulDistributes(cs.queryDiversity, w.queryDiversity, x, v.queryDiversity);
    MulDistributes(cs.recency, w.recency, x, v.recency);
    MulDistributes(cs.consolidation, w.consolidation, x, v.consolidation);
    MulDistributes(cs.conceptualRichness, w.conceptualRichness, x, v.conceptualRichness);
    SumScales(x, cs.frequency * w.frequency, cs.relevance * w.relevance, cs.queryDiversity * w.queryDiversity,
              cs.recency * w.recency, cs.consolidation * w.consolidation, cs.conceptualRichness * w.conceptualRichness,
              cs.frequency * v.frequency, cs.relevance * v.relevance, cs.queryDiversity * v.queryDiversity,
              cs.recency * v.recency, cs.consolidation * v.consolidation, cs.conceptualRichness * v.conceptualRichness);
  }

  /** The part of a count that makes a component, full from `full` on. */
  ghost predicate PartOf(part: real, count: int, full: int) {
    if count >= full then part == 1.0 else part * full as real == count as real
  }

  /** Each weight weighs its own component. */
  lemma {:induction false} WeighsAlone(cs: Components)
    ensures Weighted(cs, Weights(1.0, 0.0, 0.0, 0.0, 0.0, 0.0)) == cs.frequency
    ensures Weighted(cs, Weights(0.0, 1.0, 0.0, 0.0, 0.0, 0.0)) == cs.relevance
    ensures Weighted(cs, Weights(0.0, 0.0, 1.0, 0.0, 0.0, 0.0)) == cs.queryDiversity
    ensures Weighted(cs, Weights(0.0, 0.0, 0.0, 1.0, 0.0, 0.0)) == cs.recency
    ensures Weighted(cs, Weights(0.0, 0.0, 0.0, 0.0, 1.0, 0.0)) == cs.consolidation
    ensures Weighted(cs, Weights(0.0, 0.0, 0.0, 0.0, 0.0, 1.0)) == cs.conceptualRichness
  {}

  /** What makes a component full: five recalls, an average relevance of 1, three queries, the day among the recall days
      or else a half, three days, and six tags. */
  lemma {:induction false} ComponentsAre(e: Entry, day: string)
    ensures var cs := ComponentsOf(e, day);
            && PartOf(cs.frequency, e.recallCount, 5)
            && (if e.recallCount <= 0 then cs.relevance == 0.0
                else if e.relevanceTotal >= e.recallCount as real then cs.relevance == 1.0
                else cs.relevance * e.recallCount as real == e.relevanceTotal)
            && PartOf(cs.queryDiversity, |Elements(e.queryHashes)|, 3)
            && cs.recency == (if day in e.recallDays then 1.0 else 0.5)
            && PartOf(cs.consolidation, |Elements(e.recallDays)|, 3)
            && PartOf(cs.conceptualRichness, |e.conceptTags|, 6)
  {
    if e.recallCount > 0 {
      AverageAtMostOne(e.relevanceTotal, e.recallCount as real);
    }
  }

  lemma {:induction false} AverageAtMostOne(total: real, n: real)
    requires n > 0.0
    ensures total / n * n == total
    ensures total >= n <==> total / n >= 1.0
  {
    var a := total / n;
    assert a * n == total;
    if a >= 1.0 {
      assert a * n >= 1.0 * n;
    } else {
      assert a * n < 1.0 * n;
    }
  }

  /** What the phases add to a score: three hundredths for each listing, and a tenth from the fourth one on. */
  lemma {:induction false} BoostOfListings(c: Config, e: Entry, signal: map<Phase, Signal>, day: string)
    ensures var n := (if Light in signal then signal[Light].count else 0) +
                     (if Rem in signal then signal[Rem].count else 0) +
                     (if Deep in signal then signal[Deep].count else 0);
            Score(c, e, signal, day) == Weighted(ComponentsOf(e, day), c.weights) +
            (match n case 0 => 0.0 case 1 => 0.03 case 2 => 0.06 case 3 => 0.09 case _ => 0.10)
  {
    hide Weighted, ComponentsOf;
  }

  lemma {:induction false} DivNonNegative(x: real, y: real)
    requires x >= 0.0 && y > 0.0
    ensures x / y >= 0.0
  {}

  lemma {:induction false} SubsetCard(a: set<string>, b: set<string>)
    requires a <= b
    ensures |a| <= |b|
  {
    if a != {} {
      var x :| x in a;
      SubsetCard(a - {x}, b - {x});
    }
  }

  lemma {:induction false} SortedCard(xs: seq<string>)
    requires Sorted(xs)
    ensures |Elements(xs)| == |xs|
  {
    if xs != [] {
      SortedCard(xs[1..]);
      LessTotal(xs[0], xs[0]);
      assert xs == [xs[0]] + xs[1..];
      assert Elements(xs) == {xs[0]} + Elements(xs[1..]);
      assert xs[0] !in xs[1..];
    }
  }

  /** Averages of recalls worth 1 each, clipped at 1, do not fall when one more comes. */
  lemma {:induction false} AverageMonotone(total: real, n: real)
    requires n > 0.0
    ensures Min(1.0, total / n) <= Min(1.0, (total + 1.0) / (n + 1.0))
  {
    var a, b := total / n, (total + 1.0) / (n + 1.0);
    assert a * n == total && b * (n + 1.0) == total + 1.0;
    if a <= 1.0 {
      assert b * (n + 1.0) >= a * (n + 1.0);
      assert (b - a) * (n + 1.0) >= 0.0;
    } else {
      assert a * n > n;
      assert (b - 1.0) * (n + 1.0) > 0.0;
    }
  }

  /** Merging one more ingested line lowers no component, on any scoring day. */
  lemma {:induction false} MergeRaises(e: Entry, x: Entry, day: string)
    requires e.recallCount >= 1 && Sorted(e.conceptTags)
    requires x.recallCount == 1 && x.relevanceTotal == 1.0
    ensures AtMost(ComponentsOf(e, day), ComponentsOf(Merge(e, x), day))
    ensures UniqueQueries(e) <= UniqueQueries(Merge(e, x))
  {
    var m := Merge(e, x);
    MergeAdds(e, x);
    SubsetCard(Elements(e.queryHashes), Elements(m.queryHashes));
    SubsetCard(Elements(e.recallDays), Elements(m.recallDays));
    TagsGrow(e, x);
    assert day in e.recallDays ==> day in Elements(e.recallDays) && day in Elements(m.recallDays);
    AverageMonotone(e.relevanceTotal, e.recallCount as real);
  }

  lemma {:induction false} TagsGrow(e: Entry, x: Entry)
    requires Sorted(e.conceptTags)
    ensures |e.conceptTags| <= |Merge(e, x).conceptTags|
  {
    var merged := SortUnique(e.conceptTags + x.conceptTags);
    SortUniqueCorrect(e.conceptTags + x.conceptTags);
    ElementsConcat(e.conceptTags, x.conceptTags);
    SubsetCard(Elements(e.conceptTags), Elements(merged));
    SortedCard(e.conceptTags);
    SortedCard(merged);
  }

  /** Re-ingesting a line never lowers a score and never revokes eligibility, on any scoring day, when no phase count
      falls. */
  lemma {:induction false} ReingestKeepsEligible(c: Config, e: Entry, x: Entry, before: map<Phase, Signal>,
      after: map<Phase, Signal>, day: string)
    requires c.weights.NonNegative() && e.recallCount >= 1 && Sorted(e.conceptTags)
    requires x.recallCount == 1 && x.relevanceTotal == 1.0
    requires NoLower(before, after)
    ensures Score(c, e, before, day) <= Score(c, Merge(e, x), after, day)
    ensures Eligible(c, e, before, day) ==> Eligible(c, Merge(e, x), after, day)
  {
    MergeRaises(e, x, day);
    WeightedMonotone(ComponentsOf(e, day), ComponentsOf(Merge(e, x), day), c.weights);
  }

  /** A line as ingestion makes it: one recall, worth 1, with distinct tags. */
  lemma {:induction false} IngestedFromText(key: string, text: string, queryHash: string, day: string,
      words: seq<string>, now: string)
    ensures LinesOf([FromText(key, text, queryHash, day, words, now)])
    ensures var e := FromText(key, text, queryHash, day, words, now);
            && e.key == key && e.text == text && e.dailyCount == 0 && e.groundedCount == 1
            && Elements(e.queryHashes) == {queryHash} && Elements(e.recallDays) == {day} && e.updatedAt == now
            && |e.conceptTags| <= 12 && e.conceptTags <= SortUnique(words)
            && (|Elements(words)| <= 12 ==> Elements(e.conceptTags) == Elements(words))
            && (|Elements(words)| > 12 ==> |e.conceptTags| == 12)
  {
    SortUniqueCorrect(words);
    SortedCard(SortUnique(words));
  }

  lemma {:induction false} IngestedMerge(e: Entry, x: Entry)
    requires Ingested(e) && Ingested(x)
    ensures Ingested(Merge(e, x))
  {
    SortUniqueCorrect(e.conceptTags + x.conceptTags);
  }

  /** Every entry reachable by upserting ingested lines meets what the score lemmas ask for. */
  lemma {:induction false} UpsertIngested(m: map<string, Entry>, batch: seq<Entry>)
    requires forall k :: k in m ==> Ingested(m[k])
    requires forall i :: 0 <= i < |batch| ==> Ingested(batch[i])
    ensures forall k :: k in UpsertAll(m, batch) ==> Ingested(UpsertAll(m, batch)[k])
    decreases |batch|
  {
    if batch != [] {
      if batch[0].key in m {
        IngestedMerge(m[batch[0].key], batch[0]);
      }
      UpsertIngested(UpsertOne(m, batch[0]), batch[1..]);
    }
  }

  /** A batch of lines as ingestion makes them. */
  ghost predicate LinesOf(batch: seq<Entry>) {
    forall i :: 0 <= i < |batch| ==>
      Ingested(batch[i]) && batch[i].recallCount == 1 && batch[i].relevanceTotal == 1.0
  }

  lemma {:induction false} LinesTail(batch: seq<Entry>)
    requires LinesOf(batch) && batch != []
    ensures LinesOf(batch[1..]) && LinesOf(batch[..1])
  {
    forall i | 0 <= i < |batch[1..]|
      ensures Ingested(batch[1..][i]) && batch[1..][i].recallCount == 1 && batch[1..][i].relevanceTotal == 1.0
    {
      assert batch[1..][i] == batch[i + 1];
    }
  }

  /** `s` is above `r`: it scores no lower and is eligible where `r` is. */
  ghost predicate AtLeast(c: Config, r: Entry, before: map<Phase, Signal>, s: Entry, after: map<Phase, Signal>,
      day: string) {
    && Score(c, r, before, day) <= Score(c, s, after, day)
    && (Eligible(c, r, before, day) ==> Eligible(c, s, after, day))
  }

  ghost predicate NoLower(before: map<Phase, Signal>, after: map<Phase, Signal>) {
    forall p :: p in before ==> p in after && before[p].count <= after[p].count
  }

  lemma {:induction false} SameEntry(c: Config, e: Entry, before: map<Phase, Signal>, after: map<Phase, Signal>,
      day: string)
    requires NoLower(before, after)
    ensures AtLeast(c, e, before, e, after, day)
  {}

  /** Ingesting whole batches of lines: no stored key's score falls and none loses its eligibility. */
  lemma {:induction false} IngestKeepsEligible(c: Config, m: map<string, Entry>, batch: seq<Entry>, key: string,
      before: map<Phase, Signal>, after: map<Phase, Signal>, day: string)
    requires c.weights.NonNegative() && NoLower(before, after)
    requires key in m && (forall k :: k in m ==> Ingested(m[k])) && LinesOf(batch)
    ensures key in UpsertAll(m, batch) && AtLeast(c, m[key], before, UpsertAll(m, batch)[key], after, day)
    decreases |batch|
  {
    if batch == [] {
      SameEntry(c, m[key], before, after, day);
    } else {
      var e, next := batch[0], UpsertOne(m, batch[0]);
      if e.key in m {
        IngestedMerge(m[e.key], e);
      }
      LinesTail(batch);
      IngestKeepsEligible(c, next, batch[1..], key, after, after, day);
      if e.key == key {
        ReingestKeepsEligible(c, m[key], e, before, after, day);
      } else {
        SameEntry(c, m[key], before, after, day);
      }
    }
  }
}
