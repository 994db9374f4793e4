/** One dreaming sweep: the light and REM windows, the signals they leave, and the entries the deep phase promotes. */
module DreamSweep {
  import opened DreamPhases
  import opened DreamState
  import opened Order

  // ------------------------------------------------------------------ sorting by weight, and rank

  /** A place in a list and what it is sorted by. */
  datatype Item = Item(place: nat, weight: real)

  /** Higher weights first; equal ones keep their order. */
  predicate Ahead(a: Item, b: Item) {
    a.weight > b.weight || (a.weight == b.weight && a.place < b.place)
  }

  function InsertItem(x: Item, items: seq<Item>): (r: seq<Item>)
    ensures |r| == |items| + 1
  {
    if items == [] || !(items[0].weight > x.weight) then [x] + items else [items[0]] + InsertItem(x, items[1..])
  }

  /** The stable descending sort. */
  function Descending(items: seq<Item>): (r: seq<Item>)
    ensures |r| == |items|
  {
    if items == [] then [] else InsertItem(items[0], Descending(items[1..]))
  }

  function ItemsFrom(weights: seq<real>, i: nat): (r: seq<Item>)
    requires i <= |weights|
    ensures |r| == |weights| - i
    decreases |weights| - i
  {
    if i == |weights| then [] else [Item(i, weights[i])] + ItemsFrom(weights, i + 1)
  }

  ghost predicate InOrder(items: seq<Item>) {
    forall p, q :: 0 <= p < q < |items| ==> Ahead(items[p], items[q])
  }

  /** The items of all places from `i` on, in some order. */
  ghost predicate ItemsOf(weights: seq<real>, i: nat, items: seq<Item>) {
    && (forall p :: 0 <= p < |items| ==> i <= items[p].place < |weights| && items[p].weight == weights[items[p].place])
    && (forall j :: i <= j < |weights| ==> Item(j, weights[j]) in items)
  }

  lemma {:induction false} InsertInOrder(x: Item, items: seq<Item>)
    requires InOrder(items) && forall p :: 0 <= p < |items| ==> x.place < items[p].place
    ensures InOrder(InsertItem(x, items))
    ensures forall y :: y in InsertItem(x, items) <==> y == x || y in items
  {
    if items == [] {
    } else if !(items[0].weight > x.weight) {
      assert forall p :: 0 <= p < |items| ==> Ahead(x, items[p]);
    } else {
      var rest := InsertItem(x, items[1..]);
      InsertInOrder(x, items[1..]);
      assert items == [items[0]] + items[1..];
      forall q | 0 <= q < |rest|
        ensures Ahead(items[0], rest[q])
      {
        assert rest[q] in rest;
      }
    }
  }

  lemma {:induction false} DescendingInOrder(weights: seq<real>, i: nat)
    requires i <= |weights|
    ensures var items := Descending(ItemsFrom(weights, i)); InOrder(items) && ItemsOf(weights, i, items)
    decreases |weights| - i
  {
    if i < |weights| {
      var rest := Descending(ItemsFrom(weights, i + 1));
      DescendingInOrder(weights, i + 1);
      assert ItemsFrom(weights, i)[1..] == ItemsFrom(weights, i + 1);
      InsertInOrder(Item(i, weights[i]), rest);
      var items := InsertItem(Item(i, weights[i]), rest);
      forall p | 0 <= p < |items|
        ensures i <= items[p].place < |weights| && items[p].weight == weights[items[p].place]
      {
        assert items[p] in items;
      }
    }
  }

  function Places(items: seq<Item>): seq<nat> {
    seq(|items|, p requires 0 <= p < |items| => items[p].place)
  }

  /** The places of a list of weights, highest weight first. */
  function Ranking(weights: seq<real>): seq<nat> {
    Places(Descending(ItemsFrom(weights, 0)))
  }

  /** How many places come before `i`. */
  ghost function RankOf(weights: seq<real>, i: nat): nat
    requires i < |weights|
  {
    |set j | 0 <= j < |weights| && Ahead(Item(j, weights[j]), Item(i, weights[i]))|
  }

  lemma {:induction false} PlacesCard(places: seq<nat>, k: nat)
    requires k <= |places| && forall p, q :: 0 <= p < q < |places| ==> places[p] != places[q]
    ensures |set p | 0 <= p < k :: places[p]| == k
  {
    var s := set p | 0 <= p < k :: places[p];
    if k > 0 {
      PlacesCard(places, k - 1);
      assert s == (set p | 0 <= p < k - 1 :: places[p]) + {places[k - 1]};
    }
  }

  /** Every place stands in the ranking exactly at its rank. */
  lemma {:induction false} RankingAtRank(weights: seq<real>, p: nat)
    requires p < |Ranking(weights)|
    ensures Ranking(weights)[p] < |weights| && RankOf(weights, Ranking(weights)[p]) == p
  {
    hide Descending;
    DescendingInOrder(weights, 0);
    var items := Descending(ItemsFrom(weights, 0));
    var places, i := Places(items), items[p].place;
    var before := set j | 0 <= j < |weights| && Ahead(Item(j, weights[j]), Item(i, weights[i]));
    var first := set q | 0 <= q < p :: places[q];
    forall j | j in before
      ensures j in first
    {
      var q :| 0 <= q < |items| && items[q] == Item(j, weights[j]);
      assert places[q] == j;
    }
    forall j | j in first
      ensures j in before
    {
      var q :| 0 <= q < p && places[q] == j;
      assert Ahead(items[q], items[p]);
    }
    assert before == first;
    PlacesCard(places, p);
  }

  lemma {:induction false} RankingWhole(weights: seq<real>)
    ensures |Ranking(weights)| == |weights|
    ensures forall p, q :: 0 <= p < q < |weights| ==> Ranking(weights)[p] != Ranking(weights)[q]
    ensures forall i :: 0 <= i < |weights| ==> i in Ranking(weights)
  {
    hide Descending;
    DescendingInOrder(weights, 0);
    var items := Descending(ItemsFrom(weights, 0));
    var places := Places(items);
    forall i | 0 <= i < |weights|
      ensures i in places
    {
      var q :| 0 <= q < |items| && items[q] == Item(i, weights[i]);
      assert places[q] == i;
    }
  }

  // ------------------------------------------------------------------ windows

  /** How many entries `entries[:cap]` takes; a negative cap leaves off the last ones. */
  function Window(cap: int, n: nat): (k: nat)
    ensures k <= n
  {
    if cap >= n then n else if cap >= 0 then cap else if n + cap >= 0 then n + cap else 0
  }

  /** A window takes the places below its size, and with a negative size those but the last so many. */
  lemma {:induction false} WindowTakes(cap: int, n: nat, p: nat)
    requires p < n
    ensures p < Window(cap, n) <==> if cap < 0 then p < n + cap else p < cap
  {}

  /** The first places of a ranking. */
  function Top(weights: seq<real>, cap: int): seq<nat> {
    var places := Ranking(weights);
    places[..Window(cap, |places|)]
  }

  /** A place is among the first exactly when its rank is. */
  lemma {:induction false} TopIff(weights: seq<real>, cap: int, i: nat)
    requires i < |weights|
    ensures i in Top(weights, cap) <==> RankOf(weights, i) < Window(cap, |weights|)
  {
    hide Ranking, RankOf;
    RankingWhole(weights);
    var places := Ranking(weights);
    assert i in places;
    var p :| 0 <= p < |places| && places[p] == i;
    RankingAtRank(weights, p);
    var top := Top(weights, cap);
    if p < |top| {
      assert top[p] == i;
    }
    if i in top {
      var q :| 0 <= q < |top| && top[q] == i;
      assert places[q] == i;
    }
  }

  lemma {:induction false} TopDistinct(weights: seq<real>, cap: int)
    ensures forall p, q :: 0 <= p < q < |Top(weights, cap)| ==> Top(weights, cap)[p] != Top(weights, cap)[q]
    ensures forall p :: 0 <= p < |Top(weights, cap)| ==> Top(weights, cap)[p] < |weights|
  {
    hide Ranking, RankOf;
    RankingWhole(weights);
    forall p | 0 <= p < |Top(weights, cap)|
      ensures Top(weights, cap)[p] < |weights|
    {
      RankingAtRank(weights, p);
    }
  }

  // ------------------------------------------------------------------ what a sweep computes

  function Relevances(entries: seq<Entry>): seq<real> {
    seq(|entries|, i requires 0 <= i < |entries| => AverageRelevance(entries[i]))
  }

  predicate InRange(places: seq<nat>, n: nat) {
    forall p :: 0 <= p < |places| ==> places[p] < n
  }

  function KeysAt(entries: seq<Entry>, places: seq<nat>): seq<string>
    requires InRange(places, |entries|)
  {
    seq(|places|, p requires 0 <= p < |places| => entries[places[p]].key)
  }

  function UpTo(n: nat): (places: seq<nat>)
    ensures |places| == n && forall p :: 0 <= p < n ==> places[p] == p
  {
    seq(n, p requires 0 <= p < n => p)
  }

  function SignalsOf(s: Signals, key: string): map<Phase, Signal> {
    if key in s then s[key] else map[]
  }

  /** How often the phases have listed a key. */
  function Listings(s: Signals, key: string): nat {
    SignalCount(s, key, Light) + SignalCount(s, key, Rem) + SignalCount(s, key, Deep)
  }

  /** How often this sweep lists the entry at a place: in the light window, by place, and in the REM window, by
      relevance. */
  ghost function OwnListings(entries: seq<Entry>, cap: int, i: nat): nat
    requires i < |entries|
  {
    var k := Window(cap, |entries|);
    (if i < k then 1 else 0) + if RankOf(Relevances(entries), i) < k then 1 else 0
  }

  /** The score of an entry in a sweep that starts from signals `s`: the sweep's own listings count already. */
  ghost function SweepScore(c: Config, s: Signals, entries: seq<Entry>, cap: int, day: string, i: nat): real
    requires i < |entries|
  {
    Weighted(ComponentsOf(entries[i], day), c.weights) +
    Min(0.10, (Listings(s, entries[i].key) + OwnListings(entries, cap, i)) as real * 0.03)
  }

  ghost function SweepScores(c: Config, s: Signals, entries: seq<Entry>, cap: int, day: string): seq<real> {
    seq(|entries|, i requires 0 <= i < |entries| => SweepScore(c, s, entries, cap, day, i))
  }

  /** Which of the listed entries the deep phase promotes. */
  function Chosen(c: Config, entries: seq<Entry>, scores: seq<real>, places: seq<nat>, grounded: Entry -> bool,
      duplicate: Entry -> bool): (chosen: seq<nat>)
    requires InRange(places, |entries|) && |scores| == |entries|
    ensures InRange(chosen, |entries|)
  {
    if places == [] then []
    else
      var last := places[|places| - 1];
      var e := entries[last];
      Chosen(c, entries, scores, places[..|places| - 1], grounded, duplicate) +
      if Passes(c, e, scores[last]) && grounded(e) && !duplicate(e) then [last] else []
  }

  /** The places a sweep promotes, best score first. */
  ghost function Promoted(c: Config, s: Signals, entries: seq<Entry>, cap: int, day: string, grounded: Entry -> bool,
      duplicate: Entry -> bool): seq<nat>
  {
    var scores := SweepScores(c, s, entries, cap, day);
    TopDistinct(scores, cap);
    Chosen(c, entries, scores, Top(scores, cap), grounded, duplicate)
  }

  /** The scores the deep phase computes from the signals it reads. */
  function DeepScores(c: Config, t: Signals, entries: seq<Entry>, day: string): seq<real> {
    seq(|entries|, i requires 0 <= i < |entries| => Score(c, entries[i], SignalsOf(t, entries[i].key), day))
  }

  /** A list of one entry per key, as the store writes it. */
  ghost predicate Keyed(entries: seq<Entry>) {
    Sorted(seq(|entries|, i requires 0 <= i < |entries| => entries[i].key))
  }

  /** Signals after the light and the REM window of a sweep. */
  ghost predicate Swept(s: Signals, t: Signals, entries: seq<Entry>, cap: int, day: string) {
    var rem := Top(Relevances(entries), cap);
    InRange(rem, |entries|) &&
    exists mid ::
      && Met(s, mid, KeysAt(entries, UpTo(Window(cap, |entries|))), Light, day)
      && Met(mid, t, KeysAt(entries, rem), Rem, day)
  }

  lemma {:induction false} KeyedDistinct(entries: seq<Entry>, i: nat, j: nat)
    requires Keyed(entries) && i < |entries| && j < |entries|
    ensures entries[i].key == entries[j].key ==> i == j
  {
    hide Less;
    var keys := seq(|entries|, n requires 0 <= n < |entries| => entries[n].key);
    LessTotal(keys[i], keys[i]);
    if i < j {
      assert Less(keys[i], keys[j]);
    } else if j < i {
      assert Less(keys[j], keys[i]);
    }
  }

  lemma {:induction false} KeyCount(entries: seq<Entry>, places: seq<nat>, i: nat)
    requires Keyed(entries) && InRange(places, |entries|) && i < |entries|
    requires forall p, q :: 0 <= p < q < |places| ==> places[p] != places[q]
    ensures multiset(KeysAt(entries, places))[entries[i].key] == if i in places then 1 else 0
  {
    hide Keyed;
    if places != [] {
      var rest, last := places[..|places| - 1], places[|places| - 1];
      KeyCount(entries, rest, i);
      assert places == rest + [last];
      assert KeysAt(entries, places) == KeysAt(entries, rest) + [entries[last].key];
      KeyedDistinct(entries, last, i);
    }
  }

  /** A sweep lists an entry once for each window it falls into. */
  lemma {:induction false} SweptListings(s: Signals, t: Signals, entries: seq<Entry>, cap: int, day: string, i: nat)
    requires Keyed(entries) && i < |entries| && Swept(s, t, entries, cap, day)
    ensures Listings(t, entries[i].key) == Listings(s, entries[i].key) + OwnListings(entries, cap, i)
  {
    hide Keyed, SignalCount, LastSeen, RankOf, Top;
    var key, k := entries[i].key, Window(cap, |entries|);
    var light, rem := UpTo(k), Top(Relevances(entries), cap);
    KeyCount(entries, light, i);
    assert i < k ==> light[i] == i;
    TopDistinct(Relevances(entries), cap);
    KeyCount(entries, rem, i);
    TopIff(Relevances(entries), cap, i);
    var mid :| Met(s, mid, KeysAt(entries, light), Light, day) && Met(mid, t, KeysAt(entries, rem), Rem, day);
    assert forall p :: SignalCount(mid, key, p) ==
                       SignalCount(s, key, p) + if p == Light then multiset(KeysAt(entries, light))[key] else 0;
    assert forall p :: SignalCount(t, key, p) ==
                       SignalCount(mid, key, p) + if p == Rem then multiset(KeysAt(entries, rem))[key] else 0;
  }

  lemma {:induction false} BoostIs(s: Signals, key: string)
    ensures PhaseBoost(SignalsOf(s, key)) == Min(0.10, Listings(s, key) as real * 0.03)
  {}

  /** What the deep phase reads after the first two phases is the score that counts this sweep's listings. */
  lemma {:induction false} SweptScore(c: Config, s: Signals, t: Signals, entries: seq<Entry>, cap: int, day: string,
      i: nat)
    requires Keyed(entries) && i < |entries| && Swept(s, t, entries, cap, day)
    ensures Score(c, entries[i], SignalsOf(t, entries[i].key), day) == SweepScore(c, s, entries, cap, day, i)
  {
    hide Keyed, Swept, Listings, OwnListings, Weighted, ComponentsOf, PhaseBoost;
    SweptListings(s, t, entries, cap, day, i);
    BoostIs(t, entries[i].key);
  }

  lemma {:induction false} ChosenIff(c: Config, entries: seq<Entry>, scores: seq<real>, places: seq<nat>,
      grounded: Entry -> bool, duplicate: Entry -> bool, i: nat)
    requires InRange(places, |entries|) && |scores| == |entries| && i < |entries|
    ensures i in Chosen(c, entries, scores, places, grounded, duplicate) <==>
            i in places && Passes(c, entries[i], scores[i]) && grounded(entries[i]) && !duplicate(entries[i])
  {
    hide Passes;
    if places != [] {
      ChosenIff(c, entries, scores, places[..|places| - 1], grounded, duplicate, i);
      assert places == places[..|places| - 1] + [places[|places| - 1]];
    }
  }

  /** An entry is promoted if and only if fewer entries than the window holds are ahead of it by score, it passes the
      thresholds, its source holds its text and no record does. The score counts what this very sweep listed. */
  lemma {:induction false} PromotedIff(c: Config, s: Signals, entries: seq<Entry>, cap: int, day: string,
      grounded: Entry -> bool, duplicate: Entry -> bool, i: nat)
    requires i < |entries|
    ensures i in Promoted(c, s, entries, cap, day, grounded, duplicate) <==>
            && RankOf(SweepScores(c, s, entries, cap, day), i) < Window(cap, |entries|)
            && SweepScore(c, s, entries, cap, day, i) >= c.minScore && entries[i].recallCount >= c.minRecallCount
            && |Elements(entries[i].queryHashes)| >= c.minUniqueQueries
            && grounded(entries[i]) && !duplicate(entries[i])
  {
    hide SweepScore, RankOf, Top;
    var scores := SweepScores(c, s, entries, cap, day);
    TopIff(scores, cap, i);
    TopDistinct(scores, cap);
    ChosenIff(c, entries, scores, Top(scores, cap), grounded, duplicate, i);
  }

  /** `later` holds no fewer listings than `s`. */
  ghost predicate NoFewer(s: Signals, later: Signals) {
    forall key :: Listings(s, key) <= Listings(later, key)
  }

  lemma {:induction false} SweptNoFewer(s: Signals, t: Signals, entries: seq<Entry>, cap: int, day: string)
    requires Swept(s, t, entries, cap, day)
    ensures NoFewer(s, t)
  {
    hide SignalCount, LastSeen, Top;
    var light, rem := KeysAt(entries, UpTo(Window(cap, |entries|))), KeysAt(entries, Top(Relevances(entries), cap));
    var mid :| Met(s, mid, light, Light, day) && Met(mid, t, rem, Rem, day);
    forall key
      ensures Listings(s, key) <= Listings(t, key)
    {
      assert forall p :: SignalCount(s, key, p) <= SignalCount(mid, key, p) <= SignalCount(t, key, p);
    }
  }

  /** Sweeping the same entries again never takes an entry below a threshold it passed, and when the window holds all
      entries it promotes again whatever it promoted. */
  lemma {:induction false} SweepAgain(c: Config, s: Signals, t: Signals, entries: seq<Entry>, cap: int, day: string,
      grounded: Entry -> bool, duplicate: Entry -> bool, i: nat)
    requires Swept(s, t, entries, cap, day) && i < |entries|
    ensures SweepScore(c, s, entries, cap, day, i) <= SweepScore(c, t, entries, cap, day, i)
    ensures Passes(c, entries[i], SweepScore(c, s, entries, cap, day, i)) ==>
              Passes(c, entries[i], SweepScore(c, t, entries, cap, day, i))
    ensures cap >= |entries| && i in Promoted(c, s, entries, cap, day, grounded, duplicate) ==>
              i in Promoted(c, t, entries, cap, day, grounded, duplicate)
  {
    hide Swept, Listings, OwnListings, Weighted, ComponentsOf, Promoted, RankOf;
    SweptNoFewer(s, t, entries, cap, day);
    assert Listings(s, entries[i].key) <= Listings(t, entries[i].key);
    PromotedIff(c, s, entries, cap, day, grounded, duplicate, i);
    PromotedIff(c, t, entries, cap, day, grounded, duplicate, i);
    RankBelow(SweepScores(c, t, entries, cap, day), i);
  }

  lemma {:induction false} RankBelow(weights: seq<real>, i: nat)
    requires i < |weights|
    ensures RankOf(weights, i) < |weights|
  {
    hide Ranking, RankOf;
    RankingWhole(weights);
    assert i in Ranking(weights);
    var p :| 0 <= p < |weights| && Ranking(weights)[p] == i;
    RankingAtRank(weights, p);
  }

  // ------------------------------------------------------------------ a promotion that a sweep displaces

  lemma {:induction false} RankingOfTwo(weights: seq<real>)
    requires |weights| == 2
    ensures Ranking(weights) == if weights[1] > weights[0] then [1, 0] else [0, 1]
  {
    var second := [Item(1, weights[1])];
    assert ItemsFrom(weights, 2) == [] && ItemsFrom(weights, 1) == second;
    assert ItemsFrom(weights, 0) == [Item(0, weights[0])] + second;
    assert second[1..] == [] && ([Item(0, weights[0])] + second)[1..] == second;
    assert Descending(second) == InsertItem(second[0], []) == second;
    assert InsertItem(Item(0, weights[0]), []) == [Item(0, weights[0])];
    var items := Descending(ItemsFrom(weights, 0));
    assert items == InsertItem(Item(0, weights[0]), second);
    assert items == if weights[1] > weights[0] then second + [Item(0, weights[0])] else [Item(0, weights[0])] + second;
    assert |Places(items)| == 2;
  }

  function Line(key: string, day: string): Entry {
    Entry(key, key, 1, 0, 1, 1.0, ["q"], [day], [], day)
  }

  const YESTERDAY := "2026-01-01"
  const TODAY := "2026-01-02"

  /** Two entries recalled once, one yesterday and one today, in a sweep that takes one candidate and weighs recency. */
  const PAIR := [Line("a", YESTERDAY), Line("b", TODAY)]
  const RECENCY := Config(0.0, 0, 0, Weights(0.0, 0.0, 0.0, 0.15, 0.0, 0.0))

  lemma {:induction false} PairListings()
    ensures OwnListings(PAIR, 1, 0) == 2 && OwnListings(PAIR, 1, 1) == 0
  {
    hide Ranking, RankOf;
    var rel := Relevances(PAIR);
    assert rel[0] == 1.0 && rel[1] == 1.0;
    RankingOfTwo(rel);
    RankingAtRank(rel, 0);
    RankingAtRank(rel, 1);
  }

  lemma {:induction false} PairBase()
    ensures Weighted(ComponentsOf(PAIR[0], TODAY), RECENCY.weights) == 0.075
    ensures Weighted(ComponentsOf(PAIR[1], TODAY), RECENCY.weights) == 0.15
  {
    assert TODAY[9] != YESTERDAY[9];
  }

  lemma {:induction false} PairScores(s: Signals)
    ensures SweepScores(RECENCY, s, PAIR, 1, TODAY) ==
            [0.075 + Min(0.10, (Listings(s, "a") + 2) as real * 0.03),
             0.15 + Min(0.10, Listings(s, "b") as real * 0.03)]
  {
    hide OwnListings, Weighted, ComponentsOf, Listings;
    PairListings();
    PairBase();
    assert PAIR[0].key == "a" && PAIR[1].key == "b";
  }

  lemma {:induction false} PairPromoted(s: Signals, grounded: Entry -> bool, duplicate: Entry -> bool)
    requires forall e :: e in PAIR ==> grounded(e) && !duplicate(e)
    ensures var scores := SweepScores(RECENCY, s, PAIR, 1, TODAY);
            Promoted(RECENCY, s, PAIR, 1, TODAY, grounded, duplicate) ==
            [if scores[1] > scores[0] then 1 else 0]
  {
    hide Listings, Ranking, SweepScores;
    PairScores(s);
    var scores := SweepScores(RECENCY, s, PAIR, 1, TODAY);
    RankingOfTwo(scores);
    TopDistinct(scores, 1);
    var first := if scores[1] > scores[0] then 1 else 0;
    assert |scores| == 2 && scores[0] >= 0.0 && scores[1] >= 0.0;
    var top := Top(scores, 1);
    assert top == [first] && top[..0] == [];
    assert Passes(RECENCY, PAIR[first], scores[first]);
    assert Chosen(RECENCY, PAIR, scores, top[..0], grounded, duplicate) == [];
    assert Chosen(RECENCY, PAIR, scores, top, grounded, duplicate) == [first];
  }

  /** Sweeping the same two entries twice on one day, nothing ingested in between: the first sweep promotes the entry
      of today, and its own listings of the other one make the second sweep promote that instead. */
  lemma {:induction false} SweepDisplaces(s: Signals, t: Signals, grounded: Entry -> bool, duplicate: Entry -> bool)
    requires forall e :: e in PAIR ==> grounded(e) && !duplicate(e)
    requires Listings(s, "a") == 0 && Listings(s, "b") == 0 && Swept(s, t, PAIR, 1, TODAY)
    ensures Promoted(RECENCY, s, PAIR, 1, TODAY, grounded, duplicate) == [1]
    ensures Promoted(RECENCY, t, PAIR, 1, TODAY, grounded, duplicate) == [0]
  {
    hide Swept, Listings, Promoted, SweepScores, OwnListings;
    assert Keyed(PAIR) by {
      assert Less("a", "b");
    }
    PairListings();
    SweptListings(s, t, PAIR, 1, TODAY, 0);
    SweptListings(s, t, PAIR, 1, TODAY, 1);
    assert PAIR[0].key == "a" && PAIR[1].key == "b";
    PairScores(s);
    PairScores(t);
    PairPromoted(s, grounded, duplicate);
    PairPromoted(t, grounded, duplicate);
  }

  // ------------------------------------------------------------------ the engine

  class DreamingEngine {
    const state: DreamingStateStore
    const config: Config
    const maxCandidates: int

    constructor (state: DreamingStateStore, config: Config, maxCandidates: int)
      ensures this.state == state && this.config == config && this.maxCandidates == maxCandidates
    {
      this.state, this.config, this.maxCandidates := state, config, maxCandidates;
    }

    method RunLight(entries: seq<Entry>, day: string)
      modifies state`signals
      ensures var light := UpTo(Window(maxCandidates, |entries|));
              Met(old(state.signals), state.signals, KeysAt(entries, light), Light, day)
    {
      hide SignalCount, LastSeen;
      state.RecordPhaseSignals(Light, KeysAt(entries, UpTo(Window(maxCandidates, |entries|))), day);
    }

    method RunRem(entries: seq<Entry>, day: string)
      modifies state`signals
      ensures InRange(Top(Relevances(entries), maxCandidates), |entries|)
      ensures Met(old(state.signals), state.signals, KeysAt(entries, Top(Relevances(entries), maxCandidates)), Rem, day)
    {
      hide SignalCount, LastSeen;
      TopDistinct(Relevances(entries), maxCandidates);
      state.RecordPhaseSignals(Rem, KeysAt(entries, Top(Relevances(entries), maxCandidates)), day);
    }

    /** Which places the deep phase promotes, in the order of their scores. */
    method RunDeep(entries: seq<Entry>, day: string, grounded: Entry -> bool, duplicate: Entry -> bool)
      returns (promoted: seq<nat>)
      ensures var scores := DeepScores(config, state.signals, entries, day);
              InRange(Top(scores, maxCandidates), |entries|) &&
              promoted == Chosen(config, entries, scores, Top(scores, maxCandidates), grounded, duplicate)
    {
      hide Score, Top, Passes;
      var scores: seq<real> := [];
      for i := 0 to |entries|
        invariant |scores| == i
        invariant forall j :: 0 <= j < i ==>
          scores[j] == Score(config, entries[j], SignalsOf(state.signals, entries[j].key), day)
      {
        scores := scores + [Score(config, entries[i], SignalsOf(state.signals, entries[i].key), day)];
      }
      assert scores == DeepScores(config, state.signals, entries, day);
      var selected := Top(scores, maxCandidates);
      TopDistinct(scores, maxCandidates);
      promoted := [];
      for p := 0 to |selected|
        invariant promoted == Chosen(config, entries, scores, selected[..p], grounded, duplicate)
      {
        assert selected[..p + 1][..p] == selected[..p];
        var e := entries[selected[p]];
        if Passes(config, e, scores[selected[p]]) {
          if grounded(e) {
            if !duplicate(e) {
              promoted := promoted + [selected[p]];
            }
          }
        }
      }
      assert selected[..|selected|] == selected;
    }

    /** One sweep: ingested lines are merged into the stored entries, the two windows are listed, and only then is
        anything scored. */
    method RunSweep(ingested: seq<Entry>, day: string, grounded: Entry -> bool, duplicate: Entry -> bool)
      returns (promoted: seq<nat>)
      requires Keyed(state.shortTerm)
      modifies state
      ensures Keyed(state.shortTerm)
      ensures if ingested == [] then state.shortTerm == old(state.shortTerm)
              else ListOf(UpsertAll(Dictionary(old(state.shortTerm)), ingested), state.shortTerm)
      ensures Swept(old(state.signals), state.signals, state.shortTerm, maxCandidates, day)
      ensures promoted == Promoted(config, old(state.signals), state.shortTerm, maxCandidates, day, grounded, duplicate)
    {
      hide Met, Top, Score, SweepScore, UpsertAll;
      ghost var before := state.signals;
      if ingested != [] {
        state.UpsertShortTermEntries(ingested);
      }
      var entries := state.shortTerm;
      RunLight(entries, day);
      RunRem(entries, day);
      promoted := RunDeep(entries, day, grounded, duplicate);
      SweptAllScores(config, before, state.signals, entries, maxCandidates, day);
    }
  }

  lemma {:induction false} SweptAllScores(c: Config, s: Signals, t: Signals, entries: seq<Entry>, cap: int, day: string)
    requires Keyed(entries) && Swept(s, t, entries, cap, day)
    ensures SweepScores(c, s, entries, cap, day) == DeepScores(c, t, entries, day)
  {
    hide Keyed, Swept, Score, SweepScore;
    forall i | 0 <= i < |entries|
      ensures Score(c, entries[i], SignalsOf(t, entries[i].key), day) == SweepScore(c, s, entries, cap, day, i)
    {
      SweptScore(c, s, t, entries, cap, day, i);
    }
  }
}
