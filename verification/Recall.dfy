/** Bounded recall of durable memory: filter, score, order, then take a page under two caps. */
module Recall {
  import opened Text
  import opened Wrappers

  datatype Overlay = User | Project | Team | Agent | Local

  /** `folded` is the lower-cased title, content and summary that tokens are looked up in. */
  datatype MemoryRecord = MemoryRecord(
    memoryId: string,
    scope: Overlay,
    title: string,
    content: string,
    folded: string,
    agentId: Option<string>,
    sessionId: Option<string>)

  /** `tokens` are the distinct lower-cased words of the query; an empty `overlays` selects every scope. */
  datatype Request = Request(
    sessionRef: string,
    tokens: set<string>,
    overlays: set<Overlay>,
    surfaced: set<string>,
    maxResults: Option<int>,
    maxTotalBytes: Option<int>,
    agentId: Option<string>)

  function Utf8Length(s: string): nat {
    if s == [] then 0
    else
      var c := s[0] as int;
      (if c < 0x80 then 1 else if c < 0x800 then 2 else if c < 0x1_0000 then 3 else 4) + Utf8Length(s[1..])
  }

  function ContentSize(m: MemoryRecord): nat {
    Utf8Length(m.title) + Utf8Length(m.content)
  }

  function OrDefault(x: Option<int>, default: int): int {
    if x.None? || x.value == 0 then default else x.value
  }

  function ResultCap(req: Request): int { OrDefault(req.maxResults, 5) }

  function ByteCap(req: Request): int { OrDefault(req.maxTotalBytes, 16_000) }

  predicate VisibleIn(m: MemoryRecord, req: Request) {
    if req.overlays != {} && m.scope !in req.overlays then false
    else if m.scope == Agent && req.agentId.Some? && m.agentId.Some? && m.agentId.value != "" then
      m.agentId == req.agentId
    else if m.scope == Local && m.sessionId.Some? then m.sessionId.value == req.sessionRef
    else true
  }

  function Score(req: Request, m: MemoryRecord): nat {
    |set t | t in req.tokens && Occurs(m.folded, t)| +
    (if req.agentId.Some? && m.agentId == req.agentId then 2 else 0) +
    (if m.sessionId == Some(req.sessionRef) then 1 else 0)
  }

  /** Whether a record answers the request at all, surfaced or not. */
  predicate Relevant(req: Request, m: MemoryRecord) {
    VisibleIn(m, req) && (Score(req, m) > 0 || req.tokens == {})
  }

  function RelevantOf(req: Request, ms: seq<MemoryRecord>): seq<MemoryRecord> {
    if ms == [] then []
    else if Relevant(req, ms[0]) then [ms[0]] + RelevantOf(req, ms[1..])
    else RelevantOf(req, ms[1..])
  }

  /** The records not surfaced yet, in order. */
  function Fresh(ms: seq<MemoryRecord>, surfaced: set<string>): seq<MemoryRecord> {
    if ms == [] then []
    else if ms[0].memoryId in surfaced then Fresh(ms[1..], surfaced)
    else [ms[0]] + Fresh(ms[1..], surfaced)
  }

  lemma {:induction false} FreshCons(m: MemoryRecord, ms: seq<MemoryRecord>, surfaced: set<string>)
    ensures Fresh([m] + ms, surfaced) == if m.memoryId in surfaced then Fresh(ms, surfaced)
      else [m] + Fresh(ms, surfaced)
  {
    assert ([m] + ms)[1..] == ms;
  }

  // ------------------------------------------------------------------ the stable order

  function Insert(req: Request, m: MemoryRecord, sorted: seq<MemoryRecord>): seq<MemoryRecord> {
    if sorted == [] then [m]
    else if Score(req, m) >= Score(req, sorted[0]) then [m] + sorted
    else [sorted[0]] + Insert(req, m, sorted[1..])
  }

  function StableDescending(req: Request, ms: seq<MemoryRecord>): seq<MemoryRecord> {
    if ms == [] then [] else Insert(req, ms[0], StableDescending(req, ms[1..]))
  }

  ghost predicate Descending(req: Request, ms: seq<MemoryRecord>) {
    forall i, j :: 0 <= i < j < |ms| ==> Score(req, ms[i]) >= Score(req, ms[j])
  }

  /** The records of one score, in order. */
  function OfScore(req: Request, ms: seq<MemoryRecord>, score: nat): seq<MemoryRecord> {
    if ms == [] then []
    else if Score(req, ms[0]) == score then [ms[0]] + OfScore(req, ms[1..], score)
    else OfScore(req, ms[1..], score)
  }

  lemma {:induction false} OfScoreCons(req: Request, m: MemoryRecord, ms: seq<MemoryRecord>, score: nat)
    ensures OfScore(req, [m] + ms, score) == if Score(req, m) == score then [m] + OfScore(req, ms, score)
      else OfScore(req, ms, score)
  {
    assert ([m] + ms)[1..] == ms;
  }

  lemma {:induction false} InsertMembers(req: Request, m: MemoryRecord, sorted: seq<MemoryRecord>)
    ensures multiset(Insert(req, m, sorted)) == multiset(sorted) + multiset{m}
    ensures forall x :: x in Insert(req, m, sorted) <==> x == m || x in sorted
  {
    if sorted != [] {
      assert sorted == [sorted[0]] + sorted[1..];
      if Score(req, m) < Score(req, sorted[0]) {
        InsertMembers(req, m, sorted[1..]);
      }
    }
  }

  lemma {:induction false} DescendingCons(req: Request, x: MemoryRecord, rest: seq<MemoryRecord>)
    requires Descending(req, rest) && forall y :: y in rest ==> Score(req, x) >= Score(req, y)
    ensures Descending(req, [x] + rest)
  {
    var r := [x] + rest;
    forall i, j | 0 <= i < j < |r| ensures Score(req, r[i]) >= Score(req, r[j]) {
      assert r[j] == rest[j - 1] && (i > 0 ==> r[i] == rest[i - 1]);
    }
  }

  lemma {:induction false} InsertSorts(req: Request, m: MemoryRecord, sorted: seq<MemoryRecord>)
    requires Descending(req, sorted)
    ensures Descending(req, Insert(req, m, sorted))
  {
    if sorted != [] && Score(req, m) < Score(req, sorted[0]) {
      InsertSorts(req, m, sorted[1..]);
      InsertMembers(req, m, sorted[1..]);
      DescendingCons(req, sorted[0], Insert(req, m, sorted[1..]));
    } else {
      DescendingCons(req, m, sorted);
      assert sorted == [] ==> [m] + sorted == [m];
    }
  }

  lemma {:induction false} InsertStable(req: Request, m: MemoryRecord, sorted: seq<MemoryRecord>, score: nat)
    ensures OfScore(req, Insert(req, m, sorted), score) ==
            if Score(req, m) == score then [m] + OfScore(req, sorted, score) else OfScore(req, sorted, score)
  {
    if sorted == [] || Score(req, m) >= Score(req, sorted[0]) {
      OfScoreCons(req, m, sorted, score);
      assert sorted == [] ==> [m] + sorted == [m];
    } else {
      InsertStable(req, m, sorted[1..], score);
      OfScoreCons(req, sorted[0], Insert(req, m, sorted[1..]), score);
    }
  }

  /** The order is by falling score, keeps every record once, and keeps records of equal score in their given
      order. */
  lemma {:induction false} StableDescendingCorrect(req: Request, ms: seq<MemoryRecord>, score: nat)
    ensures var r := StableDescending(req, ms);
            && Descending(req, r)
            && multiset(r) == multiset(ms)
            && OfScore(req, r, score) == OfScore(req, ms, score)
  {
    if ms != [] {
      StableDescendingCorrect(req, ms[1..], score);
      var rest := StableDescending(req, ms[1..]);
      InsertSorts(req, ms[0], rest);
      InsertMembers(req, ms[0], rest);
      InsertStable(req, ms[0], rest, score);
      assert ms == [ms[0]] + ms[1..];
    }
  }

  lemma {:induction false} FreshInsert(req: Request, m: MemoryRecord, sorted: seq<MemoryRecord>, surfaced: set<string>)
    requires Descending(req, sorted)
    ensures Fresh(Insert(req, m, sorted), surfaced) ==
            if m.memoryId in surfaced then Fresh(sorted, surfaced) else Insert(req, m, Fresh(sorted, surfaced))
  {
    if sorted == [] || Score(req, m) >= Score(req, sorted[0]) {
      assert sorted == [] ==> [m] + sorted == [m];
      FreshCons(m, sorted, surfaced);
      FreshMembers(sorted, surfaced);
    } else {
      FreshInsert(req, m, sorted[1..], surfaced);
      FreshCons(sorted[0], Insert(req, m, sorted[1..]), surfaced);
    }
  }

  lemma {:induction false} FreshMembers(ms: seq<MemoryRecord>, surfaced: set<string>)
    ensures forall m :: m in Fresh(ms, surfaced) <==> m in ms && m.memoryId !in surfaced
    ensures |Fresh(ms, surfaced)| <= |ms|
  {
    if ms != [] {
      FreshMembers(ms[1..], surfaced);
      assert ms == [ms[0]] + ms[1..];
    }
  }

  /** Leaving out surfaced records before or after ordering is the same. */
  lemma {:induction false} FreshCommutes(req: Request, ms: seq<MemoryRecord>, surfaced: set<string>)
    ensures StableDescending(req, Fresh(ms, surfaced)) == Fresh(StableDescending(req, ms), surfaced)
  {
    if ms != [] {
      FreshCommutes(req, ms[1..], surfaced);
      StableDescendingCorrect(req, ms[1..], 0);
      FreshInsert(req, ms[0], StableDescending(req, ms[1..]), surfaced);
    }
  }

  // ------------------------------------------------------------------ one page

  function TotalSize(ms: seq<MemoryRecord>): nat {
    if ms == [] then 0 else TotalSize(ms[..|ms| - 1]) + ContentSize(ms[|ms| - 1])
  }

  /** A page obeys both caps, except that one record alone may exceed the byte cap. */
  ghost predicate Bounded(req: Request, page: seq<MemoryRecord>) {
    (page != [] ==> |page| <= ResultCap(req)) && (|page| > 1 ==> TotalSize(page) <= ByteCap(req))
  }

  /** How many of the ordered records fit, having taken `n` of them already. */
  function PageEnd(req: Request, ordered: seq<MemoryRecord>, n: nat): (end: nat)
    requires n <= |ordered|
    ensures n <= end <= |ordered|
    decreases |ordered| - n
  {
    if n == |ordered| || n >= ResultCap(req) then n
    else if n > 0 && TotalSize(ordered[..n + 1]) > ByteCap(req) then n
    else PageEnd(req, ordered, n + 1)
  }

  function CandidatesOf(req: Request, ms: seq<MemoryRecord>): seq<MemoryRecord> {
    Fresh(RelevantOf(req, ms), req.surfaced)
  }

  function Ordered(req: Request, ms: seq<MemoryRecord>): seq<MemoryRecord> {
    StableDescending(req, CandidatesOf(req, ms))
  }

  function Page(req: Request, ms: seq<MemoryRecord>): seq<MemoryRecord> {
    var ordered := Ordered(req, ms);
    ordered[..PageEnd(req, ordered, 0)]
  }

  lemma {:induction false} TotalSizeGrows(ordered: seq<MemoryRecord>, n: nat)
    requires n < |ordered|
    ensures TotalSize(ordered[..n + 1]) == TotalSize(ordered[..n]) + ContentSize(ordered[n])
  {
    assert ordered[..n + 1][..n] == ordered[..n];
  }

  /** The page is the longest prefix of the order within the caps: it obeys them and, unless it holds
      everything, one more record would break them. */
  lemma {:induction false} PageEndMaximal(req: Request, ordered: seq<MemoryRecord>, n: nat)
    requires n <= |ordered| && Bounded(req, ordered[..n])
    ensures var end := PageEnd(req, ordered, n);
            && Bounded(req, ordered[..end])
            && (end < |ordered| ==> !Bounded(req, ordered[..end + 1]))
    decreases |ordered| - n
  {
    hide ContentSize;
    if n < |ordered| && n < ResultCap(req) && !(n > 0 && TotalSize(ordered[..n + 1]) > ByteCap(req)) {
      PageEndMaximal(req, ordered, n + 1);
    }
  }

  method ScoreCandidates(ms: seq<MemoryRecord>, req: Request) returns (scored: seq<MemoryRecord>)
    ensures scored == CandidatesOf(req, ms)
  {
    hide VisibleIn, Score;
    scored := [];
    var i := 0;
    while i < |ms|
      invariant 0 <= i <= |ms|
      invariant scored + CandidatesOf(req, ms[i..]) == CandidatesOf(req, ms)
    {
      var m := ms[i];
      assert ms[i..][1..] == ms[i + 1..];
      if m.memoryId !in req.surfaced && VisibleIn(m, req) && (Score(req, m) > 0 || req.tokens == {}) {
        scored := scored + [m];
      }
      CandidatesStep(req, ms[i..]);
      i := i + 1;
    }
  }

  /** The greedy prefix within both caps. */
  method BoundCandidates(req: Request, ordered: seq<MemoryRecord>) returns (bounded: seq<MemoryRecord>)
    ensures bounded == ordered[..PageEnd(req, ordered, 0)]
    ensures Bounded(req, bounded)
    ensures |bounded| < |ordered| ==> !Bounded(req, ordered[..|bounded| + 1])
  {
    hide ContentSize, ResultCap, ByteCap;
    bounded := [];
    var total := 0;
    PageEndMaximal(req, ordered, 0);
    while |bounded| < |ordered|
      invariant |bounded| <= |ordered| && bounded == ordered[..|bounded|] && total == TotalSize(bounded)
      invariant PageEnd(req, ordered, |bounded|) == PageEnd(req, ordered, 0)
    {
      var m := ordered[|bounded|];
      if |bounded| >= ResultCap(req) {
        break;
      }
      TotalSizeGrows(ordered, |bounded|);
      if bounded != [] && total + ContentSize(m) > ByteCap(req) {
        break;
      }
      total := total + ContentSize(m);
      bounded := bounded + [m];
    }
  }

  method SelectRecallCandidates(ms: seq<MemoryRecord>, req: Request) returns (bounded: seq<MemoryRecord>)
    ensures bounded == Page(req, ms)
    ensures Bounded(req, bounded)
    ensures bounded <= Ordered(req, ms)
    ensures |bounded| < |Ordered(req, ms)| ==> !Bounded(req, Ordered(req, ms)[..|bounded| + 1])
  {
    hide Bounded, StableDescending, CandidatesOf, PageEnd;
    var scored := ScoreCandidates(ms, req);
    var ordered := StableDescending(req, scored);
    bounded := BoundCandidates(req, ordered);
  }

  lemma {:induction false} CandidatesStep(req: Request, ms: seq<MemoryRecord>)
    requires ms != []
    ensures CandidatesOf(req, ms) ==
            (if Relevant(req, ms[0]) && ms[0].memoryId !in req.surfaced then [ms[0]] else []) +
                CandidatesOf(req, ms[1..])
  {
    if Relevant(req, ms[0]) {
      FreshCons(ms[0], RelevantOf(req, ms[1..]), req.surfaced);
    }
  }

  // ------------------------------------------------------------------ which records are recalled, and how they rank

  lemma {:induction false} InRelevant(req: Request, ms: seq<MemoryRecord>, m: MemoryRecord)
    ensures m in RelevantOf(req, ms) <==> m in ms && Relevant(req, m)
  {
    hide Relevant;
    if ms != [] {
      assert ms == [ms[0]] + ms[1..];
      InRelevant(req, ms[1..], m);
    }
  }

  lemma {:induction false} InFresh(ms: seq<MemoryRecord>, surfaced: set<string>, m: MemoryRecord)
    ensures m in Fresh(ms, surfaced) <==> m in ms && m.memoryId !in surfaced
  {
    if ms != [] {
      assert ms == [ms[0]] + ms[1..];
      InFresh(ms[1..], surfaced, m);
    }
  }

  /** A record is recalled, given room, if and only if it was not surfaced, lies in a selected scope, is not another
      agent's or another session's own, and shares a word, the agent or the session with a request that has words. */
  lemma {:induction false} RecalledIff(req: Request, ms: seq<MemoryRecord>, m: MemoryRecord)
    ensures m in Ordered(req, ms) <==>
            && m in ms && m.memoryId !in req.surfaced
            && (req.overlays == {} || m.scope in req.overlays)
            && (m.scope == Agent && req.agentId.Some? && m.agentId.Some? && m.agentId.value != "" ==>
                  m.agentId.value == req.agentId.value)
            && (m.scope == Local && m.sessionId.Some? ==> m.sessionId.value == req.sessionRef)
            && (|| req.tokens == {} || (exists t :: t in req.tokens && Occurs(m.folded, t))
                || (req.agentId.Some? && m.agentId == req.agentId) || m.sessionId == Some(req.sessionRef))
  {
    var found := set t | t in req.tokens && Occurs(m.folded, t);
    forall t | t in req.tokens && Occurs(m.folded, t)
      ensures t in found
    {}
    if found != {} {
      var t :| t in found;
      assert t in req.tokens && Occurs(m.folded, t);
    }
    assert |found| > 0 <==> found != {};
    hide Occurs;
    InRelevant(req, ms, m);
    InFresh(RelevantOf(req, ms), req.surfaced, m);
    StableDescendingCorrect(req, CandidatesOf(req, ms), 0);
    var ordered := Ordered(req, ms);
    assert m in ordered <==> m in multiset(ordered);
    assert m in CandidatesOf(req, ms) <==> m in multiset(CandidatesOf(req, ms));
  }

  /** How many words of the request a record holds. */
  function Hits(req: Request, m: MemoryRecord): nat {
    |set t | t in req.tokens && Occurs(m.folded, t)|
  }

  /** A record stands before another only with as many words, where the request's agent counts for two of them and its
      session for one. */
  lemma {:induction false} RankedByHits(req: Request, ms: seq<MemoryRecord>, i: nat, j: nat)
    requires i < j < |Ordered(req, ms)|
    ensures var m, n := Ordered(req, ms)[i], Ordered(req, ms)[j];
            Hits(req, m) + (if req.agentId.Some? && m.agentId == req.agentId then 2 else 0) +
            (if m.sessionId == Some(req.sessionRef) then 1 else 0) >=
            Hits(req, n) + (if req.agentId.Some? && n.agentId == req.agentId then 2 else 0) +
            (if n.sessionId == Some(req.sessionRef) then 1 else 0)
  {
    StableDescendingCorrect(req, CandidatesOf(req, ms), 0);
    assert Score(req, Ordered(req, ms)[i]) >= Score(req, Ordered(req, ms)[j]);
  }

  lemma {:induction false} Utf8Concat(a: string, b: string)
    ensures Utf8Length(a + b) == Utf8Length(a) + Utf8Length(b)
  {
    if a == [] {
      assert a + b == b;
    } else {
      assert (a + b)[1..] == a[1..] + b;
      Utf8Concat(a[1..], b);
    }
  }

  /** The characters of a text from this code point on. */
  function From(s: string, point: int): nat {
    if s == [] then 0 else (if s[0] as int >= point then 1 else 0) + From(s[1..], point)
  }

  /** A text takes a byte for each character, and one more for each that reaches U+0080, U+0800 and U+10000. */
  lemma {:induction false} Utf8Counts(s: string)
    ensures Utf8Length(s) == |s| + From(s, 0x80) + From(s, 0x800) + From(s, 0x1_0000)
  {
    if s != [] {
      Utf8Counts(s[1..]);
    }
  }

  /** The titles and contents of records, one after the other. */
  function Texts(ms: seq<MemoryRecord>): string {
    if ms == [] then "" else Texts(ms[..|ms| - 1]) + (ms[|ms| - 1].title + ms[|ms| - 1].content)
  }

  lemma {:induction false} SizeOfTexts(ms: seq<MemoryRecord>)
    ensures TotalSize(ms) == Utf8Length(Texts(ms))
  {
    hide Utf8Length;
    if ms == [] {
      Utf8Counts("");
    } else {
      var init, last := ms[..|ms| - 1], ms[|ms| - 1];
      SizeOfTexts(init);
      Utf8Concat(Texts(init), last.title + last.content);
      Utf8Concat(last.title, last.content);
    }
  }

  /** ASCII text is as long in bytes as in characters, other text is longer, and no character takes more than four
      bytes. */
  lemma {:induction false} Utf8Bounds(s: string)
    ensures |s| <= Utf8Length(s) <= 4 * |s|
    ensures Utf8Length(s) == |s| <==> forall i :: 0 <= i < |s| ==> s[i] as int < 0x80
  {
    if s != [] {
      Utf8Bounds(s[1..]);
      assert forall i :: 0 < i < |s| ==> s[i] == s[1..][i - 1];
    }
  }

  /** Without a cap, or with a cap of 0, a page holds at most five records; the titles and contents of two or more
      of them take at most 16000 bytes. */
  lemma {:induction false} DefaultCaps(req: Request, ms: seq<MemoryRecord>)
    ensures var page := Page(req, ms);
            && (req.maxResults in {None, Some(0)} ==> |page| <= 5)
            && (req.maxResults.Some? && req.maxResults.value > 0 ==> |page| <= req.maxResults.value)
            && (|page| > 1 && req.maxTotalBytes in {None, Some(0)} ==> Utf8Length(Texts(page)) <= 16_000)
            && (|page| > 1 && req.maxTotalBytes.Some? && req.maxTotalBytes.value != 0 ==>
                  Utf8Length(Texts(page)) <= req.maxTotalBytes.value)
  {
    hide Ordered, TotalSize, Texts, Utf8Length;
    SizeOfTexts(Page(req, ms));
    PageEndMaximal(req, Ordered(req, ms), 0);
    assert Ordered(req, ms)[..0] == [];
  }

  // ------------------------------------------------------------------ page after page

  function Ids(ms: seq<MemoryRecord>): set<string> {
    set m | m in ms :: m.memoryId
  }

  ghost predicate DistinctIds(ms: seq<MemoryRecord>) {
    forall i, j :: 0 <= i < j < |ms| ==> ms[i].memoryId != ms[j].memoryId
  }

  function Surfacing(req: Request, page: seq<MemoryRecord>): Request {
    req.(surfaced := req.surfaced + Ids(page))
  }

  lemma {:induction false} FreshTwice(ms: seq<MemoryRecord>, s: set<string>, t: set<string>)
    ensures Fresh(ms, s + t) == Fresh(Fresh(ms, s), t)
  {
    if ms != [] {
      FreshTwice(ms[1..], s, t);
      FreshCons(ms[0], Fresh(ms[1..], s), t);
    }
  }

  /** After a page, what is left to order is what the page did not show. */
  lemma {:induction false} OrderedAfter(req: Request, ms: seq<MemoryRecord>, page: seq<MemoryRecord>)
    ensures Ordered(Surfacing(req, page), ms) == Fresh(Ordered(req, ms), Ids(page))
  {
    var next := Surfacing(req, page);
    RelevantSame(req, next, ms);
    FreshTwice(RelevantOf(req, ms), req.surfaced, Ids(page));
    SameOrder(req, next, CandidatesOf(next, ms));
    FreshCommutes(req, CandidatesOf(req, ms), Ids(page));
  }

  ghost predicate SameQuestion(r: Request, s: Request) {
    r.sessionRef == s.sessionRef && r.tokens == s.tokens && r.overlays == s.overlays && r.agentId == s.agentId
  }

  lemma {:induction false} RelevantSame(r: Request, s: Request, ms: seq<MemoryRecord>)
    requires SameQuestion(r, s)
    ensures RelevantOf(r, ms) == RelevantOf(s, ms)
  {
    if ms != [] {
      RelevantSame(r, s, ms[1..]);
    }
  }

  lemma {:induction false} InsertSame(r: Request, s: Request, m: MemoryRecord, ms: seq<MemoryRecord>)
    requires SameQuestion(r, s)
    ensures Insert(r, m, ms) == Insert(s, m, ms)
  {
    if ms != [] {
      InsertSame(r, s, m, ms[1..]);
    }
  }

  lemma {:induction false} SameOrder(r: Request, s: Request, ms: seq<MemoryRecord>)
    requires SameQuestion(r, s)
    ensures StableDescending(r, ms) == StableDescending(s, ms)
  {
    if ms != [] {
      SameOrder(r, s, ms[1..]);
      InsertSame(r, s, ms[0], StableDescending(s, ms[1..]));
    }
  }

  lemma {:induction false} FreshShrinks(ms: seq<MemoryRecord>, surfaced: set<string>)
    requires exists m :: m in ms && m.memoryId in surfaced
    ensures |Fresh(ms, surfaced)| < |ms|
  {
    var m :| m in ms && m.memoryId in surfaced;
    if ms[0].memoryId in surfaced {
      FreshMembers(ms[1..], surfaced);
    } else {
      assert m in ms[1..];
      FreshShrinks(ms[1..], surfaced);
    }
  }

  lemma {:induction false} PageShrinks(req: Request, ms: seq<MemoryRecord>)
    requires Page(req, ms) != []
    ensures |Ordered(Surfacing(req, Page(req, ms)), ms)| < |Ordered(req, ms)|
  {
    var page := Page(req, ms);
    OrderedAfter(req, ms, page);
    assert page[0] in Ordered(req, ms) && page[0].memoryId in Ids(page);
    FreshShrinks(Ordered(req, ms), Ids(page));
  }

  /** Recall again and again, surfacing every page, until a page is empty: this always ends. */
  function AllPages(req: Request, ms: seq<MemoryRecord>): seq<seq<MemoryRecord>>
    decreases |Ordered(req, ms)|
  {
    var page := Page(req, ms);
    if page == [] then []
    else
      PageShrinks(req, ms);
      [page] + AllPages(Surfacing(req, page), ms)
  }

  function Concat(pages: seq<seq<MemoryRecord>>): seq<MemoryRecord> {
    if pages == [] then [] else pages[0] + Concat(pages[1..])
  }

  lemma {:induction false} FreshAfterPrefix(ms: seq<MemoryRecord>, n: nat)
    requires n <= |ms| && DistinctIds(ms)
    ensures Fresh(ms, Ids(ms[..n])) == ms[n..]
  {
    assert ms == ms[..n] + ms[n..];
    FreshConcat(ms[..n], ms[n..], Ids(ms[..n]));
    FreshNone(ms[..n], Ids(ms[..n]));
    FreshAll(ms[n..], Ids(ms[..n]));
  }

  lemma {:induction false} FreshConcat(a: seq<MemoryRecord>, b: seq<MemoryRecord>, surfaced: set<string>)
    ensures Fresh(a + b, surfaced) == Fresh(a, surfaced) + Fresh(b, surfaced)
  {
    if a == [] {
      assert a + b == b;
    } else {
      assert (a + b)[1..] == a[1..] + b;
      FreshConcat(a[1..], b, surfaced);
    }
  }

  lemma {:induction false} FreshNone(ms: seq<MemoryRecord>, surfaced: set<string>)
    requires forall m :: m in ms ==> m.memoryId in surfaced
    ensures Fresh(ms, surfaced) == []
  {
    if ms != [] {
      FreshNone(ms[1..], surfaced);
    }
  }

  lemma {:induction false} FreshAll(ms: seq<MemoryRecord>, surfaced: set<string>)
    requires forall m :: m in ms ==> m.memoryId !in surfaced
    ensures Fresh(ms, surfaced) == ms
  {
    if ms != [] {
      FreshAll(ms[1..], surfaced);
    }
  }

  lemma {:induction false} DistinctCons(m: MemoryRecord, rest: seq<MemoryRecord>)
    requires DistinctIds(rest) && forall x :: x in rest ==> x.memoryId != m.memoryId
    ensures DistinctIds([m] + rest)
  {
    var r := [m] + rest;
    forall i, j | 0 <= i < j < |r| ensures r[i].memoryId != r[j].memoryId {
      assert r[j] == rest[j - 1] && (i > 0 ==> r[i] == rest[i - 1]);
    }
  }

  lemma {:induction false} FreshDistinct(ms: seq<MemoryRecord>, surfaced: set<string>)
    requires DistinctIds(ms)
    ensures DistinctIds(Fresh(ms, surfaced))
  {
    if ms != [] {
      FreshDistinct(ms[1..], surfaced);
      FreshMembers(ms[1..], surfaced);
    }
  }

  lemma {:induction false} RelevantDistinct(req: Request, ms: seq<MemoryRecord>)
    requires DistinctIds(ms)
    ensures DistinctIds(RelevantOf(req, ms))
    ensures forall m :: m in RelevantOf(req, ms) <==> m in ms && Relevant(req, m)
  {
    if ms != [] {
      RelevantDistinct(req, ms[1..]);
      assert ms == [ms[0]] + ms[1..];
      if Relevant(req, ms[0]) {
        DistinctCons(ms[0], RelevantOf(req, ms[1..]));
      }
    }
  }

  lemma {:induction false} InsertDistinct(req: Request, m: MemoryRecord, ms: seq<MemoryRecord>)
    requires DistinctIds(ms) && (forall x :: x in ms ==> x.memoryId != m.memoryId)
    ensures DistinctIds(Insert(req, m, ms))
  {
    if ms != [] && Score(req, m) < Score(req, ms[0]) {
      InsertDistinct(req, m, ms[1..]);
      InsertMembers(req, m, ms[1..]);
      DistinctCons(ms[0], Insert(req, m, ms[1..]));
    } else {
      DistinctCons(m, ms);
      assert ms == [] ==> [m] + ms == [m];
    }
  }

  lemma {:induction false} StableDistinct(req: Request, ms: seq<MemoryRecord>)
    requires DistinctIds(ms)
    ensures DistinctIds(StableDescending(req, ms))
    ensures forall x :: x in StableDescending(req, ms) <==> x in ms
  {
    if ms != [] {
      StableDistinct(req, ms[1..]);
      InsertDistinct(req, ms[0], StableDescending(req, ms[1..]));
      InsertMembers(req, ms[0], StableDescending(req, ms[1..]));
      assert ms == [ms[0]] + ms[1..];
    }
  }

  lemma {:induction false} OrderedDistinct(req: Request, ms: seq<MemoryRecord>)
    requires DistinctIds(ms)
    ensures DistinctIds(Ordered(req, ms))
    ensures forall m :: m in Ordered(req, ms) <==> m in ms && Relevant(req, m) && m.memoryId !in req.surfaced
  {
    RelevantDistinct(req, ms);
    FreshDistinct(RelevantOf(req, ms), req.surfaced);
    FreshMembers(RelevantOf(req, ms), req.surfaced);
    StableDistinct(req, CandidatesOf(req, ms));
  }

  lemma {:induction false} PagesObeyCaps(req: Request, ms: seq<MemoryRecord>)
    ensures forall page :: page in AllPages(req, ms) ==> Bounded(req, page) && page != []
    decreases |Ordered(req, ms)|
  {
    var page := Page(req, ms);
    PageEndMaximal(req, Ordered(req, ms), 0);
    if page != [] {
      var next := Surfacing(req, page);
      PageShrinks(req, ms);
      PagesObeyCaps(next, ms);
      forall p | p in AllPages(req, ms) ensures Bounded(req, p) && p != [] {
        assert p == page || p in AllPages(next, ms);
        assert p in AllPages(next, ms) ==> Bounded(next, p);
      }
    }
  }

  lemma {:induction false} PageEmptyIff(req: Request, ms: seq<MemoryRecord>)
    ensures Page(req, ms) == [] <==> ResultCap(req) <= 0 || Ordered(req, ms) == []
  {
    var ordered := Ordered(req, ms);
    assert PageEnd(req, ordered, 0) > 0 <==> ResultCap(req) > 0 && ordered != [];
  }

  /** Over the records of a store, the pages put end to end are the whole ordered list, each record once, exactly
      when the result cap is positive or nothing matches. */
  lemma {:induction false} PagesPartitionOrder(req: Request, ms: seq<MemoryRecord>)
    requires DistinctIds(ms)
    ensures Concat(AllPages(req, ms)) == Ordered(req, ms) <==> ResultCap(req) > 0 || Ordered(req, ms) == []
    decreases |Ordered(req, ms)|
  {
    var ordered, page := Ordered(req, ms), Page(req, ms);
    PageEmptyIff(req, ms);
    if page != [] {
      var next := Surfacing(req, page);
      PageShrinks(req, ms);
      OrderedAfter(req, ms, page);
      OrderedDistinct(req, ms);
      FreshAfterPrefix(ordered, |page|);
      PagesPartitionOrder(next, ms);
      assert AllPages(req, ms) == [page] + AllPages(next, ms);
      assert AllPages(req, ms)[1..] == AllPages(next, ms);
      assert ordered == page + ordered[|page|..];
    }
  }
}
