/** What a finished stream of tool events says about every call, and the results the blocking form returns. */
module ToolStream {
  import opened Wrappers
  import opened ToolExecutor
  import opened ToolPolicy

  function CallOf(e: Event): nat {
    e.call
  }

  /** The events of one call, in stream order. */
  function Of(events: seq<Event>, i: nat): seq<Event> {
    if events == [] then []
    else (if CallOf(events[0]) == i then [events[0]] else []) + Of(events[1..], i)
  }

  lemma {:induction false} OfCons(e: Event, events: seq<Event>, i: nat)
    ensures Of([e] + events, i) == (if CallOf(e) == i then [e] else []) + Of(events, i)
  {
    assert ([e] + events)[0] == e && ([e] + events)[1..] == events;
  }

  lemma {:induction false} Associate(a: seq<Event>, b: seq<Event>, c: seq<Event>)
    ensures a + b + c == a + (b + c)
  {}

  lemma {:induction false} OfConcat(a: seq<Event>, b: seq<Event>, i: nat)
    ensures Of(a + b, i) == Of(a, i) + Of(b, i)
  {
    if a == [] {
      assert a + b == b && Of(a, i) == [];
    } else {
      hide Of, CallOf;
      var e, rest := a[0], a[1..];
      assert a == [e] + rest;
      Associate([e], rest, b);
      OfConcat(rest, b, i);
      OfCons(e, rest, i);
      OfCons(e, rest + b, i);
      Associate(if CallOf(e) == i then [e] else [], Of(rest, i), Of(b, i));
    }
  }

  lemma {:induction false} OfOwn(events: seq<Event>, owner: nat, i: nat)
    requires forall e :: e in events ==> CallOf(e) == owner
    ensures Of(events, i) == if i == owner then events else []
  {
    if events != [] {
      OfOwn(events[1..], owner, i);
    }
  }

  lemma {:induction false} TagOwner(i: nat, emitted: seq<Emission>)
    ensures forall e :: e in Tag(i, emitted) ==> CallOf(e) == i && e.Said?
  {
    if emitted != [] {
      TagOwner(i, emitted[..|emitted| - 1]);
    }
  }

  lemma {:induction false} OfBlocks(calls: seq<Call>, n: nat, i: nat)
    requires n <= |calls|
    ensures Of(Blocks(calls, n), i) == if i < n then Block(calls, i) else []
  {
    if n > 0 {
      OfBlocks(calls, n - 1, i);
      OfConcat(Blocks(calls, n - 1), Block(calls, n - 1), i);
      TagOwner(n - 1, calls[n - 1].run.emitted);
      OfOwn(Block(calls, n - 1), n - 1, i);
    }
  }

  lemma {:induction false} OfFlat(calls: seq<Call>, safe: seq<nat>, i: nat)
    requires Within(safe, calls) && i < |calls| && forall j, k :: 0 <= j < k < |safe| ==> safe[j] < safe[k]
    ensures Of(Flat(calls, safe), i) == if i in safe then Events(calls, i) else []
  {
    hide Tag;
    if safe != [] {
      OfFlat(calls, safe[1..], i);
      OfConcat(Events(calls, safe[0]), Flat(calls, safe[1..]), i);
      TagOwner(safe[0], calls[safe[0]].run.emitted);
      OfOwn(Events(calls, safe[0]), safe[0], i);
      assert safe == [safe[0]] + safe[1..];
    }
  }

  lemma {:induction false} DeferredHas(calls: seq<Call>, n: nat, i: nat)
    requires i < n <= |calls|
    ensures i in Deferred(calls, n) <==> calls[i].Deferred()
  {
    var before := Deferred(calls, n - 1);
    if i < n - 1 {
      DeferredHas(calls, n - 1, i);
    } else {
      assert forall j :: 0 <= j < |before| ==> before[j] < n - 1;
    }
  }

  /** What a call shows in a stream that ends normally: its start, then everything it emitted. */
  function Story(calls: seq<Call>, i: nat): seq<Event>
    requires i < |calls|
  {
    [Started(i)] + if calls[i].interrupted then [Said(i, Cancelled(INTERRUPTED))] else Events(calls, i)
  }

  lemma {:induction false} NoStop(calls: seq<Call>, approved: set<string>)
    requires StreamOf(calls, approved).abort.None?
    ensures Stop(calls, approved, 0) == |calls| && !AnyRaises(calls, Deferred(calls, |calls|))
    ensures StreamOf(calls, approved).yielded == Blocks(calls, |calls|) + Flat(calls, Deferred(calls, |calls|))
  {
    PoolYieldAll(calls, Deferred(calls, |calls|));
  }

  lemma {:induction false} CallStory(calls: seq<Call>, approved: set<string>, i: nat)
    requires StreamOf(calls, approved).abort.None? && i < |calls|
    ensures Of(StreamOf(calls, approved).yielded, i) == Story(calls, i)
  {
    NoStop(calls, approved);
    var n, safe := |calls|, Deferred(calls, |calls|);
    OfConcat(Blocks(calls, n), Flat(calls, safe), i);
    OfBlocks(calls, n, i);
    OfFlat(calls, safe, i);
    DeferredHas(calls, n, i);
  }

  predicate Terminal(e: Emission) {
    e.Answered? || e.Failed? || e.Cancelled?
  }

  /** A tool that is called once and answers, fails, is cancelled, or asks for an action. */
  predicate NonStreaming(c: Call) {
    if c.run.raises then c.run.emitted == [] else |c.run.emitted| == 1 && Terminal(c.run.emitted[0])
  }

  lemma {:induction false} StopNone(calls: seq<Call>, approved: set<string>, i: nat)
    requires StreamOf(calls, approved).abort.None? && i < |calls| && !calls[i].interrupted
    ensures !calls[i].run.raises
  {
    NoStop(calls, approved);
    assert AbortOf(calls[i], approved).None?;
    if calls[i].safe {
      DeferredHas(calls, |calls|, i);
      var safe := Deferred(calls, |calls|);
      var j :| 0 <= j < |safe| && safe[j] == i;
    }
  }

  /** When a batch of non-streaming tools ends normally every call has exactly one start and then one terminal event. */
  lemma {:induction false} ExactlyOnce(calls: seq<Call>, approved: set<string>, i: nat)
    requires StreamOf(calls, approved).abort.None? && i < |calls| && NonStreaming(calls[i])
    ensures exists end :: Terminal(end) && Of(StreamOf(calls, approved).yielded, i) == [Started(i), Said(i, end)]
  {
    CallStory(calls, approved, i);
    if calls[i].interrupted {
      var end := Cancelled(INTERRUPTED);
      assert Terminal(end) && Story(calls, i) == [Started(i), Said(i, end)];
    } else {
      StopNone(calls, approved, i);
      var end := calls[i].run.emitted[0];
      assert calls[i].run.emitted == [end];
      assert Tag(i, [end]) == [Said(i, end)];
      assert Terminal(end) && Story(calls, i) == [Started(i), Said(i, end)];
    }
  }

  lemma {:induction false} OfSequential(calls: seq<Call>, approved: set<string>, k: nat, i: nat)
    requires k < |calls| && i != k
    ensures Of(SequentialYield(calls, approved, k), i) == if i < k then Block(calls, i) else []
  {
    hide Block, Tag, AbortOf;
    var rest := if AbortOf(calls[k], approved) == Some(ActionNeeded) then Block(calls, k) else [];
    OfConcat(Blocks(calls, k), rest, i);
    OfBlocks(calls, k, i);
    BlockOwner(calls, k);
    OfOwn(rest, k, i);
  }

  lemma {:induction false} BlockOwner(calls: seq<Call>, k: nat)
    requires k < |calls|
    ensures forall e :: e in Block(calls, k) ==> CallOf(e) == k
  {
    TagOwner(k, calls[k].run.emitted);
  }

  /** When the gate or an unsafe tool ends a batch, no call left to the pool has run. */
  lemma {:induction false} AbortedBeforePool(calls: seq<Call>, approved: set<string>, i: nat)
    requires i < Stop(calls, approved, 0) < |calls| && calls[i].Deferred()
    ensures Of(StreamOf(calls, approved).yielded, i) == [Started(i)]
  {
    hide SequentialYield, Events, PooledStream, Of;
    OfSequential(calls, approved, Stop(calls, approved, 0), i);
  }

  /** A call after the one that ends a batch shows nothing at all. */
  lemma {:induction false} NothingAfterStop(calls: seq<Call>, approved: set<string>, i: nat)
    requires Stop(calls, approved, 0) < i < |calls|
    ensures Of(StreamOf(calls, approved).yielded, i) == []
  {
    hide SequentialYield, Events, PooledStream, Of;
    OfSequential(calls, approved, Stop(calls, approved, 0), i);
  }

  // ------------------------------------------------------------------ the order of starts and results

  function Starts(events: seq<Event>): seq<nat> {
    if events == [] then []
    else (if events[0].Started? then [events[0].call] else []) + Starts(events[1..])
  }

  lemma {:induction false} StartsConcat(a: seq<Event>, b: seq<Event>)
    ensures Starts(a + b) == Starts(a) + Starts(b)
  {
    if a == [] {
      assert a + b == b;
    } else {
      assert (a + b)[0] == a[0] && (a + b)[1..] == a[1..] + b;
      StartsConcat(a[1..], b);
    }
  }

  lemma {:induction false} NoStarts(events: seq<Event>)
    requires forall e :: e in events ==> e.Said?
    ensures Starts(events) == []
  {
    if events != [] {
      assert events[0] in events;
      NoStarts(events[1..]);
    }
  }

  lemma {:induction false} StartsOfBlock(calls: seq<Call>, i: nat)
    requires i < |calls|
    ensures Starts(Block(calls, i)) == [i]
  {
    TagOwner(i, calls[i].run.emitted);
    NoStarts(Block(calls, i)[1..]);
  }

  function UpTo(n: nat): seq<nat> {
    if n == 0 then [] else UpTo(n - 1) + [n - 1]
  }

  lemma {:induction false} StartsSnoc(before: seq<Event>, block: seq<Event>, n: nat)
    requires n > 0 && Starts(before) == UpTo(n - 1) && Starts(block) == [n - 1]
    ensures Starts(before + block) == UpTo(n)
  {
    StartsConcat(before, block);
  }

  lemma {:induction false} StartsOfBlocks(calls: seq<Call>, n: nat)
    requires n <= |calls|
    ensures Starts(Blocks(calls, n)) == UpTo(n)
  {
    hide Block;
    if n > 0 {
      hide Starts;
      StartsOfBlocks(calls, n - 1);
      StartsOfBlock(calls, n - 1);
      StartsSnoc(Blocks(calls, n - 1), Block(calls, n - 1), n);
    }
  }

  lemma {:induction false} FlatSaid(calls: seq<Call>, safe: seq<nat>)
    requires Within(safe, calls)
    ensures forall e :: e in Flat(calls, safe) ==> e.Said?
  {
    if safe != [] {
      TagOwner(safe[0], calls[safe[0]].run.emitted);
      FlatSaid(calls, safe[1..]);
    }
  }

  /** Starts come in call order, all before the first pooled event; the pooled events end the stream, call by call. */
  lemma {:induction false} StartsInOrder(calls: seq<Call>, approved: set<string>)
    requires StreamOf(calls, approved).abort.None?
    ensures var yielded, cut := StreamOf(calls, approved).yielded, |Blocks(calls, |calls|)|;
            && cut <= |yielded|
            && Starts(yielded[..cut]) == UpTo(|calls|)
            && yielded[cut..] == Flat(calls, Deferred(calls, |calls|))
            && forall n :: cut <= n < |yielded| ==> yielded[n].Said?
  {
    NoStop(calls, approved);
    var blocks, pooled := Blocks(calls, |calls|), Flat(calls, Deferred(calls, |calls|));
    StartsOfBlocks(calls, |calls|);
    FlatSaid(calls, Deferred(calls, |calls|));
    SplitAt(blocks, pooled);
  }

  lemma {:induction false} SplitAt(a: seq<Event>, b: seq<Event>)
    ensures (a + b)[..|a|] == a && (a + b)[|a|..] == b
    ensures forall n :: |a| <= n < |a + b| ==> (a + b)[n] in b
  {}

  /** Where the block of a call stands. */
  lemma {:induction false} BlockAt(calls: seq<Call>, n: nat, i: nat)
    requires i < n <= |calls|
    ensures |Blocks(calls, i)| + |Block(calls, i)| <= |Blocks(calls, n)|
    ensures Blocks(calls, n)[|Blocks(calls, i)|..|Blocks(calls, i)| + |Block(calls, i)|] == Block(calls, i)
  {
    hide Block;
    var before, block := Blocks(calls, n - 1), Block(calls, n - 1);
    if i < n - 1 {
      BlockAt(calls, n - 1, i);
      SliceOfPrefix(before, block, |Blocks(calls, i)|, |Blocks(calls, i)| + |Block(calls, i)|);
    } else {
      SplitAt(before, block);
      SliceOfPrefix(before, block, |before|, |before|);
    }
  }

  lemma {:induction false} SliceOfPrefix(a: seq<Event>, b: seq<Event>, lo: nat, hi: nat)
    requires lo <= hi <= |a|
    ensures (a + b)[lo..hi] == a[lo..hi]
  {}

  lemma {:induction false} YieldedStarts(calls: seq<Call>, approved: set<string>)
    ensures Blocks(calls, Stop(calls, approved, 0)) <= StreamOf(calls, approved).yielded
  {
    hide Blocks, PoolYield;
  }

  /** The terminal event of an unsafe non-streaming call directly follows its start, however the batch ends. */
  lemma {:induction false} UnsafeEndsAtOnce(calls: seq<Call>, approved: set<string>, i: nat)
    requires i < Stop(calls, approved, 0) && NonStreaming(calls[i]) && !calls[i].Deferred()
    ensures exists n, end ::
              && 0 <= n < |StreamOf(calls, approved).yielded| - 1 && Terminal(end)
              && StreamOf(calls, approved).yielded[n] == Started(i)
              && StreamOf(calls, approved).yielded[n + 1] == Said(i, end)
  {
    var k, yielded := Stop(calls, approved, 0), StreamOf(calls, approved).yielded;
    BlockAt(calls, k, i);
    YieldedStarts(calls, approved);
    OneTerminal(calls, approved, i);
    hide StreamOf, Blocks, Block, Stop;
    var n, block := |Blocks(calls, i)|, Block(calls, i);
    PairAt(Blocks(calls, k), yielded, block, n);
    assert yielded[n] == Started(i) && yielded[n + 1] == Said(i, block[1].emission);
  }

  lemma {:induction false} PairAt(blocks: seq<Event>, yielded: seq<Event>, block: seq<Event>, n: nat)
    requires blocks <= yielded && |block| == 2 && n + 2 <= |blocks| && blocks[n..n + 2] == block
    ensures n + 1 < |yielded| && yielded[n] == block[0] && yielded[n + 1] == block[1]
  {
    assert blocks[n..n + 2][0] == blocks[n] && blocks[n..n + 2][1] == blocks[n + 1];
  }

  lemma {:induction false} OneTerminal(calls: seq<Call>, approved: set<string>, i: nat)
    requires i < Stop(calls, approved, 0) && NonStreaming(calls[i]) && !calls[i].Deferred()
    ensures var block := Block(calls, i);
            |block| == 2 && block[0] == Started(i) && block[1].Said? && block[1].call == i &&
                Terminal(block[1].emission)
  {
    assert AbortOf(calls[i], approved).None?;
    if !calls[i].interrupted {
      var end := calls[i].run.emitted[0];
      assert calls[i].run.emitted == [end] && [end][..0] == [];
      assert Tag(i, [end]) == [Said(i, end)];
    }
  }

  datatype ToolError =
    | ToolFailed(call: nat, reason: string)
    | ToolCancelled(call: nat, reason: string)
    | Aborted(abort: Abort)

  predicate Bad(e: Event) {
    e.Said? && (e.emission.Failed? || e.emission.Cancelled?)
  }

  /** What one event means to the blocking form: a result to keep, an error to raise, or nothing. */
  function Heard(e: Event, results: seq<string>): Result<seq<string>, ToolError> {
    match e
    case Started(_) => Success(results)
    case Said(_, Progress(_)) => Success(results)
    case Said(_, Answered(value)) => Success(results + [value])
    case Said(i, Failed(reason)) => Failure(ToolFailed(i, reason))
    case Said(i, Cancelled(reason)) => Failure(ToolCancelled(i, reason))
  }

  /** What the blocking form gives for a stream: the results, or the first error met. */
  function Verdict(stream: Stream, results: seq<string>): Result<seq<string>, ToolError>
    decreases |stream.yielded|
  {
    if stream.yielded == [] then
      if stream.abort.Some? then Failure(Aborted(stream.abort.value)) else Success(results)
    else
      var heard := Heard(stream.yielded[0], results);
      if heard.Failure? then heard else Verdict(Stream(stream.yielded[1..], stream.abort), heard.value)
  }

  method Listen(stream: Stream) returns (r: Result<seq<string>, ToolError>)
    ensures r == Verdict(stream, [])
  {
    var results: seq<string> := [];
    var n := 0;
    while n < |stream.yielded|
      invariant 0 <= n <= |stream.yielded|
      invariant Verdict(Stream(stream.yielded[n..], stream.abort), results) == Verdict(stream, [])
    {
      assert stream.yielded[n..][1..] == stream.yielded[n + 1..];
      var heard := Heard(stream.yielded[n], results);
      if heard.Failure? {
        return heard;
      }
      results := heard.value;
      n := n + 1;
    }
    return if stream.abort.Some? then Failure(Aborted(stream.abort.value)) else Success(results);
  }

  method Execute(calls: seq<Call>, approved: set<string>) returns (r: Result<seq<string>, ToolError>)
    ensures r == Verdict(StreamOf(calls, approved), [])
  {
    var summary := new ToolExecutionSummary();
    var yielded, abort := ExecuteStream(calls, approved, summary);
    r := Listen(Stream(yielded, abort));
  }

  function Answers(events: seq<Event>): seq<string> {
    if events == [] then []
    else
      var first := if events[0].Said? && events[0].emission.Answered? then [events[0].emission.value] else [];
      first + Answers(events[1..])
  }

  ghost predicate AllGood(events: seq<Event>) {
    forall i :: 0 <= i < |events| ==> !Bad(events[i])
  }

  lemma {:induction false} AllGoodCons(events: seq<Event>)
    requires events != []
    ensures AllGood(events) <==> !Bad(events[0]) && AllGood(events[1..])
  {
    if AllGood(events[1..]) && !Bad(events[0]) {
      forall i | 0 <= i < |events|
        ensures !Bad(events[i])
      {
        assert i > 0 ==> events[i] == events[1..][i - 1];
      }
    }
  }

  /** The blocking form succeeds exactly when nothing failed, was cancelled or aborted, and then returns every answer
      in stream order. */
  lemma {:induction false} VerdictIs(stream: Stream, results: seq<string>)
    ensures Verdict(stream, results).Success? <==> stream.abort.None? && AllGood(stream.yielded)
    ensures Verdict(stream, results).Success? ==> Verdict(stream, results).value == results + Answers(stream.yielded)
    decreases |stream.yielded|
  {
    var events := stream.yielded;
    if events != [] {
      AllGoodCons(events);
      var heard := Heard(events[0], results);
      if heard.Success? {
        VerdictIs(Stream(events[1..], stream.abort), heard.value);
      }
    }
  }

  /** The calls that run at once, in call order. */
  function Immediate(calls: seq<Call>, n: nat): (now: seq<nat>)
    requires n <= |calls|
    ensures forall j :: 0 <= j < |now| ==> now[j] < n
  {
    if n == 0 then [] else if calls[n - 1].Deferred() then Immediate(calls, n - 1)
      else Immediate(calls, n - 1) + [n - 1]
  }

  predicate AnswersOnce(c: Call) {
    !c.interrupted && !c.run.raises && |c.run.emitted| == 1 && c.run.emitted[0].Answered?
  }

  ghost predicate AllAnswer(calls: seq<Call>) {
    forall i :: 0 <= i < |calls| ==> AnswersOnce(calls[i])
  }

  function AnswerOf(c: Call): string {
    if |c.run.emitted| == 1 && c.run.emitted[0].Answered? then c.run.emitted[0].value else ""
  }

  /** The answers of the listed calls. */
  function AnswersOf(calls: seq<Call>, order: seq<nat>): seq<string>
    requires Within(order, calls)
  {
    if order == [] then [] else [AnswerOf(calls[order[0]])] + AnswersOf(calls, order[1..])
  }

  lemma {:induction false} AnswersConcat(a: seq<Event>, b: seq<Event>)
    ensures Answers(a + b) == Answers(a) + Answers(b)
  {
    if a == [] {
      assert a + b == b;
    } else {
      assert (a + b)[1..] == a[1..] + b;
      AnswersConcat(a[1..], b);
    }
  }

  lemma {:induction false} AnswersOfSnoc(calls: seq<Call>, order: seq<nat>, i: nat)
    requires Within(order, calls) && i < |calls|
    ensures AnswersOf(calls, order + [i]) == AnswersOf(calls, order) + [AnswerOf(calls[i])]
  {
    if order == [] {
      assert [] + [i] == [i];
    } else {
      assert (order + [i])[1..] == order[1..] + [i];
      AnswersOfSnoc(calls, order[1..], i);
    }
  }

  lemma {:induction false} AnswerOfCall(calls: seq<Call>, i: nat)
    requires i < |calls| && AnswersOnce(calls[i])
    ensures Events(calls, i) == [Said(i, calls[i].run.emitted[0])]
    ensures Answers(Events(calls, i)) == [AnswerOf(calls[i])]
  {
    var emitted := calls[i].run.emitted;
    assert emitted[..0] == [] && Tag(i, emitted[..0]) == [];
    var said := [Said(i, emitted[0])];
    assert Tag(i, emitted) == said;
    assert said[1..] == [] && Answers(said[1..]) == [];
    assert Answers(said) == [emitted[0].value];
  }

  lemma {:induction false} AnswersOfBlock(calls: seq<Call>, i: nat)
    requires i < |calls| && AnswersOnce(calls[i])
    ensures Answers(Block(calls, i)) == if calls[i].Deferred() then [] else [AnswerOf(calls[i])]
  {
    AnswerOfCall(calls, i);
    assert Answers([Started(i)]) == [];
    if calls[i].Deferred() {
      assert Block(calls, i) == [Started(i)];
    } else {
      assert Block(calls, i) == [Started(i)] + Events(calls, i);
      AnswersConcat([Started(i)], Events(calls, i));
      assert [] + [AnswerOf(calls[i])] == [AnswerOf(calls[i])];
    }
  }

  /** One more block, in events and in answers. */
  lemma {:induction false} AnswersSnoc(calls: seq<Call>, before: seq<Event>, block: seq<Event>, order: seq<nat>, i: nat)
    requires Within(order, calls) && i < |calls|
    requires Answers(before) == AnswersOf(calls, order)
    ensures Answers(block) == [AnswerOf(calls[i])] ==> Answers(before + block) == AnswersOf(calls, order + [i])
    ensures Answers(block) == [] ==> Answers(before + block) == AnswersOf(calls, order)
  {
    AnswersConcat(before, block);
    AnswersOfSnoc(calls, order, i);
  }

  lemma {:induction false} BlocksStep(calls: seq<Call>, i: nat)
    requires i < |calls|
    ensures Blocks(calls, i + 1) == Blocks(calls, i) + Block(calls, i)
  {}

  lemma {:induction false} AnswersStep(calls: seq<Call>, i: nat)
    requires i < |calls| && AnswersOnce(calls[i]) && Answers(Blocks(calls, i)) == AnswersOf(calls, Immediate(calls, i))
    ensures Answers(Blocks(calls, i + 1)) == AnswersOf(calls, Immediate(calls, i + 1))
  {
    BlocksStep(calls, i);
    AnswersOfBlock(calls, i);
    AnswersSnoc(calls, Blocks(calls, i), Block(calls, i), Immediate(calls, i), i);
  }

  lemma {:induction false} AnswersOfBlocks(calls: seq<Call>, n: nat)
    requires n <= |calls| && AllAnswer(calls)
    ensures Answers(Blocks(calls, n)) == AnswersOf(calls, Immediate(calls, n))
  {
    if n == 0 {
      assert Blocks(calls, 0) == [] && Immediate(calls, 0) == [];
    } else {
      var i := n - 1;
      AnswersOfBlocks(calls, i);
      AnswersStep(calls, i);
    }
  }

  lemma {:induction false} AnswersOfFlat(calls: seq<Call>, safe: seq<nat>)
    requires Within(safe, calls) && AllAnswer(calls)
    ensures Answers(Flat(calls, safe)) == AnswersOf(calls, safe)
  {
    if safe != [] {
      AnswersOfFlat(calls, safe[1..]);
      AnswersConcat(Events(calls, safe[0]), Flat(calls, safe[1..]));
      AnswerOfCall(calls, safe[0]);
    }
  }

  lemma {:induction false} AnswersOfStream(calls: seq<Call>, approved: set<string>)
    requires StreamOf(calls, approved).abort.None? && AllAnswer(calls)
    ensures Answers(StreamOf(calls, approved).yielded) ==
            AnswersOf(calls, Immediate(calls, |calls|)) + AnswersOf(calls, Deferred(calls, |calls|))
  {
    NoStop(calls, approved);
    AnswersOfBlocks(calls, |calls|);
    AnswersOfFlat(calls, Deferred(calls, |calls|));
    AnswersConcat(Blocks(calls, |calls|), Flat(calls, Deferred(calls, |calls|)));
  }

  /** When every call passes the gate and answers, the blocking form returns one result per call: those that ran at
      once in call order, then the pooled ones in call order. */
  lemma {:induction false} ResultOrder(calls: seq<Call>, approved: set<string>)
    requires StreamOf(calls, approved).abort.None? && AllAnswer(calls)
    ensures Verdict(StreamOf(calls, approved), []) ==
            Success(AnswersOf(calls, Immediate(calls, |calls|)) + AnswersOf(calls, Deferred(calls, |calls|)))
  {
    hide Verdict, Answers, AnswersOf, Immediate, Deferred;
    AnswersOfStream(calls, approved);
    NothingBad(calls, approved);
    VerdictIs(StreamOf(calls, approved), []);
    assert [] + Answers(StreamOf(calls, approved).yielded) == Answers(StreamOf(calls, approved).yielded);
  }

  lemma {:induction false} OfHas(events: seq<Event>, e: Event)
    requires e in events
    ensures e in Of(events, CallOf(e))
  {
    if events[0] != e {
      OfHas(events[1..], e);
    }
  }

  lemma {:induction false} BlocksOwners(calls: seq<Call>, n: nat)
    requires n <= |calls|
    ensures forall e :: e in Blocks(calls, n) ==> CallOf(e) < n
  {
    hide Tag;
    if n > 0 {
      BlocksOwners(calls, n - 1);
      TagOwner(n - 1, calls[n - 1].run.emitted);
    }
  }

  lemma {:induction false} FlatOwners(calls: seq<Call>, safe: seq<nat>)
    requires Within(safe, calls)
    ensures forall e :: e in Flat(calls, safe) ==> CallOf(e) < |calls|
  {
    if safe != [] {
      TagOwner(safe[0], calls[safe[0]].run.emitted);
      FlatOwners(calls, safe[1..]);
    }
  }

  lemma {:induction false} Owned(calls: seq<Call>, approved: set<string>, e: Event)
    requires StreamOf(calls, approved).abort.None? && e in StreamOf(calls, approved).yielded
    ensures CallOf(e) < |calls|
  {
    NoStop(calls, approved);
    BlocksOwners(calls, |calls|);
    FlatOwners(calls, Deferred(calls, |calls|));
  }

  lemma {:induction false} NothingBad(calls: seq<Call>, approved: set<string>)
    requires StreamOf(calls, approved).abort.None? && AllAnswer(calls)
    ensures AllGood(StreamOf(calls, approved).yielded)
  {
    var events := StreamOf(calls, approved).yielded;
    forall n | 0 <= n < |events|
      ensures !Bad(events[n])
    {
      var i := CallOf(events[n]);
      Owned(calls, approved, events[n]);
      OfHas(events, events[n]);
      CallStory(calls, approved, i);
      AnswerOfCall(calls, i);
    }
  }

  // ------------------------------------------------------------------ results in call order

  lemma {:induction false} AnswersOfAt(calls: seq<Call>, order: seq<nat>)
    requires Within(order, calls)
    ensures |AnswersOf(calls, order)| == |order|
    ensures forall k :: 0 <= k < |order| ==> AnswersOf(calls, order)[k] == AnswerOf(calls[order[k]])
  {
    if order != [] {
      AnswersOfAt(calls, order[1..]);
    }
  }

  lemma {:induction false} UpToAt(n: nat)
    ensures |UpTo(n)| == n && forall k :: 0 <= k < n ==> UpTo(n)[k] == k
  {
    if n > 0 {
      UpToAt(n - 1);
    }
  }

  lemma {:induction false} ImmediateHas(calls: seq<Call>, n: nat, i: nat)
    requires i < n <= |calls|
    ensures i in Immediate(calls, n) <==> !calls[i].Deferred()
  {
    var before := Immediate(calls, n - 1);
    if i < n - 1 {
      ImmediateHas(calls, n - 1, i);
    } else {
      assert forall j :: 0 <= j < |before| ==> before[j] < n - 1;
    }
  }

  /** No deferred call stands before an immediate one. */
  ghost predicate PooledLast(calls: seq<Call>, n: nat)
    requires n <= |calls|
  {
    forall i, j :: 0 <= i < j < n && calls[i].Deferred() ==> calls[j].Deferred()
  }

  lemma {:induction false} PooledLastOrder(calls: seq<Call>, n: nat)
    requires n <= |calls| && PooledLast(calls, n)
    ensures Immediate(calls, n) + Deferred(calls, n) == UpTo(n)
  {
    if n > 0 {
      PooledLastOrder(calls, n - 1);
      var before := Deferred(calls, n - 1);
      assert before != [] ==> calls[before[0]].Deferred() && before[0] < n - 1;
    }
  }

  /** With the immediate calls first and all in call order, the immediate ones have the first places. */
  lemma {:induction false} OrderedPlace(calls: seq<Call>, i: nat)
    requires i < |calls| && Immediate(calls, |calls|) + Deferred(calls, |calls|) == UpTo(|calls|)
    ensures calls[i].Deferred() <==> |Immediate(calls, |calls|)| <= i
  {
    var n := |calls|;
    var now, safe := Immediate(calls, n), Deferred(calls, n);
    UpToAt(n);
    DeferredHas(calls, n, i);
    ImmediateHas(calls, n, i);
    if calls[i].Deferred() {
      var q :| 0 <= q < |safe| && safe[q] == i;
      assert (now + safe)[|now| + q] == i;
    } else {
      var p :| 0 <= p < |now| && now[p] == i;
      assert (now + safe)[p] == i;
    }
  }

  lemma {:induction false} OrderPooledLast(calls: seq<Call>)
    requires Immediate(calls, |calls|) + Deferred(calls, |calls|) == UpTo(|calls|)
    ensures PooledLast(calls, |calls|)
  {
    forall i, j | 0 <= i < j < |calls| && calls[i].Deferred()
      ensures calls[j].Deferred()
    {
      OrderedPlace(calls, i);
      OrderedPlace(calls, j);
    }
  }

  lemma {:induction false} SameOrder(calls: seq<Call>, order: seq<nat>)
    requires Within(order, calls) && Within(UpTo(|calls|), calls)
    requires forall i, j :: 0 <= i < j < |calls| ==> AnswerOf(calls[i]) != AnswerOf(calls[j])
    requires AnswersOf(calls, order) == AnswersOf(calls, UpTo(|calls|))
    ensures order == UpTo(|calls|)
  {
    hide AnswerOf;
    AnswersOfAt(calls, order);
    AnswersOfAt(calls, UpTo(|calls|));
    UpToAt(|calls|);
    forall k | 0 <= k < |order|
      ensures order[k] == k
    {
      assert AnswersOf(calls, order)[k] == AnswersOf(calls, UpTo(|calls|))[k];
    }
  }

  /** With answers that differ, the blocking form returns them in call order if and only if no deferred call stands
      before an immediate one. */
  lemma {:induction false} ResultsInCallOrderIff(calls: seq<Call>, approved: set<string>)
    requires StreamOf(calls, approved).abort.None? && AllAnswer(calls)
    requires forall i, j :: 0 <= i < j < |calls| ==> AnswerOf(calls[i]) != AnswerOf(calls[j])
    ensures Verdict(StreamOf(calls, approved), []) ==
            Success(seq(|calls|, i requires 0 <= i < |calls| => AnswerOf(calls[i]))) <==>
            forall i, j :: 0 <= i < j < |calls| && calls[i].Deferred() ==> calls[j].Deferred()
  {
    hide Verdict, StreamOf, AnswerOf, AllAnswer;
    var n := |calls|;
    var order := Immediate(calls, n) + Deferred(calls, n);
    var inOrder := seq(n, i requires 0 <= i < n => AnswerOf(calls[i]));
    ResultOrder(calls, approved);
    AnswersOfJoin(calls, Immediate(calls, n), Deferred(calls, n));
    UpToAt(n);
    AnswersOfAt(calls, UpTo(n));
    assert AnswersOf(calls, UpTo(n)) == inOrder;
    if PooledLast(calls, n) {
      PooledLastOrder(calls, n);
    } else if AnswersOf(calls, order) == inOrder {
      SameOrder(calls, order);
      OrderPooledLast(calls);
    }
  }

  lemma {:induction false} AnswersOfJoin(calls: seq<Call>, a: seq<nat>, b: seq<nat>)
    requires Within(a, calls) && Within(b, calls)
    ensures Within(a + b, calls) && AnswersOf(calls, a) + AnswersOf(calls, b) == AnswersOf(calls, a + b)
  {
    hide AnswerOf;
    AnswersOfAt(calls, a);
    AnswersOfAt(calls, b);
    AnswersOfAt(calls, a + b);
  }

  function Answering(safe: bool, value: string): Call {
    Call("tool", true, Allow, false, safe, Run([Answered(value)], false))
  }

  lemma {:induction false} SwappedParts(calls: seq<Call>)
    requires |calls| == 2 && calls[0].Deferred() && !calls[1].Deferred() && AllAnswer(calls)
    requires Gate(calls[0], {}).None? && Gate(calls[1], {}).None?
    ensures Immediate(calls, 2) == [1] && Deferred(calls, 2) == [0] && StreamOf(calls, {}).abort.None?
  {
    hide Blocks, PoolYield, Gate;
    assert Immediate(calls, 1) == Immediate(calls, 0) == [] && Deferred(calls, 1) == [0];
    assert AnswersOnce(calls[0]) && AnswersOnce(calls[1]);
  }

  /** A pooled call before an immediate one: the results come back swapped. */
  lemma {:induction false} ResultsSwapped(first: string, second: string)
    ensures var calls := [Answering(true, first), Answering(false, second)];
            Verdict(StreamOf(calls, {}), []) == Success([second, first])
  {
    hide Verdict, StreamOf, Immediate, Deferred;
    var calls := [Answering(true, first), Answering(false, second)];
    SwappedParts(calls);
    ResultOrder(calls, {});
    AnswersOfAt(calls, [1]);
    AnswersOfAt(calls, [0]);
    assert AnswersOf(calls, [1]) == [second] && AnswersOf(calls, [0]) == [first];
    assert [second] + [first] == [second, first];
  }
}
