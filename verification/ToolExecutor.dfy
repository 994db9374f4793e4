/** One batch of tool calls: policy gate, immediate and pooled execution, the yielded stream and the summary. */
module ToolExecutor {
  import opened Wrappers
  import opened ToolPolicy

  datatype Emission =
    | Progress(text: string)
    | Answered(value: string)
    | Failed(reason: string)
    | Cancelled(reason: string)

  /** An event carries the place of its call in the batch. */
  datatype Event = Started(call: nat) | Said(call: nat, emission: Emission)

  /** What running a tool emits, and whether it then asks for an action instead of ending. */
  datatype Run = Run(emitted: seq<Emission>, raises: bool)

  /** A call with everything its tool, the policy and the user decide about it. */
  datatype Call = Call(toolName: string, valid: bool, decision: Decision, interrupted: bool, safe: bool, run: Run)
  {
    predicate Deferred() {
      !interrupted && safe
    }
  }

  datatype Abort = Invalid | PermissionNeeded | PermissionDenied | ActionNeeded

  const INTERRUPTED := "user_interrupted"

  /** Why a call may not run, if it may not. */
  function Gate(c: Call, approved: set<string>): Option<Abort> {
    if !c.valid then Some(Invalid)
    else if c.decision == Ask && c.toolName !in approved then Some(PermissionNeeded)
    else if c.decision == Deny then Some(PermissionDenied)
    else None
  }

  /** Why the sequential pass ends at a call, if it does. */
  function AbortOf(c: Call, approved: set<string>): Option<Abort> {
    if Gate(c, approved).Some? then Gate(c, approved)
    else if !c.interrupted && !c.safe && c.run.raises then Some(ActionNeeded)
    else None
  }

  // ------------------------------------------------------------------ the stream, in closed form

  function Tag(i: nat, emitted: seq<Emission>): seq<Event> {
    if emitted == [] then [] else Tag(i, emitted[..|emitted| - 1]) + [Said(i, emitted[|emitted| - 1])]
  }

  function Events(calls: seq<Call>, i: nat): seq<Event>
    requires i < |calls|
  {
    Tag(i, calls[i].run.emitted)
  }

  /** What the sequential pass yields for one call it gets past the gate. */
  function Block(calls: seq<Call>, i: nat): seq<Event>
    requires i < |calls|
  {
    [Started(i)] + if calls[i].interrupted then [Said(i, Cancelled(INTERRUPTED))]
                   else if calls[i].safe then [] else Events(calls, i)
  }

  function Blocks(calls: seq<Call>, n: nat): seq<Event>
    requires n <= |calls|
  {
    if n == 0 then [] else Blocks(calls, n - 1) + Block(calls, n - 1)
  }

  /** The calls the sequential pass leaves to the pool. */
  function Deferred(calls: seq<Call>, n: nat): (safe: seq<nat>)
    requires n <= |calls|
    ensures forall j :: 0 <= j < |safe| ==> safe[j] < n && calls[safe[j]].Deferred()
    ensures forall j, k :: 0 <= j < k < |safe| ==> safe[j] < safe[k]
  {
    if n == 0 then []
    else
      var before := Deferred(calls, n - 1);
      if calls[n - 1].Deferred() then before + [n - 1] else before
  }

  ghost predicate Within(safe: seq<nat>, calls: seq<Call>) {
    forall j :: 0 <= j < |safe| ==> safe[j] < |calls|
  }

  /** Everything the pooled calls emit, in call order. */
  function Flat(calls: seq<Call>, safe: seq<nat>): seq<Event>
    requires Within(safe, calls)
  {
    if safe == [] then [] else Events(calls, safe[0]) + Flat(calls, safe[1..])
  }

  predicate AnyRaises(calls: seq<Call>, safe: seq<nat>)
    requires Within(safe, calls)
  {
    exists j :: 0 <= j < |safe| && calls[safe[j]].run.raises
  }

  /** What the pooled calls yield: their events in call order, up to the first that asks for an action. */
  function PoolYield(calls: seq<Call>, safe: seq<nat>): seq<Event>
    requires Within(safe, calls)
  {
    if safe == [] || calls[safe[0]].run.raises then [] else Events(calls, safe[0]) + PoolYield(calls, safe[1..])
  }

  /** The first call from `i` on that ends the sequential pass. */
  function Stop(calls: seq<Call>, approved: set<string>, i: nat): (k: nat)
    requires i <= |calls|
    ensures i <= k <= |calls| && (forall j :: i <= j < k ==> AbortOf(calls[j], approved).None?)
    ensures k < |calls| ==> AbortOf(calls[k], approved).Some?
    decreases |calls| - i
  {
    if i == |calls| || AbortOf(calls[i], approved).Some? then i else Stop(calls, approved, i + 1)
  }

  datatype Stream = Stream(yielded: seq<Event>, abort: Option<Abort>)

  /** What the sequential pass has yielded when it ends. */
  function SequentialYield(calls: seq<Call>, approved: set<string>, k: nat): seq<Event>
    requires k <= |calls|
  {
    Blocks(calls, k) + if k < |calls| && AbortOf(calls[k], approved) == Some(ActionNeeded) then Block(calls, k) else []
  }

  function StreamOf(calls: seq<Call>, approved: set<string>): Stream {
    var k := Stop(calls, approved, 0);
    if k < |calls| then Stream(SequentialYield(calls, approved, k), AbortOf(calls[k], approved))
    else PooledStream(calls)
  }

  /** The stream of a batch whose every call passes the gate. */
  function PooledStream(calls: seq<Call>): Stream {
    var safe := Deferred(calls, |calls|);
    Stream(Blocks(calls, |calls|) + PoolYield(calls, safe), if AnyRaises(calls, safe) then Some(ActionNeeded) else None)
  }

  // ------------------------------------------------------------------ the summary

  function Results(events: seq<Event>): seq<string> {
    if events == [] then []
    else
      var e := events[|events| - 1];
      Results(events[..|events| - 1]) + if e.Said? && e.emission.Answered? then [e.emission.value] else []
  }

  function Errors(events: seq<Event>): seq<string> {
    if events == [] then []
    else
      var e := events[|events| - 1];
      Errors(events[..|events| - 1]) + if e.Said? && (e.emission.Failed? || e.emission.Cancelled?) then
          [e.emission.reason] else []
  }

  lemma {:induction false} SummaryConcat(a: seq<Event>, b: seq<Event>)
    ensures Results(a + b) == Results(a) + Results(b) && Errors(a + b) == Errors(a) + Errors(b)
  {
    if b == [] {
      assert a + b == a;
    } else {
      assert (a + b)[..|a + b| - 1] == a + b[..|b| - 1];
      SummaryConcat(a, b[..|b| - 1]);
    }
  }

  /** An answer is a result, a failure or a cancellation is an error, and starts and progress are neither. */
  lemma {:induction false} SummaryOfOne(i: nat, text: string)
    ensures Results([Said(i, Answered(text))]) == [text] && Errors([Said(i, Answered(text))]) == []
    ensures Results([Said(i, Failed(text))]) == [] && Errors([Said(i, Failed(text))]) == [text]
    ensures Results([Said(i, Cancelled(text))]) == [] && Errors([Said(i, Cancelled(text))]) == [text]
    ensures Results([Said(i, Progress(text))]) == [] && Errors([Said(i, Progress(text))]) == []
    ensures Results([Started(i)]) == [] && Errors([Started(i)]) == []
  {
    forall e: Event
      ensures [e][..0] == []
    {}
  }

  class ToolExecutionSummary {
    var events: seq<Event>
    var results: seq<string>
    var errors: seq<string>

    ghost predicate Valid()
      reads this
    {
      results == Results(events) && errors == Errors(events)
    }

    constructor ()
      ensures Valid() && events == []
    {
      events, results, errors := [], [], [];
    }

    method Record(e: Event)
      requires Valid()
      modifies this
      ensures Valid() && events == old(events) + [e]
    {
      events := events + [e];
      assert events[..|events| - 1] == old(events);
      if e.Said? {
        match e.emission
        case Answered(value) => results := results + [value];
        case Failed(reason) => errors := errors + [reason];
        case Cancelled(reason) => errors := errors + [reason];
        case Progress(_) =>
      }
    }
  }

  // ------------------------------------------------------------------ the pool

  /** What each pooled call has emitted so far. */
  type Futures = seq<seq<Event>>

  ghost predicate Partial(calls: seq<Call>, safe: seq<nat>, futures: Futures)
    requires Within(safe, calls)
  {
    && |futures| == |safe|
    && forall j :: 0 <= j < |safe| ==>
         |futures[j]| <= |calls[safe[j]].run.emitted| &&
             futures[j] == Tag(safe[j], calls[safe[j]].run.emitted[..|futures[j]|])
  }

  predicate Unfinished(calls: seq<Call>, safe: seq<nat>, futures: Futures, j: nat)
    requires Within(safe, calls) && |futures| == |safe|
  {
    j < |safe| && |futures[j]| < |calls[safe[j]].run.emitted|
  }

  function Join(futures: Futures): seq<Event> {
    if futures == [] then [] else futures[0] + Join(futures[1..])
  }

  function Left(calls: seq<Call>, safe: seq<nat>, futures: Futures): nat
    requires Within(safe, calls) && |futures| == |safe|
  {
    if safe == [] then 0
    else
      var done, all := |futures[0]|, |calls[safe[0]].run.emitted|;
      (if done < all then all - done else 0) + Left(calls, safe[1..], futures[1..])
  }

  lemma {:induction false} TagLength(i: nat, emitted: seq<Emission>)
    ensures |Tag(i, emitted)| == |emitted|
  {
    if emitted != [] {
      TagLength(i, emitted[..|emitted| - 1]);
    }
  }

  lemma {:induction false} TagMore(i: nat, emitted: seq<Emission>, n: nat)
    requires n < |emitted|
    ensures Tag(i, emitted[..n + 1]) == Tag(i, emitted[..n]) + [Said(i, emitted[n])]
  {
    assert emitted[..n + 1][..n] == emitted[..n];
  }

  lemma {:induction false} LeftStep(calls: seq<Call>, safe: seq<nat>, futures: Futures, j: nat, e: Event)
    requires Within(safe, calls) && |futures| == |safe| && Unfinished(calls, safe, futures, j)
    ensures Left(calls, safe, futures[j := futures[j] + [e]]) < Left(calls, safe, futures)
  {
    var next := futures[j := futures[j] + [e]];
    if j == 0 {
      assert next[1..] == futures[1..];
    } else {
      assert next[1..] == futures[1..][j - 1 := futures[1..][j - 1] + [e]];
      LeftStep(calls, safe[1..], futures[1..], j - 1, e);
    }
  }

  lemma {:induction false} JoinStep(futures: Futures, j: nat, e: Event)
    requires j < |futures|
    ensures multiset(Join(futures[j := futures[j] + [e]])) == multiset(Join(futures)) + multiset{e}
  {
    var next := futures[j := futures[j] + [e]];
    if j == 0 {
      assert next[1..] == futures[1..];
    } else {
      assert next[1..] == futures[1..][j - 1 := futures[1..][j - 1] + [e]];
      JoinStep(futures[1..], j - 1, e);
    }
  }

  lemma {:induction false} JoinFinished(calls: seq<Call>, safe: seq<nat>, futures: Futures)
    requires Within(safe, calls) && |futures| == |safe|
    requires forall j :: 0 <= j < |safe| ==> futures[j] == Events(calls, safe[j])
    ensures Join(futures) == Flat(calls, safe)
  {
    if safe != [] {
      JoinFinished(calls, safe[1..], futures[1..]);
    }
  }

  lemma {:induction false} JoinEmpty(n: nat)
    ensures Join(seq(n, _ => [])) == []
  {
    if n > 0 {
      assert seq(n, _ => [])[1..] == seq<seq<Event>>(n - 1, _ => []);
      JoinEmpty(n - 1);
    }
  }

  /** One event of one pooled call, recorded and kept for its future. */
  lemma {:induction false} PartialStep(calls: seq<Call>, safe: seq<nat>, futures: Futures, j: nat)
    requires Within(safe, calls) && Partial(calls, safe, futures) && Unfinished(calls, safe, futures, j)
    ensures Partial(calls, safe, futures[j := futures[j] + [Said(safe[j], calls[safe[j]].run.emitted[|futures[j]|])]])
  {
    TagMore(safe[j], calls[safe[j]].run.emitted, |futures[j]|);
  }

  /** The threads run in any interleaving: which one moves next is open at every step. */
  method RunPool(calls: seq<Call>, safe: seq<nat>, summary: ToolExecutionSummary) returns (futures: Futures)
    requires Within(safe, calls) && summary.Valid()
    modifies summary
    ensures |futures| == |safe| && forall j :: 0 <= j < |safe| ==> futures[j] == Events(calls, safe[j])
    ensures summary.Valid() && old(summary.events) <= summary.events
    ensures multiset(summary.events) == multiset(old(summary.events)) + multiset(Flat(calls, safe))
  {
    hide Join, Left, Flat;
    futures := seq(|safe|, _ => []);
    JoinEmpty(|safe|);
    while exists j :: 0 <= j < |safe| && Unfinished(calls, safe, futures, j)
      invariant Partial(calls, safe, futures)
      invariant summary.Valid() && old(summary.events) <= summary.events
      invariant multiset(summary.events) == multiset(old(summary.events)) + multiset(Join(futures))
      decreases Left(calls, safe, futures)
    {
      var j :| 0 <= j < |safe| && Unfinished(calls, safe, futures, j);
      var e := Said(safe[j], calls[safe[j]].run.emitted[|futures[j]|]);
      PartialStep(calls, safe, futures, j);
      JoinStep(futures, j, e);
      LeftStep(calls, safe, futures, j, e);
      summary.Record(e);
      futures := futures[j := futures[j] + [e]];
    }
    forall j | 0 <= j < |safe|
      ensures futures[j] == Events(calls, safe[j])
    {
      assert !Unfinished(calls, safe, futures, j);
      assert calls[safe[j]].run.emitted[..|futures[j]|] == calls[safe[j]].run.emitted;
    }
    JoinFinished(calls, safe, futures);
  }

  // ------------------------------------------------------------------ the executor

  /** Run one call in the foreground; every event is recorded as it is yielded. */
  method ExecuteToolCall(i: nat, run: Run, summary: ToolExecutionSummary) returns (yielded: seq<Event>)
    requires summary.Valid()
    modifies summary
    ensures summary.Valid() && yielded == Tag(i, run.emitted) && summary.events == old(summary.events) + yielded
  {
    yielded := [];
    var n := 0;
    while n < |run.emitted|
      invariant 0 <= n <= |run.emitted| && yielded == Tag(i, run.emitted[..n])
      invariant summary.Valid() && summary.events == old(summary.events) + yielded
    {
      TagMore(i, run.emitted, n);
      var e := Said(i, run.emitted[n]);
      summary.Record(e);
      yielded := yielded + [e];
      n := n + 1;
    }
    assert run.emitted[..n] == run.emitted;
  }

  lemma {:induction false} StopIs(calls: seq<Call>, approved: set<string>, k: nat)
    requires k <= |calls| && (forall j :: 0 <= j < k ==> AbortOf(calls[j], approved).None?)
    requires k < |calls| ==> AbortOf(calls[k], approved).Some?
    ensures Stop(calls, approved, 0) == k
  {}

  method CheckCall(call: Call, approved: set<string>) returns (abort: Option<Abort>)
    ensures abort == Gate(call, approved) && abort != Some(ActionNeeded)
  {
    if !call.valid {
      return Some(Invalid);
    }
    var decision := call.decision;
    if decision == Ask && call.toolName in approved {
      decision := Allow;
    }
    if decision == Ask {
      return Some(PermissionNeeded);
    }
    if decision == Deny {
      return Some(PermissionDenied);
    }
    return None;
  }

  /** Start one call that passed the gate, and run it unless it is interrupted or left to the pool. */
  method StartCall(calls: seq<Call>, i: nat, summary: ToolExecutionSummary) returns (yielded: seq<Event>)
    requires i < |calls| && summary.Valid()
    modifies summary
    ensures summary.Valid() && yielded == Block(calls, i) && summary.events == old(summary.events) + yielded
  {
    var call := calls[i];
    summary.Record(Started(i));
    yielded := [Started(i)];
    if call.interrupted {
      summary.Record(Said(i, Cancelled(INTERRUPTED)));
      yielded := yielded + [Said(i, Cancelled(INTERRUPTED))];
    } else if !call.safe {
      var events := ExecuteToolCall(i, call.run, summary);
      yielded := yielded + events;
    }
  }

  method SequentialPass(calls: seq<Call>, approved: set<string>, summary: ToolExecutionSummary)
    returns (yielded: seq<Event>, safe: seq<nat>, abort: Option<Abort>)
    requires summary.Valid() && summary.events == []
    modifies summary
    ensures summary.Valid() && summary.events == yielded
    ensures var k := Stop(calls, approved, 0);
            if k < |calls| then yielded == SequentialYield(calls, approved, k) && abort == AbortOf(calls[k], approved)
            else yielded == Blocks(calls, k) && abort.None? && safe == Deferred(calls, k)
  {
    hide Tag, Gate, Events;
    yielded, safe, abort := [], [], None;
    var i := 0;
    while i < |calls|
      invariant 0 <= i <= |calls| && (forall j :: 0 <= j < i ==> AbortOf(calls[j], approved).None?)
      invariant abort.None? && yielded == Blocks(calls, i) && safe == Deferred(calls, i)
      invariant summary.Valid() && summary.events == yielded
    {
      abort := CheckCall(calls[i], approved);
      if abort.Some? {
        StopIs(calls, approved, i);
        return;
      }
      var events := StartCall(calls, i, summary);
      yielded := yielded + events;
      if calls[i].Deferred() {
        safe := safe + [i];
      } else if !calls[i].interrupted && calls[i].run.raises {
        StopIs(calls, approved, i);
        abort := Some(ActionNeeded);
        return;
      }
      i := i + 1;
    }
    StopIs(calls, approved, i);
  }

  /** The pooled calls' results are yielded call by call, whatever order they came in. */
  method YieldFutures(calls: seq<Call>, safe: seq<nat>, futures: Futures) returns (yielded: seq<Event>,
      abort: Option<Abort>)
    requires Within(safe, calls) && |futures| == |safe|
    requires forall j :: 0 <= j < |safe| ==> futures[j] == Events(calls, safe[j])
    ensures yielded == PoolYield(calls, safe)
    ensures abort == if AnyRaises(calls, safe) then Some(ActionNeeded) else None
  {
    yielded, abort := [], None;
    var n := 0;
    while n < |futures|
      invariant 0 <= n <= |futures| && abort.None?
      invariant yielded + PoolYield(calls, safe[n..]) == PoolYield(calls, safe)
      invariant forall j :: 0 <= j < n ==> !calls[safe[j]].run.raises
    {
      assert safe[n..][1..] == safe[n + 1..];
      if calls[safe[n]].run.raises {
        return yielded, Some(ActionNeeded);
      }
      yielded := yielded + futures[n];
      n := n + 1;
    }
  }

  lemma {:induction false} PoolYieldAll(calls: seq<Call>, safe: seq<nat>)
    requires Within(safe, calls) && !AnyRaises(calls, safe)
    ensures PoolYield(calls, safe) == Flat(calls, safe)
  {
    if safe != [] {
      assert !calls[safe[0]].run.raises;
      forall j | 0 <= j < |safe[1..]|
        ensures !calls[safe[1..][j]].run.raises
      {
        assert safe[1..][j] == safe[j + 1];
      }
      PoolYieldAll(calls, safe[1..]);
    }
  }

  method PooledPass(calls: seq<Call>, safe: seq<nat>, summary: ToolExecutionSummary)
    returns (yielded: seq<Event>, abort: Option<Abort>)
    requires Within(safe, calls) && summary.Valid()
    modifies summary
    ensures summary.Valid() && yielded == PoolYield(calls, safe)
    ensures multiset(summary.events) == multiset(old(summary.events)) + multiset(Flat(calls, safe))
    ensures abort == if AnyRaises(calls, safe) then Some(ActionNeeded) else None
    ensures abort.None? ==> yielded == Flat(calls, safe)
  {
    var futures := RunPool(calls, safe, summary);
    yielded, abort := YieldFutures(calls, safe, futures);
    if abort.None? {
      PoolYieldAll(calls, safe);
    }
  }

  /** The stream as the consumer of a whole batch sees it: one value, whichever way the threads interleave. While the
      pass is sequential the summary holds exactly what was yielded; after the pool it holds the same blocks and
      every pooled event, in some order. */
  method ExecuteStream(calls: seq<Call>, approved: set<string>, summary: ToolExecutionSummary)
    returns (yielded: seq<Event>, abort: Option<Abort>)
    requires summary.Valid() && summary.events == []
    modifies summary
    ensures summary.Valid() && Stream(yielded, abort) == StreamOf(calls, approved)
    ensures Stop(calls, approved, 0) < |calls| ==> summary.events == yielded
    ensures Stop(calls, approved, 0) == |calls| ==>
              multiset(summary.events) == multiset(Blocks(calls, |calls|)) +
                  multiset(Flat(calls, Deferred(calls, |calls|)))
    ensures abort.None? ==> multiset(summary.events) == multiset(yielded)
  {
    var blocks, safe, stopped := SequentialPass(calls, approved, summary);
    if stopped.Some? {
      return blocks, stopped;
    }
    var pooled, failed := PooledPass(calls, safe, summary);
    assert multiset(blocks + pooled) == multiset(blocks) + multiset(pooled);
    assert Stream(blocks + pooled, failed) == PooledStream(calls);
    return blocks + pooled, failed;
  }
}
