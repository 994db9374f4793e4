/** Which calls of a batch run at all: validity, the policy's decision and the user's approvals. */
module ToolGate {
  import opened Wrappers
  import opened ToolPolicy
  import opened ToolExecutor
  import opened ToolStream

  /** A call that may not run: malformed, denied, or asking for an approval it does not have. */
  predicate Refused(c: Call, approved: set<string>) {
    !c.valid || c.decision == Deny || (c.decision == Ask && c.toolName !in approved)
  }

  /** A call that runs at once and asks for an action instead of ending. */
  predicate AsksAtOnce(c: Call) {
    !c.interrupted && !c.safe && c.run.raises
  }

  lemma {:induction false} AbortGrounds(c: Call, approved: set<string>)
    ensures AbortOf(c, approved).Some? <==> Refused(c, approved) || AsksAtOnce(c)
    ensures AbortOf(c, approved) == Some(ActionNeeded) <==> !Refused(c, approved) && AsksAtOnce(c)
  {}

  /** The call that ends the sequential pass is the first that is refused or asks at once. */
  lemma {:induction false} StopGrounds(calls: seq<Call>, approved: set<string>)
    ensures var k := Stop(calls, approved, 0);
            && (forall j :: 0 <= j < k ==> !Refused(calls[j], approved) && !AsksAtOnce(calls[j]))
            && (k < |calls| ==> Refused(calls[k], approved) || AsksAtOnce(calls[k]))
  {
    hide AbortOf, Refused, AsksAtOnce;
    var k := Stop(calls, approved, 0);
    forall j | 0 <= j <= k && j < |calls|
      ensures AbortOf(calls[j], approved).Some? <==> Refused(calls[j], approved) || AsksAtOnce(calls[j])
    {
      AbortGrounds(calls[j], approved);
    }
  }

  lemma {:induction false} ShownBeforeStop(calls: seq<Call>, approved: set<string>, i: nat)
    requires i < |calls|
    ensures i < Stop(calls, approved, 0) ==> Started(i) in StreamOf(calls, approved).yielded
    ensures i == Stop(calls, approved, 0) ==>
              if AbortOf(calls[i], approved) == Some(ActionNeeded) then Started(i) in StreamOf(calls, approved).yielded
              else Of(StreamOf(calls, approved).yielded, i) == []
  {
    hide Tag, Events, AbortOf, Of, Flat, PoolYield;
    var k, yielded := Stop(calls, approved, 0), StreamOf(calls, approved).yielded;
    if i < k {
      YieldedStarts(calls, approved);
      BlockAt(calls, k, i);
      InSlice(Blocks(calls, k), Block(calls, i), |Blocks(calls, i)|);
    } else if i == k {
      OfNothing(calls, k, i);
    }
  }

  lemma {:induction false} OfNothing(calls: seq<Call>, k: nat, i: nat)
    requires k <= i && k <= |calls|
    ensures Of(Blocks(calls, k) + [], i) == []
  {
    assert Blocks(calls, k) + [] == Blocks(calls, k);
    OfBlocks(calls, k, i);
  }

  lemma {:induction false} InSlice(events: seq<Event>, block: seq<Event>, n: nat)
    requires block != [] && n + |block| <= |events| && events[n..n + |block|] == block
    ensures block[0] in events
  {
    assert events[n..n + |block|][0] == events[n];
  }

  /** A call that is not valid, that is denied, or that asks without an approval shows nothing in the stream, so it
      never runs. */
  lemma {:induction false} RefusedShowsNothing(calls: seq<Call>, approved: set<string>, i: nat)
    requires i < |calls|
    requires || !calls[i].valid || calls[i].decision == Deny
             || (calls[i].decision == Ask && calls[i].toolName !in approved)
    ensures Of(StreamOf(calls, approved).yielded, i) == []
    ensures forall e :: e in StreamOf(calls, approved).yielded ==> CallOf(e) != i
  {
    hide StreamOf, Of, AbortOf, CallOf;
    AbortGrounds(calls[i], approved);
    StopGrounds(calls, approved);
    if Stop(calls, approved, 0) < i {
      NothingAfterStop(calls, approved, i);
    } else {
      ShownBeforeStop(calls, approved, i);
    }
    forall e | e in StreamOf(calls, approved).yielded
      ensures CallOf(e) != i
    {
      OfHas(StreamOf(calls, approved).yielded, e);
    }
  }

  /** A call starts if and only if it is not refused, no call before it is, and none before it asked at once. */
  lemma {:induction false} StartsIff(calls: seq<Call>, approved: set<string>, i: nat)
    requires i < |calls|
    ensures Started(i) in StreamOf(calls, approved).yielded <==>
            && !Refused(calls[i], approved)
            && forall j :: 0 <= j < i ==> !Refused(calls[j], approved) && !AsksAtOnce(calls[j])
  {
    hide StreamOf, Of, AbortOf, Refused, AsksAtOnce, CallOf;
    var yielded := StreamOf(calls, approved).yielded;
    AbortGrounds(calls[i], approved);
    StopGrounds(calls, approved);
    ShownBeforeStop(calls, approved, i);
    if Stop(calls, approved, 0) < i {
      NothingAfterStop(calls, approved, i);
    }
    if Started(i) in yielded {
      OfHas(yielded, Started(i));
      CallOfStarted(i);
    }
  }

  lemma {:induction false} CallOfStarted(i: nat)
    ensures CallOf(Started(i)) == i
  {}

  /** A batch ends normally if and only if every call is valid, not denied and approved if it asks, and none that runs
      asks for an action. */
  lemma {:induction false} EndsNormallyIff(calls: seq<Call>, approved: set<string>)
    ensures StreamOf(calls, approved).abort.None? <==>
            forall i :: 0 <= i < |calls| ==>
              && calls[i].valid && calls[i].decision != Deny
              && (calls[i].decision == Ask ==> calls[i].toolName in approved)
              && (calls[i].interrupted || !calls[i].run.raises)
  {
    hide Blocks, PoolYield, SequentialYield, Stop;
    StopGrounds(calls, approved);
    var n, safe := |calls|, Deferred(calls, |calls|);
    forall i | 0 <= i < n
      ensures calls[i].Deferred() <==> exists j :: 0 <= j < |safe| && safe[j] == i
    {
      DeferredHas(calls, n, i);
    }
  }

  /** The gate ends a batch if and only if some call is refused before any asked at once, and then the first refused
      call decides on which ground. */
  lemma {:induction false} GateEndsIff(calls: seq<Call>, approved: set<string>, abort: Abort)
    requires abort != ActionNeeded
    ensures StreamOf(calls, approved).abort == Some(abort) <==>
            exists k :: 0 <= k < |calls| && FirstRefused(calls, approved, k) &&
              (abort == Invalid <==> !calls[k].valid) &&
              (abort == PermissionDenied <==> calls[k].valid && calls[k].decision == Deny) &&
              (abort == PermissionNeeded <==> calls[k].valid && calls[k].decision == Ask)
  {
    hide Blocks, PoolYield, SequentialYield;
    StopGrounds(calls, approved);
    var k := Stop(calls, approved, 0);
    if k < |calls| {
      AbortGrounds(calls[k], approved);
      assert Refused(calls[k], approved) ==> FirstRefused(calls, approved, k);
    }
    forall m | 0 <= m < |calls| && FirstRefused(calls, approved, m)
      ensures m == k
    {
      StopIs(calls, approved, m);
    }
  }

  ghost predicate FirstRefused(calls: seq<Call>, approved: set<string>, k: nat)
    requires k < |calls|
  {
    && Refused(calls[k], approved)
    && forall j :: 0 <= j < k ==> !Refused(calls[j], approved) && !AsksAtOnce(calls[j])
  }
}
