/** The numbers of a card's stream calls: one, two, three and so on, whatever the answers. */
module FeishuNumbers {
  import opened Wrappers
  import opened FeishuCards
  import opened FeishuHost

  predicate IsOf(c: Call, q: RequestId) {
    c.OnStream() && c.uuid.requestId == q
  }

  /** How many stream calls a log holds for a request. */
  function CallsOf(log: seq<Call>, q: RequestId): nat {
    if log == [] then 0 else CallsOf(log[..|log| - 1], q) + if IsOf(log[|log| - 1], q) then 1 else 0
  }

  lemma {:induction false} CallsOfSnoc(log: seq<Call>, c: Call, q: RequestId)
    ensures CallsOf(log + [c], q) == CallsOf(log, q) + if IsOf(c, q) then 1 else 0
  {
    assert (log + [c])[..|log|] == log;
  }

  lemma {:induction false} CallsOfNone(log: seq<Call>, q: RequestId)
    requires forall i :: 0 <= i < |log| ==> !IsOf(log[i], q)
    ensures CallsOf(log, q) == 0
  {
    if log != [] {
      CallsOfNone(log[..|log| - 1], q);
    }
  }

  /** The n-th stream call of a request carries the number n. */
  ghost predicate Numbered(log: seq<Call>, q: RequestId) {
    forall i :: 0 <= i < |log| && IsOf(log[i], q) ==> log[i].sequence == CallsOf(log[..i + 1], q)
  }

  lemma {:induction false} NumberedSnoc(log: seq<Call>, c: Call, q: RequestId)
    requires Numbered(log, q) && (IsOf(c, q) ==> c.sequence == CallsOf(log, q) + 1)
    ensures Numbered(log + [c], q)
  {
    CallsOfSnoc(log, c, q);
    forall i | 0 <= i < |log + [c]| && IsOf((log + [c])[i], q)
      ensures (log + [c])[i].sequence == CallsOf((log + [c])[..i + 1], q)
    {
      if i < |log| {
        assert (log + [c])[..i + 1] == log[..i + 1];
      } else {
        assert (log + [c])[..i + 1] == log + [c];
      }
    }
  }

  /** A record whose next number is free and next: all of its calls are numbered, and it is one past them. */
  ghost predicate Counting(r: CardRecord, w: Remote) {
    && (r.streamUuid.Some? ==> r.streamUuid.value.requestId == r.requestId)
    && Numbered(w.log, r.requestId) && r.nextSequence == CallsOf(w.log, r.requestId) + 1
  }

  /** An own step keeps the count, and other requests' numbers as they are. */
  ghost predicate Counted(r: CardRecord, w: Remote, a: Attempt) {
    && a.r.requestId == r.requestId && Counting(a.r, a.w)
    && forall q :: q != r.requestId ==>
         CallsOf(a.w.log, q) == CallsOf(w.log, q) && (Numbered(w.log, q) ==> Numbered(a.w.log, q))
  }

  lemma {:induction false} CountedTransitive(r: CardRecord, w: Remote, a: Attempt, b: Attempt)
    requires Counted(r, w, a) && Counted(a.r, a.w, b)
    ensures Counted(r, w, b)
  {
    hide Counting, Numbered;
    forall q | q != r.requestId
      ensures CallsOf(b.w.log, q) == CallsOf(w.log, q) && (Numbered(w.log, q) ==> Numbered(b.w.log, q))
    {
      assert CallsOf(a.w.log, q) == CallsOf(w.log, q);
    }
  }

  /** One call, and a record that has moved its number on if the call was a stream call with that number. */
  lemma {:induction false} CallCounts(r: CardRecord, w: Remote, c: Call, a: Attempt)
    requires Counting(r, w) && a.w.log == w.log + [c] && a.r.requestId == r.requestId
    requires a.r.streamUuid.Some? ==> a.r.streamUuid.value.requestId == r.requestId
    requires if c.OnStream() then
               c.uuid.requestId == r.requestId && c.sequence == r.nextSequence && a.r.nextSequence == r.nextSequence + 1
             else a.r.nextSequence == r.nextSequence
    ensures Counted(r, w, a)
  {
    hide Numbered;
    CallsOfSnoc(w.log, c, r.requestId);
    NumberedSnoc(w.log, c, r.requestId);
    forall q | q != r.requestId
      ensures CallsOf(a.w.log, q) == CallsOf(w.log, q) && (Numbered(w.log, q) ==> Numbered(a.w.log, q))
    {
      CallsOfSnoc(w.log, c, q);
      if Numbered(w.log, q) {
        NumberedSnoc(w.log, c, q);
      }
    }
  }

  lemma {:induction false} CountsSelf(r: CardRecord, w: Remote, a: Attempt)
    requires Counting(r, w) && a.w.log == w.log && a.r.requestId == r.requestId
    requires a.r.nextSequence == r.nextSequence && a.r.streamUuid == r.streamUuid
    ensures Counted(r, w, a)
  {}

  lemma {:induction false} SendCounts(r: CardRecord, w: Remote)
    requires Counting(r, w)
    ensures Counted(r, w, SendStep(r, w))
  {
    hide Counting, Counted;
    var a := SendStep(r, w);
    if r.replyMessageId.Some? {
      CountsSelf(r, w, a);
    } else {
      OwnUuid(r, w);
      CallCounts(r, w, Send(r.latestCard), a);
    }
  }

  lemma {:induction false} OwnUuid(r: CardRecord, w: Remote)
    requires Counting(r, w)
    ensures r.streamUuid.Some? ==> r.streamUuid.value.requestId == r.requestId
  {}

  lemma {:induction false} ResolveCounts(r: CardRecord, w: Remote)
    requires Counting(r, w)
    ensures Counted(r, w, ResolveStep(r, w))
  {
    hide Counting, Counted;
    var a := ResolveStep(r, w);
    if r.cardkitSupported == Some(false) || r.cardId.Some? || r.replyMessageId.None? {
      CountsSelf(r, w, a);
    } else {
      OwnUuid(r, w);
      CallCounts(r, w, Resolve(r.replyMessageId.value), a);
    }
  }

  lemma {:induction false} PatchCounts(r: CardRecord, w: Remote)
    requires Counting(r, w)
    ensures Counted(r, w, PatchStep(r, w))
  {
    hide Counting, Counted;
    if r.replyMessageId.None? {
      CountsSelf(r, w, PatchStep(r, w));
    } else {
      OwnUuid(r, w);
      CallCounts(r, w, Patch(r.replyMessageId.value, r.latestCard), PatchStep(r, w));
    }
  }

  lemma {:induction false} StreamCounts(r: CardRecord, w: Remote, kind: StreamCall)
    requires Counting(r, w) && r.cardId.Some?
    ensures Counted(r, w, StreamStep(r, w, kind)) && StreamStep(r, w, kind).r.cardId.Some?
  {
    hide Counting, Counted;
    OwnUuid(r, w);
    CallCounts(r, w, StreamCallOf(EnsureUuid(r, |w.log|), kind), StreamStep(r, w, kind));
  }

  /** Giving up CardKit or noting it changes no number. */
  lemma {:induction false} CountedAs(r: CardRecord, w: Remote, a: Attempt, b: Attempt)
    requires Counted(r, w, a) && b.w == a.w && b.r.requestId == a.r.requestId
    requires b.r.nextSequence == a.r.nextSequence && b.r.streamUuid == a.r.streamUuid
    ensures Counted(r, w, b)
  {}

  lemma {:induction false} Counts(r: CardRecord, w: Remote, a: Attempt)
    requires Counted(r, w, a)
    ensures Counting(a.r, a.w)
  {}

  lemma {:induction false} ApprovalCounts(r: CardRecord, w: Remote)
    requires Counting(r, w) && r.cardId.Some?
    ensures Counted(r, w, ApprovalStep(r, w))
  {
    hide Counting, Counted, StreamStep;
    StreamCounts(r, w, UpdateStream);
    var a := StreamStep(r, w, UpdateStream);
    var b := if a.error.Some? then a else a.(r := a.r.(cardkitSupported := Some(true)));
    CountedAs(r, w, a, b);
    StopCounts(r, w, b);
  }

  lemma {:induction false} StopCounts(r: CardRecord, w: Remote, a: Attempt)
    requires Counted(r, w, a) && a.r.cardId.Some?
    ensures Counted(r, w, StopStreamIfActive(a))
  {
    hide Counting, Counted, StreamStep;
    if a.error.None? && a.r.streamingActive {
      Counts(r, w, a);
      StreamCounts(a.r, a.w, DisableStream);
      CountedTransitive(r, w, a, StreamStep(a.r, a.w, DisableStream));
    }
  }

  lemma {:induction false} FallBackCounts(r: CardRecord, w: Remote, a: Attempt)
    requires Counted(r, w, a)
    ensures Counted(r, w, FallBackToPatch(a))
  {
    hide Counting, Counted, PatchStep;
    var b := a.(r := WithoutCardKit(a.r));
    CountedAs(r, w, a, b);
    CountedAs(r, w, a, b.(error := Some(ApprovalNeedsCardKit)));
    Counts(r, w, b);
    PatchCounts(b.r, b.w);
    CountedTransitive(r, w, b, PatchStep(b.r, b.w));
  }

  lemma {:induction false} LiveCounts(r: CardRecord, w: Remote)
    requires Counting(r, w) && r.cardId.Some?
    ensures Counted(r, w, LiveStep(r, w))
  {
    hide Counting, Counted, StreamStep, FallBackToPatch;
    var a := if r.streamingActive then Attempt(r, w, None) else StreamStep(r, w, EnableStream);
    if r.streamingActive {
      CountsSelf(r, w, a);
    } else {
      StreamCounts(r, w, EnableStream);
    }
    var b := if a.error.Some? then a else StreamStep(a.r, a.w, UpdateStream);
    if a.error.None? {
      Counts(r, w, a);
      StreamCounts(a.r, a.w, UpdateStream);
      CountedTransitive(r, w, a, b);
    }
    FallBackCounts(r, w, b);
  }

  lemma {:induction false} FinalCounts(r: CardRecord, w: Remote)
    requires Counting(r, w) && r.cardId.Some?
    ensures Counted(r, w, FinalStep(r, w))
  {
    hide Counting, Counted, StreamStep, PatchStep, StopStreamIfActive;
    if r.streamingActive {
      StreamCounts(r, w, UpdateStream);
      StopCounts(r, w, StreamStep(r, w, UpdateStream));
    } else if r.replyMessageId.Some? {
      PatchCounts(r, w);
    } else {
      CountsSelf(r, w, Attempt(r, w, None));
    }
  }

  lemma {:induction false} DeliverCounts(r: CardRecord, w: Remote)
    requires Counting(r, w)
    ensures Counted(r, w, DeliverStep(r, w))
  {
    hide Counting, Counted, ApprovalStep, LiveStep, FinalStep, PatchStep;
    if r.status == RequiresAction && r.cardId.Some? {
      ApprovalCounts(r, w);
    } else if r.cardkitSupported == Some(false) && r.status != RequiresAction {
      PatchCounts(r, w);
    } else if r.cardkitSupported == Some(false) || r.cardId.None? {
      CountsSelf(r, w, DeliverStep(r, w));
    } else if IsStable(r) {
      FinalCounts(r, w);
    } else {
      LiveCounts(r, w);
    }
  }

  lemma {:induction false} SyncCounts(r: CardRecord, w: Remote, now: int, retryDelay: int)
    requires Counting(r, w)
    ensures var o := Sync(r, w, now, retryDelay); Counted(r, w, Attempt(o.r, o.w, None))
  {
    hide Counting, Counted, SendStep, ResolveStep, DeliverStep;
    SendCounts(r, w);
    var sent := SendStep(r, w);
    var a := AttemptDelivery(r, w);
    if sent.error.None? {
      Counts(r, w, sent);
      ResolveCounts(sent.r, sent.w);
      var resolved := ResolveStep(sent.r, sent.w);
      CountedTransitive(r, w, sent, resolved);
      if resolved.error.None? {
        Counts(r, w, resolved);
        DeliverCounts(resolved.r, resolved.w);
        CountedTransitive(r, w, resolved, a);
      }
    }
    var o := Sync(r, w, now, retryDelay);
    CountedAs(r, w, a, Attempt(o.r, o.w, None));
  }

  // ------------------------------------------------------------------ over histories

  ghost predicate AllCounting(h: Host) {
    && (forall q :: q in h.ledger ==> h.ledger[q].requestId == q && Counting(h.ledger[q], h.remote))
    && (forall q :: q !in h.ledger ==> Numbered(h.remote.log, q) && CallsOf(h.remote.log, q) == 0)
  }

  lemma {:induction false} StoredCounts(c: Config, h: Host, r: CardRecord, now: int)
    requires AllCounting(h) && Counting(r, h.remote)
    ensures AllCounting(Stored(h, Sync(r, h.remote, now, c.retryDelay)))
  {
    hide Numbered, Sync;
    SyncCounts(r, h.remote, now, c.retryDelay);
    var o := Sync(r, h.remote, now, c.retryDelay);
    forall q | q != r.requestId
      ensures CallsOf(o.w.log, q) == CallsOf(h.remote.log, q) &&
              (Numbered(h.remote.log, q) ==> Numbered(o.w.log, q))
    {}
  }

  /** An event and a press redraw a record and leave its numbers. */
  lemma {:induction false} RedrawnCounts(r: CardRecord, s: CardRecord, w: Remote)
    requires Counting(r, w) && SameDelivery(r, s)
    ensures Counting(s, w)
  {}

  lemma {:induction false} StepCounts(c: Config, h: Host, op: HostOp)
    requires AllCounting(h)
    ensures AllCounting(HostStep(c, h, op))
  {
    hide Counting, AllCounting, Sync, Render, Numbered;
    var q := op.requestId;
    KnownCounts(h, q, op);
    if op.StartTurn? {
      if q !in h.ledger {
        StoredCounts(c, h, InitialRecord(q, op.prompt, |h.remote.log|), op.now);
      }
    } else if q in h.ledger {
      var r := h.ledger[q];
      match op
      case OnEvent(_, event, now) =>
        ApplyEventRedraws(r, event);
        RedrawnCounts(r, ApplyEvent(r, event), h.remote);
        StoredCounts(c, h, ApplyEvent(r, event), now);
        KeptCounts(h, ApplyEvent(r, event));
      case OnAction(_, now) =>
        RedrawnCounts(r, ActionRunning(r), h.remote);
        StoredCounts(c, h, ActionRunning(r), now);
      case OnActionError(_, message, now) =>
        RedrawnCounts(r, ActionFailed(r, message), h.remote);
        StoredCounts(c, h, ActionFailed(r, message), now);
      case Retry(_, now) => StoredCounts(c, h, r, now);
      case StartTurn(_, _, _) =>
    }
  }

  lemma {:induction false} KnownCounts(h: Host, q: RequestId, op: HostOp)
    requires AllCounting(h)
    ensures q in h.ledger ==> h.ledger[q].requestId == q && Counting(h.ledger[q], h.remote)
    ensures op.StartTurn? && q !in h.ledger ==> Counting(InitialRecord(q, op.prompt, |h.remote.log|), h.remote)
  {}

  lemma {:induction false} KeptCounts(h: Host, r: CardRecord)
    requires AllCounting(h) && Counting(r, h.remote)
    ensures AllCounting(Stored(h, Outcome(r, h.remote, false)))
  {
    hide Numbered;
  }

  lemma {:induction false} RunCounts(c: Config, h: Host, ops: seq<HostOp>)
    requires AllCounting(h)
    ensures AllCounting(HostRun(c, h, ops))
    decreases |ops|
  {
    hide AllCounting, HostStep;
    if ops != [] {
      StepCounts(c, h, ops[0]);
      RunCounts(c, HostStep(c, h, ops[0]), ops[1..]);
    }
  }

  /** Over every history and every pattern of answers: the n-th stream call made for a request carries the number n, and
      the record's next number is one more than the calls made. */
  lemma {:induction false} NumberedWithoutGaps(c: Config, oracle: nat -> Reply, ops: seq<HostOp>, q: RequestId, i: nat)
    requires i < |HostRun(c, EmptyHost(oracle), ops).remote.log|
    requires IsOf(HostRun(c, EmptyHost(oracle), ops).remote.log[i], q)
    ensures var h := HostRun(c, EmptyHost(oracle), ops);
            && h.remote.log[i].sequence == CallsOf(h.remote.log[..i + 1], q)
            && q in h.ledger && h.ledger[q].nextSequence == CallsOf(h.remote.log, q) + 1
  {
    RunCounts(c, EmptyHost(oracle), ops);
    var h := HostRun(c, EmptyHost(oracle), ops);
    if q !in h.ledger {
      CallsOfSome(h.remote.log, q, i);
    }
  }

  lemma {:induction false} CallsOfSome(log: seq<Call>, q: RequestId, i: nat)
    requires i < |log| && IsOf(log[i], q)
    ensures CallsOf(log, q) > 0
  {
    if i < |log| - 1 {
      CallsOfSome(log[..|log| - 1], q, i);
    }
  }
}
