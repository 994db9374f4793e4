/** When a card reaches its reader: which events are held back, what a sync and a retry leave, and what events add up
    to. */
module FeishuFlush {
  import opened Wrappers
  import opened FeishuCards
  import opened FeishuHost

  // ------------------------------------------------------------------ what one sync leaves

  /** A sync ends delivered, with nothing to retry, or it counts one more try and sets the time of the next. */
  lemma {:induction false} SyncTimes(r: CardRecord, w: Remote, now: int, retryDelay: int)
    ensures var o := Sync(r, w, now, retryDelay);
            && o.r.requestId == r.requestId && o.r.status == r.status && o.r.prompt == r.prompt
            && o.r.statusMessage == r.statusMessage && o.r.assistantMessage == r.assistantMessage
            && o.r.approvalTool == r.approvalTool
            && (o.delivered ==> !o.r.dirty && !o.r.deliveryPending && o.r.lastError.None? && o.r.nextRetryAt == 0
                                && o.r.lastFlushAt == now && o.r.retryCount == r.retryCount)
            && (!o.delivered ==> o.r.dirty == r.dirty && o.r.deliveryPending && o.r.lastError.Some?
                                 && o.r.nextRetryAt == now + retryDelay
                                 && o.r.lastFlushAt == r.lastFlushAt && o.r.retryCount == r.retryCount + 1)
  {
    hide SendStep, ResolveStep, DeliverStep;
    OpeningSame(r, w);
    var sent := SendStep(r, w);
    OpeningSame(sent.r, sent.w);
    var resolved := ResolveStep(sent.r, sent.w);
    DeliverSame(resolved.r, resolved.w);
  }

  /** What no step of an attempt touches. */
  ghost predicate SameFace(r: CardRecord, s: CardRecord) {
    && s.requestId == r.requestId && s.status == r.status && s.prompt == r.prompt
    && s.statusMessage == r.statusMessage && s.assistantMessage == r.assistantMessage
    && s.approvalTool == r.approvalTool && s.dirty == r.dirty && s.lastFlushAt == r.lastFlushAt
    && s.retryCount == r.retryCount
  }

  lemma {:induction false} OpeningSame(r: CardRecord, w: Remote)
    ensures SameFace(r, SendStep(r, w).r) && SameFace(r, ResolveStep(r, w).r)
  {}

  lemma {:induction false} StreamSame(r: CardRecord, w: Remote, kind: StreamCall)
    requires r.cardId.Some?
    ensures SameFace(r, StreamStep(r, w, kind).r) && StreamStep(r, w, kind).r.cardId.Some?
  {}

  lemma {:induction false} ApprovalSame(r: CardRecord, w: Remote)
    requires r.cardId.Some?
    ensures SameFace(r, ApprovalStep(r, w).r)
  {
    hide StreamStep;
    StreamSame(r, w, UpdateStream);
    var shown := StreamStep(r, w, UpdateStream);
    StreamSame(shown.r, shown.w, DisableStream);
    StreamSame(shown.r.(cardkitSupported := Some(true)), shown.w, DisableStream);
  }

  lemma {:induction false} FallBackSame(a: Attempt)
    ensures SameFace(a.r, FallBackToPatch(a).r)
  {}

  lemma {:induction false} SameFaceTransitive(r: CardRecord, s: CardRecord, t: CardRecord)
    requires SameFace(r, s) && SameFace(s, t)
    ensures SameFace(r, t)
  {}

  lemma {:induction false} LiveSame(r: CardRecord, w: Remote)
    requires r.cardId.Some?
    ensures SameFace(r, LiveStep(r, w).r)
  {
    StreamSame(r, w, EnableStream);
    assert SameFace(r, r);
    hide StreamStep, FallBackToPatch, SameFace;
    var on := if r.streamingActive then Attempt(r, w, None) else StreamStep(r, w, EnableStream);
    StreamSame(on.r, on.w, UpdateStream);
    var shown := if on.error.Some? then on else StreamStep(on.r, on.w, UpdateStream);
    FallBackSame(shown);
    if on.error.None? {
      SameFaceTransitive(r, on.r, shown.r);
    }
    SameFaceTransitive(r, shown.r, FallBackToPatch(shown).r);
  }

  lemma {:induction false} FinalSame(r: CardRecord, w: Remote)
    requires r.cardId.Some?
    ensures SameFace(r, FinalStep(r, w).r)
  {
    hide StreamStep, Invoke, ErrorOf;
    StreamSame(r, w, UpdateStream);
    var shown := StreamStep(r, w, UpdateStream);
    StreamSame(shown.r, shown.w, DisableStream);
  }

  lemma {:induction false} DeliverSame(r: CardRecord, w: Remote)
    ensures SameFace(r, DeliverStep(r, w).r)
  {
    hide ApprovalStep, LiveStep, FinalStep, Invoke, ErrorOf;
    if r.cardId.Some? {
      ApprovalSame(r, w);
      LiveSame(r, w);
      FinalSame(r, w);
    }
  }

  // ------------------------------------------------------------------ which events are held back

  lemma {:induction false} ApplySame(r: CardRecord, e: CardEvent)
    ensures var s := ApplyEvent(r, e);
            s.lastFlushAt == r.lastFlushAt && s.deliveryPending == r.deliveryPending && s.retryCount == r.retryCount
            && s.lastError == r.lastError && s.nextRetryAt == r.nextRetryAt
  {}

  /** An event is held back if and only if it is a piece of text for a card that is sent and not waiting for a retry,
      within the interval of the last flush; then no call is made. After any other event the card is shown, or waits for
      its retry. */
  lemma {:induction false} HeldBackIff(c: Config, h: Host, q: RequestId, e: CardEvent, now: int)
    requires HostValid(h) && q in h.ledger
    ensures q in HostStep(c, h, OnEvent(q, e, now)).ledger
    ensures var r, t := h.ledger[q], HostStep(c, h, OnEvent(q, e, now));
            var s := t.ledger[q];
            && (s.dirty && !s.deliveryPending <==>
                  && e.AssistantDelta? && r.replyMessageId.Some? && !r.deliveryPending
                  && now - r.lastFlushAt < c.flushInterval)
            && (s.dirty && !s.deliveryPending ==> t.remote == h.remote)
            && (!s.dirty ==>
                  && s.replyMessageId.Some? && s.replyMessageId.value in t.remote.content
                  && t.remote.content[s.replyMessageId.value] ==
                     Card(s.prompt, s.status, s.statusMessage, s.assistantMessage))
  {
    hide AttemptDelivery, Orderly, OwnNumbers, TakenForOn;
    var r := h.ledger[q];
    var applied := ApplyEvent(r, e);
    EventValid(c, h, q, e, now);
    ApplyEventRedraws(r, e);
    ApplySame(r, e);
    SyncTimes(applied, h.remote, now, c.retryDelay);
    var t := HostStep(c, h, OnEvent(q, e, now));
    assert Settled(t.ledger[q], t.remote);
  }

  /** A call of a sync that goes through. */
  lemma {:induction false} SyncCalls(r: CardRecord, w: Remote, now: int, retryDelay: int)
    ensures Sync(r, w, now, retryDelay).w.log == w.log <==>
            && r.replyMessageId.Some? && r.cardkitSupported == Some(false) && r.cardId.None?
            && r.status == RequiresAction
  {
    hide SendStep, ResolveStep, DeliverStep;
    var sent := SendStep(r, w);
    SendCalls(r, w);
    OpeningSame(r, w);
    if sent.error.None? {
      ResolveCalls(sent.r, sent.w);
      var resolved := ResolveStep(sent.r, sent.w);
      OpeningSame(sent.r, sent.w);
      if resolved.error.None? {
        DeliverCalls(resolved.r, resolved.w);
      }
    }
  }

  lemma {:induction false} SendCalls(r: CardRecord, w: Remote)
    ensures var a := SendStep(r, w);
            && w.log <= a.w.log && (a.w.log == w.log <==> r.replyMessageId.Some?)
            && (a.error.None? ==> a.r.replyMessageId.Some? && a.r.cardkitSupported == r.cardkitSupported &&
                                  a.r.cardId == r.cardId)
            && (r.replyMessageId.Some? ==> a.error.None?)
  {}

  lemma {:induction false} ResolveCalls(r: CardRecord, w: Remote)
    requires r.replyMessageId.Some?
    ensures var a := ResolveStep(r, w);
            && w.log <= a.w.log
            && (a.w.log == w.log <==> r.cardkitSupported == Some(false) || r.cardId.Some?)
            && (a.w.log == w.log ==> a == Attempt(r, w, None))
            && (a.error.None? ==> a.r.replyMessageId.Some?)
  {}

  lemma {:induction false} StreamCalls(r: CardRecord, w: Remote, kind: StreamCall)
    requires r.cardId.Some?
    ensures var a := StreamStep(r, w, kind);
            && w.log <= a.w.log && |a.w.log| == |w.log| + 1 && a.r.replyMessageId == r.replyMessageId
            && a.r.cardId == r.cardId
  {}

  lemma {:induction false} DeliverCalls(r: CardRecord, w: Remote)
    requires r.replyMessageId.Some?
    ensures w.log <= DeliverStep(r, w).w.log
    ensures r.cardId.Some? || (r.cardkitSupported == Some(false) && r.status != RequiresAction) ==>
              DeliverStep(r, w).w.log != w.log
    ensures r.cardId.None? && r.cardkitSupported == Some(false) && r.status == RequiresAction ==>
              DeliverStep(r, w).w.log == w.log
  {
    hide StreamStep;
    if r.cardId.Some? {
      StreamCalls(r, w, UpdateStream);
      StreamCalls(r, w, EnableStream);
      var shown, on := StreamStep(r, w, UpdateStream), StreamStep(r, w, EnableStream);
      StreamCalls(shown.r, shown.w, DisableStream);
      var kept := shown.r.(cardkitSupported := Some(true));
      StreamCalls(kept, shown.w, DisableStream);
      StreamCalls(on.r, on.w, UpdateStream);
    }
  }

  /** An event makes no call if and only if it is held back, or its card awaits an approval that cannot be shown without
      CardKit. */
  lemma {:induction false} NoCallIff(c: Config, h: Host, q: RequestId, e: CardEvent, now: int)
    requires HostValid(h) && q in h.ledger
    ensures var r, t := h.ledger[q], HostStep(c, h, OnEvent(q, e, now));
            t.remote.log == h.remote.log <==>
            || (e.AssistantDelta? && r.replyMessageId.Some? && !r.deliveryPending
                && now - r.lastFlushAt < c.flushInterval)
            || (r.replyMessageId.Some? && r.cardkitSupported == Some(false) && r.cardId.None?
                && t.ledger[q].status == RequiresAction)
  {
    hide AttemptDelivery;
    var applied := ApplyEvent(h.ledger[q], e);
    ApplyEventRedraws(h.ledger[q], e);
    ApplySame(h.ledger[q], e);
    SyncTimes(applied, h.remote, now, c.retryDelay);
    SyncCalls(applied, h.remote, now, c.retryDelay);
  }

  /** A retry does nothing unless the card waits for one, its time has come, and it is not an approval that failed for
      want of CardKit; then the card is shown, or one more try is counted. */
  lemma {:induction false} RetryIff(c: Config, h: Host, q: RequestId, now: int)
    requires HostValid(h) && q in h.ledger
    ensures q in HostStep(c, h, Retry(q, now)).ledger
    ensures var r, t := h.ledger[q], HostStep(c, h, Retry(q, now));
            var s := t.ledger[q];
            if r.deliveryPending && r.nextRetryAt <= now &&
               !(r.status == RequiresAction && r.lastError == Some(ApprovalNeedsCardKit)) then
              || (!s.dirty && !s.deliveryPending && s.lastFlushAt == now && s.retryCount == r.retryCount)
              || (s.dirty && s.deliveryPending && s.retryCount == r.retryCount + 1
                  && s.nextRetryAt == now + c.retryDelay)
            else t == h
  {
    hide AttemptDelivery, Orderly, OwnNumbers, TakenForOn;
    assert Settled(h.ledger[q], h.remote);
    SyncTimes(h.ledger[q], h.remote, now, c.retryDelay);
  }

  // ------------------------------------------------------------------ over histories

  /** An operation leaves other cards' records alone. */
  lemma {:induction false} OtherRecords(c: Config, h: Host, op: HostOp, q: RequestId)
    requires HostValid(h) && op.requestId != q
    ensures q in HostStep(c, h, op).ledger <==> q in h.ledger
    ensures q in h.ledger ==> HostStep(c, h, op).ledger[q] == h.ledger[q]
  {
    hide AttemptDelivery, Settled, Orderly;
    if op.StartTurn? {
      SyncTimes(InitialRecord(op.requestId, op.prompt, |h.remote.log|), h.remote, op.now, c.retryDelay);
    } else if op.requestId in h.ledger {
      var r := h.ledger[op.requestId];
      SyncTimes(r, h.remote, op.now, c.retryDelay);
      if op.OnEvent? {
        ApplyEventRedraws(r, op.event);
        SyncTimes(ApplyEvent(r, op.event), h.remote, op.now, c.retryDelay);
      } else if op.OnAction? {
        SyncTimes(ActionRunning(r), h.remote, op.now, c.retryDelay);
      } else if op.OnActionError? {
        SyncTimes(ActionFailed(r, op.message), h.remote, op.now, c.retryDelay);
      }
    }
  }

  /** An operation on a card that leaves it neither shown nor waiting for a retry held an event back, or changed
      nothing. */
  lemma {:induction false} OwnStep(c: Config, h: Host, op: HostOp)
    requires HostValid(h) && op.requestId in HostStep(c, h, op).ledger
    requires var s := HostStep(c, h, op).ledger[op.requestId]; s.dirty && !s.deliveryPending
    ensures op.requestId in h.ledger
    ensures op.OnEvent? ==> HeldBack(c, h.ledger[op.requestId], op)
    ensures !op.OnEvent? ==> (op.Retry? || op.StartTurn?) && HostStep(c, h, op) == h
  {
    hide AttemptDelivery, Settled, Orderly, ApplyEvent, Render;
    if op.StartTurn? {
      if op.requestId !in h.ledger {
        SyncTimes(InitialRecord(op.requestId, op.prompt, |h.remote.log|), h.remote, op.now, c.retryDelay);
      }
    } else {
      var r := h.ledger[op.requestId];
      match op {
        case OnEvent(q, e, now) => HeldBackIff(c, h, q, e, now);
        case OnAction(_, now) => SyncTimes(ActionRunning(r), h.remote, now, c.retryDelay);
        case OnActionError(_, message, now) => SyncTimes(ActionFailed(r, message), h.remote, now, c.retryDelay);
        case Retry(q, now) => RetryIff(c, h, q, now);
        case StartTurn(_, _, _) =>
      }
    }
  }

  /** A piece of text for a sent card that is not waiting for a retry, within the interval of its last flush. */
  predicate HeldBack(c: Config, r: CardRecord, op: HostOp) {
    && op.OnEvent? && op.event.AssistantDelta? && r.replyMessageId.Some? && !r.deliveryPending
    && op.now - r.lastFlushAt < c.flushInterval
  }

  /** The operation at `i` held an event of this card back, and nothing happened to the card since. */
  ghost predicate HeldBackAt(c: Config, h: Host, ops: seq<HostOp>, q: RequestId, i: nat) {
    && i < |ops| && ops[i].requestId == q
    && var before, r := HostRun(c, h, ops[..i]), HostRun(c, h, ops).ledger;
       && q in before.ledger && HeldBack(c, before.ledger[q], ops[i])
       && q in r && q in HostRun(c, h, ops[..i + 1]).ledger && HostRun(c, h, ops[..i + 1]).ledger[q] == r[q]
       && forall k :: i < k < |ops| && ops[k].requestId == q ==> ops[k].Retry? || ops[k].StartTurn?
  }

  lemma {:induction false} HeldBackSnoc(c: Config, h: Host, init: seq<HostOp>, op: HostOp, q: RequestId, i: nat)
    requires HeldBackAt(c, h, init, q, i)
    requires q in HostRun(c, h, init + [op]).ledger
    requires HostRun(c, h, init + [op]).ledger[q] == HostRun(c, h, init).ledger[q]
    requires op.requestId == q ==> op.Retry? || op.StartTurn?
    ensures HeldBackAt(c, h, init + [op], q, i)
  {
    hide HostRun, HeldBack;
    assert (init + [op])[..i] == init[..i] && (init + [op])[..i + 1] == init[..i + 1];
  }

  /** Over every history: a card that is neither shown nor waiting for a retry is behind only by text that came within
      the interval of its last flush, and nothing else has happened to it since. */
  lemma {:induction false} OnlyTextIsHeldBack(c: Config, oracle: nat -> Reply, ops: seq<HostOp>, q: RequestId)
    requires q in HostRun(c, EmptyHost(oracle), ops).ledger
    requires var r := HostRun(c, EmptyHost(oracle), ops).ledger[q]; r.dirty && !r.deliveryPending
    ensures exists i :: 0 <= i < |ops| && HeldBackAt(c, EmptyHost(oracle), ops, q, i)
    decreases |ops|
  {
    hide HostStep, HostValid, HeldBack;
    var e := EmptyHost(oracle);
    if ops != [] {
      var init, op := ops[..|ops| - 1], ops[|ops| - 1];
      var h := HostRun(c, e, init);
      assert ops == init + [op];
      HostRunAppend(c, e, init, op);
      EmptyHostValid(oracle);
      HostRunValid(c, e, init);
      if op.requestId != q {
        OtherRecords(c, h, op, q);
        OnlyTextIsHeldBack(c, oracle, init, q);
        var i :| 0 <= i < |init| && HeldBackAt(c, e, init, q, i);
        HeldBackSnoc(c, e, init, op, q, i);
      } else {
        OwnStep(c, h, op);
        if op.OnEvent? {
          assert ops[..|init|] == init && ops[..|init| + 1] == ops;
          assert HeldBackAt(c, e, ops, q, |init|);
        } else {
          OnlyTextIsHeldBack(c, oracle, init, q);
          var i :| 0 <= i < |init| && HeldBackAt(c, e, init, q, i);
          HeldBackSnoc(c, e, init, op, q, i);
        }
      }
    }
  }

  lemma {:induction false} EmptyHostValid(oracle: nat -> Reply)
    ensures HostValid(EmptyHost(oracle))
  {}

  // ------------------------------------------------------------------ what events add up to

  function ApplyAll(r: CardRecord, events: seq<CardEvent>): CardRecord {
    if events == [] then r else ApplyEvent(ApplyAll(r, events[..|events| - 1]), events[|events| - 1])
  }

  function TextOf(r: CardRecord): string {
    if r.assistantMessage.Some? then r.assistantMessage.value else ""
  }

  /** The pieces of text among events, one after the other. */
  function Pieces(events: seq<CardEvent>): string {
    if events == [] then ""
    else
      var e := events[|events| - 1];
      Pieces(events[..|events| - 1]) + if e.AssistantDelta? then e.delta else ""
  }

  /** Without a whole message in between, the reply is what it was and every piece of text since, in order. */
  lemma {:induction false} PiecesAddUp(r: CardRecord, events: seq<CardEvent>)
    requires forall i :: 0 <= i < |events| ==> !(events[i].AssistantMessage? && events[i].message != "")
    ensures TextOf(ApplyAll(r, events)) == TextOf(r) + Pieces(events)
  {
    hide ApplyEvent, TextOf;
    if events == [] {
      assert TextOf(r) + "" == TextOf(r);
    } else {
      var init, e := events[..|events| - 1], events[|events| - 1];
      PiecesAddUp(r, init);
      PieceStep(ApplyAll(r, init), e);
    }
  }

  lemma {:induction false} PieceStep(r: CardRecord, e: CardEvent)
    requires !(e.AssistantMessage? && e.message != "")
    ensures TextOf(ApplyEvent(r, e)) == TextOf(r) + if e.AssistantDelta? then e.delta else ""
  {
    assert TextOf(r) + "" == TextOf(r);
  }

  /** A whole message replaces the text; the pieces after it are added to it. */
  lemma {:induction false} MessageReplaces(r: CardRecord, message: string, later: seq<CardEvent>)
    requires message != ""
    requires forall i :: 0 <= i < |later| ==> !(later[i].AssistantMessage? && later[i].message != "")
    ensures TextOf(ApplyAll(ApplyEvent(r, AssistantMessage(message)), later)) == message + Pieces(later)
  {
    PiecesAddUp(ApplyEvent(r, AssistantMessage(message)), later);
  }

  /** The events that set a card's status, and to what. */
  predicate Sets(e: CardEvent, status: Status) {
    match status
    case Running => (e.AssistantDelta? && e.delta != "") || e.ToolStarted? || e.ToolProgress?
    case RequiresAction => e.ActionRequired?
    case Interrupted => e.ToolCancelled?
    case Failed => e.TurnFailed?
    case Completed => e.TurnCompleted?
  }

  /** The event takes a card of this status to another one; the end of a turn does so with a running card only. */
  predicate Overrides(e: CardEvent, status: Status) {
    exists next :: next in {Running, RequiresAction, Interrupted, Failed, Completed} && next != status && Sets(e, next)
      && (e.TurnCompleted? ==> status == Running)
  }

  lemma {:induction false} StatusStep(r: CardRecord, e: CardEvent)
    ensures if Overrides(e, r.status) then Sets(e, ApplyEvent(r, e).status) else ApplyEvent(r, e).status == r.status
  {
    match e {
      case AssistantDelta(delta) => assert delta != "" ==> Sets(e, Running);
      case ActionRequired(_) => assert Sets(e, RequiresAction);
      case ToolStarted(_) => assert Sets(e, Running);
      case ToolProgress(_) => assert Sets(e, Running);
      case ToolCancelled(_) => assert Sets(e, Interrupted);
      case TurnFailed(_) => assert Sets(e, Failed);
      case TurnCompleted => assert Sets(e, Completed);
      case _ =>
    }
  }

  /** Nothing after the first `n` events takes the card to another status. */
  ghost predicate Stands(events: seq<CardEvent>, n: nat, status: Status) {
    n <= |events| && forall i :: n <= i < |events| ==> !Overrides(events[i], status)
  }

  /** Over every sequence of events, a card has the status of the last event that set another one, or the one it had. */
  lemma {:induction false} StatusIs(r: CardRecord, events: seq<CardEvent>) returns (n: nat)
    ensures Stands(events, n, ApplyAll(r, events).status)
    ensures if n == 0 then ApplyAll(r, events).status == r.status
            else Sets(events[n - 1], ApplyAll(r, events).status)
  {
    hide Sets, Overrides, ApplyEvent;
    if events == [] {
      n := 0;
    } else {
      var init, e := events[..|events| - 1], events[|events| - 1];
      StatusStep(ApplyAll(r, init), e);
      if Overrides(e, ApplyAll(r, init).status) {
        n := |events|;
      } else {
        n := StatusIs(r, init);
      }
    }
  }

  // ------------------------------------------------------------------ what each operation puts on a card

  /** A started turn is a running card that holds its prompt and no reply, and it is shown or waits for its first
      retry. */
  lemma {:induction false} StartedCard(c: Config, h: Host, q: RequestId, prompt: string, now: int)
    requires HostValid(h) && q !in h.ledger
    ensures q in HostStep(c, h, StartTurn(q, prompt, now)).ledger
    ensures var s := HostStep(c, h, StartTurn(q, prompt, now)).ledger[q];
            && s.prompt == prompt && s.status == Running && s.assistantMessage == None && s.approvalTool == None
            && s.statusMessage == Some("Processing your request...")
            && (if s.dirty then s.deliveryPending && s.retryCount == 1 && s.lastFlushAt == 0
                           else !s.deliveryPending && s.retryCount == 0 && s.lastFlushAt == now)
  {
    hide AttemptDelivery, Render;
    SyncTimes(InitialRecord(q, prompt, |h.remote.log|), h.remote, now, c.retryDelay);
  }

  /** A press takes the approval off the card and sets it running; a press that fails fails the card. Either way it is
      shown or waits for its retry. */
  lemma {:induction false} PressedCard(c: Config, h: Host, q: RequestId, message: string, now: int)
    requires HostValid(h) && q in h.ledger
    ensures q in HostStep(c, h, OnAction(q, now)).ledger && q in HostStep(c, h, OnActionError(q, message, now)).ledger
    ensures var s := HostStep(c, h, OnAction(q, now)).ledger[q];
            && s.status == Running && s.approvalTool == None && s.statusMessage == Some("Applying your decision...")
            && s.assistantMessage == h.ledger[q].assistantMessage && (!s.dirty || s.deliveryPending)
    ensures var s := HostStep(c, h, OnActionError(q, message, now)).ledger[q];
            && s.status == Failed && s.statusMessage == Some(message)
            && s.assistantMessage == h.ledger[q].assistantMessage && (!s.dirty || s.deliveryPending)
  {
    hide AttemptDelivery, Render;
    SyncTimes(ActionRunning(h.ledger[q]), h.remote, now, c.retryDelay);
    SyncTimes(ActionFailed(h.ledger[q], message), h.remote, now, c.retryDelay);
  }

  /** What a card says after an event, whether or not it is shown yet. */
  lemma {:induction false} LineAfter(c: Config, h: Host, q: RequestId, e: CardEvent, now: int)
    requires HostValid(h) && q in h.ledger
    ensures q in HostStep(c, h, OnEvent(q, e, now)).ledger
    ensures var line, r := HostStep(c, h, OnEvent(q, e, now)).ledger[q].statusMessage, h.ledger[q];
            match e
            case ActionRequired(tool) => line == Some("Approval required for " + tool + ".")
            case ToolStarted(tool) => line == Some("Running tool: " + tool)
            case ToolProgress(tool) => line == Some("Tool " + tool + " is working...")
            case ToolResult(tool) => line == Some("Tool " + tool + " completed.")
            case ToolFailed(tool, reason) => line == Some("Tool " + tool + " failed: " + reason)
            case ToolCancelled(tool) => line == Some("Tool " + tool + " was cancelled.")
            case TurnFailed(summary) => line == Some("Turn failed: " + summary)
            case TurnCompleted =>
              if r.statusMessage in {None, Some("Processing your request...")} then line == Some("Completed.")
              else line == r.statusMessage
            case _ => line == r.statusMessage
  {
    hide AttemptDelivery, Render;
    SyncTimes(ApplyEvent(h.ledger[q], e), h.remote, now, c.retryDelay);
  }

  /** An approval that is asked for names its tool until the turn fails or a button is pressed. */
  lemma {:induction false} ApprovalNamed(c: Config, h: Host, q: RequestId, e: CardEvent, now: int)
    requires HostValid(h) && q in h.ledger
    ensures q in HostStep(c, h, OnEvent(q, e, now)).ledger
    ensures HostStep(c, h, OnEvent(q, e, now)).ledger[q].approvalTool ==
            if e.ActionRequired? then Some(e.tool) else if e.TurnFailed? then None else h.ledger[q].approvalTool
  {
    hide AttemptDelivery, Render;
    SyncTimes(ApplyEvent(h.ledger[q], e), h.remote, now, c.retryDelay);
  }

  /** A first send that is answered puts the card in a message of its own, whatever comes after it. */
  lemma {:induction false} SentIsShown(r: CardRecord, w: Remote)
    requires r.replyMessageId.None? && ReplyTo(w).Done?
    ensures var a := SendStep(r, w);
            && a.r.replyMessageId == Some(w.nextMessage) && a.w.nextMessage == w.nextMessage + 1
            && w.nextMessage in a.w.content && a.w.content[w.nextMessage] == r.latestCard
  {}

  // ------------------------------------------------------------------ which refusals fall back to a patch

  /** A sent card whose CardKit entity is not resolved, and the answer is no. If the error permits it, CardKit is given
      up for the card: an approval then fails for want of it, and any other card is delivered if and only if a patch of
      its message is answered. Any other error is a failure that will ask again. */
  lemma {:induction false} ResolveRefused(r: CardRecord, w: Remote, now: int, retryDelay: int)
    requires r.replyMessageId.Some? && r.cardId.None? && r.cardkitSupported != Some(false) && !w.oracle(|w.log|).Done?
    ensures var o, m := Sync(r, w, now, retryDelay), r.replyMessageId.value;
            if !w.oracle(|w.log|).patchAllowed then
              && o.w.log == w.log + [Resolve(m)] && !o.delivered && o.r.lastError == Some(OtherError)
              && o.r.cardkitSupported == r.cardkitSupported
            else if r.status == RequiresAction then
              && o.w.log == w.log + [Resolve(m)] && !o.delivered && o.r.lastError == Some(ApprovalNeedsCardKit)
              && o.r.cardkitSupported == Some(false)
            else
              && o.w.log == w.log + [Resolve(m)] + [Patch(m, r.latestCard)] && o.r.cardkitSupported == Some(false)
              && (o.delivered <==> w.oracle(|w.log| + 1).Done?)
  {}

  /** A running card whose stream is on, and an update of it that is not answered well. If the error permits it the host
      gives CardKit up for the card and patches its message; the card is delivered if and only if that is answered. */
  lemma {:induction false} UpdateRefused(r: CardRecord, w: Remote, now: int, retryDelay: int)
    requires r.replyMessageId.Some? && r.cardId.Some? && r.streamUuid.Some? && r.streamingActive
    requires r.status == Running && r.cardkitSupported != Some(false) && !w.oracle(|w.log|).Done?
    ensures var o := Sync(r, w, now, retryDelay);
            var update := StreamUpdate(r.cardId.value, r.latestCard, r.streamUuid.value, r.nextSequence);
            if w.oracle(|w.log|).patchAllowed then
              && o.w.log == w.log + [update] + [Patch(r.replyMessageId.value, r.latestCard)]
              && o.r.cardkitSupported == Some(false) && !o.r.streamingActive
              && (o.delivered <==> w.oracle(|w.log| + 1).Done?)
            else
              && o.w.log == w.log + [update] && !o.delivered && o.r.lastError == Some(OtherError)
              && o.r.cardkitSupported == r.cardkitSupported && o.r.streamingActive
  {
    hide Render;
    assert SendStep(r, w) == Attempt(r, w, None) && ResolveStep(r, w) == Attempt(r, w, None);
    assert DeliverStep(r, w) == LiveStep(r, w) == FallBackToPatch(StreamStep(r, w, UpdateStream));
  }

  /** An approval whose update is not answered well fails, whatever the error permits, with CardKit as it was. */
  lemma {:induction false} ApprovalRefused(r: CardRecord, w: Remote, now: int, retryDelay: int)
    requires r.replyMessageId.Some? && r.cardId.Some? && r.streamUuid.Some?
    requires r.status == RequiresAction && !w.oracle(|w.log|).Done?
    ensures var o := Sync(r, w, now, retryDelay);
            var update := StreamUpdate(r.cardId.value, r.latestCard, r.streamUuid.value, r.nextSequence);
            && o.w.log == w.log + [update] && !o.delivered
            && o.r.lastError == Some(if w.oracle(|w.log|).patchAllowed then PatchAllowed else OtherError)
            && o.r.cardkitSupported == r.cardkitSupported && o.r.streamingActive == r.streamingActive
  {
    hide Render;
    assert SendStep(r, w) == Attempt(r, w, None) && ResolveStep(r, w) == Attempt(r, w, None);
    assert DeliverStep(r, w) == ApprovalStep(r, w) == StreamStep(r, w, UpdateStream);
  }
}
