/** The Feishu host: a ledger of card records kept in step with the remote side by syncs and retries. */
module FeishuHost {
  import opened Wrappers
  import opened FeishuCards

  datatype Host = Host(ledger: map<RequestId, CardRecord>, remote: Remote)

  function Stored(h: Host, o: Outcome): Host {
    h.(ledger := h.ledger[o.r.requestId := o.r], remote := o.w)
  }

  function ShouldFlush(r: CardRecord, e: CardEvent, now: int, interval: int): bool {
    if r.replyMessageId.None? || r.deliveryPending then true
    else if !e.AssistantDelta? then true
    else r.dirty && now - r.lastFlushAt >= interval
  }

  predicate RetrySuspended(r: CardRecord) {
    r.status == RequiresAction && r.lastError == Some(ApprovalNeedsCardKit)
  }

  predicate RetryDue(r: CardRecord, now: int) {
    r.deliveryPending && r.nextRetryAt <= now && !RetrySuspended(r)
  }

  datatype Config = Config(retryDelay: int, flushInterval: int)

  datatype HostOp =
    | StartTurn(requestId: RequestId, prompt: string, now: int)
    | OnEvent(requestId: RequestId, event: CardEvent, now: int)
    | OnAction(requestId: RequestId, now: int)
    | OnActionError(requestId: RequestId, message: string, now: int)
    | Retry(requestId: RequestId, now: int)

  /** One operation on one card. The record comes from the ledger and goes back to it. */
  function HostStep(c: Config, h: Host, op: HostOp): Host {
    var q := op.requestId;
    if op.StartTurn? then
      if q in h.ledger then h
      else Stored(h, Sync(InitialRecord(q, op.prompt, |h.remote.log|), h.remote, op.now, c.retryDelay))
    else if q !in h.ledger then h
    else
      var r := h.ledger[q];
      match op
      case OnEvent(_, event, now) =>
        var applied := ApplyEvent(r, event);
        if ShouldFlush(applied, event, now, c.flushInterval) then Stored(h, Sync(applied, h.remote, now, c.retryDelay))
        else Stored(h, Outcome(applied, h.remote, false))
      case OnAction(_, now) => Stored(h, Sync(ActionRunning(r), h.remote, now, c.retryDelay))
      case OnActionError(_, message, now) => Stored(h, Sync(ActionFailed(r, message), h.remote, now, c.retryDelay))
      case Retry(_, now) => if RetryDue(r, now) then Stored(h, Sync(r, h.remote, now, c.retryDelay)) else h
      case StartTurn(_, _, _) => h
  }

  function HostRun(c: Config, h: Host, ops: seq<HostOp>): Host
    decreases |ops|
  {
    if ops == [] then h else HostRun(c, HostStep(c, h, ops[0]), ops[1..])
  }

  function EmptyHost(oracle: nat -> Reply): Host {
    Host(map[], Remote(oracle, map[], 0, {}, []))
  }

  /** The state of a host at rest. */
  ghost predicate HostValid(h: Host) {
    && Orderly(h.remote)
    && (forall q :: q in h.ledger ==> h.ledger[q].requestId == q && Settled(h.ledger[q], h.remote))
    && (forall p, q :: p in h.ledger && q in h.ledger && p != q && h.ledger[p].replyMessageId.Some? ==>
          h.ledger[p].replyMessageId != h.ledger[q].replyMessageId)
    && (forall i :: 0 <= i < |h.remote.log| && h.remote.log[i].OnStream() ==>
          h.remote.log[i].uuid.requestId in h.ledger)
  }

  /** A sync of another card leaves a settled card settled. */
  lemma {:induction false} ApartSettled(r: CardRecord, w: Remote, v: Remote, requestId: RequestId,
      mine: Option<MessageId>)
    requires Settled(r, w) && Apart(w, v, requestId, mine)
    requires r.requestId != requestId && (r.replyMessageId.Some? ==> r.replyMessageId != mine)
    ensures Settled(r, v)
  {
    forall i | 0 <= i < |v.log| && v.log[i].OnStream() && v.log[i].uuid.requestId == r.requestId
      ensures Some(v.log[i].uuid) == r.streamUuid && v.log[i].sequence < r.nextSequence
    {
      assert i < |w.log| && v.log[i] == w.log[i];
    }
  }

  /** `r` is the ledger's record of its request with another drawing, or the first record of a new request. */
  ghost predicate Continues(h: Host, r: CardRecord) {
    && Coherent(r, h.remote)
    && r.dirty
    && (r.requestId in h.ledger ==> h.ledger[r.requestId].replyMessageId == r.replyMessageId)
    && (r.requestId !in h.ledger ==> r.replyMessageId.None?)
  }

  lemma {:induction false} StoredValid(h: Host, r: CardRecord, o: Outcome)
    requires HostValid(h) && Continues(h, r)
    requires Settled(o.r, o.w) && Keeps(r, h.remote, Attempt(o.r.(dirty := r.dirty), o.w, None))
    ensures HostValid(Stored(h, o))
  {
    var k := Stored(h, o);
    forall q | q in k.ledger
      ensures k.ledger[q].requestId == q && Settled(k.ledger[q], k.remote)
      ensures q != r.requestId && k.ledger[q].replyMessageId.Some? ==> k.ledger[q].replyMessageId != o.r.replyMessageId
    {
      if q != r.requestId {
        assert Settled(h.ledger[q], h.remote);
        ApartSettled(h.ledger[q], h.remote, o.w, r.requestId, r.replyMessageId);
      }
    }
    forall i | 0 <= i < |k.remote.log| && k.remote.log[i].OnStream()
      ensures k.remote.log[i].uuid.requestId in k.ledger
    {
      if i < |h.remote.log| {
        assert k.remote.log[i] == h.remote.log[i];
      }
    }
  }

  lemma {:induction false} SyncValid(h: Host, r: CardRecord, now: int, retryDelay: int)
    requires HostValid(h) && Continues(h, r)
    ensures HostValid(Stored(h, Sync(r, h.remote, now, retryDelay)))
    ensures Sync(r, h.remote, now, retryDelay).w.oracle == h.remote.oracle
  {
    SyncKeeps(r, h.remote, now, retryDelay);
    StoredValid(h, r, Sync(r, h.remote, now, retryDelay));
  }

  /** The delivery fields of two records agree. */
  ghost predicate SameDelivery(r: CardRecord, s: CardRecord) {
    && r.requestId == s.requestId && r.replyMessageId == s.replyMessageId && r.cardId == s.cardId
    && r.cardkitSupported == s.cardkitSupported && r.streamUuid == s.streamUuid && r.nextSequence == s.nextSequence
    && r.streamingActive == s.streamingActive
  }

  lemma {:induction false} RedrawnContinues(h: Host, r: CardRecord)
    requires HostValid(h) && r.requestId in h.ledger && SameDelivery(h.ledger[r.requestId], r)
    requires r.latestCard == Render(r) && r.dirty
    ensures Continues(h, r) && Settled(r, h.remote)
  {
    assert Settled(h.ledger[r.requestId], h.remote);
  }

  lemma {:induction false} ApplyEventRedraws(r: CardRecord, e: CardEvent)
    ensures var s := ApplyEvent(r, e);
            SameDelivery(r, s) && s.latestCard == Render(s) && s.dirty
  {}

  lemma {:induction false} EventValid(c: Config, h: Host, q: RequestId, event: CardEvent, now: int)
    requires HostValid(h) && q in h.ledger
    ensures HostValid(HostStep(c, h, OnEvent(q, event, now))) &&
            HostStep(c, h, OnEvent(q, event, now)).remote.oracle == h.remote.oracle
  {
    var applied := ApplyEvent(h.ledger[q], event);
    ApplyEventRedraws(h.ledger[q], event);
    RedrawnContinues(h, applied);
    if ShouldFlush(applied, event, now, c.flushInterval) {
      SyncValid(h, applied, now, c.retryDelay);
    } else {
      StoredValid(h, applied, Outcome(applied, h.remote, false));
    }
  }

  lemma {:induction false} HostStepValid(c: Config, h: Host, op: HostOp)
    requires HostValid(h)
    ensures HostValid(HostStep(c, h, op)) && HostStep(c, h, op).remote.oracle == h.remote.oracle
  {
    var q := op.requestId;
    if op.StartTurn? {
      if q !in h.ledger {
        SyncValid(h, InitialRecord(q, op.prompt, |h.remote.log|), op.now, c.retryDelay);
      }
    } else if q in h.ledger {
      var r := h.ledger[q];
      match op
      case OnEvent(_, event, now) => EventValid(c, h, q, event, now);
      case OnAction(_, now) =>
        RedrawnContinues(h, ActionRunning(r));
        SyncValid(h, ActionRunning(r), now, c.retryDelay);
      case OnActionError(_, message, now) =>
        RedrawnContinues(h, ActionFailed(r, message));
        SyncValid(h, ActionFailed(r, message), now, c.retryDelay);
      case Retry(_, now) =>
        if RetryDue(r, now) {
          RedrawnContinues(h, r);
          SyncValid(h, r, now, c.retryDelay);
        }
      case StartTurn(_, _, _) =>
    }
  }

  /** Over every history of turns, runtime events, button presses and retries against any pattern of refused
      and lost calls, the host stays valid. */
  lemma {:induction false} HostRunValid(c: Config, h: Host, ops: seq<HostOp>)
    requires HostValid(h)
    ensures HostValid(HostRun(c, h, ops)) && HostRun(c, h, ops).remote.oracle == h.remote.oracle
    decreases |ops|
  {
    if ops != [] {
      HostStepValid(c, h, ops[0]);
      HostRunValid(c, HostStep(c, h, ops[0]), ops[1..]);
    }
  }

  /** A card that is not dirty is the card its reader sees. */
  lemma {:induction false} CleanCardIsShown(c: Config, oracle: nat -> Reply, ops: seq<HostOp>, q: RequestId)
    requires q in HostRun(c, EmptyHost(oracle), ops).ledger
    ensures var h := HostRun(c, EmptyHost(oracle), ops);
            var r := h.ledger[q];
            var card := Card(r.prompt, r.status, r.statusMessage, r.assistantMessage);
            && r.latestCard == card
            && (!r.dirty ==> !r.deliveryPending && r.replyMessageId.Some? && r.replyMessageId.value in h.remote.content
                             && h.remote.content[r.replyMessageId.value] == card)
  {
    HostRunValid(c, EmptyHost(oracle), ops);
  }

  /** All stream calls ever made for one request carry one uuid and strictly increasing numbers, whether they
      were answered or not, and the record's next number is above them all. */
  lemma {:induction false} SequencesIncrease(c: Config, oracle: nat -> Reply, ops: seq<HostOp>, i: nat, j: nat)
    requires var log := HostRun(c, EmptyHost(oracle), ops).remote.log;
             i < j < |log| && log[i].OnStream() && log[j].OnStream() && log[i].uuid.requestId == log[j].uuid.requestId
    ensures var h := HostRun(c, EmptyHost(oracle), ops);
            var log := h.remote.log;
            && log[i].uuid == log[j].uuid
            && log[i].sequence < log[j].sequence
            && log[j].uuid.requestId in h.ledger
            && log[j].sequence < h.ledger[log[j].uuid.requestId].nextSequence
  {
    HostRunValid(c, EmptyHost(oracle), ops);
    var h := HostRun(c, EmptyHost(oracle), ops);
    var q := h.remote.log[j].uuid.requestId;
    assert Settled(h.ledger[q], h.remote);
  }

  /** No card awaiting approval is ever put in place by a message patch. */
  lemma {:induction false} ApprovalNeverPatched(c: Config, oracle: nat -> Reply, ops: seq<HostOp>, i: nat)
    requires i < |HostRun(c, EmptyHost(oracle), ops).remote.log|
    ensures var call := HostRun(c, EmptyHost(oracle), ops).remote.log[i];
            call.Patch? ==> call.card.status != RequiresAction
  {
    HostRunValid(c, EmptyHost(oracle), ops);
  }

  /** The last switch of a card's stream that was not refused. */
  predicate LastSwitch(oracle: nat -> Reply, log: seq<Call>, t: CardId, n: nat) {
    && n < |log| && log[n].Switches(t) && !oracle(n).Refused?
    && forall k :: n < k < |log| && log[k].Switches(t) ==> oracle(k).Refused?
  }

  /** A call that makes the host take a stream for off, and that switches nothing: a fallback, or a refusal to switch
      the stream on. */
  predicate GivesUp(oracle: nat -> Reply, log: seq<Call>, t: CardId, n: nat) {
    n < |log| && (FallsBack(log[n], oracle(n), t) || (log[n].Enable? && log[n].target == t && oracle(n).Refused?))
  }

  /** The host takes a stream for off that is on: it was switched on unheard, or the host gave it up since. */
  predicate Stranded(oracle: nat -> Reply, log: seq<Call>, t: CardId) {
    exists n :: 0 <= n < |log| && LastSwitch(oracle, log, t, n) && log[n].Enable?
                && (oracle(n).Lost? || exists k :: n < k < |log| && GivesUp(oracle, log, t, k))
  }

  /** The host takes a stream for on that is off: it was switched off unheard, and not given up since. */
  predicate Unheard(oracle: nat -> Reply, log: seq<Call>, t: CardId) {
    exists n :: 0 <= n < |log| && LastSwitch(oracle, log, t, n) && log[n].Disable? && oracle(n).Lost?
                && TakenForOn(oracle, log[..n], t) && forall k :: n < k < |log| ==> !GivesUp(oracle, log, t, k)
  }

  lemma {:induction false} SwitchedBy(oracle: nat -> Reply, log: seq<Call>, t: CardId) returns (n: int)
    ensures n == -1 ==> !SwitchedOn(oracle, log, t) && forall k :: 0 <= k < |log| && log[k].Switches(t) ==>
            oracle(k).Refused?
    ensures n != -1 ==> n >= 0 && LastSwitch(oracle, log, t, n) && SwitchedOn(oracle, log, t) == log[n].Enable?
  {
    if log == [] {
      n := -1;
    } else {
      var last := |log| - 1;
      if log[last].Switches(t) && !oracle(last).Refused? {
        n := last;
      } else {
        n := SwitchedBy(oracle, log[..last], t);
      }
    }
  }

  lemma {:induction false} LastSwitchUnique(oracle: nat -> Reply, log: seq<Call>, t: CardId, m: nat, n: nat)
    requires LastSwitch(oracle, log, t, m) && LastSwitch(oracle, log, t, n)
    ensures m == n
  {}

  /** After the last switch the host changes its mind only by giving the stream up. */
  lemma {:induction false} TakenSince(oracle: nat -> Reply, log: seq<Call>, t: CardId, n: nat, m: nat)
    requires LastSwitch(oracle, log, t, n) && n < m <= |log|
    ensures TakenForOn(oracle, log[..m], t) <==>
            TakenForOn(oracle, log[..n + 1], t) && forall k :: n < k < m ==> !GivesUp(oracle, log, t, k)
    decreases m
  {
    if m > n + 1 {
      TakenSince(oracle, log, t, n, m - 1);
      assert log[..m][..m - 1] == log[..m - 1] && log[..m][m - 1] == log[m - 1];
      assert TakenForOn(oracle, log[..m], t) ==
             HostSwitch(TakenForOn(oracle, log[..m - 1], t), log[m - 1], oracle(m - 1), t);
      assert HostSwitch(true, log[m - 1], oracle(m - 1), t) == !GivesUp(oracle, log, t, m - 1);
      assert !HostSwitch(false, log[m - 1], oracle(m - 1), t);
    }
  }

  /** A switch nobody made is not taken for made. */
  lemma {:induction false} NeverTaken(oracle: nat -> Reply, log: seq<Call>, t: CardId)
    requires forall k :: 0 <= k < |log| && log[k].Switches(t) ==> oracle(k).Refused?
    ensures !TakenForOn(oracle, log, t)
  {
    if log != [] {
      NeverTaken(oracle, log[..|log| - 1], t);
    }
  }

  /** For every log, the host and the remote side agree about a stream if and only if it is neither stranded nor
      switched off unheard. */
  lemma {:induction false} AgreementIff(oracle: nat -> Reply, log: seq<Call>, t: CardId)
    ensures TakenForOn(oracle, log, t) == SwitchedOn(oracle, log, t) <==>
            !Stranded(oracle, log, t) && !Unheard(oracle, log, t)
  {
    var n := SwitchedBy(oracle, log, t);
    if n == -1 {
      NeverTaken(oracle, log, t);
    } else {
      TakenSince(oracle, log, t, n, |log|);
      assert log[..|log|] == log && log[..n + 1][..n] == log[..n];
      forall m | 0 <= m < |log| && LastSwitch(oracle, log, t, m)
        ensures m == n
      {
        LastSwitchUnique(oracle, log, t, m, n);
      }
    }
  }

  /** Delivery modes. Streaming needs a card id and is off without CardKit; a card id needs its message id. The stream
      at the remote side is what the card's last switch that was not refused made it, and the record is right about
      it exactly when it is neither stranded nor switched off unheard. */
  lemma {:induction false} StreamingConsistent(c: Config, oracle: nat -> Reply, ops: seq<HostOp>, q: RequestId)
    requires q in HostRun(c, EmptyHost(oracle), ops).ledger
    ensures var h := HostRun(c, EmptyHost(oracle), ops);
            var r := h.ledger[q];
            && (r.cardId.Some? ==> r.replyMessageId == Some(r.cardId.value.message))
            && (r.cardkitSupported == Some(false) ==> !r.streamingActive)
            && (r.streamingActive ==> r.cardId.Some?)
            && (r.replyMessageId.Some? ==>
                  var t := CardId(r.replyMessageId.value);
                  && (t in h.remote.streaming <==>
                        exists n :: 0 <= n < |h.remote.log| && LastSwitch(oracle, h.remote.log, t, n) &&
                            h.remote.log[n].Enable?)
                  && ((r.streamingActive <==> t in h.remote.streaming) <==>
                        !Stranded(oracle, h.remote.log, t) && !Unheard(oracle, h.remote.log, t)))
  {
    HostRunValid(c, EmptyHost(oracle), ops);
    var h := HostRun(c, EmptyHost(oracle), ops);
    var r := h.ledger[q];
    assert Settled(r, h.remote);
    if r.replyMessageId.Some? {
      var t := CardId(r.replyMessageId.value);
      AgreementIff(oracle, h.remote.log, t);
      var n := SwitchedBy(oracle, h.remote.log, t);
      forall m | 0 <= m < |h.remote.log| && LastSwitch(oracle, h.remote.log, t, m)
        ensures m == n
      {
        if n != -1 {
          LastSwitchUnique(oracle, h.remote.log, t, m, n);
        }
      }
    }
  }

  /** Every call is answered but the sixth, whose answer is lost. */
  function SixthLost(): nat -> Reply {
    n => if n == 5 then Lost(false) else Done
  }

  /** A delivered card whose stream is on, four calls into that oracle. */
  ghost predicate StreamingCard(r: CardRecord, w: Remote) {
    && r.replyMessageId == Some(0) && r.cardId == Some(CardId(0)) && r.cardkitSupported == Some(true)
    && r.streamUuid.Some? && r.streamingActive && |w.log| == 4 && w.oracle == SixthLost()
  }

  lemma {:induction false} FirstSyncStreams(q: RequestId, prompt: string)
    ensures var r, w := InitialRecord(q, prompt, 0), EmptyHost(SixthLost()).remote;
            var a := AttemptDelivery(r, w);
            a.error.None? && a.r.requestId == q && a.r.status == Running && StreamingCard(a.r, a.w)
  {
    hide Render;
    var r, w := InitialRecord(q, prompt, 0), EmptyHost(SixthLost()).remote;
    var sent := SendStep(r, w);
    var resolved := ResolveStep(sent.r, sent.w);
    assert resolved.error.None? && |resolved.w.log| == 2 && resolved.r.cardId == Some(CardId(0));
    var enabled := StreamStep(resolved.r, resolved.w, EnableStream);
    assert enabled.error.None? && |enabled.w.log| == 3;
  }

  lemma {:induction false} StoppedUnheard(r: CardRecord, w: Remote, now: int, retryDelay: int)
    requires StreamingCard(r, w) && r.status == Completed
    ensures var o := Sync(r, w, now, retryDelay);
            o.r.streamingActive && o.r.cardId == Some(CardId(0)) && CardId(0) !in o.w.streaming
  {
    var shown := StreamStep(r, w, UpdateStream);
    assert shown.error.None? && |shown.w.log| == 5;
    var stopped := StreamStep(shown.r, shown.w, DisableStream);
    assert AttemptDelivery(r, w) == stopped;
  }

  /** A turn that starts and completes under that oracle: its last call switches the stream off unheard. */
  lemma {:induction false} LostDisableMisleads(c: Config, q: RequestId, prompt: string)
    ensures var h := HostRun(c, EmptyHost(SixthLost()), [StartTurn(q, prompt, 0), OnEvent(q, TurnCompleted, 0)]);
            q in h.ledger && h.ledger[q].streamingActive && h.ledger[q].cardId == Some(CardId(0))
            && CardId(0) !in h.remote.streaming
  {
    hide AttemptDelivery, Render;
    var h0, start, done := EmptyHost(SixthLost()), StartTurn(q, prompt, 0), OnEvent(q, TurnCompleted, 0);
    FirstSyncStreams(q, prompt);
    assert |h0.remote.log| == 0 && q !in h0.ledger;
    var first := Sync(InitialRecord(q, prompt, 0), h0.remote, 0, c.retryDelay);
    var h1 := HostStep(c, h0, start);
    assert h1 == Stored(h0, first) && first.r.requestId == q;
    assert q in h1.ledger && StreamingCard(h1.ledger[q], h1.remote) && h1.ledger[q].status == Running;
    StoppedUnheard(ApplyEvent(h1.ledger[q], TurnCompleted), h1.remote, 0, c.retryDelay);
    assert [start, done][1..] == [done] && [done][1..] == [];
    assert HostRun(c, h0, [start, done]) == HostRun(c, h1, [done]) == HostRun(c, HostStep(c, h1, done), []);
  }

  /** Every call is done but the fourth, which is refused so that the host may fall back. */
  function FourthRefused(): nat -> Reply {
    n => if n == 3 then Refused(true) else Done
  }

  /** A card the host patches since it gave up CardKit for it, with its stream left on. */
  ghost predicate StrandedCard(r: CardRecord, w: Remote) {
    && r.replyMessageId == Some(0) && r.cardId == Some(CardId(0)) && r.cardkitSupported == Some(false)
    && !r.streamingActive && CardId(0) in w.streaming && |w.log| == 5 && w.oracle == FourthRefused()
  }

  lemma {:induction false} FirstSyncFallsBack(q: RequestId, prompt: string)
    ensures var r, w := InitialRecord(q, prompt, 0), EmptyHost(FourthRefused()).remote;
            var a := AttemptDelivery(r, w);
            a.error.None? && a.r.requestId == q && a.r.status == Running && StrandedCard(a.r, a.w)
  {
    hide Render;
    var r, w := InitialRecord(q, prompt, 0), EmptyHost(FourthRefused()).remote;
    var sent := SendStep(r, w);
    var resolved := ResolveStep(sent.r, sent.w);
    assert resolved.error.None? && |resolved.w.log| == 2 && resolved.r.cardId == Some(CardId(0));
    var enabled := StreamStep(resolved.r, resolved.w, EnableStream);
    assert enabled.error.None? && |enabled.w.log| == 3 && CardId(0) in enabled.w.streaming;
    var refused := StreamStep(enabled.r, enabled.w, UpdateStream);
    assert refused.error == Some(PatchAllowed) && |refused.w.log| == 4 && CardId(0) in refused.w.streaming;
  }

  /** A turn that starts and completes under that oracle: its card is delivered, stable and not taken for streaming,
      and its stream is on. */
  lemma {:induction false} FallbackStrandsStream(c: Config, q: RequestId, prompt: string)
    ensures var h := HostRun(c, EmptyHost(FourthRefused()), [StartTurn(q, prompt, 0), OnEvent(q, TurnCompleted, 0)]);
            q in h.ledger && !h.ledger[q].dirty && !h.ledger[q].deliveryPending && h.ledger[q].status == Completed
            && h.ledger[q].cardId == Some(CardId(0)) && !h.ledger[q].streamingActive && CardId(0) in h.remote.streaming
  {
    hide AttemptDelivery, Render;
    var h0, start, done := EmptyHost(FourthRefused()), StartTurn(q, prompt, 0), OnEvent(q, TurnCompleted, 0);
    FirstSyncFallsBack(q, prompt);
    assert |h0.remote.log| == 0 && q !in h0.ledger;
    var first := Sync(InitialRecord(q, prompt, 0), h0.remote, 0, c.retryDelay);
    var h1 := HostStep(c, h0, start);
    assert h1 == Stored(h0, first) && first.r.requestId == q;
    assert q in h1.ledger && StrandedCard(h1.ledger[q], h1.remote) && h1.ledger[q].status == Running;
    PatchedWhileOn(ApplyEvent(h1.ledger[q], TurnCompleted), h1.remote, 0, c.retryDelay);
    assert [start, done][1..] == [done] && [done][1..] == [];
    assert HostRun(c, h0, [start, done]) == HostRun(c, h1, [done]) == HostRun(c, HostStep(c, h1, done), []);
  }

  lemma {:induction false} PatchedWhileOn(r: CardRecord, w: Remote, now: int, retryDelay: int)
    requires StrandedCard(r, w) && r.status == Completed
    ensures var o := Sync(r, w, now, retryDelay);
            o.delivered && !o.r.dirty && !o.r.deliveryPending && o.r.cardId == Some(CardId(0)) &&
                o.r.status == Completed
            && !o.r.streamingActive && CardId(0) in o.w.streaming && o.r.requestId == r.requestId
  {
    assert AttemptDelivery(r, w) == PatchStep(r, w);
  }

  // ------------------------------------------------------------------ the record, client and host objects

  class FeishuReplyCardRecord {
    const requestId: RequestId
    const prompt: string
    var replyMessageId: Option<MessageId>
    var cardId: Option<CardId>
    var cardkitSupported: Option<bool>
    var streamUuid: Option<StreamUuid>
    var nextSequence: nat
    var streamingActive: bool
    var status: Status
    var assistantMessage: Option<string>
    var statusMessage: Option<string>
    var approvalTool: Option<string>
    var latestCard: Card
    var deliveryPending: bool
    var retryCount: nat
    var nextRetryAt: int
    var lastError: Option<DeliveryError>
    var dirty: bool
    var lastFlushAt: int

    function State(): CardRecord
      reads this
    {
      CardRecord(requestId, prompt, replyMessageId, cardId, cardkitSupported, streamUuid, nextSequence, streamingActive,
                 status, assistantMessage, statusMessage, approvalTool, latestCard, deliveryPending, retryCount,
                 nextRetryAt, lastError, dirty, lastFlushAt)
    }

    constructor FromState(r: CardRecord)
      ensures State() == r
    {
      requestId, prompt := r.requestId, r.prompt;
      replyMessageId, cardId, cardkitSupported := r.replyMessageId, r.cardId, r.cardkitSupported;
      streamUuid, nextSequence, streamingActive := r.streamUuid, r.nextSequence, r.streamingActive;
      status, assistantMessage, statusMessage := r.status, r.assistantMessage, r.statusMessage;
      approvalTool, latestCard := r.approvalTool, r.latestCard;
      deliveryPending, retryCount, nextRetryAt := r.deliveryPending, r.retryCount, r.nextRetryAt;
      lastError, dirty, lastFlushAt := r.lastError, r.dirty, r.lastFlushAt;
    }

    method MarkDeliverySuccess(newReply: Option<MessageId>, newCard: Option<CardId>)
      modifies this
      ensures var r := old(State());
              State() == MarkSuccess(r.(replyMessageId := if newReply.Some? then newReply else r.replyMessageId,
                                        cardId := if newCard.Some? then newCard else r.cardId))
    {
      if newReply.Some? {
        replyMessageId := newReply;
      }
      if newCard.Some? {
        cardId := newCard;
      }
      deliveryPending, lastError, nextRetryAt := false, None, 0;
    }

    method MarkDeliveryFailure(error: DeliveryError, retryAt: int)
      modifies this
      ensures State() == MarkFailure(old(State()), error, retryAt)
    {
      deliveryPending := true;
      retryCount := retryCount + 1;
      lastError := Some(error);
      nextRetryAt := retryAt;
    }

    method EnsureStreamUuid(nonce: nat) returns (uuid: StreamUuid)
      modifies this`streamUuid
      ensures State() == EnsureUuid(old(State()), nonce) && Some(uuid) == streamUuid
    {
      if streamUuid.None? {
        streamUuid := Some(StreamUuid(requestId, nonce));
      }
      uuid := streamUuid.value;
    }

    method NextStreamSequence() returns (n: nat)
      modifies this`nextSequence
      ensures n == old(nextSequence) && State() == old(State()).(nextSequence := n + 1)
    {
      n := nextSequence;
      nextSequence := nextSequence + 1;
    }

    method Redraw()
      modifies this`latestCard, this`dirty
      ensures State() == Redrawn(old(State()))
    {
      latestCard := Render(State());
      dirty := true;
    }

    method FoldTool(e: CardEvent)
      requires e.ToolStarted? || e.ToolProgress? || e.ToolResult? || e.ToolFailed? || e.ToolCancelled?
      modifies this
      ensures State() == Folded(old(State()), e)
    {
      match e {
        case ToolStarted(tool) => status, statusMessage := Running, Some("Running tool: " + tool);
        case ToolProgress(tool) => status, statusMessage := Running, Some("Tool " + tool + " is working...");
        case ToolResult(tool) => statusMessage := Some("Tool " + tool + " completed.");
        case ToolFailed(tool, reason) => statusMessage := Some("Tool " + tool + " failed: " + reason);
        case ToolCancelled(tool) => status, statusMessage := Interrupted, Some("Tool " + tool + " was cancelled.");
      }
    }

    method FoldMessage(e: CardEvent)
      requires e.AssistantDelta? || e.AssistantMessage?
      modifies this
      ensures State() == Folded(old(State()), e)
    {
      match e {
        case AssistantDelta(delta) =>
          if delta != "" {
            assistantMessage := Some((if assistantMessage.Some? then assistantMessage.value else "") + delta);
            status := Running;
          }
        case AssistantMessage(message) =>
          if message != "" {
            assistantMessage := Some(message);
          }
      }
    }

    method FoldTurn(e: CardEvent)
      requires e.ActionRequired? || e.TurnFailed? || e.TurnCompleted?
      modifies this
      ensures State() == Folded(old(State()), e)
    {
      match e {
        case ActionRequired(tool) =>
          status, approvalTool := RequiresAction, Some(tool);
          statusMessage := Some("Approval required for " + tool + ".");
        case TurnFailed(summary) =>
          status, approvalTool := Failed, None;
          statusMessage := Some("Turn failed: " + summary);
        case TurnCompleted =>
          if status !in {RequiresAction, Failed, Interrupted} {
            status := Completed;
          }
          if statusMessage in {None, Some(PROCESSING)} {
            statusMessage := Some("Completed.");
          }
      }
    }

    method Apply(e: CardEvent)
      modifies this
      ensures State() == ApplyEvent(old(State()), e)
    {
      if e.ToolStarted? || e.ToolProgress? || e.ToolResult? || e.ToolFailed? || e.ToolCancelled? {
        FoldTool(e);
      } else if e.AssistantDelta? || e.AssistantMessage? {
        FoldMessage(e);
      } else if !e.TurnStarted? {
        FoldTurn(e);
      }
      Redraw();
    }

    method MarkActionRunning()
      modifies this
      ensures State() == ActionRunning(old(State()))
    {
      status, approvalTool, statusMessage := Running, None, Some("Applying your decision...");
      Redraw();
    }
  }

  class FeishuClient {
    const oracle: nat -> Reply
    var content: map<MessageId, Card>
    var nextMessage: MessageId
    var streaming: set<CardId>
    var log: seq<Call>

    function State(): Remote
      reads this
    {
      Remote(oracle, content, nextMessage, streaming, log)
    }

    constructor (oracle: nat -> Reply)
      ensures State() == EmptyHost(oracle).remote
    {
      this.oracle := oracle;
      content, nextMessage, streaming, log := map[], 0, {}, [];
    }

    /** Any of the remote calls; an error stands for the exception the host sees. */
    method Request(c: Call) returns (error: Option<DeliveryError>)
      modifies this
      ensures State() == Invoke(old(State()), c) && error == ErrorOf(ReplyTo(old(State())))
    {
      var reply := oracle(|log|);
      log := log + [c];
      if !reply.Refused? {
        match c
        case Send(card) =>
          content := content[nextMessage := card];
          nextMessage := nextMessage + 1;
        case Resolve(_) =>
        case Patch(m, card) => content := content[m := card];
        case Enable(t, _, _) => streaming := streaming + {t};
        case StreamUpdate(t, card, _, _) => content := content[t.message := card];
        case Disable(t, _, _) => streaming := streaming - {t};
      }
      error := ErrorOf(reply);
    }
  }

  class FeishuLongConnectionHost {
    const config: Config
    const client: FeishuClient
    var ledger: map<RequestId, CardRecord>

    function State(): Host
      reads this, client
    {
      Host(ledger, client.State())
    }

    /** The ledger files every record under its own request. */
    ghost predicate Keyed()
      reads this
    {
      forall q :: q in ledger ==> ledger[q].requestId == q
    }

    constructor (config: Config, client: FeishuClient)
      ensures this.config == config && this.client == client && ledger == map[] && Keyed()
    {
      this.config, this.client, ledger := config, client, map[];
    }

    method StreamRequest(record: FeishuReplyCardRecord, kind: StreamCall) returns (error: Option<DeliveryError>)
      requires record.cardId.Some?
      modifies record, client
      ensures Attempt(record.State(), client.State(), error) ==
              StreamStep(old(record.State()), old(client.State()), kind)
    {
      hide Invoke, ErrorOf;
      var uuid := record.EnsureStreamUuid(|client.log|);
      var n := record.NextStreamSequence();
      var target := record.cardId.value;
      match kind
      case EnableStream =>
        error := client.Request(Enable(target, uuid, n));
        if error.None? {
          record.streamingActive := true;
        }
      case UpdateStream =>
        error := client.Request(StreamUpdate(target, record.latestCard, uuid, n));
      case DisableStream =>
        error := client.Request(Disable(target, uuid, n));
        if error.None? {
          record.streamingActive := false;
        }
    }

    method PatchCard(record: FeishuReplyCardRecord) returns (error: Option<DeliveryError>)
      modifies client
      ensures Attempt(record.State(), client.State(), error) == PatchStep(old(record.State()), old(client.State()))
    {
      if record.replyMessageId.None? {
        return Some(MissingMessageId);
      }
      error := client.Request(Patch(record.replyMessageId.value, record.latestCard));
    }

    method SyncApprovalCard(record: FeishuReplyCardRecord) returns (error: Option<DeliveryError>)
      requires record.cardId.Some?
      modifies record, client
      ensures Attempt(record.State(), client.State(), error) == ApprovalStep(old(record.State()), old(client.State()))
    {
      error := StreamRequest(record, UpdateStream);
      if error.Some? {
        return;
      }
      record.cardkitSupported := Some(true);
      if record.streamingActive {
        error := StreamRequest(record, DisableStream);
      }
    }

    method ResolveCard(record: FeishuReplyCardRecord) returns (error: Option<DeliveryError>)
      modifies record, client
      ensures Attempt(record.State(), client.State(), error) == ResolveStep(old(record.State()), old(client.State()))
    {
      error := None;
      if record.cardkitSupported != Some(false) && record.cardId.None? && record.replyMessageId.Some? {
        var m := record.replyMessageId.value;
        error := client.Request(Resolve(m));
        if error.None? {
          record.cardkitSupported := Some(true);
          record.MarkDeliverySuccess(None, Some(CardId(m)));
        } else if error == Some(PatchAllowed) {
          record.cardkitSupported := Some(false);
          record.cardId := None;
          record.streamingActive := false;
          error := if record.status == RequiresAction then Some(ApprovalNeedsCardKit) else None;
        }
      }
    }

    /** The end of the live path when a stream call failed. */
    method FallBack(record: FeishuReplyCardRecord, failed: Option<DeliveryError>) returns (error: Option<DeliveryError>)
      modifies record, client
      ensures Attempt(record.State(), client.State(), error) ==
              FallBackToPatch(Attempt(old(record.State()), old(client.State()), failed))
    {
      hide PatchStep;
      error := failed;
      if error == Some(PatchAllowed) {
        record.cardkitSupported := Some(false);
        record.streamingActive := false;
        if record.status == RequiresAction {
          error := Some(ApprovalNeedsCardKit);
        } else {
          error := PatchCard(record);
        }
      }
    }

    method StreamLiveCard(record: FeishuReplyCardRecord) returns (error: Option<DeliveryError>)
      requires record.cardId.Some?
      modifies record, client
      ensures Attempt(record.State(), client.State(), error) == LiveStep(old(record.State()), old(client.State()))
    {
      hide FallBackToPatch, Invoke;
      error := None;
      if !record.streamingActive {
        error := StreamRequest(record, EnableStream);
      }
      if error.None? {
        error := StreamRequest(record, UpdateStream);
      }
      error := FallBack(record, error);
    }

    /** The body of the guarded delivery; `error` is the exception that ends it early. */
    method TryDeliver(record: FeishuReplyCardRecord) returns (error: Option<DeliveryError>)
      modifies record, client
      ensures Attempt(record.State(), client.State(), error) ==
              AttemptDelivery(old(record.State()), old(client.State()))
    {
      error := None;
      if record.replyMessageId.None? {
        var m := client.nextMessage;
        error := client.Request(Send(record.latestCard));
        if error.Some? {
          return;
        }
        record.MarkDeliverySuccess(Some(m), None);
      }
      error := ResolveCard(record);
      if error.Some? {
        return;
      }
      if record.status == RequiresAction && record.cardId.Some? {
        error := SyncApprovalCard(record);
      } else if record.cardkitSupported == Some(false) {
        if record.status == RequiresAction {
          return Some(ApprovalNeedsCardKit);
        }
        error := PatchCard(record);
      } else if record.cardId.None? {
        error := Some(MissingCardId);
      } else if !IsStable(record.State()) {
        error := StreamLiveCard(record);
      } else if record.streamingActive {
        error := StreamRequest(record, UpdateStream);
        if error.None? && record.streamingActive {
          error := StreamRequest(record, DisableStream);
        }
      } else if record.replyMessageId.Some? {
        error := PatchCard(record);
      }
    }

    method SyncCardDelivery(record: FeishuReplyCardRecord, now: int) returns (delivered: bool)
      modifies record, client
      ensures Outcome(record.State(), client.State(), delivered) ==
              Sync(old(record.State()), old(client.State()), now, config.retryDelay)
      ensures delivered <==> !record.deliveryPending && !record.dirty
    {
      var error := TryDeliver(record);
      if error.None? {
        record.MarkDeliverySuccess(None, None);
        record.dirty := false;
        record.lastFlushAt := now;
        delivered := true;
      } else {
        record.MarkDeliveryFailure(error.value, now + config.retryDelay);
        delivered := false;
      }
    }

    method Upsert(record: FeishuReplyCardRecord)
      modifies this
      ensures ledger == old(ledger)[record.requestId := record.State()]
      ensures old(Keyed()) ==> Keyed()
    {
      ledger := ledger[record.requestId := record.State()];
    }

    method EnsureTurnCard(q: RequestId, prompt: string, now: int) returns (record: FeishuReplyCardRecord)
      modifies this, client
      ensures State() == HostStep(config, old(State()), StartTurn(q, prompt, now))
      ensures fresh(record) && q in ledger && record.State() == ledger[q]
    {
      if q in ledger {
        record := new FeishuReplyCardRecord.FromState(ledger[q]);
        return;
      }
      record := new FeishuReplyCardRecord.FromState(InitialRecord(q, prompt, |client.log|));
      var _ := SyncCardDelivery(record, now);
      Upsert(record);
    }

    /** Fold the runtime events of a turn into its card, syncing and persisting after each. */
    method DispatchEgress(record: FeishuReplyCardRecord, events: seq<CardEvent>, clock: seq<int>)
      requires |clock| == |events|
      requires record.requestId in ledger && record.State() == ledger[record.requestId]
      modifies this, client, record
      ensures State() == HostRun(config, old(State()), EventOps(record.requestId, events, clock))
      ensures record.requestId in ledger && record.State() == ledger[record.requestId]
    {
      var i := 0;
      while i < |events|
        invariant 0 <= i <= |events|
        invariant record.requestId in ledger && record.State() == ledger[record.requestId]
        invariant HostRun(config, State(), EventOps(record.requestId, events[i..], clock[i..])) ==
                  HostRun(config, old(State()), EventOps(record.requestId, events, clock))
      {
        ghost var h := State();
        record.Apply(events[i]);
        if ShouldFlush(record.State(), events[i], clock[i], config.flushInterval) {
          var _ := SyncCardDelivery(record, clock[i]);
        }
        Upsert(record);
        assert State() == HostStep(config, h, OnEvent(record.requestId, events[i], clock[i]));
        EventOpsStep(record.requestId, events[i..], clock[i..]);
        assert events[i..][1..] == events[i + 1..] && clock[i..][1..] == clock[i + 1..];
        i := i + 1;
      }
    }

    method FindByReply(m: MessageId) returns (found: Option<RequestId>)
      ensures found.Some? ==> found.value in ledger && ledger[found.value].replyMessageId == Some(m)
      ensures found.None? ==> forall q :: q in ledger ==> ledger[q].replyMessageId != Some(m)
    {
      var todo := ledger.Keys;
      while todo != {}
        invariant todo <= ledger.Keys
        invariant forall q :: q in ledger && ledger[q].replyMessageId == Some(m) ==> q in todo
        decreases todo
      {
        var q :| q in todo;
        if ledger[q].replyMessageId == Some(m) {
          return Some(q);
        }
        todo := todo - {q};
      }
      return None;
    }

    /** A button pressed on the card behind message `m`. In a valid host that card is the only one there. */
    method HandleCardAction(m: MessageId, now: int) returns (record: FeishuReplyCardRecord?)
      requires Keyed()
      modifies this, client
      ensures Keyed()
      ensures record == null ==>
                State() == old(State()) && forall q :: q in old(ledger) ==> old(ledger)[q].replyMessageId != Some(m)
      ensures record != null ==>
                && fresh(record)
                && record.requestId in old(ledger) && old(ledger)[record.requestId].replyMessageId == Some(m)
                && State() == HostStep(config, old(State()), OnAction(record.requestId, now))
                && record.requestId in ledger && ledger[record.requestId] == record.State()
    {
      var found := FindByReply(m);
      if found.None? {
        return null;
      }
      record := new FeishuReplyCardRecord.FromState(ledger[found.value]);
      record.MarkActionRunning();
      var _ := SyncCardDelivery(record, now);
      Upsert(record);
    }

    method RetryCard(q: RequestId, now: int)
      requires Keyed() && q in ledger && ledger[q].deliveryPending && ledger[q].nextRetryAt <= now
      modifies this, client
      ensures State() == HostStep(config, old(State()), Retry(q, now))
      ensures Keyed() && ledger == old(ledger)[q := ledger[q]]
    {
      var record := new FeishuReplyCardRecord.FromState(ledger[q]);
      if RetrySuspended(record.State()) {
        return;
      }
      var _ := SyncCardDelivery(record, now);
      Upsert(record);
    }

    /** Retry each pending card whose time has come once, among all cards or those of one conversation (`asked`);
        `order` is the order the ledger lists them in. */
    method RetryPendingCards(now: int, asked: RequestId -> bool) returns (ghost order: seq<HostOp>)
      requires Keyed()
      modifies this, client
      ensures Keyed() && State() == HostRun(config, old(State()), order)
      ensures forall op :: op in order <==> op.Retry? && op.now == now && op.requestId in old(ledger)
                                            && asked(op.requestId)
                                            && old(ledger)[op.requestId].deliveryPending
                                            && old(ledger)[op.requestId].nextRetryAt <= now
      ensures forall i, j :: 0 <= i < j < |order| ==> order[i] != order[j]
    {
      order := [];
      var todo := set q | q in ledger && asked(q) && ledger[q].deliveryPending && ledger[q].nextRetryAt <= now;
      ghost var all := todo;
      while todo != {}
        invariant todo <= all
        invariant Keyed()
        invariant forall q :: q in todo ==> q in ledger && ledger[q] == old(ledger)[q]
        invariant forall op :: op in order <==> op.Retry? && op.now == now && op.requestId in all - todo
        invariant forall i, j :: 0 <= i < j < |order| ==> order[i] != order[j]
        invariant State() == HostRun(config, old(State()), order)
        decreases todo
      {
        var q :| q in todo;
        HostRunAppend(config, old(State()), order, Retry(q, now));
        RetryCard(q, now);
        assert Retry(q, now) !in order;
        order := order + [Retry(q, now)];
        todo := todo - {q};
      }
    }
  }

  /** The operations of folding events into a card, each at its own time. */
  function EventOps(q: RequestId, events: seq<CardEvent>, clock: seq<int>): seq<HostOp>
    requires |clock| == |events|
  {
    seq(|events|, i requires 0 <= i < |events| => OnEvent(q, events[i], clock[i]))
  }

  lemma {:induction false} EventOpsStep(q: RequestId, events: seq<CardEvent>, clock: seq<int>)
    requires |clock| == |events| && events != []
    ensures EventOps(q, events, clock) == [OnEvent(q, events[0], clock[0])] + EventOps(q, events[1..], clock[1..])
  {}

  lemma {:induction false} HostRunAppend(c: Config, h: Host, ops: seq<HostOp>, op: HostOp)
    ensures HostRun(c, h, ops + [op]) == HostStep(c, HostRun(c, h, ops), op)
    decreases |ops|
  {
    if ops != [] {
      assert (ops + [op])[1..] == ops[1..] + [op];
      HostRunAppend(c, HostStep(c, h, ops[0]), ops[1..], op);
    }
  }
}
