/** Delivery of Feishu reply cards: records, the remote side, and one delivery attempt as a value function.

    Any remote call may be refused, or be carried out and its answer lost. Errors are split as the host splits
    them: those that allow falling back to a message patch, and the rest. */
module FeishuCards {
  import opened Wrappers

  type RequestId = string
  type MessageId = nat

  /** The CardKit entity behind a message. */
  datatype CardId = CardId(message: MessageId)

  datatype StreamUuid = StreamUuid(requestId: RequestId, nonce: nat)

  datatype Status = Running | RequiresAction | Completed | Failed | Interrupted

  /** What a rendered card shows. */
  datatype Card = Card(prompt: string, status: Status, statusMessage: Option<string>, reply: Option<string>)

  datatype DeliveryError = PatchAllowed | OtherError | ApprovalNeedsCardKit | MissingMessageId | MissingCardId

  datatype CardRecord = CardRecord(
    requestId: RequestId,
    prompt: string,
    replyMessageId: Option<MessageId>,
    cardId: Option<CardId>,
    cardkitSupported: Option<bool>,
    streamUuid: Option<StreamUuid>,
    nextSequence: nat,
    streamingActive: bool,
    status: Status,
    assistantMessage: Option<string>,
    statusMessage: Option<string>,
    approvalTool: Option<string>,
    latestCard: Card,
    deliveryPending: bool,
    retryCount: nat,
    nextRetryAt: int,
    lastError: Option<DeliveryError>,
    dirty: bool,
    lastFlushAt: int)

  function Render(r: CardRecord): Card {
    Card(r.prompt, r.status, r.statusMessage, r.assistantMessage)
  }

  predicate IsStable(r: CardRecord) {
    r.status != Running
  }

  function MarkSuccess(r: CardRecord): CardRecord {
    r.(deliveryPending := false, lastError := None, nextRetryAt := 0)
  }

  function MarkFailure(r: CardRecord, error: DeliveryError, retryAt: int): CardRecord {
    r.(deliveryPending := true, retryCount := r.retryCount + 1, lastError := Some(error), nextRetryAt := retryAt)
  }

  /** The uuid is drawn once per record; `nonce` stands for the random part. */
  function EnsureUuid(r: CardRecord, nonce: nat): CardRecord {
    if r.streamUuid.None? then r.(streamUuid := Some(StreamUuid(r.requestId, nonce))) else r
  }

  function InitialRecord(requestId: RequestId, prompt: string, nonce: nat): CardRecord {
    var r := CardRecord(requestId, prompt, None, None, None, Some(StreamUuid(requestId, nonce)), 1, false, Running,
                        None, Some(PROCESSING), None, Card("", Running, None, None), false, 0, 0, None, true, 0);
    r.(latestCard := Render(r))
  }

  /** Runtime events that reach a card. Message texts come stripped of surrounding blanks. */
  datatype CardEvent =
    | TurnStarted
    | AssistantDelta(delta: string)
    | AssistantMessage(message: string)
    | ActionRequired(tool: string)
    | ToolStarted(tool: string)
    | ToolProgress(tool: string)
    | ToolResult(tool: string)
    | ToolFailed(tool: string, reason: string)
    | ToolCancelled(tool: string)
    | TurnFailed(summary: string)
    | TurnCompleted

  function Redrawn(r: CardRecord): CardRecord {
    r.(latestCard := Render(r), dirty := true)
  }

  /** The fold of an event into the record, before it is drawn again. */
  function Folded(r: CardRecord, e: CardEvent): CardRecord {
    match e
    case TurnStarted => r
    case AssistantDelta(delta) =>
      if delta == "" then r
      else
        var soFar := if r.assistantMessage.Some? then r.assistantMessage.value else "";
        r.(assistantMessage := Some(soFar + delta), status := Running)
    case AssistantMessage(message) => if message == "" then r else r.(assistantMessage := Some(message))
    case ActionRequired(tool) =>
      r.(status := RequiresAction, approvalTool := Some(tool),
         statusMessage := Some("Approval required for " + tool + "."))
    case ToolStarted(tool) => r.(status := Running, statusMessage := Some("Running tool: " + tool))
    case ToolProgress(tool) => r.(status := Running, statusMessage := Some("Tool " + tool + " is working..."))
    case ToolResult(tool) => r.(statusMessage := Some("Tool " + tool + " completed."))
    case ToolFailed(tool, reason) => r.(statusMessage := Some("Tool " + tool + " failed: " + reason))
    case ToolCancelled(tool) => r.(status := Interrupted, statusMessage := Some("Tool " + tool + " was cancelled."))
    case TurnFailed(summary) =>
      r.(status := Failed, approvalTool := None, statusMessage := Some("Turn failed: " + summary))
    case TurnCompleted =>
      var status := if r.status in {RequiresAction, Failed, Interrupted} then r.status else Completed;
      var message := if r.statusMessage in {None, Some(PROCESSING)} then Some("Completed.") else r.statusMessage;
      r.(status := status, statusMessage := message)
  }

  function ApplyEvent(r: CardRecord, e: CardEvent): CardRecord {
    Redrawn(Folded(r, e))
  }

  function ActionRunning(r: CardRecord): CardRecord {
    Redrawn(r.(status := Running, approvalTool := None, statusMessage := Some("Applying your decision...")))
  }

  function ActionFailed(r: CardRecord, message: string): CardRecord {
    Redrawn(r.(status := Failed, statusMessage := Some(message)))
  }

  const PROCESSING := "Processing your request..."

  // ------------------------------------------------------------------ the remote side

  /** `patchAllowed` says whether the error text permits the message-patch fallback. */
  datatype Reply = Done | Refused(patchAllowed: bool) | Lost(patchAllowed: bool)

  datatype Call =
    | Send(card: Card)
    | Resolve(message: MessageId)
    | Patch(message: MessageId, card: Card)
    | Enable(target: CardId, uuid: StreamUuid, sequence: nat)
    | StreamUpdate(target: CardId, card: Card, uuid: StreamUuid, sequence: nat)
    | Disable(target: CardId, uuid: StreamUuid, sequence: nat)
  {
    predicate OnStream() {
      Enable? || StreamUpdate? || Disable?
    }

    /** A call that switches the stream of a card. */
    predicate Switches(t: CardId) {
      (Enable? || Disable?) && target == t
    }
  }

  /** `oracle(n)` answers the n-th call ever made; `streaming` are the cards whose stream is on. */
  datatype Remote = Remote(
    oracle: nat -> Reply,
    content: map<MessageId, Card>,
    nextMessage: MessageId,
    streaming: set<CardId>,
    log: seq<Call>)

  function ReplyTo(w: Remote): Reply {
    w.oracle(|w.log|)
  }

  function CarryOut(w: Remote, c: Call): Remote {
    match c
    case Send(card) => w.(content := w.content[w.nextMessage := card], nextMessage := w.nextMessage + 1)
    case Resolve(_) => w
    case Patch(m, card) => w.(content := w.content[m := card])
    case Enable(t, _, _) => w.(streaming := w.streaming + {t})
    case StreamUpdate(t, card, _, _) => w.(content := w.content[t.message := card])
    case Disable(t, _, _) => w.(streaming := w.streaming - {t})
  }

  function Invoke(w: Remote, c: Call): Remote {
    var done := if ReplyTo(w).Refused? then w else CarryOut(w, c);
    done.(log := w.log + [c])
  }

  /** The stream of a card at the remote side after one more call. */
  function RemoteSwitch(on: bool, c: Call, reply: Reply, t: CardId): bool {
    if c.Switches(t) && !reply.Refused? then c.Enable? else on
  }

  /** An update of a running card that fails so that the host falls back to message patches. */
  predicate FallsBack(c: Call, reply: Reply, t: CardId) {
    c.StreamUpdate? && c.target == t && c.card.status == Running && !reply.Done? && reply.patchAllowed
  }

  /** What the host takes the stream of a card for after one more call. */
  function HostSwitch(on: bool, c: Call, reply: Reply, t: CardId): bool {
    if c.Enable? && c.target == t then reply.Done?
    else on && !(c.Disable? && c.target == t && reply.Done?) && !FallsBack(c, reply, t)
  }

  function SwitchedOn(oracle: nat -> Reply, log: seq<Call>, t: CardId): bool {
    if log == [] then false
    else
      var n := |log| - 1;
      RemoteSwitch(SwitchedOn(oracle, log[..n], t), log[n], oracle(n), t)
  }

  function TakenForOn(oracle: nat -> Reply, log: seq<Call>, t: CardId): bool {
    if log == [] then false
    else
      var n := |log| - 1;
      HostSwitch(TakenForOn(oracle, log[..n], t), log[n], oracle(n), t)
  }

  lemma {:induction false} OneMoreCall(w: Remote, c: Call, t: CardId)
    ensures SwitchedOn(w.oracle, w.log + [c], t) == RemoteSwitch(SwitchedOn(w.oracle, w.log, t), c, ReplyTo(w), t)
    ensures TakenForOn(w.oracle, w.log + [c], t) == HostSwitch(TakenForOn(w.oracle, w.log, t), c, ReplyTo(w), t)
  {
    assert (w.log + [c])[..|w.log|] == w.log;
  }

  function ErrorOf(reply: Reply): Option<DeliveryError> {
    if reply.Done? then None else Some(if reply.patchAllowed then PatchAllowed else OtherError)
  }

  // ------------------------------------------------------------------ one delivery attempt

  /** Where the record, the remote side and a possible exception stand inside an attempt. */
  datatype Attempt = Attempt(r: CardRecord, w: Remote, error: Option<DeliveryError>)

  function SendStep(r: CardRecord, w: Remote): Attempt {
    if r.replyMessageId.Some? then Attempt(r, w, None)
    else
      var w1 := Invoke(w, Send(r.latestCard));
      if ReplyTo(w).Done? then Attempt(MarkSuccess(r.(replyMessageId := Some(w.nextMessage))), w1, None)
      else Attempt(r, w1, ErrorOf(ReplyTo(w)))
  }

  function WithoutCardKit(r: CardRecord): CardRecord {
    r.(cardkitSupported := Some(false), streamingActive := false)
  }

  function ResolveStep(r: CardRecord, w: Remote): Attempt {
    if r.cardkitSupported == Some(false) || r.cardId.Some? || r.replyMessageId.None? then Attempt(r, w, None)
    else
      var m := r.replyMessageId.value;
      var w1 := Invoke(w, Resolve(m));
      var error := ErrorOf(ReplyTo(w));
      if error.None? then
        Attempt(MarkSuccess(r.(cardkitSupported := Some(true), cardId := Some(CardId(m)))), w1, None)
      else if error != Some(PatchAllowed) then Attempt(r, w1, error)
      else
        Attempt(WithoutCardKit(r.(cardId := None)), w1,
                if r.status == RequiresAction then Some(ApprovalNeedsCardKit) else None)
  }

  function PatchStep(r: CardRecord, w: Remote): Attempt {
    if r.replyMessageId.None? then Attempt(r, w, Some(MissingMessageId))
    else Attempt(r, Invoke(w, Patch(r.replyMessageId.value, r.latestCard)), ErrorOf(ReplyTo(w)))
  }

  datatype StreamCall = EnableStream | UpdateStream | DisableStream

  /** The call a stream step makes. */
  function StreamCallOf(r: CardRecord, kind: StreamCall): Call
    requires r.cardId.Some? && r.streamUuid.Some?
  {
    match kind
    case EnableStream => Enable(r.cardId.value, r.streamUuid.value, r.nextSequence)
    case UpdateStream => StreamUpdate(r.cardId.value, r.latestCard, r.streamUuid.value, r.nextSequence)
    case DisableStream => Disable(r.cardId.value, r.streamUuid.value, r.nextSequence)
  }

  /** A stream call draws the record's uuid and burns one sequence number, whatever the answer. */
  function StreamStep(r: CardRecord, w: Remote, kind: StreamCall): Attempt
    requires r.cardId.Some?
  {
    var named := EnsureUuid(r, |w.log|);
    var call := StreamCallOf(named, kind);
    var burned := named.(nextSequence := named.nextSequence + 1);
    var error := ErrorOf(ReplyTo(w));
    var after :=
      if error.Some? then burned
      else
        match kind
        case EnableStream => burned.(streamingActive := true)
        case UpdateStream => burned
        case DisableStream => burned.(streamingActive := false);
    Attempt(after, Invoke(w, call), error)
  }

  function StopStreamIfActive(a: Attempt): Attempt
    requires a.r.cardId.Some?
  {
    if a.error.Some? || !a.r.streamingActive then a else StreamStep(a.r, a.w, DisableStream)
  }

  function ApprovalStep(r: CardRecord, w: Remote): Attempt
    requires r.cardId.Some?
  {
    var a := StreamStep(r, w, UpdateStream);
    StopStreamIfActive(if a.error.Some? then a else a.(r := a.r.(cardkitSupported := Some(true))))
  }

  function FallBackToPatch(a: Attempt): Attempt {
    if a.error.None? then a
    else if a.error != Some(PatchAllowed) then a
    else if a.r.status == RequiresAction then Attempt(WithoutCardKit(a.r), a.w, Some(ApprovalNeedsCardKit))
    else PatchStep(WithoutCardKit(a.r), a.w)
  }

  function LiveStep(r: CardRecord, w: Remote): Attempt
    requires r.cardId.Some?
  {
    var a := if r.streamingActive then Attempt(r, w, None) else StreamStep(r, w, EnableStream);
    FallBackToPatch(if a.error.Some? then a else StreamStep(a.r, a.w, UpdateStream))
  }

  function FinalStep(r: CardRecord, w: Remote): Attempt
    requires r.cardId.Some?
  {
    if r.streamingActive then StopStreamIfActive(StreamStep(r, w, UpdateStream))
    else if r.replyMessageId.Some? then PatchStep(r, w)
    else Attempt(r, w, None)
  }

  function DeliverStep(r: CardRecord, w: Remote): Attempt {
    if r.status == RequiresAction && r.cardId.Some? then ApprovalStep(r, w)
    else if r.cardkitSupported == Some(false) then
      if r.status == RequiresAction then Attempt(r, w, Some(ApprovalNeedsCardKit)) else PatchStep(r, w)
    else if r.cardId.None? then Attempt(r, w, Some(MissingCardId))
    else if IsStable(r) then FinalStep(r, w)
    else LiveStep(r, w)
  }

  function AttemptDelivery(r: CardRecord, w: Remote): Attempt {
    var sent := SendStep(r, w);
    if sent.error.Some? then sent
    else
      var resolved := ResolveStep(sent.r, sent.w);
      if resolved.error.Some? then resolved else DeliverStep(resolved.r, resolved.w)
  }

  datatype Outcome = Outcome(r: CardRecord, w: Remote, delivered: bool)

  function Sync(r: CardRecord, w: Remote, now: int, retryDelay: int): Outcome {
    var a := AttemptDelivery(r, w);
    if a.error.None? then Outcome(MarkSuccess(a.r).(dirty := false, lastFlushAt := now), a.w, true)
    else Outcome(MarkFailure(a.r, a.error.value, now + retryDelay), a.w, false)
  }

  // ------------------------------------------------------------------ invariants

  /** What one record keeps in every intermediate state of an attempt. */
  ghost predicate Coherent(r: CardRecord, w: Remote) {
    && r.latestCard == Render(r)
    && (r.replyMessageId.Some? ==> r.replyMessageId.value < w.nextMessage)
    && (r.cardId.Some? ==> r.replyMessageId == Some(r.cardId.value.message))
    && (r.cardkitSupported == Some(false) ==> !r.streamingActive)
    && (r.streamingActive ==> r.cardId.Some?)
    && (r.replyMessageId.Some? ==> (r.streamingActive <==> TakenForOn(w.oracle, w.log, CardId(r.replyMessageId.value))))
    && (r.streamUuid.Some? ==> r.streamUuid.value.requestId == r.requestId)
    && OwnNumbers(w.log, r.requestId, r.streamUuid, r.nextSequence)
  }

  /** Every stream call made for a request used its uuid and a number below `next`. */
  ghost predicate OwnNumbers(log: seq<Call>, requestId: RequestId, uuid: Option<StreamUuid>, next: nat) {
    forall i :: 0 <= i < |log| && log[i].OnStream() && log[i].uuid.requestId == requestId ==>
      Some(log[i].uuid) == uuid && log[i].sequence < next
  }

  ghost predicate Delivered(r: CardRecord, w: Remote) {
    r.replyMessageId.Some? && r.replyMessageId.value in w.content && w.content[r.replyMessageId.value] == r.latestCard
  }

  /** What one record keeps between attempts: a record that is not dirty shows on the remote side. */
  ghost predicate Settled(r: CardRecord, w: Remote) {
    && Coherent(r, w)
    && (r.deliveryPending ==> r.dirty)
    && (!r.dirty ==> Delivered(r, w))
  }

  /** The whole call log: per request one uuid and strictly increasing sequence numbers; an approval card is
      never put in place by a message patch. */
  ghost predicate OrderlyLog(log: seq<Call>) {
    && (forall i, j :: 0 <= i < j < |log| && log[i].OnStream() && log[j].OnStream()
                       && log[i].uuid.requestId == log[j].uuid.requestId ==>
          log[i].uuid == log[j].uuid && log[i].sequence < log[j].sequence)
    && (forall i :: 0 <= i < |log| && log[i].Patch? ==> log[i].card.status != RequiresAction)
  }

  /** The streams that are on are those the log switched on, and no stream is older than its message. */
  ghost predicate StreamsKnown(w: Remote) {
    forall t: CardId ::
      && (t in w.streaming <==> SwitchedOn(w.oracle, w.log, t))
      && (t.message >= w.nextMessage ==> t !in w.streaming && !TakenForOn(w.oracle, w.log, t))
  }

  ghost predicate Orderly(w: Remote) {
    OrderlyLog(w.log) && StreamsKnown(w)
  }

  /** Calls an attempt for `r` may make. */
  ghost predicate CallFor(r: CardRecord, c: Call) {
    match c
    case Send(card) => true
    case Resolve(m) => true
    case Patch(m, card) => r.replyMessageId == Some(m) && card.status != RequiresAction
    case Enable(t, u, n) => r.replyMessageId == Some(t.message) && r.streamUuid == Some(u) && n == r.nextSequence
    case StreamUpdate(t, card, u, n) => r.replyMessageId == Some(t.message) && r.streamUuid == Some(u) &&
        n == r.nextSequence
    case Disable(t, u, n) => r.replyMessageId == Some(t.message) && r.streamUuid == Some(u) && n == r.nextSequence
  }

  /** The part of the remote side that an attempt for the owner of message `mine` must leave alone. */
  ghost predicate Apart(w: Remote, v: Remote, requestId: RequestId, mine: Option<MessageId>) {
    && v.oracle == w.oracle
    && w.log <= v.log
    && w.nextMessage <= v.nextMessage
    && (forall m :: m in w.content && m < w.nextMessage && mine != Some(m) ==>
          m in v.content && v.content[m] == w.content[m])
    && (forall t: CardId :: t.message < w.nextMessage && mine != Some(t.message) ==>
          && (t in w.streaming <==> t in v.streaming)
          && (TakenForOn(w.oracle, w.log, t) <==> TakenForOn(v.oracle, v.log, t)))
    && (forall i :: |w.log| <= i < |v.log| && v.log[i].OnStream() ==> v.log[i].uuid.requestId == requestId)
  }

  lemma {:induction false} ApartTransitive(w: Remote, v: Remote, u: Remote, requestId: RequestId,
      before: Option<MessageId>, after: Option<MessageId>)
    requires Apart(w, v, requestId, before) && Apart(v, u, requestId, after)
    requires before == after || (before.None? && after.Some? && after.value >= w.nextMessage)
    ensures Apart(w, u, requestId, before)
  {
    forall i | |w.log| <= i < |u.log| && u.log[i].OnStream()
      ensures u.log[i].uuid.requestId == requestId
    {
      if i < |v.log| {
        assert u.log[i] == v.log[i];
      }
    }
  }

  lemma {:induction false} InvokeOrderly(r: CardRecord, w: Remote, c: Call)
    requires Coherent(r, w) && OrderlyLog(w.log) && CallFor(r, c)
    ensures OrderlyLog(Invoke(w, c).log)
    ensures OwnNumbers(Invoke(w, c).log, r.requestId, r.streamUuid,
                       if c.OnStream() then r.nextSequence + 1 else r.nextSequence)
  {}

  lemma {:induction false} InvokeStreams(r: CardRecord, w: Remote, c: Call)
    requires Coherent(r, w) && StreamsKnown(w) && CallFor(r, c)
    ensures StreamsKnown(Invoke(w, c))
  {
    hide SwitchedOn, TakenForOn, OwnNumbers, Render;
    forall t: CardId {
      OneMoreCall(w, c, t);
    }
  }

  lemma {:induction false} InvokeApart(r: CardRecord, w: Remote, c: Call)
    requires Coherent(r, w) && CallFor(r, c)
    ensures Apart(w, Invoke(w, c), r.requestId, r.replyMessageId)
  {
    hide SwitchedOn, TakenForOn, OwnNumbers, Render;
    forall t: CardId {
      OneMoreCall(w, c, t);
    }
  }

  /** What every step of an attempt owes its record and the rest of the world. */
  ghost predicate Keeps(r: CardRecord, w: Remote, a: Attempt) {
    && Coherent(a.r, a.w)
    && Orderly(a.w)
    && Apart(w, a.w, r.requestId, r.replyMessageId)
    && a.r.requestId == r.requestId && a.r.status == r.status && a.r.latestCard == r.latestCard && a.r.dirty == r.dirty
    && (r.replyMessageId.Some? ==> a.r.replyMessageId == r.replyMessageId)
    && (a.r.replyMessageId.Some? && r.replyMessageId.None? ==> a.r.replyMessageId.value >= w.nextMessage)
    && (r.streamUuid.Some? ==> a.r.streamUuid == r.streamUuid)
    && r.nextSequence <= a.r.nextSequence
  }

  lemma {:induction false} KeepsTransitive(r: CardRecord, w: Remote, a: Attempt, b: Attempt)
    requires Keeps(r, w, a) && Keeps(a.r, a.w, b)
    ensures Keeps(r, w, b)
  {
    ApartTransitive(w, a.w, b.w, r.requestId, r.replyMessageId, a.r.replyMessageId);
  }

  ghost predicate SameCard(r: CardRecord, after: CardRecord) {
    && after.requestId == r.requestId && after.status == r.status && after.latestCard == r.latestCard
    && after.prompt == r.prompt && after.statusMessage == r.statusMessage &&
          after.assistantMessage == r.assistantMessage
    && after.dirty == r.dirty && after.streamUuid == r.streamUuid
  }

  /** The delivery fields `after` the call `c` fit the remote side it leaves. */
  ghost predicate DeliveryAfter(r: CardRecord, w: Remote, c: Call, after: CardRecord) {
    && after.nextSequence == (if c.OnStream() then r.nextSequence + 1 else r.nextSequence)
    && (after.replyMessageId == r.replyMessageId ||
        (r.replyMessageId.None? && c.Send? && !ReplyTo(w).Refused? && after.replyMessageId == Some(w.nextMessage)))
    && (after.cardId.Some? ==> after.replyMessageId == Some(after.cardId.value.message))
    && (after.cardkitSupported == Some(false) ==> !after.streamingActive)
    && (after.streamingActive ==> after.cardId.Some?)
    && (after.replyMessageId.Some? ==>
          var t := CardId(after.replyMessageId.value);
          after.streamingActive <==> HostSwitch(TakenForOn(w.oracle, w.log, t), c, ReplyTo(w), t))
  }

  /** One own call, and a record that changed only its delivery fields, coherently. */
  lemma {:induction false} CallKeeps(r: CardRecord, w: Remote, c: Call, after: CardRecord, error: Option<DeliveryError>)
    requires Coherent(r, w) && Orderly(w) && CallFor(r, c)
    requires SameCard(r, after) && DeliveryAfter(r, w, c, after)
    ensures Keeps(r, w, Attempt(after, Invoke(w, c), error))
  {
    hide OrderlyLog, StreamsKnown, SwitchedOn, TakenForOn;
    InvokeOrderly(r, w, c);
    InvokeStreams(r, w, c);
    InvokeApart(r, w, c);
    if after.replyMessageId.Some? {
      OneMoreCall(w, c, CardId(after.replyMessageId.value));
    }
  }

  lemma {:induction false} SendKeeps(r: CardRecord, w: Remote)
    requires Coherent(r, w) && Orderly(w)
    ensures Keeps(r, w, SendStep(r, w))
    ensures SendStep(r, w).error.None? ==> SendStep(r, w).r.replyMessageId.Some?
  {
    if r.replyMessageId.None? {
      var a := SendStep(r, w);
      CallKeeps(r, w, Send(r.latestCard), a.r, a.error);
    }
  }

  lemma {:induction false} ResolveKeeps(r: CardRecord, w: Remote)
    requires Coherent(r, w) && Orderly(w)
    ensures Keeps(r, w, ResolveStep(r, w))
  {
    if r.cardkitSupported != Some(false) && r.cardId.None? && r.replyMessageId.Some? {
      var a := ResolveStep(r, w);
      assert a.w == Invoke(w, Resolve(r.replyMessageId.value));
      CallKeeps(r, w, Resolve(r.replyMessageId.value), a.r, a.error);
    }
  }

  lemma {:induction false} PatchKeeps(r: CardRecord, w: Remote)
    requires Coherent(r, w) && Orderly(w) && r.status != RequiresAction
    ensures Keeps(r, w, PatchStep(r, w))
    ensures PatchStep(r, w).error.None? ==> Delivered(r, PatchStep(r, w).w)
  {
    if r.replyMessageId.Some? {
      CallKeeps(r, w, Patch(r.replyMessageId.value, r.latestCard), r, PatchStep(r, w).error);
    }
  }

  /** What an answered stream call does to the record and to the remote side. */
  ghost predicate Effected(r: CardRecord, w: Remote, kind: StreamCall, a: Attempt)
    requires r.cardId.Some?
  {
    && (kind.UpdateStream? ==> Delivered(a.r, a.w))
    && (Delivered(r, w) ==> Delivered(a.r, a.w))
    && a.r.cardId == r.cardId && a.r.cardkitSupported == r.cardkitSupported && a.r.status == r.status
    && a.r.streamingActive == (kind.EnableStream? || (kind.UpdateStream? && r.streamingActive))
    && a.w.streaming == (match kind
                         case EnableStream => w.streaming + {r.cardId.value}
                         case UpdateStream => w.streaming
                         case DisableStream => w.streaming - {r.cardId.value})
  }

  lemma {:induction false} StreamEffect(r: CardRecord, w: Remote, kind: StreamCall)
    requires r.cardId.Some? && r.replyMessageId == Some(r.cardId.value.message)
    ensures StreamStep(r, w, kind).error.None? ==> Effected(r, w, kind, StreamStep(r, w, kind))
  {}

  /** After a failed update of a running card that permits it, the host gives up CardKit for the card. */
  function Dropped(a: Attempt): Attempt {
    if a.r.status == Running && a.error == Some(PatchAllowed) then a.(r := WithoutCardKit(a.r)) else a
  }

  /** The stream is switched on only while it is off; it is shown as it is, or dropped. */
  ghost predicate StreamStepFor(r: CardRecord, kind: StreamCall) {
    && r.cardId.Some?
    && (kind.EnableStream? ==> r.cardkitSupported != Some(false) && !r.streamingActive)
    && (kind.DisableStream? ==> r.status != Running)
  }

  lemma {:induction false} StreamAfter(r: CardRecord, w: Remote, kind: StreamCall)
    requires Coherent(r, w) && StreamStepFor(r, kind) && r.streamUuid.Some?
    ensures var c, a := StreamCallOf(r, kind), Dropped(StreamStep(r, w, kind));
            a.w == Invoke(w, c) && SameCard(r, a.r) && DeliveryAfter(r, w, c, a.r) && CallFor(r, c)
  {
    hide TakenForOn, OwnNumbers;
  }

  lemma {:induction false} NamedStreamKeeps(r: CardRecord, w: Remote, kind: StreamCall)
    requires Coherent(r, w) && Orderly(w) && StreamStepFor(r, kind) && r.streamUuid.Some?
    ensures Keeps(r, w, Dropped(StreamStep(r, w, kind)))
  {
    hide Orderly, Coherent, Keeps, DeliveryAfter, CallFor;
    StreamAfter(r, w, kind);
    var a := Dropped(StreamStep(r, w, kind));
    CallKeeps(r, w, StreamCallOf(r, kind), a.r, a.error);
  }

  lemma {:induction false} NamingCoherent(r: CardRecord, w: Remote)
    requires Coherent(r, w)
    ensures Coherent(EnsureUuid(r, |w.log|), w)
  {}

  lemma {:induction false} NamingKeeps(r: CardRecord, w: Remote, a: Attempt)
    requires Keeps(EnsureUuid(r, |w.log|), w, a)
    ensures Keeps(r, w, a)
  {}

  lemma {:induction false} StreamKeeps(r: CardRecord, w: Remote, kind: StreamCall)
    requires Coherent(r, w) && Orderly(w) && StreamStepFor(r, kind)
    ensures Keeps(r, w, Dropped(StreamStep(r, w, kind)))
  {
    hide Orderly, Coherent, Keeps;
    NamingCoherent(r, w);
    NamedStreamKeeps(EnsureUuid(r, |w.log|), w, kind);
    NamingKeeps(r, w, Dropped(StreamStep(r, w, kind)));
  }

  /** One stream call of an attempt: what it keeps, and its effect when it is answered. */
  lemma {:induction false} StreamDelivers(r: CardRecord, w: Remote, kind: StreamCall)
    requires Coherent(r, w) && Orderly(w) && StreamStepFor(r, kind)
    ensures Keeps(r, w, Dropped(StreamStep(r, w, kind)))
    ensures StreamStep(r, w, kind).error.None? ==> Effected(r, w, kind, StreamStep(r, w, kind))
    ensures StreamStep(r, w, kind).r.status == r.status
  {
    hide Keeps, Orderly, Effected;
    StreamKeeps(r, w, kind);
    StreamEffect(r, w, kind);
  }

  lemma {:induction false} FallBackKeeps(a: Attempt)
    requires a.r.status == Running && Coherent(Dropped(a).r, a.w) && Orderly(a.w)
    ensures Keeps(Dropped(a).r, a.w, FallBackToPatch(a))
    ensures a.error.Some? && FallBackToPatch(a).error.None? ==> Delivered(a.r, FallBackToPatch(a).w)
  {
    if a.error == Some(PatchAllowed) {
      PatchKeeps(WithoutCardKit(a.r), a.w);
    } else {
      KeepsSelf(a);
    }
  }

  lemma {:induction false} KeepsSelf(a: Attempt)
    requires Coherent(a.r, a.w) && Orderly(a.w)
    ensures Keeps(a.r, a.w, a)
  {}

  /** What an answered delivery leaves: the card shown, and for a stable card no stream that the record knew of. */
  ghost predicate DeliveredBy(r: CardRecord, w: Remote, a: Attempt) {
    && Delivered(a.r, a.w)
    && (IsStable(r) ==> !a.r.streamingActive)
    && (IsStable(r) && a.r.replyMessageId.Some? ==>
          var t := CardId(a.r.replyMessageId.value); t in a.w.streaming <==> t in w.streaming && !r.streamingActive)
  }

  lemma {:induction false} ApprovalKeeps(r: CardRecord, w: Remote)
    requires Coherent(r, w) && Orderly(w) && r.cardId.Some? && r.status == RequiresAction
    ensures Keeps(r, w, ApprovalStep(r, w))
    ensures ApprovalStep(r, w).error.None? ==> DeliveredBy(r, w, ApprovalStep(r, w))
  {
    hide Orderly, Apart, StreamStep, TakenForOn, OwnNumbers;
    StreamDelivers(r, w, UpdateStream);
    var a := StreamStep(r, w, UpdateStream);
    if a.error.None? {
      var b := a.(r := a.r.(cardkitSupported := Some(true)));
      if b.r.streamingActive {
        StreamDelivers(b.r, b.w, DisableStream);
        KeepsTransitive(r, w, b, ApprovalStep(r, w));
      }
    }
  }

  lemma {:induction false} LiveKeeps(r: CardRecord, w: Remote)
    requires Coherent(r, w) && Orderly(w) && r.cardId.Some? && r.cardkitSupported != Some(false) && r.status == Running
    ensures Keeps(r, w, LiveStep(r, w))
    ensures LiveStep(r, w).error.None? ==> Delivered(LiveStep(r, w).r, LiveStep(r, w).w)
  {
    hide Orderly, Coherent, Apart, StreamStep;
    var a := if r.streamingActive then Attempt(r, w, None) else StreamStep(r, w, EnableStream);
    if r.streamingActive {
      KeepsSelf(a);
    } else {
      StreamDelivers(r, w, EnableStream);
    }
    var b := if a.error.Some? then a else StreamStep(a.r, a.w, UpdateStream);
    if a.error.None? {
      StreamDelivers(a.r, a.w, UpdateStream);
      KeepsTransitive(r, w, a, Dropped(b));
    }
    FallBackKeeps(b);
    KeepsTransitive(r, w, Dropped(b), LiveStep(r, w));
  }

  lemma {:induction false} FinalKeeps(r: CardRecord, w: Remote)
    requires Coherent(r, w) && Orderly(w) && r.cardId.Some? && IsStable(r) && r.status != RequiresAction
    ensures Keeps(r, w, FinalStep(r, w))
    ensures FinalStep(r, w).error.None? ==> DeliveredBy(r, w, FinalStep(r, w))
  {
    hide Orderly, Apart, StreamStep, Render, TakenForOn, OwnNumbers;
    if r.streamingActive {
      StreamDelivers(r, w, UpdateStream);
      var a := StreamStep(r, w, UpdateStream);
      if a.error.None? {
        StreamDelivers(a.r, a.w, DisableStream);
        KeepsTransitive(r, w, a, FinalStep(r, w));
      }
    } else {
      PatchKeeps(r, w);
    }
  }

  lemma {:induction false} DeliverKeeps(r: CardRecord, w: Remote)
    requires Coherent(r, w) && Orderly(w)
    ensures Keeps(r, w, DeliverStep(r, w))
    ensures DeliverStep(r, w).error.None? ==> DeliveredBy(r, w, DeliverStep(r, w))
  {
    hide Orderly, Apart, StreamStep, Render, TakenForOn, OwnNumbers, ApprovalStep, LiveStep, FinalStep;
    if r.status == RequiresAction && r.cardId.Some? {
      ApprovalKeeps(r, w);
    } else if r.cardkitSupported == Some(false) {
      if r.status == RequiresAction {
        KeepsSelf(DeliverStep(r, w));
      } else {
        PatchKeeps(r, w);
      }
    } else if r.cardId.None? {
      KeepsSelf(DeliverStep(r, w));
    } else if IsStable(r) {
      FinalKeeps(r, w);
    } else {
      LiveKeeps(r, w);
    }
  }

  /** Sending and resolving switch no stream. */
  lemma {:induction false} OpeningSwitchesNothing(r: CardRecord, w: Remote)
    ensures SendStep(r, w).w.streaming == w.streaming && SendStep(r, w).r.streamingActive == r.streamingActive
    ensures ResolveStep(r, w).w.streaming == w.streaming
    ensures ResolveStep(r, w).error.None? && (r.streamingActive ==> r.cardId.Some?) ==>
              ResolveStep(r, w).r.streamingActive == r.streamingActive
  {}

  lemma {:induction false} AttemptKeeps(r: CardRecord, w: Remote)
    requires Coherent(r, w) && Orderly(w)
    ensures Keeps(r, w, AttemptDelivery(r, w))
    ensures AttemptDelivery(r, w).error.None? ==> DeliveredBy(r, w, AttemptDelivery(r, w))
  {
    hide Orderly, Apart, SendStep, ResolveStep, DeliverStep, Render, TakenForOn, OwnNumbers;
    SendKeeps(r, w);
    OpeningSwitchesNothing(r, w);
    var sent := SendStep(r, w);
    if sent.error.None? {
      ResolveKeeps(sent.r, sent.w);
      OpeningSwitchesNothing(sent.r, sent.w);
      var resolved := ResolveStep(sent.r, sent.w);
      KeepsTransitive(r, w, sent, resolved);
      if resolved.error.None? {
        DeliverKeeps(resolved.r, resolved.w);
        KeepsTransitive(r, w, resolved, DeliverStep(resolved.r, resolved.w));
      }
    }
  }

  /** One sync, whatever the remote side answers: a settled record stays settled, the log stays orderly, nobody
      else's card is touched; it reports delivery exactly when the record ends neither pending nor dirty. A delivered
      stable card is taken for not streaming; its stream is on at the remote side exactly when it was on before
      without the record knowing. */
  lemma {:induction false} SyncKeeps(r: CardRecord, w: Remote, now: int, retryDelay: int)
    requires Coherent(r, w) && Orderly(w) && r.dirty
    ensures var o := Sync(r, w, now, retryDelay);
            && Settled(o.r, o.w)
            && Keeps(r, w, Attempt(o.r.(dirty := r.dirty), o.w, None))
            && (o.delivered <==> !o.r.deliveryPending && !o.r.dirty)
            && (o.delivered && IsStable(r) ==>
                  && o.r.replyMessageId.Some? && !o.r.streamingActive
                  && var t := CardId(o.r.replyMessageId.value);
                     t in o.w.streaming <==> t in w.streaming && !r.streamingActive)
  {
    hide Orderly, Apart, AttemptDelivery, OwnNumbers, TakenForOn;
    AttemptKeeps(r, w);
  }
}
