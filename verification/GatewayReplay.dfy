/** Replay of a bound session to a chat: bindings, their checkpoints, and resuming after restarts. */
module GatewayReplay {
  import opened BindingStore
  import opened Wrappers
  import S = SessionStore
  import Text

  /** Bindings in memory and in the binding store. */
  datatype Gate = Gate(memory: map<Chat, Binding>, files: Files)

  ghost function Lookup(g: Gate, chat: Chat): Option<Binding> {
    if chat in g.memory then Some(g.memory[chat]) else Load(g.files, FileName(chat))
  }

  predicate Wanted(types: seq<string>, e: S.Event) {
    types == [] || e.eventType in types
  }

  /** The events a binding lets through. */
  function Project(types: seq<string>, events: seq<S.Event>): seq<S.Event> {
    if events == [] then []
    else Project(types, events[..|events| - 1]) + if Wanted(types, events[|events| - 1]) then [events[|events| - 1]]
      else []
  }

  /** Part of a sequence, in its order. */
  predicate Subsequence<T(==)>(part: seq<T>, whole: seq<T>)
    decreases |whole|
  {
    part == [] ||
    (whole != [] &&
     ((part[|part| - 1] == whole[|whole| - 1] && Subsequence(part[..|part| - 1], whole[..|whole| - 1])) ||
      Subsequence(part, whole[..|whole| - 1])))
  }

  /** What a binding to these event types owes its chat: the events in their order, each as often as it came if no type
      is named or its own is, and none of the others. */
  ghost predicate Selects(types: seq<string>, events: seq<S.Event>, out: seq<S.Event>) {
    && Subsequence(out, events)
    && forall e :: multiset(out)[e] == if types == [] || e.eventType in types then multiset(events)[e] else 0
  }

  lemma {:induction false} ProjectSelects(types: seq<string>, events: seq<S.Event>)
    ensures Selects(types, events, Project(types, events))
  {
    if events != [] {
      var init, last := events[..|events| - 1], events[|events| - 1];
      ProjectSelects(types, init);
      assert events == init + [last];
      if Wanted(types, last) {
        var out := Project(types, init) + [last];
        assert out[..|out| - 1] == Project(types, init);
      } else {
        assert Project(types, init) + [] == Project(types, init);
      }
    }
  }

  /** The session's events from an offset on. */
  function From(d: S.Disk, id: S.SessionId, offset: nat): seq<S.Event> {
    var log := S.EventLog(d, id);
    if offset <= |log| then log[offset..] else []
  }

  /** The binding brought up to what the session store holds now. */
  function Synced(b: Binding, d: S.Disk): Binding {
    b.(offset := |S.EventLog(d, b.sessionId)|, lastEventId := S.LastEventId(d, b.sessionId),
       restoreMarker := S.Load(d, b.sessionId).header.restoreMarker)
  }

  function Persisted(g: Gate, chat: Chat, b: Binding): Gate {
    Gate(g.memory[chat := b], g.files[KeyOf(b) := b])
  }

  /** A new binding; it starts at the session's end. */
  function Fresh(d: S.Disk, chat: Chat, id: S.SessionId, types: seq<string>): Binding {
    Synced(Binding(chat, id, types, 0, None, None), d)
  }

  datatype BindError = OtherSession

  function Bind(g: Gate, d: S.Disk, chat: Chat, id: S.SessionId, types: seq<string>): Result<Gate, BindError> {
    if chat in g.memory && g.memory[chat].sessionId != id then Failure(OtherSession)
    else Success(Persisted(g, chat, Fresh(d, chat, id, types)))
  }

  // ------------------------------------------------------------------ the gateway

  class Gateway {
    const sessions: S.FileSessionStore
    const store: FileSessionBindingStore
    var bindings: map<Chat, Binding>

    constructor (sessions: S.FileSessionStore, store: FileSessionBindingStore)
      ensures this.sessions == sessions && this.store == store && bindings == map[]
    {
      this.sessions, this.store, bindings := sessions, store, map[];
    }

    ghost function State(): Gate
      reads this, store
    {
      Gate(bindings, store.files)
    }

    /** A binding met for the first time since the start is restored from the store. */
    method GetBinding(chat: Chat) returns (b: Option<Binding>)
      modifies this`bindings
      ensures b == Lookup(old(State()), chat)
      ensures State() == if b.Some? then old(State()).(memory := old(bindings)[chat := b.value]) else old(State())
    {
      if chat in bindings {
        assert bindings[chat := bindings[chat]] == bindings;
        return Some(bindings[chat]);
      }
      b := store.LoadBinding(chat);
      if b.Some? {
        bindings := bindings[chat := b.value];
      }
    }

    method SyncBindingCheckpoint(b: Binding) returns (synced: Binding)
      ensures synced == Synced(b, sessions.Contents())
    {
      var c := sessions.GetCheckpoint(b.sessionId);
      var rec := sessions.LoadSession(b.sessionId);
      synced := b.(offset := c.eventOffset, lastEventId := c.lastEventId, restoreMarker := rec.header.restoreMarker);
    }

    /** Project what was observed; the checkpoint moves to the session's end as it is now. */
    method ProjectMany(chat: Chat, b: Binding, events: seq<S.Event>) returns (projected: seq<S.Event>)
      modifies this`bindings, store
      ensures projected == Project(b.eventTypes, events) && Selects(b.eventTypes, events, projected)
      ensures State() == Persisted(old(State()), chat, Synced(b, sessions.Contents()))
    {
      var synced := SyncBindingCheckpoint(b);
      bindings := bindings[chat := synced];
      projected := [];
      for i := 0 to |events|
        invariant projected == Project(b.eventTypes, events[..i])
        invariant bindings == old(bindings)[chat := synced] && store.files == old(store.files)
        invariant synced == Synced(b, sessions.Contents())
      {
        assert events[..i + 1][..i] == events[..i];
        if Wanted(b.eventTypes, events[i]) {
          projected := projected + [events[i]];
        }
      }
      assert events[..|events|] == events;
      ProjectSelects(b.eventTypes, events);
      store.SaveBinding(synced);
    }

    method BindSession(chat: Chat, id: S.SessionId, types: seq<string>) returns (r: Result<Binding, BindError>)
      modifies this`bindings, store
      ensures match Bind(old(State()), sessions.Contents(), chat, id, types)
              case Failure(e) => r == Failure(e) && State() == old(State())
              case Success(g) => r.Success? && State() == g && r.value == g.memory[chat]
      ensures r.Failure? <==> chat in old(bindings) && old(bindings)[chat].sessionId != id
    {
      if chat in bindings && bindings[chat].sessionId != id {
        return Failure(OtherSession);
      }
      var b := SyncBindingCheckpoint(Binding(chat, id, types, 0, None, None));
      bindings := bindings[chat := b];
      store.SaveBinding(b);
      return Success(b);
    }

    /** Replay from the checkpoint, or from an offset the caller names; nothing for an unknown chat. */
    method ResumeBoundSession(chat: Chat, after: Option<nat>) returns (projected: Option<seq<S.Event>>)
      modifies this`bindings, store
      ensures match Lookup(old(State()), chat)
              case None => projected == None && State() == old(State())
              case Some(b) =>
                var offset := if after.None? then b.offset else after.value;
                && projected == Some(Project(b.eventTypes, From(sessions.Contents(), b.sessionId, offset)))
                && Selects(b.eventTypes, From(sessions.Contents(), b.sessionId, offset), projected.value)
                && State() == Persisted(old(State()), chat, Synced(b, sessions.Contents()))
    {
      var b := GetBinding(chat);
      if b.None? {
        return None;
      }
      var events := sessions.ReadEvents(b.value.sessionId, if after.None? then b.value.offset else after.value);
      ghost var between := State();
      var out := ProjectMany(chat, b.value, events);
      assert between.memory[chat := Synced(b.value, sessions.Contents())] ==
             old(State()).memory[chat := Synced(b.value, sessions.Contents())];
      return Some(out);
    }
  }

  // ------------------------------------------------------------------ histories of one chat

  datatype Sys = Sys(disk: S.Disk, gate: Gate)

  /** A resume starts at the checkpoint or at a named offset; `late` is what other writers do between its observation
      and its checkpoint. */
  datatype Op =
    | Session(op: S.Op)
    | Resume(chat: Chat, after: Option<nat>, late: seq<S.Op>)
    | Restart
    | BindOp(chat: Chat, id: S.SessionId, types: seq<string>)

  ghost predicate Resumes(s: Sys, op: Op, chat: Chat) {
    op.Resume? && op.chat == chat && Lookup(s.gate, chat).Some?
  }

  function StartOf(b: Binding, after: Option<nat>): nat {
    if after.None? then b.offset else after.value
  }

  ghost function Seen(s: Sys, op: Op, chat: Chat): seq<S.Event> {
    if Resumes(s, op, chat) then
      var b := Lookup(s.gate, chat).value;
      From(s.disk, b.sessionId, StartOf(b, op.after))
    else []
  }

  ghost function StepSys(pathOf: S.Header -> S.Path, s: Sys, op: Op): Sys {
    match op
    case Session(o) => s.(disk := S.Step(pathOf, s.disk, o))
    case Restart => s.(gate := s.gate.(memory := map[]))
    case BindOp(chat, id, types) =>
      var r := Bind(s.gate, s.disk, chat, id, types);
      if r.Success? then s.(gate := r.value) else s
    case Resume(chat, _, late) =>
      var d := S.Run(pathOf, s.disk, late);
      var b := Lookup(s.gate, chat);
      Sys(d, if b.Some? then Persisted(s.gate, chat, Synced(b.value, d)) else s.gate)
  }

  ghost function RunSys(pathOf: S.Header -> S.Path, s: Sys, ops: seq<Op>): Sys
    decreases |ops|
  {
    if ops == [] then s else RunSys(pathOf, StepSys(pathOf, s, ops[0]), ops[1..])
  }

  /** Everything the resumes of a history read for a chat, one after the other. */
  ghost function Replayed(pathOf: S.Header -> S.Path, s: Sys, ops: seq<Op>, chat: Chat): seq<S.Event>
    decreases |ops|
  {
    if ops == [] then [] else Seen(s, ops[0], chat) + Replayed(pathOf, StepSys(pathOf, s, ops[0]), ops[1..], chat)
  }

  /** What those resumes deliver. */
  ghost function Delivered(pathOf: S.Header -> S.Path, s: Sys, ops: seq<Op>, chat: Chat): seq<S.Event>
    decreases |ops|
  {
    if ops == [] then []
    else
      var b := Lookup(s.gate, chat);
      (if b.Some? then Project(b.value.eventTypes, Seen(s, ops[0], chat)) else []) +
      Delivered(pathOf, StepSys(pathOf, s, ops[0]), ops[1..], chat)
  }

  /** How many events of the chat's session land between an observation and its checkpoint. */
  ghost function Missed(pathOf: S.Header -> S.Path, s: Sys, ops: seq<Op>, chat: Chat): int
    decreases |ops|
  {
    if ops == [] then 0
    else MissedBy(pathOf, s, ops[0], chat) + Missed(pathOf, StepSys(pathOf, s, ops[0]), ops[1..], chat)
  }

  ghost function MissedBy(pathOf: S.Header -> S.Path, s: Sys, op: Op, chat: Chat): int {
    if Resumes(s, op, chat) then
      var id := Lookup(s.gate, chat).value.sessionId;
      |S.EventLog(S.Run(pathOf, s.disk, op.late), id)| - |S.EventLog(s.disk, id)|
    else 0
  }

  /** A bind that the chat's present session takes. */
  ghost predicate Rebinds(s: Sys, op: Op, chat: Chat) {
    op.BindOp? && op.chat == chat && Lookup(s.gate, chat).Some? && Lookup(s.gate, chat).value.sessionId == op.id
  }

  /** How far before the checkpoint a resume starts: events it repeats, or, when negative, skips. A bind skips all that
      the chat has not read. */
  ghost function ShiftOf(s: Sys, op: Op, chat: Chat): int {
    if Resumes(s, op, chat) then
      var b := Lookup(s.gate, chat).value;
      var start, end := StartOf(b, op.after), |S.EventLog(s.disk, b.sessionId)|;
      b.offset - if start <= end then start else end
    else if Rebinds(s, op, chat) then Lookup(s.gate, chat).value.offset - |S.EventLog(s.disk, op.id)|
    else 0
  }

  ghost function Shifted(pathOf: S.Header -> S.Path, s: Sys, ops: seq<Op>, chat: Chat): int
    decreases |ops|
  {
    if ops == [] then 0 else ShiftOf(s, ops[0], chat) + Shifted(pathOf, StepSys(pathOf, s, ops[0]), ops[1..], chat)
  }

  /** Every resume starts at the checkpoint it finds, and every bind finds it at the session's end. */
  ghost predicate Straight(pathOf: S.Header -> S.Path, s: Sys, ops: seq<Op>, chat: Chat)
    decreases |ops|
  {
    ops == [] || (ShiftOf(s, ops[0], chat) == 0 && Straight(pathOf, StepSys(pathOf, s, ops[0]), ops[1..], chat))
  }

  /** Binding files lie where their bindings say, every binding in memory has its file, and a chat whose name holds no
      wildcard has one of its own name. */
  ghost predicate Filed(g: Gate) {
    && InPlace(g.files)
    && (forall c :: c in g.memory ==> KeyOf(g.memory[c]) in g.files)
    && (forall c :: c in g.memory && NoMagic(FileName(c)) ==> FileName(g.memory[c].chat) == FileName(c))
  }

  /** The chat's lookup opens the file of this binding, which holds it. */
  ghost predicate Kept(g: Gate, chat: Chat, b: Binding) {
    Opens(g.files, FileName(chat), KeyOf(b)) && g.files[KeyOf(b)] == b
  }

  /** The chat is bound, its binding would survive a restart, and its checkpoint lies within the session's log. */
  ghost predicate Bound(s: Sys, chat: Chat, b: Binding) {
    && S.Sound(s.disk) && Lookup(s.gate, chat) == Some(b) && b.chat == chat
    && Filed(s.gate) && Kept(s.gate, chat, b)
    && b.offset <= |S.EventLog(s.disk, b.sessionId)|
  }

  /** The binding a step leaves. */
  function NextBinding(pathOf: S.Header -> S.Path, s: Sys, op: Op, chat: Chat, b: Binding): Binding {
    if op.Resume? && op.chat == chat then Synced(b, S.Run(pathOf, s.disk, op.late))
    else if op.BindOp? && op.chat == chat && op.id == b.sessionId then Fresh(s.disk, chat, op.id, op.types)
    else b
  }

  /** A file under `theirs` that the chat's lookup would open in place of its own. */
  predicate Hides(theirs: FileKey, chat: Chat, own: FileKey) {
    theirs == own || (Finds(FileName(chat), theirs) && Before(theirs, own))
  }

  /** What costs a chat its binding: a bind of this chat to another session, which succeeds only while memory does not
      hold the chat; another chat's bind whose file hides its own; another chat's resume that writes something else into
      its file. */
  ghost predicate Disturbs(pathOf: S.Header -> S.Path, s: Sys, op: Op, chat: Chat, b: Binding) {
    match op
    case BindOp(c, id, types) =>
      && Bind(s.gate, s.disk, c, id, types).Success?
      && if c == chat then id != b.sessionId else Hides(KeyFor(c, id), chat, KeyOf(b))
    case Resume(c, _, late) =>
      && c != chat && Lookup(s.gate, c).Some?
      && var theirs := Lookup(s.gate, c).value;
         KeyOf(theirs) == KeyOf(b) && Synced(theirs, S.Run(pathOf, s.disk, late)) != b
    case _ => false
  }

  ghost predicate Undisturbed(pathOf: S.Header -> S.Path, s: Sys, ops: seq<Op>, chat: Chat, b: Binding)
    decreases |ops|
  {
    ops == [] ||
    (!Disturbs(pathOf, s, ops[0], chat, b) &&
     Undisturbed(pathOf, StepSys(pathOf, s, ops[0]), ops[1..], chat, NextBinding(pathOf, s, ops[0], chat, b)))
  }

  /** After a restart a chat has a binding if and only if the binding's file holds it, lies one level below the root
      under a name that the chat's file name matches, and comes before every other file found. */
  lemma {:induction false} RestartReturnsIff(g: Gate, chat: Chat, b: Binding)
    requires InPlace(g.files)
    ensures Lookup(g.(memory := map[]), chat) == Some(b) <==>
            && KeyOf(b) in g.files && g.files[KeyOf(b)] == b
            && Findable(PlaceOf(b.sessionId)) && Match(FileName(chat), FileName(b.chat))
            && forall k :: k in g.files && Finds(FileName(chat), k) && k != KeyOf(b) ==> Before(KeyOf(b), k)
  {
    hide Match, Findable, Before, PlaceOf, FileName;
    LoadReturnsIff(g.files, FileName(chat), b);
  }

  /** What a chat has, in memory or on file, has its file, of the chat's own name if that holds no wildcard. */
  lemma {:induction false} LookupFiled(g: Gate, chat: Chat)
    requires Filed(g) && Lookup(g, chat).Some?
    ensures var b := Lookup(g, chat).value;
            && KeyOf(b) in g.files
            && (NoMagic(FileName(chat)) ==> FileName(b.chat) == FileName(chat))
  {
    hide Match, Findable, Before, PlaceOf, FileName, NoMagic;
    if chat !in g.memory {
      var k :| Opens(g.files, FileName(chat), k);
      LoadIs(g.files, FileName(chat), k);
      if NoMagic(FileName(chat)) {
        MatchLiteral(FileName(chat), k.name);
      }
    }
  }

  lemma {:induction false} DiskGrows(pathOf: S.Header -> S.Path, s: Sys, op: Op, id: S.SessionId)
    requires S.Sound(s.disk)
    ensures S.Sound(StepSys(pathOf, s, op).disk)
    ensures S.EventLog(s.disk, id) <= S.EventLog(StepSys(pathOf, s, op).disk, id)
  {
    match op {
      case Session(o) =>
        S.StepPreserves(pathOf, s.disk, o);
        assert S.Grows(s.disk, S.Step(pathOf, s.disk, o), id);
      case Resume(_, _, late) =>
        S.HistoryPreserves(pathOf, s.disk, late);
        assert S.Grows(s.disk, S.Run(pathOf, s.disk, late), id);
      case _ =>
    }
  }

  lemma {:induction false} PersistedFiled(g: Gate, chat: Chat, b: Binding)
    requires Filed(g) && (NoMagic(FileName(chat)) ==> FileName(b.chat) == FileName(chat))
    ensures Filed(Persisted(g, chat, b))
  {
    hide KeyFor, FileName, NoMagic;
  }

  /** Persisting under the chat's own key keeps the chat's lookup where it is. */
  lemma {:induction false} OwnPersisted(g: Gate, chat: Chat, b: Binding, next: Binding)
    requires Filed(g) && Kept(g, chat, b) && KeyOf(next) == KeyOf(b)
    ensures var h := Persisted(g, chat, next); Kept(h, chat, next) && Lookup(h, chat) == Some(next)
  {
    hide Finds, Before, KeyFor, FileName, Filed;
  }

  /** Persisting another chat's binding leaves a chat its own if and only if the file written does not hide its own. */
  lemma {:induction false} OtherPersisted(g: Gate, chat: Chat, b: Binding, other: Chat, theirs: Binding)
    requires Filed(g) && Kept(g, chat, b) && Lookup(g, chat) == Some(b) && other != chat
    ensures var h := Persisted(g, other, theirs);
            && (Kept(h, chat, b) <==> theirs == b || !Hides(KeyOf(theirs), chat, KeyOf(b)))
            && (Kept(h, chat, b) ==> Lookup(h, chat) == Some(b))
  {
    hide Match, Findable, Before, KeyFor, FileName, Filed;
    var h, key, own := Persisted(g, other, theirs), KeyOf(theirs), KeyOf(b);
    if theirs == b {
      assert h.files == g.files;
    } else if key != own && Finds(FileName(chat), key) {
      BeforeTotal(key, own);
    }
    if Kept(h, chat, b) {
      LoadIs(h.files, FileName(chat), own);
    }
  }

  /** What Disturbs says is exact for the gate. */
  lemma {:induction false} StepKeepsIff(pathOf: S.Header -> S.Path, s: Sys, op: Op, chat: Chat, b: Binding)
    requires Bound(s, chat, b)
    ensures var g, next := StepSys(pathOf, s, op).gate, NextBinding(pathOf, s, op, chat, b);
            && Filed(g) && next.chat == chat && next.sessionId == b.sessionId
            && (Lookup(g, chat) == Some(next) && Kept(g, chat, next) <==> !Disturbs(pathOf, s, op, chat, b))
  {
    hide Match, Findable, Before, KeyFor, FileName, S.Sound, S.EventLog, S.LastEventId, S.Load, S.Run, NoMagic;
    match op {
      case Session(_) =>
      case Restart =>
        LoadIs(s.gate.files, FileName(chat), KeyOf(b));
      case BindOp(c, id, types) =>
        if Bind(s.gate, s.disk, c, id, types).Success? {
          var theirs := Fresh(s.disk, c, id, types);
          PersistedFiled(s.gate, c, theirs);
          if c != chat {
            OtherPersisted(s.gate, chat, b, c, theirs);
          } else if id == b.sessionId {
            OwnPersisted(s.gate, chat, b, theirs);
          }
        }
      case Resume(c, _, late) =>
        if Lookup(s.gate, c).Some? {
          var theirs := Synced(Lookup(s.gate, c).value, S.Run(pathOf, s.disk, late));
          LookupFiled(s.gate, c);
          PersistedFiled(s.gate, c, theirs);
          if c != chat {
            SharedFile(s.gate, chat, b, Lookup(s.gate, c).value);
            OtherPersisted(s.gate, chat, b, c, theirs);
          } else {
            OwnPersisted(s.gate, chat, b, theirs);
          }
        }
    }
  }

  /** A file that is there already hides the chat's own only by being it. */
  lemma {:induction false} SharedFile(g: Gate, chat: Chat, b: Binding, theirs: Binding)
    requires Kept(g, chat, b) && KeyOf(theirs) in g.files
    ensures Hides(KeyOf(theirs), chat, KeyOf(b)) <==> KeyOf(theirs) == KeyOf(b)
  {
    hide Match, Findable, Before, KeyFor, FileName;
    if KeyOf(theirs) != KeyOf(b) && Finds(FileName(chat), KeyOf(theirs)) {
      BeforeTotal(KeyOf(theirs), KeyOf(b));
    }
  }

  /** A step leaves a bound chat bound if and only if it does not disturb it. */
  lemma {:induction false} StepBoundIff(pathOf: S.Header -> S.Path, s: Sys, op: Op, chat: Chat, b: Binding)
    requires Bound(s, chat, b)
    ensures Bound(StepSys(pathOf, s, op), chat, NextBinding(pathOf, s, op, chat, b)) <==>
            !Disturbs(pathOf, s, op, chat, b)
  {
    hide Filed, Kept, Lookup, S.Sound, Disturbs, Bind, KeyFor;
    DiskGrows(pathOf, s, op, b.sessionId);
    StepKeepsIff(pathOf, s, op, chat, b);
  }

  /** What one step replays fits the move of the checkpoint from `start` to `mid`. */
  ghost predicate StepFits(log: seq<S.Event>, start: nat, mid: nat, seen: seq<S.Event>, missed: int, shift: int) {
    && missed >= 0 && start + missed <= mid <= |log|
    && 0 <= start - shift <= mid - missed
    && seen == log[start - shift..mid - missed]
  }

  /** One step replays exactly the stretch of the log its checkpoint moves over, but for where it starts and what came
      late. */
  lemma {:induction false} StepReplays(pathOf: S.Header -> S.Path, s: Sys, op: Op, chat: Chat, b: Binding)
    requires Bound(s, chat, b) && !Disturbs(pathOf, s, op, chat, b)
    ensures var next, log := NextBinding(pathOf, s, op, chat, b), S.EventLog(StepSys(pathOf, s, op).disk, b.sessionId);
            && next.sessionId == b.sessionId
            && StepFits(log, b.offset, next.offset, Seen(s, op, chat), MissedBy(pathOf, s, op, chat),
                        ShiftOf(s, op, chat))
  {
    hide Filed, Kept, Lookup, S.Sound;
    DiskGrows(pathOf, s, op, b.sessionId);
  }

  /** The history's account: what was replayed and what came late make up the log stretch the checkpoint moved over
      and what was repeated, less what was skipped. */
  ghost predicate Account(log: seq<S.Event>, start: nat, end: nat, replayed: seq<S.Event>, missed: int, shift: int,
      straight: bool) {
    && missed >= 0 && start <= end <= |log|
    && |replayed| + missed == end - start + shift
    && (straight ==> shift == 0)
    && (straight && missed == 0 ==> replayed == log[start..end])
  }

  lemma {:induction false} AccountCons(log: seq<S.Event>, later: seq<S.Event>, start: nat, mid: nat, end: nat,
      seen: seq<S.Event>, missed: int, shift: int, rest: seq<S.Event>, missedRest: int, shiftRest: int,
          straightRest: bool)
    requires log <= later && StepFits(log, start, mid, seen, missed, shift)
    requires Account(later, mid, end, rest, missedRest, shiftRest, straightRest)
    ensures Account(later, start, end, seen + rest, missed + missedRest, shift + shiftRest, shift == 0 && straightRest)
  {
    if missed == 0 && shift == 0 {
      assert log[start..mid] == later[start..mid];
      assert later[start..mid] + later[mid..end] == later[start..end];
    }
  }

  lemma {:induction false} LogGrows(pathOf: S.Header -> S.Path, s: Sys, ops: seq<Op>, id: S.SessionId)
    requires S.Sound(s.disk)
    ensures S.EventLog(s.disk, id) <= S.EventLog(RunSys(pathOf, s, ops).disk, id)
    decreases |ops|
  {
    hide S.Sound, StepSys, S.EventLog;
    if ops != [] {
      DiskGrows(pathOf, s, ops[0], id);
      LogGrows(pathOf, StepSys(pathOf, s, ops[0]), ops[1..], id);
    }
  }

  /** The account of a whole history for one chat. */
  ghost predicate Accounted(pathOf: S.Header -> S.Path, s: Sys, ops: seq<Op>, chat: Chat, b: Binding, last: Binding) {
    && last.sessionId == b.sessionId
    && Account(S.EventLog(RunSys(pathOf, s, ops).disk, b.sessionId), b.offset, last.offset,
               Replayed(pathOf, s, ops, chat), Missed(pathOf, s, ops, chat), Shifted(pathOf, s, ops, chat),
               Straight(pathOf, s, ops, chat))
  }

  /** The first operation's part of a history's account. */
  lemma {:induction false} HistoryUnfolds(pathOf: S.Header -> S.Path, s: Sys, ops: seq<Op>, chat: Chat)
    requires ops != []
    ensures var t := StepSys(pathOf, s, ops[0]);
            && RunSys(pathOf, s, ops) == RunSys(pathOf, t, ops[1..])
            && Replayed(pathOf, s, ops, chat) == Seen(s, ops[0], chat) + Replayed(pathOf, t, ops[1..], chat)
            && Missed(pathOf, s, ops, chat) == MissedBy(pathOf, s, ops[0], chat) + Missed(pathOf, t, ops[1..], chat)
            && Shifted(pathOf, s, ops, chat) == ShiftOf(s, ops[0], chat) + Shifted(pathOf, t, ops[1..], chat)
            && Straight(pathOf, s, ops, chat) == (ShiftOf(s, ops[0], chat) == 0 && Straight(pathOf, t, ops[1..], chat))
  {
    hide StepSys, Seen, MissedBy, ShiftOf;
  }

  lemma {:induction false} AccountedCons(pathOf: S.Header -> S.Path, s: Sys, ops: seq<Op>, chat: Chat, b: Binding,
      next: Binding, last: Binding)
    requires ops != [] && Bound(s, chat, b) && !Disturbs(pathOf, s, ops[0], chat, b)
    requires next == NextBinding(pathOf, s, ops[0], chat, b)
    requires Accounted(pathOf, StepSys(pathOf, s, ops[0]), ops[1..], chat, next, last)
    ensures Accounted(pathOf, s, ops, chat, b, last)
  {
    HistoryUnfolds(pathOf, s, ops, chat);
    hide Bound, StepSys, Seen, MissedBy, ShiftOf, S.EventLog, NextBinding, Account, StepFits, Disturbs;
    hide RunSys, Replayed, Missed, Shifted, Straight;
    var t, rest, id := StepSys(pathOf, s, ops[0]), ops[1..], b.sessionId;
    StepReplays(pathOf, s, ops[0], chat, b);
    DiskSound(pathOf, s, ops[0], chat, b);
    LogGrows(pathOf, t, rest, id);
    AccountCons(S.EventLog(t.disk, id), S.EventLog(RunSys(pathOf, s, ops).disk, id), b.offset, next.offset, last.offset,
                Seen(s, ops[0], chat), MissedBy(pathOf, s, ops[0], chat), ShiftOf(s, ops[0], chat),
                Replayed(pathOf, t, rest, chat), Missed(pathOf, t, rest, chat), Shifted(pathOf, t, rest, chat),
                Straight(pathOf, t, rest, chat));
  }

  lemma {:induction false} NothingAccounted(pathOf: S.Header -> S.Path, s: Sys, chat: Chat, b: Binding)
    requires Bound(s, chat, b)
    ensures RunSys(pathOf, s, []) == s && Accounted(pathOf, s, [], chat, b, b)
  {
    hide Filed, Kept, Lookup, S.Sound, S.EventLog;
  }

  lemma {:induction false} DiskSound(pathOf: S.Header -> S.Path, s: Sys, op: Op, chat: Chat, b: Binding)
    requires Bound(s, chat, b)
    ensures S.Sound(StepSys(pathOf, s, op).disk)
  {
    DiskGrows(pathOf, s, op, b.sessionId);
  }

  /** Over every history of session operations, resumes, restarts and binds that does not cost the chat its binding:
      resumes from the checkpoint partition the session's log from the first checkpoint on, short of exactly what landed
      between an observation and its checkpoint; a resume from a named offset repeats or skips just the events in
      between, and a bind of the chat skips to the end. */
  lemma {:induction false} ResumesPartition(pathOf: S.Header -> S.Path, s: Sys, ops: seq<Op>, chat: Chat, b: Binding)
    returns (last: Binding)
    requires Bound(s, chat, b) && Undisturbed(pathOf, s, ops, chat, b)
    ensures Bound(RunSys(pathOf, s, ops), chat, last) && Accounted(pathOf, s, ops, chat, b, last)
    decreases |ops|
  {
    hide Bound, Accounted, StepSys, NextBinding, Disturbs;
    if ops == [] {
      last := b;
      NothingAccounted(pathOf, s, chat, b);
    } else {
      var next := NextBinding(pathOf, s, ops[0], chat, b);
      StepBoundIff(pathOf, s, ops[0], chat, b);
      last := ResumesPartition(pathOf, StepSys(pathOf, s, ops[0]), ops[1..], chat, next);
      AccountedCons(pathOf, s, ops, chat, b, next, last);
    }
  }

  lemma {:induction false} ProjectConcat(types: seq<string>, a: seq<S.Event>, b: seq<S.Event>)
    ensures Project(types, a + b) == Project(types, a) + Project(types, b)
  {
    if b == [] {
      assert a + b == a;
    } else {
      assert (a + b)[..|a + b| - 1] == a + b[..|b| - 1];
      ProjectConcat(types, a, b[..|b| - 1]);
    }
  }

  /** Binds of the chat name these event types. */
  ghost predicate SameTypes(ops: seq<Op>, chat: Chat, types: seq<string>) {
    forall i :: 0 <= i < |ops| && ops[i].BindOp? && ops[i].chat == chat ==> ops[i].types == types
  }

  lemma {:induction false} DeliveredCons(pathOf: S.Header -> S.Path, s: Sys, ops: seq<Op>, chat: Chat, b: Binding)
    requires ops != [] && Bound(s, chat, b)
    ensures Delivered(pathOf, s, ops, chat) ==
            Project(b.eventTypes, Seen(s, ops[0], chat)) + Delivered(pathOf, StepSys(pathOf, s, ops[0]), ops[1..], chat)
  {
    hide Filed, Kept, StepSys, Seen, Project, S.Sound;
  }

  lemma {:induction false} SameTypesCons(pathOf: S.Header -> S.Path, s: Sys, ops: seq<Op>, chat: Chat, b: Binding)
    requires ops != [] && SameTypes(ops, chat, b.eventTypes)
    ensures var next := NextBinding(pathOf, s, ops[0], chat, b);
            next.eventTypes == b.eventTypes && SameTypes(ops[1..], chat, next.eventTypes)
  {
    hide S.EventLog, S.LastEventId, S.Load;
    assert forall i :: 0 <= i < |ops[1..]| ==> ops[1..][i] == ops[i + 1];
  }

  /** What is delivered is what is replayed, short of exactly the events whose types the binding does not name. */
  lemma {:induction false} DeliveredIsProjected(pathOf: S.Header -> S.Path, s: Sys, ops: seq<Op>, chat: Chat,
      b: Binding)
    requires Bound(s, chat, b) && Undisturbed(pathOf, s, ops, chat, b) && SameTypes(ops, chat, b.eventTypes)
    ensures Delivered(pathOf, s, ops, chat) == Project(b.eventTypes, Replayed(pathOf, s, ops, chat))
    ensures Selects(b.eventTypes, Replayed(pathOf, s, ops, chat), Delivered(pathOf, s, ops, chat))
    decreases |ops|
  {
    hide Bound, StepSys, Seen, Project, Disturbs, Selects, SameTypes, NextBinding;
    ProjectSelects(b.eventTypes, Replayed(pathOf, s, ops, chat));
    if ops == [] {
      ProjectNone(b.eventTypes);
    } else {
      var next := NextBinding(pathOf, s, ops[0], chat, b);
      StepBoundIff(pathOf, s, ops[0], chat, b);
      SameTypesCons(pathOf, s, ops, chat, b);
      DeliveredCons(pathOf, s, ops, chat, b);
      DeliveredIsProjected(pathOf, StepSys(pathOf, s, ops[0]), ops[1..], chat, next);
      ProjectConcat(b.eventTypes, Seen(s, ops[0], chat), Replayed(pathOf, StepSys(pathOf, s, ops[0]), ops[1..], chat));
    }
  }

  lemma {:induction false} ProjectNone(types: seq<string>)
    ensures Project(types, []) == []
  {}

  /** When resumes start at their checkpoints, their stretch of the log is replayed whole exactly when nothing came
      late. */
  lemma {:induction false} NothingLostIff(pathOf: S.Header -> S.Path, s: Sys, ops: seq<Op>, chat: Chat, b: Binding)
    returns (last: Binding)
    requires Bound(s, chat, b) && Undisturbed(pathOf, s, ops, chat, b) && Straight(pathOf, s, ops, chat)
    ensures Lookup(RunSys(pathOf, s, ops).gate, chat) == Some(last)
    ensures b.offset <= last.offset <= |S.EventLog(RunSys(pathOf, s, ops).disk, b.sessionId)|
    ensures Replayed(pathOf, s, ops, chat) ==
            S.EventLog(RunSys(pathOf, s, ops).disk, b.sessionId)[b.offset..last.offset] <==>
            Missed(pathOf, s, ops, chat) == 0
    ensures Missed(pathOf, s, ops, chat) == 0 && SameTypes(ops, chat, b.eventTypes) ==>
            var stretch := S.EventLog(RunSys(pathOf, s, ops).disk, b.sessionId)[b.offset..last.offset];
            && Delivered(pathOf, s, ops, chat) == Project(b.eventTypes, stretch)
            && Selects(b.eventTypes, stretch, Delivered(pathOf, s, ops, chat))
  {
    last := ResumesPartition(pathOf, s, ops, chat, b);
    if SameTypes(ops, chat, b.eventTypes) {
      DeliveredIsProjected(pathOf, s, ops, chat, b);
    }
  }

  const EMPTY_GATE := Gate(map[], map[])

  /** The chat's checkpoint is at the end of its session. */
  ghost predicate CaughtUp(s: Sys, chat: Chat, id: S.SessionId) {
    && S.Sound(s.disk) && Lookup(s.gate, chat).Some?
    && var b := Lookup(s.gate, chat).value;
       b.sessionId == id && b.offset == |S.EventLog(s.disk, id)|
  }

  lemma {:induction false} ResumeCaughtUp(pathOf: S.Header -> S.Path, s: Sys, chat: Chat, id: S.SessionId,
      late: seq<S.Op>)
    requires CaughtUp(s, chat, id)
    ensures var op := Resume(chat, None, late);
            && CaughtUp(StepSys(pathOf, s, op), chat, id)
            && StepSys(pathOf, s, op).disk == S.Run(pathOf, s.disk, late)
            && Seen(s, op, chat) == []
            && MissedBy(pathOf, s, op, chat) ==
               |S.EventLog(S.Run(pathOf, s.disk, late), id)| - |S.EventLog(s.disk, id)|
  {
    hide S.Sound, S.EventLog, S.LastEventId, S.Load, KeyOf;
    DiskGrows(pathOf, s, Resume(chat, None, late), id);
  }

  lemma {:induction false} LateAppend(pathOf: S.Header -> S.Path, d: S.Disk, id: S.SessionId, e: S.Event)
    requires S.Sound(d)
    ensures S.EventLog(S.Run(pathOf, d, [S.AppendOp(id, [e])]), id) == S.EventLog(d, id) + [e]
  {
    var late := [S.AppendOp(id, [e])];
    S.AppendEventsAccepted(pathOf, d, id, [e]);
    hide S.Step, S.EventLog, S.Sound;
    var next := S.Step(pathOf, d, late[0]);
    assert late[1..] == [];
    assert S.Run(pathOf, d, late) == S.Run(pathOf, next, late[1..]) == next;
    assert S.Load(next, id).events == S.EventLog(next, id) && S.Load(d, id).events == S.EventLog(d, id);
  }

  /** An event that lands between the observation of a resume and its checkpoint is in the log, and neither that resume
      nor the next reads it. */
  lemma {:induction false} LateEventIsLost(pathOf: S.Header -> S.Path, s: Sys, chat: Chat, id: S.SessionId,
      e: S.Event)
    requires CaughtUp(s, chat, id)
    ensures var ops := [Resume(chat, None, [S.AppendOp(id, [e])]), Resume(chat, None, [])];
            && S.EventLog(RunSys(pathOf, s, ops).disk, id) == S.EventLog(s.disk, id) + [e]
            && Missed(pathOf, s, ops, chat) == 1
            && Replayed(pathOf, s, ops, chat) == []
  {
    LateAppend(pathOf, s.disk, id, e);
    hide CaughtUp, StepSys, Seen, MissedBy, S.EventLog, S.Step;
    var late := [S.AppendOp(id, [e])];
    var last := [Resume(chat, None, [])];
    var ops := [Resume(chat, None, late)] + last;
    assert ops[1..] == last && last[1..] == [];
    var t := StepSys(pathOf, s, ops[0]);
    ResumeCaughtUp(pathOf, s, chat, id, late);
    ResumeCaughtUp(pathOf, t, chat, id, []);
    HistoryUnfolds(pathOf, t, last, chat);
    HistoryUnfolds(pathOf, s, ops, chat);
  }

  /** What a resume reads: with what stands before its offset, the whole log; nothing from an offset beyond it. */
  lemma {:induction false} ResumeReads(s: Sys, op: Op, chat: Chat)
    requires Resumes(s, op, chat)
    ensures var b := Lookup(s.gate, chat).value;
            var offset := if op.after.Some? then op.after.value else b.offset;
            var log := S.EventLog(s.disk, b.sessionId);
            if offset <= |log| then log[..offset] + Seen(s, op, chat) == log else Seen(s, op, chat) == []
  {
    hide S.EventLog, Lookup;
  }

  /** What is appended to the session of a caught-up chat is what its next resume reads. */
  lemma {:induction false} AppendedIsReplayed(pathOf: S.Header -> S.Path, s: Sys, chat: Chat, id: S.SessionId,
      events: seq<S.Event>)
    requires CaughtUp(s, chat, id)
    ensures Replayed(pathOf, s, [Session(S.AppendOp(id, events)), Resume(chat, None, [])], chat) == events
  {
    var append := S.AppendOp(id, events);
    S.AppendEventsAccepted(pathOf, s.disk, id, events);
    hide S.Step, S.Sound, Lookup, S.LastEventId;
    var d := S.Step(pathOf, s.disk, append);
    assert S.Load(d, id).events == S.EventLog(d, id) && S.Load(s.disk, id).events == S.EventLog(s.disk, id);
    hide S.EventLog, S.Load;
    var last := [Resume(chat, None, [])];
    var ops := [Session(append)] + last;
    assert ops[1..] == last && last[1..] == [];
    var t := StepSys(pathOf, s, ops[0]);
    assert t.disk == d && t.gate == s.gate;
    HistoryUnfolds(pathOf, s, ops, chat);
    HistoryUnfolds(pathOf, t, last, chat);
    ResumeReads(t, last[0], chat);
    assert Seen(s, ops[0], chat) == [];
  }

  /** So it is for a chat bound on an empty store. */
  lemma {:induction false} BoundCaughtUp(chat: Chat, id: S.SessionId, types: seq<string>)
    ensures CaughtUp(Sys(S.EMPTY_DISK, Bind(EMPTY_GATE, S.EMPTY_DISK, chat, id, types).value), chat, id)
  {
    hide KeyOf;
  }

  // ------------------------------------------------------------------ histories that do not disturb

  /** An operation that binds the chat to its own session only, and names other chats only by names that hold no
      wildcard and are not the chat's. */
  predicate KeepsApart(op: Op, chat: Chat, id: S.SessionId) {
    && (op.BindOp? && op.chat == chat ==> op.id == id)
    && ((op.BindOp? || op.Resume?) && op.chat != chat ==>
          NoMagic(FileName(op.chat)) && FileName(op.chat) != FileName(chat))
  }

  /** For plain names, keeping file names apart is enough. */
  lemma {:induction false} ApartUndisturbed(pathOf: S.Header -> S.Path, s: Sys, ops: seq<Op>, chat: Chat, b: Binding)
    requires Bound(s, chat, b) && NoMagic(FileName(chat))
    requires forall i :: 0 <= i < |ops| ==> KeepsApart(ops[i], chat, b.sessionId)
    ensures Undisturbed(pathOf, s, ops, chat, b)
    decreases |ops|
  {
    hide Bound, StepSys, Disturbs, FileName, NoMagic, KeepsApart;
    if ops != [] {
      var next := NextBinding(pathOf, s, ops[0], chat, b);
      ApartStep(pathOf, s, ops[0], chat, b);
      StepBoundIff(pathOf, s, ops[0], chat, b);
      assert forall i :: 0 <= i < |ops[1..]| ==> ops[1..][i] == ops[i + 1];
      ApartUndisturbed(pathOf, StepSys(pathOf, s, ops[0]), ops[1..], chat, next);
    }
  }

  lemma {:induction false} ApartStep(pathOf: S.Header -> S.Path, s: Sys, op: Op, chat: Chat, b: Binding)
    requires Bound(s, chat, b) && NoMagic(FileName(chat)) && KeepsApart(op, chat, b.sessionId)
    ensures !Disturbs(pathOf, s, op, chat, b)
  {
    hide Match, Findable, Before, PlaceOf, FileName, NoMagic, S.Sound, S.EventLog;
    match op {
      case BindOp(c, id, types) =>
        MatchLiteral(FileName(chat), FileName(c));
      case Resume(c, _, _) =>
        if Lookup(s.gate, c).Some? {
          LookupFiled(s.gate, c);
        }
      case _ =>
    }
  }

  /** Where a resume or a bind leaves the chat's checkpoint: at the end of its session, with the id of the last event
      there is and the session's restore marker, in memory and on file. A bind names its own types. */
  lemma {:induction false} CheckpointAfter(pathOf: S.Header -> S.Path, s: Sys, op: Op, chat: Chat)
    requires || Resumes(s, op, chat)
             || (op.BindOp? && op.chat == chat && Bind(s.gate, s.disk, chat, op.id, op.types).Success?)
    ensures var t := StepSys(pathOf, s, op);
            && Lookup(t.gate, chat).Some?
            && var b := Lookup(t.gate, chat).value;
               var log := S.EventLog(t.disk, b.sessionId);
               && b.offset == |log| && b.lastEventId == (if log == [] then None else Some(log[|log| - 1].eventId))
               && b.restoreMarker == S.Load(t.disk, b.sessionId).header.restoreMarker
               && KeyOf(b) in t.gate.files && t.gate.files[KeyOf(b)] == b
               && (op.BindOp? ==> b.chat == chat && b.sessionId == op.id && b.eventTypes == op.types)
               && (op.Resume? ==>
                     var before := Lookup(s.gate, chat).value;
                     b.chat == before.chat && b.sessionId == before.sessionId && b.eventTypes == before.eventTypes)
  {
    hide KeyOf, S.EventLog, S.Load;
  }

  // ------------------------------------------------------------------ binding, restarting, binding again

  /** A fresh binding starts at the session's end, and survives a restart if and only if its file is found, before every
      other file found. */
  lemma {:induction false} BindStarts(s: Sys, chat: Chat, id: S.SessionId, types: seq<string>)
    requires S.Sound(s.disk) && Bind(s.gate, s.disk, chat, id, types).Success? && Filed(s.gate)
    ensures var g, b := Bind(s.gate, s.disk, chat, id, types).value, Fresh(s.disk, chat, id, types);
            && b.offset == |S.EventLog(s.disk, id)|
            && (Lookup(g.(memory := map[]), chat) == Some(b) <==> Bound(Sys(s.disk, g), chat, b))
            && (Bound(Sys(s.disk, g), chat, b) <==>
                && Finds(FileName(chat), KeyFor(chat, id))
                && forall k :: k in s.gate.files && Finds(FileName(chat), k) && k != KeyFor(chat, id) ==>
                     Before(KeyFor(chat, id), k))
  {
    hide Match, Findable, Before, KeyFor, FileName, NoMagic, S.Sound, S.EventLog;
    var g, b := Bind(s.gate, s.disk, chat, id, types).value, Fresh(s.disk, chat, id, types);
    PersistedFiled(s.gate, chat, b);
    LoadReturnsIff(g.files, FileName(chat), b);
  }

  /** A bind is refused if and only if memory holds another session for the chat. */
  lemma {:induction false} BindRefusedIff(g: Gate, d: S.Disk, chat: Chat, id: S.SessionId, types: seq<string>)
    ensures Bind(g, d, chat, id, types).Failure? <==> chat in g.memory && g.memory[chat].sessionId != id
  {
    hide KeyOf;
  }

  /** A restart frees a chat for any session. */
  lemma {:induction false} RestartAllowsBind(pathOf: S.Header -> S.Path, s: Sys, chat: Chat, id: S.SessionId,
      types: seq<string>)
    ensures Lookup(RunSys(pathOf, s, [Restart, BindOp(chat, id, types)]).gate, chat) ==
            Some(Fresh(s.disk, chat, id, types))
  {
    hide KeyOf, S.EventLog, S.LastEventId, S.Load;
    var last := [BindOp(chat, id, types)];
    var ops := [Restart] + last;
    assert ops[1..] == last && last[1..] == [];
    var t := StepSys(pathOf, s, ops[0]);
    assert RunSys(pathOf, s, ops) == RunSys(pathOf, t, last) == RunSys(pathOf, StepSys(pathOf, t, last[0]), []);
  }

  /** Memory is all that refuses a second session: after a restart every bind succeeds, and the restart after it returns
      the new session if its file hides the old one's, and else the old session again. */
  lemma {:induction false} SecondBindReturns(g: Gate, d: S.Disk, chat: Chat, b: Binding, id: S.SessionId,
      types: seq<string>)
    requires Filed(g) && Kept(g, chat, b)
    ensures var r := Bind(g.(memory := map[]), d, chat, id, types);
            && r.Success?
            && Lookup(r.value, chat) == Some(Fresh(d, chat, id, types))
            && Lookup(r.value.(memory := map[]), chat) ==
               Some(if Hides(KeyFor(chat, id), chat, KeyOf(b)) then Fresh(d, chat, id, types) else b)
  {
    hide Match, Findable, Before, KeyFor, FileName, S.EventLog, S.LastEventId, S.Load, Filed;
    var next, own, pattern := Fresh(d, chat, id, types), KeyOf(b), FileName(chat);
    var key, files := KeyOf(next), g.files[KeyOf(next) := next];
    assert key == KeyFor(chat, id);
    if Hides(key, chat, own) {
      forall k | k in files && Finds(pattern, k) && k != key
        ensures Before(key, k)
      {
        if key != own && k != own {
          BeforeTransitive(key, own, k);
        }
      }
      LoadIs(files, pattern, key);
    } else {
      if Finds(pattern, key) {
        BeforeTotal(key, own);
      }
      LoadIs(files, pattern, own);
    }
  }

  /** A session is found after a restart exactly when its file is: here on a gateway that knows nothing else. */
  lemma {:induction false} OnlyBinding(d: S.Disk, chat: Chat, id: S.SessionId, types: seq<string>, asker: Chat)
    ensures var g := Bind(EMPTY_GATE, d, chat, id, types).value;
            Lookup(g.(memory := map[]), asker) ==
            if Finds(FileName(asker), KeyFor(chat, id)) then Some(Fresh(d, chat, id, types)) else None
  {
    hide Match, Findable, Before, FileName, PlaceOf, S.EventLog, S.LastEventId, S.Load;
    var g := Bind(EMPTY_GATE, d, chat, id, types).value;
    if Finds(FileName(asker), KeyFor(chat, id)) {
      LoadIs(g.files, FileName(asker), KeyFor(chat, id));
    }
  }

  /** A conversation named `a/b`, bound to a session named after it as the hosts do, is bound until a restart and not
      after it, although nothing else was ever bound. */
  lemma {:induction false} SlashBindingIsLost(d: S.Disk, channel: string, prefix: string)
    requires '/' !in channel && '/' !in prefix
    ensures var chat, id := Chat(channel, prefix + "a/b"), channel + "-session:" + prefix + "a/b";
            var g := Bind(EMPTY_GATE, d, chat, id, []).value;
            Lookup(g, chat).Some? && Lookup(g.(memory := map[]), chat) == None
  {
    hide Match, FileName, S.EventLog, S.LastEventId, S.Load;
    var chat, id := Chat(channel, prefix + "a/b"), channel + "-session:" + prefix + "a/b";
    var first := channel + "-session:" + prefix + "a";
    assert id == first + "/" + "b";
    assert |first| > 2;
    SlashPlace(first, "b");
    Text.SplitWhole("b", '/');
    OnlyBinding(d, chat, id, [], chat);
  }

  /** A conversation named `c[1]` loses its binding at a restart, whatever its session. */
  lemma {:induction false} BracketBindingIsLost(d: S.Disk, channel: string, id: S.SessionId)
    requires NoMagic(Safe(channel))
    ensures var chat := Chat(channel, "c[1]");
            var g := Bind(EMPTY_GATE, d, chat, id, []).value;
            Lookup(g, chat).Some? && Lookup(g.(memory := map[]), chat) == None
  {
    hide Match, FileName, PlaceOf, Safe, S.EventLog, S.LastEventId, S.Load;
    BracketMissesItself(channel);
    OnlyBinding(d, Chat(channel, "c[1]"), id, [], Chat(channel, "c[1]"));
  }

  /** A conversation named `*` gets the binding of another conversation of its channel. */
  lemma {:induction false} StarGetsAnother(d: S.Disk, channel: string, conversation: string, id: S.SessionId)
    requires NoMagic(Safe(channel)) && Findable(PlaceOf(id))
    ensures var chat := Chat(channel, conversation);
            var g := Bind(EMPTY_GATE, d, chat, id, []).value;
            Lookup(g.(memory := map[]), Chat(channel, "*")) == Some(Fresh(d, chat, id, []))
  {
    hide Match, FileName, PlaceOf, Findable, Safe, S.EventLog, S.LastEventId, S.Load;
    StarFindsChannel(channel, conversation);
    OnlyBinding(d, Chat(channel, conversation), id, [], Chat(channel, "*"));
  }

  /** A restart hands a chat the binding of any other chat that shares its file name. */
  lemma {:induction false} RestartMixesTwins(g: Gate, chat: Chat, b: Binding, twin: Chat)
    requires Filed(g) && Kept(g, chat, b) && FileName(twin) == FileName(chat)
    ensures Lookup(g.(memory := map[]), twin) == Some(b)
  {
    hide Match, Findable, Before, KeyFor, FileName;
    LoadIs(g.files, FileName(chat), KeyOf(b));
  }
}
