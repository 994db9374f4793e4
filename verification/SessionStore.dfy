/** The append-only session store: many sessions, shared transcripts, one event log and one state file each.

    A disk is four maps. Every JSON line and every whole-file write is one atomic `Write`, so a process
    that dies during a save has performed some prefix of the save's writes. */
module SessionStore {
  import opened Wrappers

  type SessionId = string
  type Path = string

  datatype Message = Message(role: string, content: string, metadata: map<string, string>)

  datatype Event = Event(eventType: string, eventId: string, timestamp: string, payload: string)

  /** A session record without its two histories: what the state file stores beside the counts. */
  datatype Header = Header(
    sessionId: string,
    agentId: Option<string>,
    status: string,
    pendingToolCalls: seq<string>,
    restoreMarker: Option<string>,
    shortTermMemory: Option<string>,
    metadata: map<string, string>)

  datatype Record = Record(header: Header, messages: seq<Message>, events: seq<Event>)

  datatype StatePayload = StatePayload(header: Header, transcriptCount: nat, eventCount: nat)

  datatype Line = Line(sessionId: SessionId, message: Message)

  datatype Disk = Disk(
    states: map<SessionId, StatePayload>,
    eventLogs: map<SessionId, seq<Event>>,
    refs: map<SessionId, Path>,
    transcripts: map<Path, seq<Line>>)

  const EMPTY_DISK := Disk(map[], map[], map[], map[])

  // ------------------------------------------------------------------ views

  function Lines(d: Disk, p: Path): seq<Line> {
    if p in d.transcripts then d.transcripts[p] else []
  }

  /** The messages of one session among the lines of a shared transcript. */
  function Visible(lines: seq<Line>, id: SessionId): seq<Message> {
    if lines == [] then []
    else
      var last := lines[|lines| - 1];
      Visible(lines[..|lines| - 1], id) + if last.sessionId == id then [last.message] else []
  }

  function Transcript(d: Disk, id: SessionId): seq<Message> {
    if id in d.refs then Visible(Lines(d, d.refs[id]), id) else []
  }

  function EventLog(d: Disk, id: SessionId): seq<Event> {
    if id in d.eventLogs then d.eventLogs[id] else []
  }

  function TranscriptCount(d: Disk, id: SessionId): nat {
    if id in d.states then d.states[id].transcriptCount else 0
  }

  function EventCount(d: Disk, id: SessionId): nat {
    if id in d.states then d.states[id].eventCount else 0
  }

  function FreshHeader(id: SessionId): Header {
    Header(id, None, "idle", [], None, None, map[])
  }

  function Load(d: Disk, id: SessionId): Record {
    var header := if id in d.states then d.states[id].header else FreshHeader(id);
    Record(header, Transcript(d, id), EventLog(d, id))
  }

  // ------------------------------------------------------------------ writes

  /** The atomic writes of a session: `p` is the transcript it is bound to. */
  datatype Write =
    | WriteRef(p: Path)
    | AppendLine(p: Path, message: Message)
    | AppendEvent(event: Event)
    | WriteState(payload: StatePayload)

  function Perform(d: Disk, id: SessionId, w: Write): Disk {
    match w
    case WriteRef(p) => d.(refs := d.refs[id := p])
    case AppendLine(p, m) => d.(transcripts := d.transcripts[p := Lines(d, p) + [Line(id, m)]])
    case AppendEvent(e) => d.(eventLogs := d.eventLogs[id := EventLog(d, id) + [e]])
    case WriteState(s) => d.(states := d.states[id := s])
  }

  function PerformAll(d: Disk, id: SessionId, ws: seq<Write>): Disk
    decreases |ws|
  {
    if ws == [] then d else PerformAll(Perform(d, id, ws[0]), id, ws[1..])
  }

  function AppendLines(p: Path, messages: seq<Message>): (ws: seq<Write>)
    ensures |ws| == |messages|
  {
    if messages == [] then [] else [AppendLine(p, messages[0])] + AppendLines(p, messages[1..])
  }

  function AppendEventsOf(events: seq<Event>): (ws: seq<Write>)
    ensures |ws| == |events|
  {
    if events == [] then [] else [AppendEvent(events[0])] + AppendEventsOf(events[1..])
  }

  // ------------------------------------------------------------------ saving

  datatype SaveError = BackingMissing | CannotTruncate | Diverged

  /** How many entries of `given` a save may treat as stored, or why it must refuse. */
  function ValidatedCount<T(==)>(stored: seq<T>, given: seq<T>, persisted: nat): Result<nat, SaveError> {
    if persisted > |stored| then
      if stored == given then Success(persisted) else Failure(BackingMissing)
    else if |stored| > |given| then Failure(CannotTruncate)
    else if stored != given[..|stored|] then Failure(Diverged)
    else Success(|stored|)
  }

  datatype SavePlan = SavePlan(writes: seq<Write>, error: Option<SaveError>)

  function BoundPath(pathOf: Header -> Path, d: Disk, id: SessionId, rec: Record): Path {
    if id in d.refs then d.refs[id] else pathOf(rec.header)
  }

  function RefWrites(pathOf: Header -> Path, d: Disk, id: SessionId, rec: Record): seq<Write> {
    if id in d.refs then [] else [WriteRef(pathOf(rec.header))]
  }

  function SavedPayload(rec: Record): StatePayload {
    StatePayload(rec.header, |rec.messages|, |rec.events|)
  }

  /** The writes of one save, in order, up to its end or its rejection. The reference is written first, so
      both histories are validated with the session already bound. */
  function Plan(pathOf: Header -> Path, d: Disk, id: SessionId, rec: Record): SavePlan {
    var p := BoundPath(pathOf, d, id, rec);
    var ref := RefWrites(pathOf, d, id, rec);
    var transcript := ValidatedCount(Visible(Lines(d, p), id), rec.messages, TranscriptCount(d, id));
    if transcript.Failure? then SavePlan(ref, Some(transcript.error))
    else
      var events := ValidatedCount(EventLog(d, id), rec.events, EventCount(d, id));
      if events.Failure? then SavePlan(ref, Some(events.error))
      else if transcript.value > |rec.messages| then SavePlan(ref, Some(CannotTruncate))
      else
        var lines := AppendLines(p, rec.messages[transcript.value..]);
        if events.value > |rec.events| then SavePlan(ref + lines, Some(CannotTruncate))
        else
          SavePlan(ref + lines + AppendEventsOf(rec.events[events.value..]) + [WriteState(SavedPayload(rec))], None)
  }

  predicate Accepted(pathOf: Header -> Path, d: Disk, id: SessionId, rec: Record) {
    Plan(pathOf, d, id, rec).error.None?
  }

  function Save(pathOf: Header -> Path, d: Disk, id: SessionId, rec: Record): Disk {
    PerformAll(d, id, Plan(pathOf, d, id, rec).writes)
  }

  /** A save whose process dies after `k` writes. */
  function CutSave(pathOf: Header -> Path, d: Disk, id: SessionId, rec: Record, k: nat): Disk {
    var ws := Plan(pathOf, d, id, rec).writes;
    PerformAll(d, id, if k <= |ws| then ws[..k] else ws)
  }

  function SaveStateOnly(d: Disk, id: SessionId, header: Header): Disk {
    Perform(d, id, WriteState(StatePayload(header, TranscriptCount(d, id), EventCount(d, id))))
  }

  function WithEvents(rec: Record, events: seq<Event>): Record {
    rec.(events := rec.events + events)
  }

  function LastEventId(d: Disk, id: SessionId): Option<string> {
    var log := EventLog(d, id);
    if log == [] then None else Some(log[|log| - 1].eventId)
  }

  /** `cursorEventId` is the last event id of the cursor, when a cursor with one is given. */
  function MarkRestored(d: Disk, id: SessionId, cursorEventId: Option<string>): Disk {
    var marker := if cursorEventId.Some? then cursorEventId else LastEventId(d, id);
    SaveStateOnly(d, id, Load(d, id).header.(restoreMarker := marker))
  }

  // ------------------------------------------------------------------ the invariant

  /** No state file claims more entries than its session can see. */
  ghost predicate CountsVisible(d: Disk) {
    forall id :: TranscriptCount(d, id) <= |Transcript(d, id)| && EventCount(d, id) <= |EventLog(d, id)|
  }

  /** Every transcript line lies in the transcript its own session is bound to. */
  ghost predicate Anchored(d: Disk) {
    forall p, i :: p in d.transcripts && 0 <= i < |d.transcripts[p]| ==>
      BoundTo(d, d.transcripts[p][i].sessionId, p)
  }

  predicate BoundTo(d: Disk, id: SessionId, p: Path) {
    id in d.refs && d.refs[id] == p
  }

  ghost predicate Sound(d: Disk) {
    CountsVisible(d) && Anchored(d)
  }

  /** What any operation owes a session: its histories grow at the end only and its reference stays. */
  ghost predicate Grows(d: Disk, e: Disk, id: SessionId) {
    && Transcript(d, id) <= Transcript(e, id)
    && EventLog(d, id) <= EventLog(e, id)
    && (id in d.refs ==> id in e.refs && e.refs[id] == d.refs[id])
  }

  /** Nothing a session can observe differs. */
  ghost predicate SameView(d: Disk, e: Disk, id: SessionId) {
    && Load(d, id) == Load(e, id)
    && TranscriptCount(d, id) == TranscriptCount(e, id)
    && EventCount(d, id) == EventCount(e, id)
    && (id in d.refs <==> id in e.refs)
    && (id in d.refs ==> e.refs[id] == d.refs[id])
  }

  lemma {:induction false} VisibleAppend(lines: seq<Line>, l: Line, id: SessionId)
    ensures Visible(lines + [l], id) == Visible(lines, id) + if l.sessionId == id then [l.message] else []
  {
    assert (lines + [l])[..|lines|] == lines;
  }

  lemma {:induction false} VisibleNone(lines: seq<Line>, id: SessionId)
    requires forall i :: 0 <= i < |lines| ==> lines[i].sessionId != id
    ensures Visible(lines, id) == []
  {
    if lines != [] {
      VisibleNone(lines[..|lines| - 1], id);
    }
  }

  /** A session without a reference has no line anywhere, so validating before or after binding agree. */
  lemma {:induction false} UnboundSeesNothing(d: Disk, id: SessionId, p: Path)
    requires Anchored(d) && !BoundTo(d, id, p)
    ensures Visible(Lines(d, p), id) == []
  {
    VisibleNone(Lines(d, p), id);
  }

  /** A write a sound disk may take: lines go to the bound transcript, references are never moved, counts
      are never above what is visible. */
  ghost predicate Legal(d: Disk, id: SessionId, w: Write) {
    match w
    case WriteRef(p) => id !in d.refs
    case AppendLine(p, m) => BoundTo(d, id, p)
    case AppendEvent(e) => true
    case WriteState(s) => s.transcriptCount <= |Transcript(d, id)| && s.eventCount <= |EventLog(d, id)|
  }

  lemma {:induction false} PerformVisible(d: Disk, id: SessionId, w: Write, other: SessionId)
    requires Anchored(d) && Legal(d, id, w)
    ensures var e := Perform(d, id, w);
            && Transcript(e, other) == Transcript(d, other) +
               (if w.AppendLine? && other == id then [w.message] else [])
            && EventLog(e, other) == EventLog(d, other) +
               (if w.AppendEvent? && other == id then [w.event] else [])
  {
    match w
    case WriteRef(p) => UnboundSeesNothing(d, id, p);
    case AppendLine(p, m) => VisibleAppend(Lines(d, p), Line(id, m), other);
    case AppendEvent(e) =>
    case WriteState(s) =>
  }

  lemma {:induction false} PerformAnchored(d: Disk, id: SessionId, w: Write)
    requires Anchored(d) && Legal(d, id, w)
    ensures Anchored(Perform(d, id, w))
  {
    var e := Perform(d, id, w);
    forall p, i | p in e.transcripts && 0 <= i < |e.transcripts[p]|
      ensures BoundTo(e, e.transcripts[p][i].sessionId, p)
    {
      if i < |Lines(d, p)| {
        assert e.transcripts[p][i] == d.transcripts[p][i];
      }
    }
  }

  lemma {:induction false} PerformViews(d: Disk, id: SessionId, w: Write, other: SessionId)
    requires Sound(d) && Legal(d, id, w)
    ensures var e := Perform(d, id, w);
            && Grows(d, e, other)
            && (other != id ==> SameView(d, e, other))
            && TranscriptCount(e, other) <= |Transcript(e, other)|
            && EventCount(e, other) <= |EventLog(e, other)|
  {
    PerformVisible(d, id, w, other);
    assert TranscriptCount(d, other) <= |Transcript(d, other)| && EventCount(d, other) <= |EventLog(d, other)|;
  }

  lemma {:induction false} PerformSound(d: Disk, id: SessionId, w: Write)
    requires Sound(d) && Legal(d, id, w)
    ensures Sound(Perform(d, id, w))
    ensures forall other :: Grows(d, Perform(d, id, w), other)
    ensures forall other :: other != id ==> SameView(d, Perform(d, id, w), other)
  {
    PerformAnchored(d, id, w);
    forall other {
      PerformViews(d, id, w, other);
    }
  }

  // ------------------------------------------------------------------ what a save does

  /** The writes an accepted save still has to make. */
  function Remaining(bound: bool, p: Path, messages: seq<Message>, events: seq<Event>,
      state: StatePayload): seq<Write> {
    (if bound then [] else [WriteRef(p)]) + AppendLines(p, messages) + AppendEventsOf(events) + [WriteState(state)]
  }

  function RemainingFor(pathOf: Header -> Path, d: Disk, id: SessionId, rec: Record): seq<Write>
    requires Transcript(d, id) <= rec.messages && EventLog(d, id) <= rec.events
  {
    Remaining(id in d.refs, BoundPath(pathOf, d, id, rec), rec.messages[|Transcript(d, id)|..],
              rec.events[|EventLog(d, id)|..], SavedPayload(rec))
  }

  /** On a sound disk a save is accepted exactly when both stored histories are prefixes of the given ones;
      otherwise it writes at most the transcript reference. */
  lemma {:induction false} SaveAcceptedIffPrefix(pathOf: Header -> Path, d: Disk, id: SessionId, rec: Record)
    requires Sound(d)
    ensures Accepted(pathOf, d, id, rec) <==>
            Transcript(d, id) <= rec.messages && EventLog(d, id) <= rec.events
    ensures Accepted(pathOf, d, id, rec) ==>
            Plan(pathOf, d, id, rec).writes == RemainingFor(pathOf, d, id, rec)
    ensures !Accepted(pathOf, d, id, rec) ==>
            Plan(pathOf, d, id, rec).writes == RefWrites(pathOf, d, id, rec)
  {
    assert TranscriptCount(d, id) <= |Transcript(d, id)| && EventCount(d, id) <= |EventLog(d, id)|;
    var p := BoundPath(pathOf, d, id, rec);
    if id !in d.refs {
      UnboundSeesNothing(d, id, p);
    }
    assert Visible(Lines(d, p), id) == Transcript(d, id);
  }

  lemma {:induction false} RemainingHead(bound: bool, p: Path, messages: seq<Message>, events: seq<Event>,
      state: StatePayload)
    ensures var ws := Remaining(bound, p, messages, events, state);
            && |ws| == (if bound then 0 else 1) + |messages| + |events| + 1
            && (if !bound then
                  ws[0] == WriteRef(p) && ws[1..] == Remaining(true, p, messages, events, state)
                else if messages != [] then
                  ws[0] == AppendLine(p, messages[0]) && ws[1..] == Remaining(true, p, messages[1..], events, state)
                else if events != [] then
                  ws[0] == AppendEvent(events[0]) && ws[1..] == Remaining(true, p, [], events[1..], state)
                else
                  ws == [WriteState(state)])
  {}

  ghost predicate Prefixes(d: Disk, id: SessionId, rec: Record) {
    Transcript(d, id) <= rec.messages && EventLog(d, id) <= rec.events
  }

  /** The first write still to make is legal, and performing it leaves the other ones to make. */
  ghost predicate Resumes(pathOf: Header -> Path, d: Disk, id: SessionId, rec: Record)
    requires Prefixes(d, id, rec)
  {
    var ws := RemainingFor(pathOf, d, id, rec);
    && ws != []
    && Legal(d, id, ws[0])
    && Prefixes(Perform(d, id, ws[0]), id, rec)
    && RemainingFor(pathOf, Perform(d, id, ws[0]), id, rec) == (if |ws| > 1 then ws[1..] else ws)
  }

  lemma {:induction false} ResumesAtRef(pathOf: Header -> Path, d: Disk, id: SessionId, rec: Record)
    requires Sound(d) && Prefixes(d, id, rec) && id !in d.refs
    ensures Resumes(pathOf, d, id, rec)
  {
    hide Visible, AppendLines, AppendEventsOf, Plan, CountsVisible, Anchored;
    var ws := RemainingFor(pathOf, d, id, rec);
    var p, m, n := BoundPath(pathOf, d, id, rec), |Transcript(d, id)|, |EventLog(d, id)|;
    RemainingHead(id in d.refs, p, rec.messages[m..], rec.events[n..], SavedPayload(rec));
    PerformVisible(d, id, ws[0], id);
    assert ws[1..] == Remaining(true, p, rec.messages[m..], rec.events[n..], SavedPayload(rec));
  }

  lemma {:induction false} ResumesAtLine(pathOf: Header -> Path, d: Disk, id: SessionId, rec: Record)
    requires Sound(d) && Prefixes(d, id, rec) && id in d.refs && |Transcript(d, id)| < |rec.messages|
    ensures Resumes(pathOf, d, id, rec)
  {
    hide Visible, AppendLines, AppendEventsOf, Plan, CountsVisible, Anchored;
    var ws := RemainingFor(pathOf, d, id, rec);
    var p, m, n := BoundPath(pathOf, d, id, rec), |Transcript(d, id)|, |EventLog(d, id)|;
    RemainingHead(id in d.refs, p, rec.messages[m..], rec.events[n..], SavedPayload(rec));
    PerformVisible(d, id, ws[0], id);
    assert rec.messages[m..][1..] == rec.messages[m + 1..];
  }

  lemma {:induction false} ResumesAtEvent(pathOf: Header -> Path, d: Disk, id: SessionId, rec: Record)
    requires Sound(d) && Prefixes(d, id, rec) && id in d.refs && Transcript(d, id) == rec.messages &&
            |EventLog(d, id)| < |rec.events|
    ensures Resumes(pathOf, d, id, rec)
  {
    hide Visible, AppendLines, AppendEventsOf, Plan, CountsVisible, Anchored;
    var ws := RemainingFor(pathOf, d, id, rec);
    var p, m, n := BoundPath(pathOf, d, id, rec), |Transcript(d, id)|, |EventLog(d, id)|;
    RemainingHead(id in d.refs, p, rec.messages[m..], rec.events[n..], SavedPayload(rec));
    assert rec.messages[m..] == [];
    assert ws[0] == AppendEvent(rec.events[n]);
    assert ws[1..] == Remaining(true, p, [], rec.events[n + 1..], SavedPayload(rec)) by {
      assert rec.events[n..][1..] == rec.events[n + 1..];
    }
    PerformVisible(d, id, ws[0], id);
    hide Remaining, Transcript, EventLog;
  }

  lemma {:induction false} ResumesAtState(pathOf: Header -> Path, d: Disk, id: SessionId, rec: Record)
    requires Sound(d) && Prefixes(d, id, rec) && id in d.refs && Transcript(d, id) == rec.messages &&
            EventLog(d, id) == rec.events
    ensures Resumes(pathOf, d, id, rec)
  {
    hide Visible, AppendLines, AppendEventsOf, Plan, CountsVisible, Anchored;
    var ws := RemainingFor(pathOf, d, id, rec);
    var p, m, n := BoundPath(pathOf, d, id, rec), |Transcript(d, id)|, |EventLog(d, id)|;
    RemainingHead(id in d.refs, p, rec.messages[m..], rec.events[n..], SavedPayload(rec));
    PerformVisible(d, id, ws[0], id);
    assert ws == Remaining(true, p, [], [], SavedPayload(rec));
  }

  lemma {:induction false} RemainingResumes(pathOf: Header -> Path, d: Disk, id: SessionId, rec: Record)
    requires Sound(d) && Prefixes(d, id, rec)
    ensures Resumes(pathOf, d, id, rec)
  {
    hide Resumes, Sound, Transcript, EventLog;
    if id !in d.refs {
      ResumesAtRef(pathOf, d, id, rec);
    } else if |Transcript(d, id)| < |rec.messages| {
      ResumesAtLine(pathOf, d, id, rec);
    } else if |EventLog(d, id)| < |rec.events| {
      ResumesAtEvent(pathOf, d, id, rec);
    } else {
      ResumesAtState(pathOf, d, id, rec);
    }
  }

  /** Performing the first write of an accepted save leaves exactly the rest of its writes to be planned; the
      last write is idempotent. */
  lemma {:induction false} PlanResumes(pathOf: Header -> Path, d: Disk, id: SessionId, rec: Record)
    requires Sound(d) && Accepted(pathOf, d, id, rec)
    ensures var ws := Plan(pathOf, d, id, rec).writes;
            && ws != []
            && Legal(d, id, ws[0])
            && Accepted(pathOf, Perform(d, id, ws[0]), id, rec)
            && Plan(pathOf, Perform(d, id, ws[0]), id, rec).writes == (if |ws| > 1 then ws[1..] else ws)
  {
    SaveAcceptedIffPrefix(pathOf, d, id, rec);
    RemainingResumes(pathOf, d, id, rec);
    var e := Perform(d, id, Plan(pathOf, d, id, rec).writes[0]);
    PerformSound(d, id, Plan(pathOf, d, id, rec).writes[0]);
    SaveAcceptedIffPrefix(pathOf, e, id, rec);
  }

  // ------------------------------------------------------------------ saves, cut and whole

  ghost predicate Preserves(d: Disk, e: Disk, id: SessionId) {
    && Sound(e)
    && (forall other :: Grows(d, e, other))
    && (forall other :: other != id ==> SameView(d, e, other))
  }

  lemma {:induction false} PreservesSelf(d: Disk, id: SessionId)
    requires Sound(d)
    ensures Preserves(d, d, id)
  {}

  lemma {:induction false} PreservesTransitive(d: Disk, e: Disk, f: Disk, id: SessionId)
    requires Preserves(d, e, id) && Preserves(e, f, id)
    ensures Preserves(d, f, id)
  {
    forall other
      ensures Grows(d, f, other) && (other != id ==> SameView(d, f, other))
    {
      assert Grows(d, e, other) && Grows(e, f, other);
      assert other != id ==> SameView(d, e, other) && SameView(e, f, other);
    }
  }

  lemma {:induction false} PerformOne(d: Disk, id: SessionId, ws: seq<Write>)
    requires |ws| == 1
    ensures PerformAll(d, id, ws) == Perform(d, id, ws[0])
  {
    assert PerformAll(Perform(d, id, ws[0]), id, ws[1..]) == Perform(d, id, ws[0]);
  }

  /** The first write of an accepted save, as a cut save. */
  lemma {:induction false} CutOne(pathOf: Header -> Path, d: Disk, id: SessionId, rec: Record)
    requires Plan(pathOf, d, id, rec).writes != []
    ensures CutSave(pathOf, d, id, rec, 1) == Perform(d, id, Plan(pathOf, d, id, rec).writes[0])
  {
    PerformOne(d, id, Plan(pathOf, d, id, rec).writes[..1]);
  }

  /** One write into an accepted save, the same record still leads to the same disk. */
  lemma {:induction false} SaveUnfolds(pathOf: Header -> Path, d: Disk, id: SessionId, rec: Record)
    requires Sound(d) && Accepted(pathOf, d, id, rec)
    ensures var d1 := CutSave(pathOf, d, id, rec, 1);
            && Preserves(d, d1, id)
            && Accepted(pathOf, d1, id, rec)
            && Save(pathOf, d1, id, rec) == Save(pathOf, d, id, rec)
  {
    hide Transcript, EventLog, Grows, SameView, Sound, Plan;
    var ws := Plan(pathOf, d, id, rec).writes;
    PlanResumes(pathOf, d, id, rec);
    var d1 := Perform(d, id, ws[0]);
    PerformSound(d, id, ws[0]);
    CutOne(pathOf, d, id, rec);
    if |ws| == 1 {
      SaveAcceptedIffPrefix(pathOf, d, id, rec);
      assert Perform(d1, id, ws[0]) == d1;
    }
  }

  lemma {:induction false} CutUnfolds(pathOf: Header -> Path, d: Disk, id: SessionId, rec: Record, k: nat)
    requires Sound(d) && Accepted(pathOf, d, id, rec)
    requires 1 < k <= |Plan(pathOf, d, id, rec).writes|
    ensures var d1 := CutSave(pathOf, d, id, rec, 1);
            && |Plan(pathOf, d1, id, rec).writes| == |Plan(pathOf, d, id, rec).writes| - 1
            && CutSave(pathOf, d, id, rec, k) == CutSave(pathOf, d1, id, rec, k - 1)
  {
    var ws := Plan(pathOf, d, id, rec).writes;
    PlanResumes(pathOf, d, id, rec);
    CutOne(pathOf, d, id, rec);
    assert ws[..k][1..] == ws[1..][..k - 1];
  }

  /** The heart of crash safety. After any number `k` of the writes of an accepted save: the disk is sound,
      both histories lie between the stored and the intended ones, nobody else notices, and saving the same
      record again is accepted and ends on the very disk the uncut save ends on. */
  lemma {:induction false} CutSaveThenResave(pathOf: Header -> Path, d: Disk, id: SessionId, rec: Record, k: nat)
    requires Sound(d) && Accepted(pathOf, d, id, rec)
    ensures var e := CutSave(pathOf, d, id, rec, k);
            && Preserves(d, e, id)
            && Prefixes(e, id, rec)
            && Accepted(pathOf, e, id, rec)
            && Save(pathOf, e, id, rec) == Save(pathOf, d, id, rec)
    decreases k
  {
    hide Plan, Transcript, EventLog, Grows, SameView, Sound;
    var ws := Plan(pathOf, d, id, rec).writes;
    SaveAcceptedIffPrefix(pathOf, d, id, rec);
    if k == 0 {
      assert ws[..0] == [];
      PreservesSelf(d, id);
    } else if k > |ws| {
      assert ws[..|ws|] == ws;
      CutSaveThenResave(pathOf, d, id, rec, |ws|);
    } else {
      SaveUnfolds(pathOf, d, id, rec);
      var d1 := CutSave(pathOf, d, id, rec, 1);
      SaveAcceptedIffPrefix(pathOf, d1, id, rec);
      if k > 1 {
        CutUnfolds(pathOf, d, id, rec, k);
        CutSaveThenResave(pathOf, d1, id, rec, k - 1);
        PreservesTransitive(d, d1, CutSave(pathOf, d, id, rec, k), id);
      }
    }
  }

  /** The uncut save: sound, invisible to others, and read back exactly. */
  lemma {:induction false} SavePreserves(pathOf: Header -> Path, d: Disk, id: SessionId, rec: Record)
    requires Sound(d)
    ensures Preserves(d, Save(pathOf, d, id, rec), id)
  {
    SaveAcceptedIffPrefix(pathOf, d, id, rec);
    var ws := Plan(pathOf, d, id, rec).writes;
    if Accepted(pathOf, d, id, rec) {
      assert ws[..|ws|] == ws;
      CutSaveThenResave(pathOf, d, id, rec, |ws|);
    } else if ws != [] {
      PerformOne(d, id, ws);
      PerformSound(d, id, ws[0]);
    }
  }

  lemma {:induction false} CutOneShrinks(pathOf: Header -> Path, d: Disk, id: SessionId, rec: Record)
    requires Sound(d) && Accepted(pathOf, d, id, rec) && |Plan(pathOf, d, id, rec).writes| > 1
    ensures var d1 := CutSave(pathOf, d, id, rec, 1);
            && BoundPath(pathOf, d1, id, rec) == BoundPath(pathOf, d, id, rec)
            && |Plan(pathOf, d1, id, rec).writes| == |Plan(pathOf, d, id, rec).writes| - 1
  {
    PlanResumes(pathOf, d, id, rec);
    CutOne(pathOf, d, id, rec);
    SaveAcceptedIffPrefix(pathOf, d, id, rec);
    RemainingHead(id in d.refs, BoundPath(pathOf, d, id, rec), rec.messages[|Transcript(d, id)|..],
                  rec.events[|EventLog(d, id)|..], SavedPayload(rec));
  }

  lemma {:induction false} LastWrite(pathOf: Header -> Path, d: Disk, id: SessionId, rec: Record)
    requires Sound(d) && Accepted(pathOf, d, id, rec) && |Plan(pathOf, d, id, rec).writes| == 1
    ensures Transcript(d, id) == rec.messages && EventLog(d, id) == rec.events && id in d.refs
    ensures Save(pathOf, d, id, rec) == Perform(d, id, WriteState(SavedPayload(rec)))
  {
    SaveAcceptedIffPrefix(pathOf, d, id, rec);
    RemainingHead(id in d.refs, BoundPath(pathOf, d, id, rec), rec.messages[|Transcript(d, id)|..],
                  rec.events[|EventLog(d, id)|..], SavedPayload(rec));
    PerformOne(d, id, Plan(pathOf, d, id, rec).writes);
  }

  lemma {:induction false} LoadAfterSave(pathOf: Header -> Path, d: Disk, id: SessionId, rec: Record)
    requires Sound(d) && Accepted(pathOf, d, id, rec)
    ensures var e := Save(pathOf, d, id, rec);
            && Load(e, id) == rec
            && id in e.states && e.states[id] == StatePayload(rec.header, |rec.messages|, |rec.events|)
            && id in e.refs && e.refs[id] == BoundPath(pathOf, d, id, rec)
    decreases |Plan(pathOf, d, id, rec).writes|
  {
    hide Plan, Sound, CutSave, Save;
    SaveUnfolds(pathOf, d, id, rec);
    if |Plan(pathOf, d, id, rec).writes| > 1 {
      CutOneShrinks(pathOf, d, id, rec);
      LoadAfterSave(pathOf, CutSave(pathOf, d, id, rec, 1), id, rec);
    } else {
      PlanResumes(pathOf, d, id, rec);
      LastWrite(pathOf, d, id, rec);
    }
  }

  /** A rejected save of a sound disk touches no log line and no state file. */
  lemma {:induction false} RejectedSaveKeepsLogs(pathOf: Header -> Path, d: Disk, id: SessionId, rec: Record)
    requires Sound(d) && !Accepted(pathOf, d, id, rec)
    ensures var e := Save(pathOf, d, id, rec);
            && e.states == d.states && e.eventLogs == d.eventLogs && e.transcripts == d.transcripts
            && forall other :: Load(e, other) == Load(d, other)
  {
    SaveAcceptedIffPrefix(pathOf, d, id, rec);
    var ws := Plan(pathOf, d, id, rec).writes;
    if ws != [] {
      PerformOne(d, id, ws);
      UnboundSeesNothing(d, id, pathOf(rec.header));
    }
  }

  /** On any disk at all, a rejected save leaves transcript lines behind exactly when the event log is shorter
      than its count and equals the given events, while the transcript is good and has a suffix to append. */
  lemma {:induction false} RejectedSaveLeaksIff(pathOf: Header -> Path, d: Disk, id: SessionId, rec: Record)
    requires !Accepted(pathOf, d, id, rec)
    ensures (exists w :: w in Plan(pathOf, d, id, rec).writes && w.AppendLine?) <==>
            var stored := Visible(Lines(d, BoundPath(pathOf, d, id, rec)), id);
            && EventCount(d, id) > |EventLog(d, id)| && EventLog(d, id) == rec.events
            && TranscriptCount(d, id) <= |stored| < |rec.messages| && stored <= rec.messages
  {
    var p := BoundPath(pathOf, d, id, rec);
    var stored := Visible(Lines(d, p), id);
    var transcript := ValidatedCount(stored, rec.messages, TranscriptCount(d, id));
    if transcript.Success? && transcript.value < |rec.messages| {
      var rest := rec.messages[transcript.value..];
      assert AppendLines(p, rest)[0] == AppendLine(p, rest[0]);
      if EventCount(d, id) > |EventLog(d, id)| && EventLog(d, id) == rec.events {
        assert AppendLine(p, rest[0]) in Plan(pathOf, d, id, rec).writes;
      }
    }
  }

  // ------------------------------------------------------------------ why a save is refused

  /** Of a sound disk a save is refused for the first history that falls short: a stored history longer than the given
      one cannot be truncated, and any other that is no prefix has diverged. */
  lemma {:induction false} SaveErrorIs(pathOf: Header -> Path, d: Disk, id: SessionId, rec: Record)
    requires Sound(d)
    ensures Plan(pathOf, d, id, rec).error ==
            if !(Transcript(d, id) <= rec.messages) then
              Some(if |Transcript(d, id)| > |rec.messages| then CannotTruncate else Diverged)
            else if !(EventLog(d, id) <= rec.events) then
              Some(if |EventLog(d, id)| > |rec.events| then CannotTruncate else Diverged)
            else None
  {
    assert TranscriptCount(d, id) <= |Transcript(d, id)| && EventCount(d, id) <= |EventLog(d, id)|;
    if id !in d.refs {
      UnboundSeesNothing(d, id, pathOf(rec.header));
    }
    assert Visible(Lines(d, BoundPath(pathOf, d, id, rec)), id) == Transcript(d, id);
  }

  /** Stored entries that a state file counts and the backing does not have, and what is left is not what is given. */
  predicate Missing<T(==)>(left: seq<T>, given: seq<T>, counted: nat) {
    |left| < counted && left != given
  }

  /** The state file of a session is the same and its transcript is still bound, to whatever. */
  predicate StateKept(d: Disk, e: Disk, id: SessionId) {
    && (id in d.states ==> id in e.states && e.states[id] == d.states[id])
    && (id in d.refs ==> id in e.refs)
  }

  /** After an accepted save, whatever else happens to the disk: when lines or events it counted are lost, no save of
      the session is accepted any more. The reason given is the missing backing exactly when lost lines leave something
      other than the given messages, or else, with messages that pass, lost events leave something other than the given
      events; then nothing is written. */
  lemma {:induction false} LossRefused(pathOf: Header -> Path, d: Disk, id: SessionId, rec: Record, e: Disk,
      next: Record)
    requires Sound(d) && Accepted(pathOf, d, id, rec)
    requires StateKept(Save(pathOf, d, id, rec), e, id)
    requires |Transcript(e, id)| < |rec.messages| || |EventLog(e, id)| < |rec.events|
    ensures !Accepted(pathOf, e, id, next)
    ensures Plan(pathOf, e, id, next).error == Some(BackingMissing) <==>
            || Missing(Transcript(e, id), next.messages, |rec.messages|)
            || ((if |Transcript(e, id)| < |rec.messages| then Transcript(e, id) == next.messages
                 else Transcript(e, id) <= next.messages) &&
                Missing(EventLog(e, id), next.events, |rec.events|))
    ensures Plan(pathOf, e, id, next).error == Some(BackingMissing) ==> Save(pathOf, e, id, next) == e
  {
    LoadAfterSave(pathOf, d, id, rec);
    hide Visible, AppendLines, AppendEventsOf, Save;
    assert TranscriptCount(e, id) == |rec.messages| && EventCount(e, id) == |rec.events|;
    assert Visible(Lines(e, BoundPath(pathOf, e, id, next)), id) == Transcript(e, id);
    if Plan(pathOf, e, id, next).error == Some(BackingMissing) {
      NoWritesNoChange(pathOf, e, id, next);
    }
  }

  lemma {:induction false} NoWritesNoChange(pathOf: Header -> Path, d: Disk, id: SessionId, rec: Record)
    ensures Plan(pathOf, d, id, rec).writes == [] ==> Save(pathOf, d, id, rec) == d
  {
    hide Plan;
  }

  // ------------------------------------------------------------------ headers and markers

  /** A session nobody ever wrote loads as a fresh one. */
  lemma {:induction false} LoadOfNobody(id: SessionId)
    ensures var rec := Load(EMPTY_DISK, id);
            && rec.messages == [] && rec.events == []
            && rec.header.sessionId == id && rec.header.status == "idle" && rec.header.agentId == None
            && rec.header.pendingToolCalls == [] && rec.header.restoreMarker == None
            && rec.header.shortTermMemory == None && rec.header.metadata == map[]
  {}

  /** A state-only save is read back as the new header over the old histories, and counts what was counted before. */
  lemma {:induction false} HeaderReadsBack(d: Disk, id: SessionId, header: Header)
    ensures var e := SaveStateOnly(d, id, header);
            && Load(e, id) == Record(header, Load(d, id).messages, Load(d, id).events)
            && TranscriptCount(e, id) == TranscriptCount(d, id) && EventCount(e, id) == EventCount(d, id)
  {}

  /** A restore mark is read back: the cursor's event, or without one the last event of the log, if there is any;
      nothing else about the session changes. */
  lemma {:induction false} MarkerReadsBack(d: Disk, id: SessionId, cursorEventId: Option<string>)
    ensures var before, after := Load(d, id), Load(MarkRestored(d, id, cursorEventId), id);
            && after == before.(header := before.header.(restoreMarker := after.header.restoreMarker))
            && (cursorEventId.Some? ==> after.header.restoreMarker == cursorEventId)
            && (cursorEventId.None? && before.events != [] ==>
                  after.header.restoreMarker == Some(before.events[|before.events| - 1].eventId))
            && (cursorEventId.None? && before.events == [] ==> after.header.restoreMarker == None)
  {
    hide Visible;
  }

  /** A disk whose state file counts an event its log does not have. */
  function LostLog(id: SessionId): Disk {
    Disk(map[id := StatePayload(FreshHeader(id), 0, 1)], map[], map[], map[])
  }

  lemma {:induction false} LostLogPlan(pathOf: Header -> Path, id: SessionId, message: Message)
    ensures var p := pathOf(FreshHeader(id));
            Plan(pathOf, LostLog(id), id, Record(FreshHeader(id), [message], [])) ==
            SavePlan([WriteRef(p), AppendLine(p, message)], Some(CannotTruncate))
  {
    var p := pathOf(FreshHeader(id));
    assert [message][0..] == [message] && [message][1..] == [];
    assert AppendLines(p, [message]) == [AppendLine(p, message)];
  }

  /** On such a disk saving one message and no event is rejected, and the message's line stays. */
  lemma {:induction false} RejectedSaveCanLeak(pathOf: Header -> Path, id: SessionId, message: Message)
    ensures var d, rec := LostLog(id), Record(FreshHeader(id), [message], []);
            && Plan(pathOf, d, id, rec).error == Some(CannotTruncate)
            && Transcript(d, id) == [] && Transcript(Save(pathOf, d, id, rec), id) == [message]
  {
    hide Plan, AppendLines;
    var d, p := LostLog(id), pathOf(FreshHeader(id));
    LostLogPlan(pathOf, id, message);
    var ws := [WriteRef(p), AppendLine(p, message)];
    assert ws[1..] == [AppendLine(p, message)];
    PerformOne(Perform(d, id, WriteRef(p)), id, ws[1..]);
    VisibleAppend([], Line(id, message), id);
    assert [] + [Line(id, message)] == [Line(id, message)];
  }

  // ------------------------------------------------------------------ histories

  datatype Op =
    | SaveOp(id: SessionId, rec: Record)
    | CutSaveOp(id: SessionId, rec: Record, k: nat)
    | SaveStateOp(id: SessionId, header: Header)
    | AppendOp(id: SessionId, events: seq<Event>)
    | RestoreOp(id: SessionId, cursorEventId: Option<string>)

  function Step(pathOf: Header -> Path, d: Disk, op: Op): Disk {
    match op
    case SaveOp(id, rec) => Save(pathOf, d, id, rec)
    case CutSaveOp(id, rec, k) => CutSave(pathOf, d, id, rec, k)
    case SaveStateOp(id, header) => SaveStateOnly(d, id, header)
    case AppendOp(id, events) => Save(pathOf, d, id, WithEvents(Load(d, id), events))
    case RestoreOp(id, cursor) => MarkRestored(d, id, cursor)
  }

  function Run(pathOf: Header -> Path, d: Disk, ops: seq<Op>): Disk
    decreases |ops|
  {
    if ops == [] then d else Run(pathOf, Step(pathOf, d, ops[0]), ops[1..])
  }

  lemma {:induction false} StepPreserves(pathOf: Header -> Path, d: Disk, op: Op)
    requires Sound(d)
    ensures Preserves(d, Step(pathOf, d, op), op.id)
  {
    match op
    case SaveOp(id, rec) => SavePreserves(pathOf, d, id, rec);
    case CutSaveOp(id, rec, k) =>
      if Accepted(pathOf, d, id, rec) {
        CutSaveThenResave(pathOf, d, id, rec, k);
      } else {
        SaveAcceptedIffPrefix(pathOf, d, id, rec);
        SavePreserves(pathOf, d, id, rec);
        var ws := Plan(pathOf, d, id, rec).writes;
        assert k > 0 && |ws| == 1 ==> ws[..1] == ws;
      }
    case SaveStateOp(id, header) =>
      PerformSound(d, id, WriteState(StatePayload(header, TranscriptCount(d, id), EventCount(d, id))));
    case AppendOp(id, events) => SavePreserves(pathOf, d, id, WithEvents(Load(d, id), events));
    case RestoreOp(id, cursor) =>
      var marker := if cursor.Some? then cursor else LastEventId(d, id);
      var header := Load(d, id).header.(restoreMarker := marker);
      PerformSound(d, id, WriteState(StatePayload(header, TranscriptCount(d, id), EventCount(d, id))));
  }

  /** What a session reads after one of its own operations on a sound disk. */
  lemma {:induction false} StepReads(pathOf: Header -> Path, d: Disk, op: Op)
    requires Sound(d)
    ensures var before, after := Load(d, op.id), Load(Step(pathOf, d, op), op.id);
            match op
            case SaveOp(id, rec) => after == if Prefixes(d, id, rec) then rec else before
            case CutSaveOp(id, rec, k) =>
              if Prefixes(d, id, rec) then
                && Prefixes(Step(pathOf, d, op), id, rec)
                && (k >= 2 + |rec.messages| + |rec.events| ==> after == rec)
              else after == before
            case SaveStateOp(id, header) => after == before.(header := header)
            case AppendOp(id, events) => after == before.(events := before.events + events)
            case RestoreOp(id, cursor) =>
              && after.messages == before.messages && after.events == before.events
              && after.header == before.header.(restoreMarker := after.header.restoreMarker)
              && (cursor.Some? ==> after.header.restoreMarker == cursor)
              && (cursor.None? && before.events != [] ==>
                    after.header.restoreMarker == Some(before.events[|before.events| - 1].eventId))
  {
    match op
    case SaveOp(id, rec) => SaveReads(pathOf, d, id, rec);
    case CutSaveOp(id, rec, k) => CutReads(pathOf, d, id, rec, k);
    case SaveStateOp(id, header) => HeaderReadsBack(d, id, header);
    case AppendOp(id, events) => AppendEventsAccepted(pathOf, d, id, events);
    case RestoreOp(id, cursor) => MarkerReadsBack(d, id, cursor);
  }

  lemma {:induction false} SaveReads(pathOf: Header -> Path, d: Disk, id: SessionId, rec: Record)
    requires Sound(d)
    ensures Load(Save(pathOf, d, id, rec), id) == if Prefixes(d, id, rec) then rec else Load(d, id)
  {
    hide Plan, Save, Load;
    SaveAcceptedIffPrefix(pathOf, d, id, rec);
    if Accepted(pathOf, d, id, rec) {
      LoadAfterSave(pathOf, d, id, rec);
    } else {
      RejectedSaveKeepsLogs(pathOf, d, id, rec);
    }
  }

  lemma {:induction false} CutReads(pathOf: Header -> Path, d: Disk, id: SessionId, rec: Record, k: nat)
    requires Sound(d)
    ensures var e := CutSave(pathOf, d, id, rec, k);
            if Prefixes(d, id, rec) then
              Prefixes(e, id, rec) && (k >= 2 + |rec.messages| + |rec.events| ==> Load(e, id) == rec)
            else Load(e, id) == Load(d, id)
  {
    SaveAcceptedIffPrefix(pathOf, d, id, rec);
    var ws := Plan(pathOf, d, id, rec).writes;
    assert ws[..|ws|] == ws;
    if Accepted(pathOf, d, id, rec) {
      RemainingHead(id in d.refs, BoundPath(pathOf, d, id, rec), rec.messages[|Transcript(d, id)|..],
                    rec.events[|EventLog(d, id)|..], SavedPayload(rec));
      hide Plan, Load, Transcript, EventLog;
      CutSaveThenResave(pathOf, d, id, rec, k);
      LoadAfterSave(pathOf, d, id, rec);
    } else {
      hide Plan, Load;
      RejectedSaveKeepsLogs(pathOf, d, id, rec);
      assert k == 0 ==> PerformAll(d, id, ws[..0]) == d;
    }
  }

  /** Over every interleaving of saves, cut saves, state-only saves, appends and restore marks: the disk stays
      sound, every history grows at its end only, no reference moves, and a session none of the operations
      names keeps its whole view, even when it shares its transcript with all the others. */
  lemma {:induction false} HistoryPreserves(pathOf: Header -> Path, d: Disk, ops: seq<Op>)
    requires Sound(d)
    ensures var e := Run(pathOf, d, ops);
            && Sound(e)
            && (forall id :: Grows(d, e, id))
            && (forall id :: (forall i :: 0 <= i < |ops| ==> ops[i].id != id) ==> SameView(d, e, id))
    decreases |ops|
  {
    if ops != [] {
      var d1 := Step(pathOf, d, ops[0]);
      var e := Run(pathOf, d, ops);
      StepPreserves(pathOf, d, ops[0]);
      HistoryPreserves(pathOf, d1, ops[1..]);
      forall id
        ensures Grows(d, e, id)
        ensures (forall i :: 0 <= i < |ops| ==> ops[i].id != id) ==> SameView(d, e, id)
      {
        assert Grows(d, d1, id) && Grows(d1, e, id);
        if forall i :: 0 <= i < |ops| ==> ops[i].id != id {
          assert SameView(d, d1, id);
          assert forall i :: 0 <= i < |ops[1..]| ==> ops[1..][i] == ops[i + 1];
          assert SameView(d1, e, id);
        }
      }
    }
  }

  /** In every reachable store the `count > visible` branches of validation are dead. */
  lemma {:induction false} CountsNeverExceedVisible(pathOf: Header -> Path, ops: seq<Op>, id: SessionId)
    ensures var d := Run(pathOf, EMPTY_DISK, ops);
            && TranscriptCount(d, id) <= |Transcript(d, id)|
            && EventCount(d, id) <= |EventLog(d, id)|
  {
    HistoryPreserves(pathOf, EMPTY_DISK, ops);
  }

  /** Appending events to a reachable store never fails and adds exactly them. */
  lemma {:induction false} AppendEventsAccepted(pathOf: Header -> Path, d: Disk, id: SessionId, events: seq<Event>)
    requires Sound(d)
    ensures Accepted(pathOf, d, id, WithEvents(Load(d, id), events))
    ensures var e := Step(pathOf, d, AppendOp(id, events));
            Load(e, id) == WithEvents(Load(d, id), events)
  {
    SaveAcceptedIffPrefix(pathOf, d, id, WithEvents(Load(d, id), events));
    LoadAfterSave(pathOf, d, id, WithEvents(Load(d, id), events));
  }

  /** Optimistic concurrency: a writer works on a copy loaded from `d`, others run `ops` meanwhile. Its save is
      accepted exactly when what they added is part of what it saves, and then nothing of theirs is lost. */
  lemma {:induction false} StaleWriter(pathOf: Header -> Path, d: Disk, ops: seq<Op>, id: SessionId, rec: Record)
    requires Sound(d)
    ensures var now := Run(pathOf, d, ops);
            && (Accepted(pathOf, now, id, rec) <==> Prefixes(now, id, rec))
            && Transcript(now, id) <= Transcript(Save(pathOf, now, id, rec), id)
            && EventLog(now, id) <= EventLog(Save(pathOf, now, id, rec), id)
            && (Accepted(pathOf, now, id, rec) ==> Load(Save(pathOf, now, id, rec), id) == rec)
  {
    HistoryPreserves(pathOf, d, ops);
    var now := Run(pathOf, d, ops);
    SaveAcceptedIffPrefix(pathOf, now, id, rec);
    SavePreserves(pathOf, now, id, rec);
    assert Grows(now, Save(pathOf, now, id, rec), id);
    if Accepted(pathOf, now, id, rec) {
      LoadAfterSave(pathOf, now, id, rec);
    }
  }

  /** Recovery under traffic: the save of `rec` dies after `k` writes, other sessions run on, then the writer
      saves again. It is accepted, and the session reads as if the first save had finished. */
  lemma {:induction false} ResaveAfterForeignTraffic(pathOf: Header -> Path, d: Disk, id: SessionId, rec: Record,
      k: nat, ops: seq<Op>)
    requires Sound(d) && Accepted(pathOf, d, id, rec)
    requires forall i :: 0 <= i < |ops| ==> ops[i].id != id
    ensures var e := Run(pathOf, CutSave(pathOf, d, id, rec, k), ops);
            var done := Save(pathOf, e, id, rec);
            && Prefixes(e, id, rec)
            && Accepted(pathOf, e, id, rec)
            && Load(done, id) == rec
            && id in done.states && done.states[id] == StatePayload(rec.header, |rec.messages|, |rec.events|)
  {
    var cut := CutSave(pathOf, d, id, rec, k);
    CutSaveThenResave(pathOf, d, id, rec, k);
    HistoryPreserves(pathOf, cut, ops);
    var e := Run(pathOf, cut, ops);
    assert SameView(cut, e, id);
    assert Load(e, id).messages == Load(cut, id).messages && Load(e, id).events == Load(cut, id).events;
    SaveAcceptedIffPrefix(pathOf, e, id, rec);
    LoadAfterSave(pathOf, e, id, rec);
  }

  // ------------------------------------------------------------------ two saves, write by write

  /** What is still to write of an accepted save; when nothing is, the record is stored. */
  ghost predicate Pending(pathOf: Header -> Path, d: Disk, id: SessionId, rec: Record, ws: seq<Write>) {
    if ws == [] then
      && Load(d, id) == rec
      && id in d.states && d.states[id] == StatePayload(rec.header, |rec.messages|, |rec.events|)
    else Accepted(pathOf, d, id, rec) && Plan(pathOf, d, id, rec).writes == ws
  }

  lemma {:induction false} OwnWrite(pathOf: Header -> Path, d: Disk, id: SessionId, rec: Record, ws: seq<Write>)
    requires Sound(d) && ws != [] && Pending(pathOf, d, id, rec, ws)
    ensures Legal(d, id, ws[0]) && Pending(pathOf, Perform(d, id, ws[0]), id, rec, ws[1..])
  {
    hide Sound, Plan, Legal;
    PlanResumes(pathOf, d, id, rec);
    if |ws| == 1 {
      LastWrite(pathOf, d, id, rec);
      LoadAfterSave(pathOf, d, id, rec);
      PerformOne(d, id, ws);
    }
  }

  lemma {:induction false} ForeignWrite(pathOf: Header -> Path, d: Disk, e: Disk, id: SessionId, rec: Record,
      ws: seq<Write>)
    requires Sound(d) && Sound(e) && SameView(d, e, id) && Pending(pathOf, d, id, rec, ws)
    requires id in d.states ==> id in e.states && e.states[id] == d.states[id]
    ensures Pending(pathOf, e, id, rec, ws)
  {
    if ws != [] {
      hide Plan, Sound, Transcript, EventLog;
      SaveAcceptedIffPrefix(pathOf, d, id, rec);
      SaveAcceptedIffPrefix(pathOf, e, id, rec);
      assert Load(d, id).messages == Transcript(d, id) && Load(e, id).messages == Transcript(e, id);
      assert Load(d, id).events == EventLog(d, id) && Load(e, id).events == EventLog(e, id);
    }
  }

  /** Two sequences of writes by two sessions, taking turns; `turns` says whose write is next while both have some. */
  function TakeTurns(d: Disk, id1: SessionId, ws1: seq<Write>, id2: SessionId, ws2: seq<Write>, turns: seq<bool>): Disk
    decreases |ws1| + |ws2|
  {
    if ws1 == [] then PerformAll(d, id2, ws2)
    else if ws2 == [] then PerformAll(d, id1, ws1)
    else
      var rest := if turns == [] then [] else turns[1..];
      if turns != [] && turns[0] then TakeTurns(Perform(d, id2, ws2[0]), id1, ws1, id2, ws2[1..], rest)
      else TakeTurns(Perform(d, id1, ws1[0]), id1, ws1[1..], id2, ws2, rest)
  }

  /** Both saves are done and nobody else notices. */
  ghost predicate BothSaved(pathOf: Header -> Path, d: Disk, e: Disk, id1: SessionId, rec1: Record, id2: SessionId,
      rec2: Record) {
    && Sound(e)
    && Pending(pathOf, e, id1, rec1, []) && Pending(pathOf, e, id2, rec2, [])
    && (forall other :: Grows(d, e, other))
    && (forall other :: other != id1 && other != id2 ==> SameView(d, e, other))
  }

  lemma {:induction false} WriteOnce(pathOf: Header -> Path, d: Disk, id: SessionId, rec: Record, ws: seq<Write>,
      other: SessionId, rec2: Record, ws2: seq<Write>)
    requires Sound(d) && id != other && ws != []
    requires Pending(pathOf, d, id, rec, ws) && Pending(pathOf, d, other, rec2, ws2)
    ensures var e := Perform(d, id, ws[0]);
            Preserves(d, e, id) && Pending(pathOf, e, id, rec, ws[1..]) && Pending(pathOf, e, other, rec2, ws2)
  {
    var e := Perform(d, id, ws[0]);
    OwnWrite(pathOf, d, id, rec, ws);
    PerformSound(d, id, ws[0]);
    hide Pending, Sound, Grows, Legal;
    assert SameView(d, e, other);
    ForeignWrite(pathOf, d, e, other, rec2, ws2);
  }

  lemma {:induction false} SavedAfter(pathOf: Header -> Path, d: Disk, mid: Disk, e: Disk, writer: SessionId,
      id1: SessionId, rec1: Record, id2: SessionId, rec2: Record)
    requires Preserves(d, mid, writer) && (writer == id1 || writer == id2) &&
            BothSaved(pathOf, mid, e, id1, rec1, id2, rec2)
    ensures BothSaved(pathOf, d, e, id1, rec1, id2, rec2)
  {
    hide Pending, Sound;
    forall other
      ensures Grows(d, e, other) && (other != id1 && other != id2 ==> SameView(d, e, other))
    {
      assert Grows(d, mid, other) && Grows(mid, e, other);
      assert other != id1 && other != id2 ==> SameView(d, mid, other) && SameView(mid, e, other);
    }
  }

  lemma {:induction false} TurnsSaveBoth(pathOf: Header -> Path, d: Disk, id1: SessionId, rec1: Record, ws1: seq<Write>,
      id2: SessionId, rec2: Record, ws2: seq<Write>, turns: seq<bool>)
    requires Sound(d) && id1 != id2
    requires Pending(pathOf, d, id1, rec1, ws1) && Pending(pathOf, d, id2, rec2, ws2)
    ensures BothSaved(pathOf, d, TakeTurns(d, id1, ws1, id2, ws2, turns), id1, rec1, id2, rec2)
    decreases |ws1| + |ws2|
  {
    hide Pending, Sound, Grows, SameView, BothSaved, Perform;
    var e := TakeTurns(d, id1, ws1, id2, ws2, turns);
    if ws1 == [] && ws2 == [] {
      NothingLeft(pathOf, d, id1, rec1, id2, rec2);
    } else if ws2 != [] && (ws1 == [] || (turns != [] && turns[0])) {
      var next, rest := Perform(d, id2, ws2[0]), if turns == [] then [] else turns[1..];
      WriteOnce(pathOf, d, id2, rec2, ws2, id1, rec1, ws1);
      TurnsSaveBoth(pathOf, next, id1, rec1, ws1, id2, rec2, ws2[1..], rest);
      SavedAfter(pathOf, d, next, TakeTurns(next, id1, ws1, id2, ws2[1..], rest), id2, id1, rec1, id2, rec2);
    } else {
      var next, rest := Perform(d, id1, ws1[0]), if turns == [] then [] else turns[1..];
      WriteOnce(pathOf, d, id1, rec1, ws1, id2, rec2, ws2);
      TurnsSaveBoth(pathOf, next, id1, rec1, ws1[1..], id2, rec2, ws2, rest);
      SavedAfter(pathOf, d, next, TakeTurns(next, id1, ws1[1..], id2, ws2, rest), id1, id1, rec1, id2, rec2);
    }
  }

  lemma {:induction false} NothingLeft(pathOf: Header -> Path, d: Disk, id1: SessionId, rec1: Record, id2: SessionId,
      rec2: Record)
    requires Sound(d) && Pending(pathOf, d, id1, rec1, []) && Pending(pathOf, d, id2, rec2, [])
    ensures BothSaved(pathOf, d, d, id1, rec1, id2, rec2)
  {}

  /** Two accepted saves of different sessions, their single writes interleaved in any way, even on one transcript:
      both records are stored as if one save had followed the other, and nobody else notices. */
  lemma {:induction false} InterleavedSaves(pathOf: Header -> Path, d: Disk, id1: SessionId, rec1: Record,
      id2: SessionId, rec2: Record, turns: seq<bool>)
    requires Sound(d) && id1 != id2 && Accepted(pathOf, d, id1, rec1) && Accepted(pathOf, d, id2, rec2)
    ensures var e := TakeTurns(d, id1, Plan(pathOf, d, id1, rec1).writes, id2, Plan(pathOf, d, id2, rec2).writes,
            turns);
            && Sound(e)
            && Load(e, id1) == rec1 == Load(Save(pathOf, d, id1, rec1), id1)
            && Load(e, id2) == rec2 == Load(Save(pathOf, d, id2, rec2), id2)
            && (forall other :: Grows(d, e, other))
            && (forall other :: other != id1 && other != id2 ==> SameView(d, e, other))
  {
    PlanResumes(pathOf, d, id1, rec1);
    PlanResumes(pathOf, d, id2, rec2);
    LoadAfterSave(pathOf, d, id1, rec1);
    LoadAfterSave(pathOf, d, id2, rec2);
    hide Plan, Sound, Grows, SameView, Load;
    TurnsSaveBoth(pathOf, d, id1, rec1, Plan(pathOf, d, id1, rec1).writes, id2, rec2,
        Plan(pathOf, d, id2, rec2).writes, turns);
  }

  // ------------------------------------------------------------------ the store itself

  datatype Checkpoint = Checkpoint(eventOffset: nat, lastEventId: Option<string>)

  class FileSessionStore {
    const pathOf: Header -> Path
    var states: map<SessionId, StatePayload>
    var eventLogs: map<SessionId, seq<Event>>
    var refs: map<SessionId, Path>
    var transcripts: map<Path, seq<Line>>

    constructor (pathOf: Header -> Path)
      ensures this.pathOf == pathOf && Contents() == EMPTY_DISK
    {
      this.pathOf := pathOf;
      states, eventLogs, refs, transcripts := map[], map[], map[], map[];
    }

    ghost function Contents(): Disk
      reads this
    {
      Disk(states, eventLogs, refs, transcripts)
    }

    method ReadTranscript(id: SessionId) returns (messages: seq<Message>)
      ensures messages == Transcript(Contents(), id)
    {
      messages := [];
      if id !in refs || refs[id] !in transcripts {
        return;
      }
      var lines := transcripts[refs[id]];
      for i := 0 to |lines|
        invariant messages == Visible(lines[..i], id)
      {
        VisibleAppend(lines[..i], lines[i], id);
        assert lines[..i + 1] == lines[..i] + [lines[i]];
        if lines[i].sessionId == id {
          messages := messages + [lines[i].message];
        }
      }
      assert lines[..|lines|] == lines;
    }

    method ReadEvents(id: SessionId, after: nat) returns (events: seq<Event>)
      ensures var log := EventLog(Contents(), id);
              events == if after <= |log| then log[after..] else []
    {
      events := [];
      if id in eventLogs {
        var i := after;
        while i < |eventLogs[id]|
          invariant after <= |eventLogs[id]| ==> after <= i <= |eventLogs[id]| && events == eventLogs[id][after..i]
          invariant after > |eventLogs[id]| ==> events == []
        {
          events := events + [eventLogs[id][i]];
          i := i + 1;
        }
      }
    }

    method LoadSession(id: SessionId) returns (rec: Record)
      ensures rec == Load(Contents(), id)
    {
      var messages := ReadTranscript(id);
      var events := ReadEvents(id, 0);
      rec := Record(if id in states then states[id].header else FreshHeader(id), messages, events);
    }

    method EnsureTranscriptRef(id: SessionId, rec: Record) returns (p: Path)
      modifies this`refs
      ensures p == BoundPath(pathOf, old(Contents()), id, rec)
      ensures Contents() == PerformAll(old(Contents()), id, RefWrites(pathOf, old(Contents()), id, rec))
      ensures BoundTo(Contents(), id, p)
    {
      if id in refs {
        p := refs[id];
      } else {
        p := pathOf(rec.header);
        ghost var before := Contents();
        refs := refs[id := p];
        PerformOne(before, id, [WriteRef(p)]);
      }
    }

    method AppendTranscriptSuffix(id: SessionId, rec: Record, count: nat, p: Path)
      requires count <= |rec.messages|
      modifies this`transcripts
      ensures Contents() == PerformAll(old(Contents()), id, AppendLines(p, rec.messages[count..]))
    {
      var i := count;
      while i < |rec.messages|
        invariant count <= i <= |rec.messages|
        invariant PerformAll(Contents(), id, AppendLines(p, rec.messages[i..])) ==
                  PerformAll(old(Contents()), id, AppendLines(p, rec.messages[count..]))
      {
        var lines := if p in transcripts then transcripts[p] else [];
        assert rec.messages[i..][1..] == rec.messages[i + 1..];
        transcripts := transcripts[p := lines + [Line(id, rec.messages[i])]];
        i := i + 1;
      }
    }

    method AppendEventSuffix(id: SessionId, rec: Record, count: nat)
      requires count <= |rec.events|
      modifies this`eventLogs
      ensures Contents() == PerformAll(old(Contents()), id, AppendEventsOf(rec.events[count..]))
    {
      var i := count;
      while i < |rec.events|
        invariant count <= i <= |rec.events|
        invariant PerformAll(Contents(), id, AppendEventsOf(rec.events[i..])) ==
                  PerformAll(old(Contents()), id, AppendEventsOf(rec.events[count..]))
      {
        var log := if id in eventLogs then eventLogs[id] else [];
        assert rec.events[i..][1..] == rec.events[i + 1..];
        eventLogs := eventLogs[id := log + [rec.events[i]]];
        i := i + 1;
      }
    }

    method ValidateTranscript(id: SessionId, rec: Record, count: nat) returns (r: Result<nat, SaveError>)
      ensures r == ValidatedCount(Transcript(Contents(), id), rec.messages, count)
    {
      var current := ReadTranscript(id);
      if count > |current| {
        return if current == rec.messages then Success(count) else Failure(BackingMissing);
      }
      if |current| > |rec.messages| {
        return Failure(CannotTruncate);
      }
      if current != rec.messages[..|current|] {
        return Failure(Diverged);
      }
      return Success(|current|);
    }

    method ValidateEvents(id: SessionId, rec: Record, count: nat) returns (r: Result<nat, SaveError>)
      ensures r == ValidatedCount(EventLog(Contents(), id), rec.events, count)
    {
      var current := ReadEvents(id, 0);
      if count > |current| {
        return if current == rec.events then Success(count) else Failure(BackingMissing);
      }
      if |current| > |rec.events| {
        return Failure(CannotTruncate);
      }
      if current != rec.events[..|current|] {
        return Failure(Diverged);
      }
      return Success(|current|);
    }

    /** The source's save, step by step: every exit leaves exactly the planned writes. On a sound store it
        succeeds exactly when it may, and then reads back as the record. */
    method SaveSession(id: SessionId, rec: Record) returns (error: Option<SaveError>)
      modifies this
      ensures error == Plan(pathOf, old(Contents()), id, rec).error
      ensures Contents() == Save(pathOf, old(Contents()), id, rec)
    {
      hide PerformAll, Visible, AppendLines, AppendEventsOf;
      ghost var d := Contents();
      var transcriptCount := if id in states then states[id].transcriptCount else 0;
      var eventCount := if id in states then states[id].eventCount else 0;
      var p := EnsureTranscriptRef(id, rec);
      var transcript := ValidateTranscript(id, rec, transcriptCount);
      if transcript.Failure? {
        return Some(transcript.error);
      }
      var events := ValidateEvents(id, rec, eventCount);
      if events.Failure? {
        return Some(events.error);
      }
      if transcript.value > |rec.messages| {
        return Some(CannotTruncate);
      }
      AppendTranscriptSuffix(id, rec, transcript.value, p);
      ghost var ref, lines := RefWrites(pathOf, d, id, rec), AppendLines(p, rec.messages[transcript.value..]);
      PerformConcat(d, id, ref, lines);
      if events.value > |rec.events| {
        return Some(CannotTruncate);
      }
      AppendEventSuffix(id, rec, events.value);
      states := states[id := SavedPayload(rec)];
      SaveInSteps(d, id, ref, lines, AppendEventsOf(rec.events[events.value..]), WriteState(SavedPayload(rec)));
      return None;
    }

    method SaveSessionStateOnly(id: SessionId, rec: Record)
      modifies this`states
      ensures Contents() == SaveStateOnly(old(Contents()), id, rec.header)
      ensures old(Sound(Contents())) ==> Preserves(old(Contents()), Contents(), id)
    {
      ghost var d := Contents();
      if Sound(d) {
        StepPreserves(pathOf, d, SaveStateOp(id, rec.header));
      }
      var transcriptCount := if id in states then states[id].transcriptCount else 0;
      var eventCount := if id in states then states[id].eventCount else 0;
      states := states[id := StatePayload(rec.header, transcriptCount, eventCount)];
    }

    method GetCheckpoint(id: SessionId) returns (c: Checkpoint)
      ensures c == Checkpoint(|EventLog(Contents(), id)|, LastEventId(Contents(), id))
    {
      var all := ReadEvents(id, 0);
      c := Checkpoint(|all|, if all == [] then None else Some(all[|all| - 1].eventId));
    }

    /** `error` is what the inner save raises; a sound store never raises it. */
    method AppendEvents(id: SessionId, events: seq<Event>) returns (error: Option<SaveError>, c: Checkpoint)
      modifies this
      ensures Contents() == Step(pathOf, old(Contents()), AppendOp(id, events))
      ensures c == Checkpoint(|EventLog(Contents(), id)|, LastEventId(Contents(), id))
      ensures old(Sound(Contents())) ==>
                && error.None?
                && Load(Contents(), id) == WithEvents(Load(old(Contents()), id), events)
                && c.eventOffset == |EventLog(old(Contents()), id)| + |events|
    {
      var rec := LoadSession(id);
      rec := rec.(events := rec.events + events);
      ghost var d := Contents();
      error := SaveSession(id, rec);
      if Sound(d) {
        AppendEventsAccepted(pathOf, d, id, events);
      }
      c := GetCheckpoint(id);
    }

    method MarkRestoredAt(id: SessionId, cursorEventId: Option<string>)
      modifies this`states
      ensures Contents() == MarkRestored(old(Contents()), id, cursorEventId)
      ensures old(Sound(Contents())) ==> Preserves(old(Contents()), Contents(), id)
    {
      var rec := LoadSession(id);
      var c := GetCheckpoint(id);
      var marker := if cursorEventId.Some? then cursorEventId else c.lastEventId;
      rec := rec.(header := rec.header.(restoreMarker := marker));
      SaveSessionStateOnly(id, rec);
    }
  }

  lemma {:induction false} SaveInSteps(d: Disk, id: SessionId, ref: seq<Write>, lines: seq<Write>, tail: seq<Write>,
      last: Write)
    ensures PerformAll(d, id, ref + lines + tail + [last]) ==
            Perform(PerformAll(PerformAll(PerformAll(d, id, ref), id, lines), id, tail), id, last)
  {
    PerformConcat(d, id, ref, lines);
    PerformConcat(d, id, ref + lines, tail);
    PerformConcat(d, id, ref + lines + tail, [last]);
    PerformOne(PerformAll(d, id, ref + lines + tail), id, [last]);
  }

  lemma {:induction false} PerformConcat(d: Disk, id: SessionId, a: seq<Write>, b: seq<Write>)
    ensures PerformAll(d, id, a + b) == PerformAll(PerformAll(d, id, a), id, b)
    decreases |a|
  {
    if a == [] {
      assert a + b == b;
    } else {
      assert (a + b)[1..] == a[1..] + b;
      PerformConcat(Perform(d, id, a[0]), id, a[1..], b);
    }
  }
}
