/** Histories of the task system: reported once, never evicted unreported, read once and in order, and the same
    on both storages. */
module TaskHistory {
  import opened Wrappers
  import opened Order
  import opened TaskStorage
  import opened TaskRegistry
  import opened TaskRuntime

  datatype Ending =
    | Complete(outputRef: Option<string>, metadata: map<string, string>)
    | Fail(reason: string, metadata: map<string, string>)
    | KillIt

  datatype TaskOp =
    | SpawnOp(kind: string, description: string, agentId: Option<string>, metadata: map<string, string>, now: int)
    | FinishOp(id: TaskId, ending: Ending, now: int)
    | EventOp(id: TaskId, event: TaskEvent)
    | OutputOp(id: TaskId, item: string, now: int)
    | AttachOp(id: TaskId, binding: string)
    | DetachOp(id: TaskId, binding: string)
    | SyncOp(recipient: string, now: int)
    | EvictOp(now: int)
    | GetOp(id: TaskId)
    | ReadEventsOp(id: TaskId, cursor: nat)
    | ReadOutputsOp(id: TaskId, cursor: nat)

  /** The store, the notification queues, and every note ever handed to a reader. */
  datatype System = System(store: TaskStore, queues: map<string, seq<Note>>, delivered: seq<Note>)

  const EMPTY_SYSTEM := System(EMPTY_STORE, map[], [])

  function Ended(s: TaskStore, id: TaskId, e: Ending, now: int): TaskStore {
    match e
    case Complete(outputRef, metadata) => Finished(s, id, Completed, "completed", metadata, outputRef, now)
    case Fail(reason, metadata) => Finished(s, id, Failed, "failed", map["reason" := reason] + metadata, None, now)
    case KillIt => Finished(s, id, Killed, "killed", map[], None, now)
  }

  function StoreStep(policy: RetentionPolicy, s: TaskStore, op: TaskOp): TaskStore {
    match op
    case SpawnOp(kind, description, agentId, metadata, now) => Spawned(s, kind, description, agentId, metadata, now)
    case FinishOp(id, ending, now) => Ended(s, id, ending, now)
    case EventOp(id, event) => WithEvent(s, id, event)
    case OutputOp(id, item, now) => WithOutput(s, id, item, now)
    case AttachOp(id, b) => WithObserver(s, id, b)
    case DetachOp(id, b) => WithoutObserver(s, id, b)
    case SyncOp(recipient, _) => MarkedNotified(s, ReportableIds(s, recipient))
    case EvictOp(now) => Without(s, EvictableIds(s, policy, now), policy.evictOutput)
    case _ => s
  }

  ghost function Handed(y: System, recipient: string): seq<Note> {
    Queued(y.queues, recipient) + NewNotes(y.store, recipient)
  }

  ghost function SysStep(policy: RetentionPolicy, y: System, op: TaskOp): System {
    var store := StoreStep(policy, y.store, op);
    if op.SyncOp? then System(store, y.queues[op.recipient := []], y.delivered + Handed(y, op.recipient))
    else y.(store := store)
  }

  ghost function SysRun(policy: RetentionPolicy, y: System, ops: seq<TaskOp>): System
    decreases |ops|
  {
    if ops == [] then y else SysRun(policy, SysStep(policy, y, ops[0]), ops[1..])
  }

  // ------------------------------------------------------------------ the invariant

  predicate Issued(s: TaskStore, id: TaskId) {
    exists n :: 1 <= n <= s.counter && id == IdOf(n)
  }

  ghost predicate ToldOf(notes: seq<Note>, id: TaskId) {
    exists i :: 0 <= i < |notes| && notes[i].taskId == id
  }

  ghost predicate Distinct(notes: seq<Note>) {
    forall i, j :: 0 <= i < j < |notes| ==> notes[i].taskId != notes[j].taskId
  }

  /** Records are filed under issued ids; a task is marked notified exactly when a note of it was handed out. */
  ghost predicate Consistent(s: TaskStore, delivered: seq<Note>) {
    && KeyedBy(s)
    && (forall id :: id in s.tasks ==> Issued(s, id) && (s.tasks[id].notified <==> ToldOf(delivered, id)))
    && (forall i :: 0 <= i < |delivered| ==> Issued(s, delivered[i].taskId))
  }

  ghost predicate SystemValid(y: System) {
    && Consistent(y.store, y.delivered)
    && Distinct(y.delivered)
    && (forall recipient :: Queued(y.queues, recipient) == [])
  }

  /** No operation but sync changes whether a known task is notified; only new tasks appear. */
  ghost predicate Quiet(s: TaskStore, t: TaskStore) {
    && s.counter <= t.counter
    && KeyedBy(t)
    && (forall id :: id in t.tasks ==>
          if id in s.tasks then t.tasks[id].notified == s.tasks[id].notified
          else !Issued(s, id) && Issued(t, id) && !t.tasks[id].notified)
  }

  lemma {:induction false} NewIdNotIssued(s: TaskStore)
    ensures !Issued(s, IdOf(s.counter + 1))
  {
    forall n | 1 <= n <= s.counter
      ensures IdOf(s.counter + 1) != IdOf(n)
    {
      if IdOf(s.counter + 1) == IdOf(n) {
        IdInjective(s.counter + 1, n);
      }
    }
  }

  lemma {:induction false} SpawnQuiet(s: TaskStore, kind: string, description: string, agentId: Option<string>,
      metadata: map<string, string>, now: int)
    requires KeyedBy(s) && forall id :: id in s.tasks ==> Issued(s, id)
    ensures Quiet(s, Spawned(s, kind, description, agentId, metadata, now))
  {
    hide EventLabel, IdOf, IsTerminal;
    NewIdNotIssued(s);
    var t := Spawned(s, kind, description, agentId, metadata, now);
    assert t.counter == s.counter + 1 && Issued(t, IdOf(s.counter + 1));
    assert t.tasks.Keys == s.tasks.Keys + {IdOf(s.counter + 1)};
    assert forall id :: id in s.tasks && id != IdOf(s.counter + 1) ==> t.tasks[id] == s.tasks[id];
  }

  lemma {:induction false} FinishedQuiet(s: TaskStore, id: TaskId, status: Status, verb: string, metadata: map<string,
      string>,
                      outputRef: Option<string>, now: int)
    requires KeyedBy(s)
    ensures Quiet(s, Finished(s, id, status, verb, metadata, outputRef, now))
  {
    hide Issued, EventLabel;
  }

  lemma {:induction false} EndedQuiet(s: TaskStore, id: TaskId, e: Ending, now: int)
    requires KeyedBy(s)
    ensures Quiet(s, Ended(s, id, e, now))
  {
    hide Finished, Quiet;
    match e
    case Complete(outputRef, metadata) => FinishedQuiet(s, id, Completed, "completed", metadata, outputRef, now);
    case Fail(reason, metadata) =>
      FinishedQuiet(s, id, Failed, "failed", map["reason" := reason] + metadata, None, now);
    case KillIt => FinishedQuiet(s, id, Killed, "killed", map[], None, now);
  }

  lemma {:induction false} StoreStepQuiet(policy: RetentionPolicy, s: TaskStore, op: TaskOp)
    requires KeyedBy(s) && (forall id :: id in s.tasks ==> Issued(s, id)) && !op.SyncOp?
    ensures Quiet(s, StoreStep(policy, s, op))
  {
    match op
    case SpawnOp(kind, description, agentId, metadata, now) => SpawnQuiet(s, kind, description, agentId, metadata, now);
    case FinishOp(id, ending, now) => EndedQuiet(s, id, ending, now);
    case _ =>
  }

  lemma {:induction false} QuietConsistent(s: TaskStore, t: TaskStore, delivered: seq<Note>)
    requires Consistent(s, delivered) && Quiet(s, t)
    ensures Consistent(t, delivered)
  {
    forall id | Issued(s, id)
      ensures Issued(t, id)
    {
      var n :| 1 <= n <= s.counter && id == IdOf(n);
      assert 1 <= n <= t.counter;
    }
    forall id | id in t.tasks
      ensures Issued(t, id) && (t.tasks[id].notified <==> ToldOf(delivered, id))
    {
      if id !in s.tasks {
        assert forall i :: 0 <= i < |delivered| ==> Issued(s, delivered[i].taskId);
      }
    }
  }

  /** A note to the parent of an ended, unreported task, with what its record says. */
  predicate Announces(s: TaskStore, note: Note, recipient: string) {
    && note.recipient == recipient
    && note.taskId in s.tasks && Reportable(s.tasks[note.taskId], recipient)
    && note.status == s.tasks[note.taskId].status
    && note.summary == s.tasks[note.taskId].description && note.outputRef == s.tasks[note.taskId].outputRef
  }

  /** The notes of one sync: one for each reportable task, none reported before. */
  lemma {:induction false} NewNotesExact(s: TaskStore, recipient: string)
    requires KeyedBy(s)
    ensures var notes := NewNotes(s, recipient);
            && Distinct(notes)
            && (forall id :: ToldOf(notes, id) <==> id in ReportableIds(s, recipient))
            && (forall i :: 0 <= i < |notes| ==> Announces(s, notes[i], recipient))
  {
    var ids := SortedOf(ReportableIds(s, recipient));
    var notes := NewNotes(s, recipient);
    assert forall id :: id in ids <==> id in Elements(ids);
    forall i | 0 <= i < |notes|
      ensures notes[i].taskId == ids[i] && ids[i] in ReportableIds(s, recipient)
    {
      assert ids[i] in ids;
    }
    forall i, j | 0 <= i < j < |notes|
      ensures notes[i].taskId != notes[j].taskId
    {
      LessTotal(ids[i], ids[j]);
    }
    forall id | id in ReportableIds(s, recipient)
      ensures ToldOf(notes, id)
    {
      var k :| 0 <= k < |ids| && ids[k] == id;
      assert notes[k].taskId == id;
    }
  }

  lemma {:induction false} ToldOfConcat(a: seq<Note>, b: seq<Note>, id: TaskId)
    ensures ToldOf(a + b, id) <==> ToldOf(a, id) || ToldOf(b, id)
  {
    if ToldOf(a, id) {
      var i :| 0 <= i < |a| && a[i].taskId == id;
      assert (a + b)[i].taskId == id;
    }
    if ToldOf(b, id) {
      var i :| 0 <= i < |b| && b[i].taskId == id;
      assert (a + b)[|a| + i].taskId == id;
    }
  }

  lemma {:induction false} DistinctConcat(a: seq<Note>, b: seq<Note>)
    requires Distinct(a) && Distinct(b)
    requires forall i :: 0 <= i < |a| ==> !ToldOf(b, a[i].taskId)
    ensures Distinct(a + b)
  {
    forall i, j | 0 <= i < j < |a + b|
      ensures (a + b)[i].taskId != (a + b)[j].taskId
    {
      if i < |a| <= j {
        assert !ToldOf(b, a[i].taskId);
        assert b[j - |a|].taskId == (a + b)[j].taskId;
      }
    }
  }

  lemma {:induction false} SyncConsistent(s: TaskStore, delivered: seq<Note>, recipient: string)
    requires Consistent(s, delivered)
    ensures Consistent(MarkedNotified(s, ReportableIds(s, recipient)), delivered + NewNotes(s, recipient))
  {
    var t, notes := MarkedNotified(s, ReportableIds(s, recipient)), NewNotes(s, recipient);
    NewNotesExact(s, recipient);
    forall id | Issued(s, id)
      ensures Issued(t, id)
    {
      var n :| 1 <= n <= s.counter && id == IdOf(n);
      assert 1 <= n <= t.counter;
    }
    forall id {
      ToldOfConcat(delivered, notes, id);
    }
  }

  lemma {:induction false} SyncValid(policy: RetentionPolicy, y: System, recipient: string, now: int)
    requires SystemValid(y)
    ensures SystemValid(SysStep(policy, y, SyncOp(recipient, now)))
    ensures Handed(y, recipient) == NewNotes(y.store, recipient)
  {
    var notes := NewNotes(y.store, recipient);
    NewNotesExact(y.store, recipient);
    assert Queued(y.queues, recipient) == [] && Handed(y, recipient) == notes;
    SyncConsistent(y.store, y.delivered, recipient);
    forall i | 0 <= i < |y.delivered|
      ensures !ToldOf(notes, y.delivered[i].taskId)
    {
      assert ToldOf(y.delivered, y.delivered[i].taskId);
    }
    DistinctConcat(y.delivered, notes);
    var z := SysStep(policy, y, SyncOp(recipient, now));
    forall other
      ensures Queued(z.queues, other) == []
    {
      assert other != recipient ==> Queued(z.queues, other) == Queued(y.queues, other);
    }
  }

  lemma {:induction false} SysStepValid(policy: RetentionPolicy, y: System, op: TaskOp)
    requires SystemValid(y)
    ensures SystemValid(SysStep(policy, y, op))
  {
    if op.SyncOp? {
      SyncValid(policy, y, op.recipient, op.now);
    } else {
      StoreStepQuiet(policy, y.store, op);
      QuietConsistent(y.store, StoreStep(policy, y.store, op), y.delivered);
    }
  }

  lemma {:induction false} EmptyValid()
    ensures SystemValid(EMPTY_SYSTEM)
  {}

  lemma {:induction false} SysRunValid(policy: RetentionPolicy, y: System, ops: seq<TaskOp>)
    requires SystemValid(y)
    ensures SystemValid(SysRun(policy, y, ops))
    decreases |ops|
  {
    if ops != [] {
      SysStepValid(policy, y, ops[0]);
      SysRunValid(policy, SysStep(policy, y, ops[0]), ops[1..]);
    }
  }

  /** Over every history, no two notes ever handed out, to anybody, are about one task. */
  lemma {:induction false} ReportedAtMostOnce(policy: RetentionPolicy, ops: seq<TaskOp>, i: nat, j: nat)
    requires i < j < |SysRun(policy, EMPTY_SYSTEM, ops).delivered|
    ensures var notes := SysRun(policy, EMPTY_SYSTEM, ops).delivered; notes[i].taskId != notes[j].taskId
  {
    SysRunValid(policy, EMPTY_SYSTEM, ops);
  }

  /** After every history, a sync hands out exactly one note for each ended task of the recipient that was never
      reported; afterwards every such task has been. */
  lemma {:induction false} SyncReportsAll(policy: RetentionPolicy, ops: seq<TaskOp>, recipient: string, now: int,
      id: TaskId)
    ensures var y := SysRun(policy, EMPTY_SYSTEM, ops);
            var z := SysStep(policy, y, SyncOp(recipient, now));
            && (ToldOf(Handed(y, recipient), id) <==> Due(y.store, id, recipient) && !ToldOf(y.delivered, id))
            && (Due(y.store, id, recipient) ==> ToldOf(z.delivered, id))
  {
    var y := SysRun(policy, EMPTY_SYSTEM, ops);
    SysRunValid(policy, EMPTY_SYSTEM, ops);
    SyncValid(policy, y, recipient, now);
    NewNotesExact(y.store, recipient);
    ToldOfConcat(y.delivered, Handed(y, recipient), id);
  }

  /** An ended task whose parent session is the recipient. */
  predicate Due(s: TaskStore, id: TaskId, recipient: string) {
    && id in s.tasks && s.tasks[id].status in {Completed, Failed, Killed}
    && PARENT_KEY in s.tasks[id].metadata && s.tasks[id].metadata[PARENT_KEY] == recipient
  }

  /** After every history, an eviction pass removes a task exactly when it has ended, was reported, has no
      observer and is past its grace period. */
  lemma {:induction false} EvictedIff(policy: RetentionPolicy, ops: seq<TaskOp>, now: int, id: TaskId)
    requires id in SysRun(policy, EMPTY_SYSTEM, ops).store.tasks
    ensures var y := SysRun(policy, EMPTY_SYSTEM, ops);
            var r := y.store.tasks[id];
            id !in SysStep(policy, y, EvictOp(now)).store.tasks <==>
              policy.evictTerminal && IsTerminal(r.status) && ToldOf(y.delivered, id) && ObserversOf(y.store, id) == {}
              && r.endTime.Some? && now >= r.endTime.value + policy.grace
  {
    hide Distinct, ToldOf, Queued, Issued;
    EmptyValid();
    SysRunValid(policy, EMPTY_SYSTEM, ops);
  }

  // ------------------------------------------------------------------ ids and readers

  /** Ids once issued stay issued, and a task that is gone never comes back. */
  lemma {:induction false} GoneForGood(policy: RetentionPolicy, y: System, op: TaskOp, id: TaskId)
    requires SystemValid(y) && Issued(y.store, id)
    ensures Issued(SysStep(policy, y, op).store, id)
    ensures id !in y.store.tasks ==> id !in SysStep(policy, y, op).store.tasks
  {
    var n :| 1 <= n <= y.store.counter && id == IdOf(n);
    var z := SysStep(policy, y, op);
    if !op.SyncOp? {
      StoreStepQuiet(policy, y.store, op);
    }
    assert 1 <= n <= z.store.counter;
  }

  /** Every spawn over every history gets an id no earlier one got. */
  lemma {:induction false} IdsNeverReused(policy: RetentionPolicy, y: System, ops: seq<TaskOp>, id: TaskId)
    requires SystemValid(y) && Issued(y.store, id)
    ensures var z := SysRun(policy, y, ops);
            && IdOf(z.store.counter + 1) != id
            && (id !in y.store.tasks ==> id !in z.store.tasks)
    decreases |ops|
  {
    hide SysStep, SystemValid;
    if ops == [] {
      NewIdNotIssued(y.store);
    } else {
      SysStepValid(policy, y, ops[0]);
      GoneForGood(policy, y, ops[0], id);
      IdsNeverReused(policy, SysStep(policy, y, ops[0]), ops[1..], id);
    }
  }

  lemma {:induction false} ValidIssued(y: System, id: TaskId)
    requires SystemValid(y) && id in y.store.tasks
    ensures Issued(y.store, id)
  {}

  /** While a task lives, its events and outputs only grow at the end. */
  lemma {:induction false} LogsGrow(policy: RetentionPolicy, y: System, op: TaskOp, id: TaskId)
    requires SystemValid(y) && id in y.store.tasks && id in SysStep(policy, y, op).store.tasks
    ensures EventsOf(y.store, id) <= EventsOf(SysStep(policy, y, op).store, id)
    ensures OutputsOf(y.store, id) <= OutputsOf(SysStep(policy, y, op).store, id)
  {
    hide SystemValid, Issued, Reportable, Evictable, Spawned, Ended;
    ValidIssued(y, id);
    NewIdNotIssued(y.store);
    match op
    case SpawnOp(kind, description, agentId, metadata, now) =>
      SpawnLogs(y.store, kind, description, agentId, metadata, now, id);
    case FinishOp(other, ending, now) => EndedLogs(y.store, other, ending, now, id);
    case _ =>
  }

  lemma {:induction false} SpawnLogs(s: TaskStore, kind: string, description: string, agentId: Option<string>,
      metadata: map<string, string>, now: int, id: TaskId)
    requires id != IdOf(s.counter + 1)
    ensures var t := Spawned(s, kind, description, agentId, metadata, now);
            EventsOf(t, id) == EventsOf(s, id) && OutputsOf(t, id) == OutputsOf(s, id)
  {}

  lemma {:induction false} EndedLogs(s: TaskStore, other: TaskId, e: Ending, now: int, id: TaskId)
    ensures var t := Ended(s, other, e, now);
            EventsOf(s, id) <= EventsOf(t, id) && OutputsOf(t, id) == OutputsOf(s, id)
  {}

  /** A reader of one task, feeding every returned cursor back. */
  datatype Reader = Reader(eventCursor: nat, events: seq<TaskEvent>, outputCursor: nat, outputs: seq<string>)

  datatype Turn = World(op: TaskOp) | ReadEventsTurn | ReadOutputsTurn

  ghost function ReaderRun(policy: RetentionPolicy, y: System, id: TaskId, r: Reader, turns: seq<Turn>): (System,
      Reader)
    decreases |turns|
  {
    if turns == [] then (y, r)
    else
      match turns[0]
      case World(op) => ReaderRun(policy, SysStep(policy, y, op), id, r, turns[1..])
      case ReadEventsTurn =>
        var slice := EventSlice(y.store, id, r.eventCursor);
        var next :=
          if slice.None? then r
          else r.(eventCursor := slice.value.cursor, events := r.events + slice.value.items);
        ReaderRun(policy, y, id, next, turns[1..])
      case ReadOutputsTurn =>
        var slice := OutputSlice(y.store, id, r.outputCursor);
        var next :=
          if slice.None? then r
          else r.(outputCursor := slice.value.cursor, outputs := r.outputs + slice.value.items);
        ReaderRun(policy, y, id, next, turns[1..])
  }

  ghost predicate UpToDate<T(!new)>(log: seq<T>, got: seq<T>, cursor: nat) {
    cursor <= |log| && got == log[..cursor]
  }

  /** For every interleaving of operations and reads: while the task lives, what the reader has got is exactly the
      log up to its cursor, so every event and output came once and in order. */
  lemma {:induction false} ReaderExactlyOnce(policy: RetentionPolicy, y: System, id: TaskId, r: Reader,
      turns: seq<Turn>)
    requires SystemValid(y) && Issued(y.store, id)
    requires id in y.store.tasks ==>
               UpToDate(EventsOf(y.store, id), r.events, r.eventCursor) &&
                   UpToDate(OutputsOf(y.store, id), r.outputs, r.outputCursor)
    ensures var (z, q) := ReaderRun(policy, y, id, r, turns);
            id in z.store.tasks ==>
              UpToDate(EventsOf(z.store, id), q.events, q.eventCursor) &&
                  UpToDate(OutputsOf(z.store, id), q.outputs, q.outputCursor)
    decreases |turns|
  {
    hide SysStep, SystemValid, Issued, EventsOf, OutputsOf;
    if turns != [] {
      match turns[0] {
        case World(op) =>
          SysStepValid(policy, y, op);
          GoneForGood(policy, y, op, id);
          if id in y.store.tasks && id in SysStep(policy, y, op).store.tasks {
            LogsGrow(policy, y, op, id);
          }
          ReaderExactlyOnce(policy, SysStep(policy, y, op), id, r, turns[1..]);
        case ReadEventsTurn =>
          var slice := EventSlice(y.store, id, r.eventCursor);
          var next :=
            if slice.None? then r
            else r.(eventCursor := slice.value.cursor, events := r.events + slice.value.items);
          ReaderExactlyOnce(policy, y, id, next, turns[1..]);
        case ReadOutputsTurn =>
          var slice := OutputSlice(y.store, id, r.outputCursor);
          var next :=
            if slice.None? then r
            else r.(outputCursor := slice.value.cursor, outputs := r.outputs + slice.value.items);
          ReaderExactlyOnce(policy, y, id, next, turns[1..]);
      }
    }
  }

  // ------------------------------------------------------------------ both storages

  /** What an operation returns. */
  datatype Response =
    | NoResponse
    | IdResponse(id: TaskId)
    | KnownResponse(known: bool)
    | CursorResponse(cursor: Option<nat>)
    | NotesResponse(notes: seq<Note>)
    | RemovedResponse(ids: seq<TaskId>)
    | RecordResponse(record: Option<TaskRecord>)
    | EventsResponse(events: Option<Slice<TaskEvent>>)
    | OutputsResponse(outputs: Option<Slice<string>>)

  ghost function Answer(policy: RetentionPolicy, y: System, op: TaskOp): Response {
    var s := y.store;
    match op
    case SpawnOp(_, _, _, _, _) => IdResponse(IdOf(s.counter + 1))
    case FinishOp(id, _, _) => KnownResponse(id in s.tasks)
    case OutputOp(id, _, _) => CursorResponse(if id in s.tasks then Some(|OutputsOf(s, id)| + 1) else None)
    case SyncOp(recipient, _) => NotesResponse(Handed(y, recipient))
    case EvictOp(now) => RemovedResponse(SortedOf(EvictableIds(s, policy, now)))
    case GetOp(id) => RecordResponse(if id in s.tasks then Some(s.tasks[id]) else None)
    case ReadEventsOp(id, cursor) => EventsResponse(EventSlice(s, id, cursor))
    case ReadOutputsOp(id, cursor) => OutputsResponse(OutputSlice(s, id, cursor))
    case EventOp(_, _) => NoResponse
    case AttachOp(_, _) => NoResponse
    case DetachOp(_, _) => NoResponse
  }

  ghost function Answers(policy: RetentionPolicy, y: System, ops: seq<TaskOp>): seq<Response>
    decreases |ops|
  {
    if ops == [] then [] else [Answer(policy, y, ops[0])] + Answers(policy, SysStep(policy, y, ops[0]), ops[1..])
  }

  method Finish(m: TaskManager, op: TaskOp) returns (known: bool)
    requires op.FinishOp? && m.registry.Valid() && KeyedBy(m.registry.Contents())
    modifies m.registry.Footprint()
    ensures m.registry.Valid() && known == (op.id in old(m.registry.Contents()).tasks)
    ensures m.registry.Contents() == Ended(old(m.registry.Contents()), op.id, op.ending, op.now)
  {
    match op.ending
    case Complete(outputRef, metadata) => known := m.CompleteTask(op.id, outputRef, metadata, op.now);
    case Fail(reason, metadata) => known := m.FailTask(op.id, reason, metadata, op.now);
    case KillIt => known := m.Kill(op.id, op.now);
  }

  predicate OnRegistryOnly(op: TaskOp) {
    op.EventOp? || op.OutputOp? || op.AttachOp? || op.DetachOp? || op.GetOp? || op.ReadEventsOp? || op.ReadOutputsOp?
  }

  method PerformOnRegistry(registry: TaskRegistry, op: TaskOp, ghost y: System) returns (r: Response)
    requires OnRegistryOnly(op) && registry.Valid() && KeyedBy(registry.Contents()) && registry.Contents() == y.store
    modifies registry.Footprint()
    ensures registry.Valid() && r == Answer(registry.policy, y, op)
    ensures registry.Contents() == StoreStep(registry.policy, y.store, op)
  {
    r := NoResponse;
    match op {
      case EventOp(id, event) => registry.AppendEvent(id, event);
      case OutputOp(id, item, now) =>
        var cursor := registry.AppendOutput(id, item, now);
        r := CursorResponse(cursor);
      case AttachOp(id, b) => registry.AttachObserver(id, b);
      case DetachOp(id, b) => registry.DetachObserver(id, b);
      case GetOp(id) =>
        var record := registry.Get(id);
        r := RecordResponse(record);
      case ReadEventsOp(id, cursor) =>
        var slice := registry.ReadEventSlice(id, cursor);
        r := EventsResponse(slice);
      case ReadOutputsOp(id, cursor) =>
        var slice := registry.ReadOutputSlice(id, cursor);
        r := OutputsResponse(slice);
    }
  }

  method PerformLifecycle(m: TaskManager, op: TaskOp, ghost y: System) returns (r: Response)
    requires op.SpawnOp? || op.FinishOp? || op.EvictOp?
    requires m.registry.Valid() && m.registry.Contents() == y.store && KeyedBy(y.store)
    modifies m.registry.Footprint()
    ensures m.registry.Valid() && r == Answer(m.registry.policy, y, op)
    ensures m.registry.Contents() == StoreStep(m.registry.policy, y.store, op)
  {
    if op.SpawnOp? {
      var id := m.Spawn(op.kind, op.description, op.agentId, op.metadata, op.now);
      r := IdResponse(id);
    } else if op.FinishOp? {
      var known := Finish(m, op);
      r := KnownResponse(known);
    } else {
      var removed := m.registry.EvictExpired(op.now);
      SortedUnique(removed, SortedOf(EvictableIds(y.store, m.registry.policy, op.now)));
      r := RemovedResponse(removed);
    }
  }

  method PerformSync(rt: LocalMultiAgentRuntime, op: TaskOp, ghost y: System) returns (r: Response)
    requires op.SyncOp? && rt.manager.registry.Valid() && rt.manager.registry.Contents() == y.store
    requires KeyedBy(y.store) && rt.router.queues == y.queues
    modifies rt.manager.registry.Footprint(), rt.router
    ensures rt.manager.registry.Valid() && r == Answer(rt.manager.registry.policy, y, op)
    ensures rt.manager.registry.Contents() == StoreStep(rt.manager.registry.policy, y.store, op)
    ensures rt.router.queues == y.queues[op.recipient := []]
  {
    var notes := rt.SyncTaskNotifications(op.recipient, op.now);
    r := NotesResponse(notes);
  }

  method Perform(rt: LocalMultiAgentRuntime, op: TaskOp, ghost y: System) returns (r: Response)
    requires rt.manager.registry.Valid() && rt.manager.registry.Contents() == y.store && rt.router.queues == y.queues
    requires KeyedBy(y.store)
    modifies rt.manager.registry.Footprint(), rt.router
    ensures rt.manager.registry.Valid()
    ensures r == Answer(rt.manager.registry.policy, y, op)
    ensures rt.manager.registry.Contents() == SysStep(rt.manager.registry.policy, y, op).store
    ensures rt.router.queues == SysStep(rt.manager.registry.policy, y, op).queues
  {
    hide Answer, StoreStep, KeyedBy;
    if OnRegistryOnly(op) {
      r := PerformOnRegistry(rt.manager.registry, op, y);
    } else if op.SyncOp? {
      r := PerformSync(rt, op, y);
    } else {
      r := PerformLifecycle(rt.manager, op, y);
    }
  }

  lemma {:induction false} ValidKeyed(y: System)
    requires SystemValid(y)
    ensures KeyedBy(y.store)
  {}

  lemma {:induction false} AnswersUnfold(policy: RetentionPolicy, y: System, ops: seq<TaskOp>, i: nat)
    requires i < |ops|
    ensures Answers(policy, y, ops[i..]) == [Answer(policy, y, ops[i])] +
            Answers(policy, SysStep(policy, y, ops[i]), ops[i + 1..])
  {
    assert ops[i..][1..] == ops[i + 1..];
  }

  /** A fresh task system on the given storage answers every sequence of operations as specified, whichever
      storage it is. */
  method Replay(storage: Storage, policy: RetentionPolicy, ops: seq<TaskOp>) returns (responses: seq<Response>)
    requires storage.OnFiles? ==> storage.files.Valid() && storage.files.Contents() == EMPTY_STORE
    requires storage.InMemory? ==> storage.memory.Contents() == EMPTY_STORE
    modifies match storage case InMemory(m) => {m as object} case OnFiles(f) => {f as object}
    ensures responses == Answers(policy, EMPTY_SYSTEM, ops)
  {
    hide SysStep, SystemValid, Answer, KeyedBy;
    var registry := new TaskRegistry(storage, policy);
    var manager := new TaskManager(registry);
    var router := new TaskNotificationRouter();
    var rt := new LocalMultiAgentRuntime(manager, router);
    ghost var y := EMPTY_SYSTEM;
    EmptyValid();
    responses := [];
    var i := 0;
    while i < |ops|
      invariant 0 <= i <= |ops| && registry.Valid() && SystemValid(y)
      invariant registry.Contents() == y.store && router.queues == y.queues
      invariant responses + Answers(policy, y, ops[i..]) == Answers(policy, EMPTY_SYSTEM, ops)
    {
      SysStepValid(policy, y, ops[i]);
      ValidKeyed(y);
      AnswersUnfold(policy, y, ops, i);
      var r := Perform(rt, ops[i], y);
      responses := responses + [r];
      y := SysStep(policy, y, ops[i]);
      i := i + 1;
    }
  }

  /** The in-memory and the file storage give the same answers to every sequence of operations. */
  method StoragesAgree(policy: RetentionPolicy, ops: seq<TaskOp>) returns (inMemory: seq<Response>,
      onFiles: seq<Response>)
    ensures inMemory == onFiles && |inMemory| == |ops|
  {
    var m := new InMemoryTaskStorage();
    var f := new FileTaskStorage();
    inMemory := Replay(InMemory(m), policy, ops);
    onFiles := Replay(OnFiles(f), policy, ops);
    AnswersLength(policy, EMPTY_SYSTEM, ops);
  }

  lemma {:induction false} AnswersLength(policy: RetentionPolicy, y: System, ops: seq<TaskOp>)
    ensures |Answers(policy, y, ops)| == |ops|
    decreases |ops|
  {
    if ops != [] {
      AnswersLength(policy, SysStep(policy, y, ops[0]), ops[1..]);
    }
  }
}
