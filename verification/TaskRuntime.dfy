/** Task lifecycle, notifications to parent sessions, and what every history of them keeps. */
module TaskRuntime {
  import opened Wrappers
  import opened Order
  import opened TaskStorage
  import opened TaskRegistry

  datatype Note = Note(recipient: string, taskId: TaskId, status: Status, summary: string, outputRef: Option<string>)

  const PARENT_KEY := "parent_session_id"

  predicate Reportable(r: TaskRecord, recipient: string) {
    && !r.notified
    && r.status in {Completed, Failed, Killed}
    && PARENT_KEY in r.metadata && r.metadata[PARENT_KEY] == recipient
  }

  function ReportableIds(s: TaskStore, recipient: string): set<TaskId> {
    set id | id in s.tasks && Reportable(s.tasks[id], recipient)
  }

  function NoteFor(r: TaskRecord, recipient: string): Note {
    Note(recipient, r.taskId, r.status, r.description, r.outputRef)
  }

  function NotesFor(s: TaskStore, ids: seq<TaskId>, recipient: string): (notes: seq<Note>)
    requires forall id :: id in ids ==> id in s.tasks
    ensures |notes| == |ids|
  {
    seq(|ids|, i requires 0 <= i < |ids| => NoteFor(s.tasks[ids[i]], recipient))
  }

  /** The notes a sync adds for a recipient, in listing order. */
  ghost function NewNotes(s: TaskStore, recipient: string): seq<Note> {
    var ids := SortedOf(ReportableIds(s, recipient));
    assert forall id :: id in ids ==> id in Elements(ids);
    NotesFor(s, ids, recipient)
  }

  function MarkedNotified(s: TaskStore, ids: set<TaskId>): TaskStore {
    s.(tasks := map id | id in s.tasks :: if id in ids then s.tasks[id].(notified := true) else s.tasks[id])
  }

  function Queued(queues: map<string, seq<Note>>, recipient: string): seq<Note> {
    if recipient in queues then queues[recipient] else []
  }

  // ------------------------------------------------------------------ the objects

  class TaskNotificationRouter {
    var queues: map<string, seq<Note>>

    constructor ()
      ensures queues == map[]
    {
      queues := map[];
    }

    method Publish(note: Note)
      modifies this
      ensures queues == old(queues)[note.recipient := Queued(old(queues), note.recipient) + [note]]
    {
      var queue := if note.recipient in queues then queues[note.recipient] else [];
      queues := queues[note.recipient := queue + [note]];
    }

    /** Reading drains the queue. */
    method Read(recipient: string) returns (notes: seq<Note>)
      modifies this
      ensures notes == Queued(old(queues), recipient) && queues == old(queues)[recipient := []]
    {
      notes := if recipient in queues then queues[recipient] else [];
      queues := queues[recipient := []];
    }
  }

  class TaskManager {
    const registry: TaskRegistry

    constructor (registry: TaskRegistry)
      ensures this.registry == registry
    {
      this.registry := registry;
    }

    method Spawn(kind: string, description: string, agentId: Option<string>, metadata: map<string, string>, now: int)
      returns (id: TaskId)
      requires registry.Valid() && KeyedBy(registry.Contents())
      modifies registry.Footprint()
      ensures registry.Valid() && KeyedBy(registry.Contents())
      ensures registry.Contents() == Spawned(old(registry.Contents()), kind, description, agentId, metadata, now)
      ensures id == IdOf(old(registry.Contents()).counter + 1)
    {
      hide EventLabel, IdOf, IsTerminal, Registered, Updated, WithEvent, Patched;
      id := registry.NextTaskId();
      ghost var numbered := registry.Contents();
      registry.Register(TaskRecord(id, kind, Pending, description, agentId, None, None, None, false, metadata));
      KeysStay(numbered, TaskRecord(id, kind, Pending, description, agentId, None, None, None, false, metadata),
               Patch(status := Some(Running)), now, EventLabel("started", id, 1));
      var _ := registry.Update(id, Patch(status := Some(Running)), now);
      registry.AppendEvent(id, EventLabel("started", id, 1));
    }

    method Finish(id: TaskId, status: Status, verb: string, metadata: map<string, string>, outputRef: Option<string>,
        now: int)
      returns (known: bool)
      requires registry.Valid() && KeyedBy(registry.Contents())
      modifies registry.Footprint()
      ensures registry.Valid() && KeyedBy(registry.Contents()) && known == (id in old(registry.Contents()).tasks)
      ensures registry.Contents() == Finished(old(registry.Contents()), id, status, verb, metadata, outputRef, now)
    {
      hide EventLabel, IsTerminal, IdOf;
      var r := registry.Update(id, Patch(status := Some(status), metadata := Some(metadata), outputRef := outputRef),
          now);
      if r.None? {
        return false;
      }
      var slice := registry.ReadEventSlice(id, 0);
      registry.AppendEvent(id, EventLabel(verb, id, slice.value.cursor + 1));
      return true;
    }

    method CompleteTask(id: TaskId, outputRef: Option<string>, metadata: map<string, string>,
        now: int) returns (known: bool)
      requires registry.Valid() && KeyedBy(registry.Contents())
      modifies registry.Footprint()
      ensures registry.Valid() && KeyedBy(registry.Contents()) && known == (id in old(registry.Contents()).tasks)
      ensures registry.Contents() == Finished(old(registry.Contents()), id, Completed, "completed", metadata,
              outputRef, now)
    {
      known := Finish(id, Completed, "completed", metadata, outputRef, now);
    }

    method FailTask(id: TaskId, reason: string, metadata: map<string, string>, now: int) returns (known: bool)
      requires registry.Valid() && KeyedBy(registry.Contents())
      modifies registry.Footprint()
      ensures registry.Valid() && KeyedBy(registry.Contents()) && known == (id in old(registry.Contents()).tasks)
      ensures registry.Contents() ==
              Finished(old(registry.Contents()), id, Failed, "failed", map["reason" := reason] + metadata, None, now)
    {
      known := Finish(id, Failed, "failed", map["reason" := reason] + metadata, None, now);
    }

    method Kill(id: TaskId, now: int) returns (known: bool)
      requires registry.Valid() && KeyedBy(registry.Contents())
      modifies registry.Footprint()
      ensures registry.Valid() && KeyedBy(registry.Contents()) && known == (id in old(registry.Contents()).tasks)
      ensures registry.Contents() == Finished(old(registry.Contents()), id, Killed, "killed", map[], None, now)
    {
      known := Finish(id, Killed, "killed", map[], None, now);
    }
  }

  /** Registering, updating and logging a record keep every record under its own id. */
  lemma {:induction false} KeysStay(s: TaskStore, r: TaskRecord, p: Patch, now: int, e: TaskEvent)
    requires KeyedBy(s)
    ensures KeyedBy(Registered(s, r))
    ensures KeyedBy(WithEvent(Updated(Registered(s, r), r.taskId, p, now), r.taskId, e))
  {
    hide IsTerminal;
  }

  class LocalMultiAgentRuntime {
    const manager: TaskManager
    const router: TaskNotificationRouter

    constructor (manager: TaskManager, router: TaskNotificationRouter)
      ensures this.manager == manager && this.router == router
    {
      this.manager, this.router := manager, router;
    }

    /** One listed task: publish and mark it when it is the recipient's to hear of. */
    method ReportTask(id: TaskId, recipient: string, now: int)
      requires manager.registry.Valid() && KeyedBy(manager.registry.Contents()) &&
              id in manager.registry.Contents().tasks
      modifies manager.registry.Footprint(), router
      ensures manager.registry.Valid() && KeyedBy(manager.registry.Contents())
      ensures (manager.registry.Contents(), router.queues) ==
              Reported(old(manager.registry.Contents()), old(router.queues), id, recipient, now)
    {
      var r := manager.registry.Get(id);
      if Reportable(r.value, recipient) {
        router.Publish(NoteFor(r.value, recipient));
        var _ := manager.registry.Update(id, Patch(notified := Some(true)), now);
      }
    }

    /** Publish every unreported ended task of the recipient, mark it, then drain the recipient's queue. */
    method SyncTaskNotifications(recipient: string, now: int) returns (notes: seq<Note>)
      requires manager.registry.Valid() && KeyedBy(manager.registry.Contents())
      modifies manager.registry.Footprint(), router
      ensures manager.registry.Valid()
      ensures var s := old(manager.registry.Contents());
              && manager.registry.Contents() == MarkedNotified(s, ReportableIds(s, recipient))
              && notes == Queued(old(router.queues), recipient) + NewNotes(s, recipient)
              && router.queues == old(router.queues)[recipient := []]
    {
      ghost var s, queues := manager.registry.Contents(), router.queues;
      var ids := manager.registry.List();
      var i := 0;
      ghost var done: seq<TaskId> := [];
      MarkedNone(s);
      while i < |ids|
        invariant 0 <= i <= |ids| && manager.registry.Valid() && KeyedBy(manager.registry.Contents())
        invariant Chosen(s, recipient, ids, i, done)
        invariant Progress(s, queues, recipient, done, manager.registry.Contents(), router.queues)
      {
        ChosenNext(s, recipient, ids, i, done);
        ProgressNext(s, queues, recipient, done, manager.registry.Contents(), router.queues, ids[i], now);
        ReportTask(ids[i], recipient, now);
        if Reportable(s.tasks[ids[i]], recipient) {
          done := done + [ids[i]];
        }
        i := i + 1;
      }
      ChosenAll(s, recipient, ids, done);
      notes := router.Read(recipient);
    }
  }

  /** The effect of one listed task on the store and the queues. */
  function Reported(s: TaskStore, queues: map<string, seq<Note>>, id: TaskId, recipient: string, now: int)
    : (TaskStore, map<string, seq<Note>>)
    requires id in s.tasks
  {
    if Reportable(s.tasks[id], recipient) then
      (Updated(s, id, Patch(notified := Some(true)), now),
       queues[recipient := Queued(queues, recipient) + [NoteFor(s.tasks[id], recipient)]])
    else (s, queues)
  }

  /** Where the store and the queues stand once `done` is reported. */
  ghost predicate Progress(s: TaskStore, queues: map<string, seq<Note>>, recipient: string, done: seq<TaskId>,
                           now: TaskStore, nowQueues: map<string, seq<Note>>) {
    && (forall id :: id in done ==> id in s.tasks)
    && now == MarkedNotified(s, Elements(done))
    && nowQueues[recipient := []] == queues[recipient := []]
    && Queued(nowQueues, recipient) == Queued(queues, recipient) + NotesFor(s, done, recipient)
  }

  lemma {:induction false} ProgressNext(s: TaskStore, queues: map<string, seq<Note>>, recipient: string,
      done: seq<TaskId>,
                     mid: TaskStore, midQueues: map<string, seq<Note>>, id: TaskId, now: int)
    requires id in s.tasks && id !in done && Progress(s, queues, recipient, done, mid, midQueues)
    requires Elements(done + [id]) == Elements(done) + {id}
    ensures id in mid.tasks && Reportable(mid.tasks[id], recipient) == Reportable(s.tasks[id], recipient)
    ensures var r := Reported(mid, midQueues, id, recipient, now);
            Progress(s, queues, recipient, if Reportable(s.tasks[id], recipient) then done + [id] else done, r.0, r.1)
  {
    MarkedMore(s, Elements(done), id, now);
    NotesMore(s, done, id, recipient);
  }

  lemma {:induction false} ChosenAll(s: TaskStore, recipient: string, ids: seq<TaskId>, done: seq<TaskId>)
    requires Chosen(s, recipient, ids, |ids|, done)
    ensures Elements(done) == ReportableIds(s, recipient)
    ensures NotesFor(s, done, recipient) == NewNotes(s, recipient)
  {
    assert ids[..|ids|] == ids;
    assert forall id :: id in ids <==> id in Elements(ids);
    assert Elements(done) == ReportableIds(s, recipient);
    SortedUnique(done, SortedOf(ReportableIds(s, recipient)));
  }

  /** After `i` listed tasks, `done` are the reportable ones among them, in order. */
  ghost predicate Chosen(s: TaskStore, recipient: string, ids: seq<TaskId>, i: nat, done: seq<TaskId>)
    requires i <= |ids|
  {
    && Sorted(ids) && Sorted(done) && Elements(ids) == s.tasks.Keys && KeyedBy(s)
    && (forall id :: id in done <==> id in ids[..i] && id in s.tasks && Reportable(s.tasks[id], recipient))
  }

  lemma {:induction false} ChosenNext(s: TaskStore, recipient: string, ids: seq<TaskId>, i: nat, done: seq<TaskId>)
    requires i < |ids| && Chosen(s, recipient, ids, i, done)
    ensures ids[i] in s.tasks && ids[i] !in done
    ensures Chosen(s, recipient, ids, i + 1, if Reportable(s.tasks[ids[i]], recipient) then done + [ids[i]] else done)
    ensures Elements(done + [ids[i]]) == Elements(done) + {ids[i]}
  {
    assert ids[i] in Elements(ids);
    NotRemovedYet(ids, i, done);
    SortedSnoc(ids, i, done);
    assert ids[..i + 1] == ids[..i] + [ids[i]];
  }

  lemma {:induction false} MarkedNone(s: TaskStore)
    ensures MarkedNotified(s, Elements([])) == s
  {
    assert MarkedNotified(s, Elements([])).tasks == s.tasks;
  }

  lemma {:induction false} MarkedMore(s: TaskStore, ids: set<TaskId>, id: TaskId, now: int)
    requires id in s.tasks && id !in ids
    ensures Updated(MarkedNotified(s, ids), id, Patch(notified := Some(true)), now) == MarkedNotified(s, ids + {id})
  {
    assert Updated(MarkedNotified(s, ids), id, Patch(notified := Some(true)), now).tasks ==
           MarkedNotified(s, ids + {id}).tasks;
  }

  lemma {:induction false} NotesMore(s: TaskStore, ids: seq<TaskId>, id: TaskId, recipient: string)
    requires id in s.tasks && forall x :: x in ids ==> x in s.tasks
    ensures NotesFor(s, ids + [id], recipient) == NotesFor(s, ids, recipient) + [NoteFor(s.tasks[id], recipient)]
  {}
}
