/** The task registry and manager: lifecycle, cursors, observers and guarded eviction over either storage. */
module TaskRegistry {
  import opened Wrappers
  import opened Order
  import opened TaskStorage
  import Decimal

  datatype RetentionPolicy = RetentionPolicy(grace: int, evictTerminal: bool, evictOutput: bool)

  // ------------------------------------------------------------------ what each operation means

  function Registered(s: TaskStore, r: TaskRecord): TaskStore {
    var id := r.taskId;
    s.(tasks := s.tasks[id := r], events := s.events[id := EventsOf(s, id)],
       outputs := s.outputs[id := OutputsOf(s, id)], observers := s.observers[id := ObserversOf(s, id)])
  }

  function Updated(s: TaskStore, id: TaskId, p: Patch, now: int): TaskStore {
    if id in s.tasks then s.(tasks := s.tasks[id := Patched(s.tasks[id], p, now)]) else s
  }

  function WithEvent(s: TaskStore, id: TaskId, e: TaskEvent): TaskStore {
    s.(events := s.events[id := EventsOf(s, id) + [e]])
  }

  /** The output is stored even when the task does not exist; only then comes the error. */
  function WithOutput(s: TaskStore, id: TaskId, item: string, now: int): TaskStore {
    var items := OutputsOf(s, id) + [item];
    Updated(s.(outputs := s.outputs[id := items]), id, Patch(outputCursor := Some(|items|)), now)
  }

  function WithObserver(s: TaskStore, id: TaskId, b: string): TaskStore {
    s.(observers := s.observers[id := ObserversOf(s, id) + {b}])
  }

  function WithoutObserver(s: TaskStore, id: TaskId, b: string): TaskStore {
    s.(observers := s.observers[id := ObserversOf(s, id) - {b}])
  }

  /** Terminal, reported, unobserved, and past its grace period. */
  predicate Evictable(s: TaskStore, policy: RetentionPolicy, now: int, id: TaskId) {
    && id in s.tasks
    && IsTerminal(s.tasks[id].status)
    && ObserversOf(s, id) == {}
    && s.tasks[id].notified
    && s.tasks[id].endTime.Some?
    && now >= s.tasks[id].endTime.value + policy.grace
  }

  function EvictableIds(s: TaskStore, policy: RetentionPolicy, now: int): set<TaskId> {
    if policy.evictTerminal then set id | id in s.tasks && Evictable(s, policy, now, id) else {}
  }

  function EventLabel(verb: string, id: TaskId, n: nat): TaskEvent {
    TaskEvent("task_" + verb + ":" + id + ":" + Decimal.Show(n), verb)
  }

  function Spawned(s: TaskStore, kind: string, description: string, agentId: Option<string>,
                   metadata: map<string, string>, now: int): TaskStore {
    var id := IdOf(s.counter + 1);
    var r := TaskRecord(id, kind, Pending, description, agentId, None, None, None, false, metadata);
    var running := Updated(Registered(s.(counter := s.counter + 1), r), id, Patch(status := Some(Running)), now);
    WithEvent(running, id, EventLabel("started", id, 1))
  }

  /** Completing, failing and killing: one update and one closing event; an unknown task is an error. */
  function Finished(s: TaskStore, id: TaskId, status: Status, verb: string, metadata: map<string, string>,
                    outputRef: Option<string>, now: int): TaskStore {
    if id !in s.tasks then s
    else
      var updated := Updated(s, id, Patch(status := Some(status), metadata := Some(metadata), outputRef := outputRef),
          now);
      WithEvent(updated, id, EventLabel(verb, id, |EventsOf(s, id)| + 1))
  }

  /** A reader's answer: everything from the cursor on, the new cursor, and whether the task has ended. */
  datatype Slice<T> = Slice(items: seq<T>, cursor: nat, done: bool)

  function From<T>(xs: seq<T>, cursor: nat): seq<T> {
    if cursor <= |xs| then xs[cursor..] else []
  }

  function EventSlice(s: TaskStore, id: TaskId, cursor: nat): Option<Slice<TaskEvent>> {
    if id in s.tasks then
      Some(Slice(From(EventsOf(s, id), cursor), |EventsOf(s, id)|, IsTerminal(s.tasks[id].status)))
    else None
  }

  function OutputSlice(s: TaskStore, id: TaskId, cursor: nat): Option<Slice<string>> {
    if id in s.tasks then
      Some(Slice(From(OutputsOf(s, id), cursor), |OutputsOf(s, id)|, IsTerminal(s.tasks[id].status)))
    else None
  }

  // ------------------------------------------------------------------ the registry

  datatype Storage = InMemory(memory: InMemoryTaskStorage) | OnFiles(files: FileTaskStorage)

  class TaskRegistry {
    const storage: Storage
    const policy: RetentionPolicy

    constructor (storage: Storage, policy: RetentionPolicy)
      ensures this.storage == storage && this.policy == policy
    {
      this.storage, this.policy := storage, policy;
    }

    ghost function Footprint(): set<object> {
      match storage
      case InMemory(m) => {m}
      case OnFiles(f) => {f}
    }

    ghost predicate Valid()
      reads Footprint()
    {
      storage.OnFiles? ==> storage.files.Valid()
    }

    /** The same abstract store for both storages: every method below is specified by it alone. */
    ghost function Contents(): TaskStore
      reads Footprint()
    {
      match storage
      case InMemory(m) => m.Contents()
      case OnFiles(f) => f.Contents()
    }

    method NextTaskId() returns (id: TaskId)
      requires Valid()
      modifies Footprint()
      ensures Valid()
      ensures var n := old(Contents()).counter + 1; Contents() == old(Contents()).(counter := n) && id == IdOf(n)
    {
      match storage
      case InMemory(m) => id := m.NextTaskId();
      case OnFiles(f) => id := f.NextTaskId();
    }

    method Get(id: TaskId) returns (r: Option<TaskRecord>)
      requires Valid()
      ensures r == if id in Contents().tasks then Some(Contents().tasks[id]) else None
    {
      match storage
      case InMemory(m) => r := if id in m.tasks then Some(m.tasks[id]) else None;
      case OnFiles(f) => r := if id in f.tasksDir then Some(f.tasksDir[id].record) else None;
    }

    method WriteTask(r: TaskRecord)
      requires Valid()
      modifies Footprint()
      ensures Valid() && Contents() == old(Contents()).(tasks := old(Contents()).tasks[r.taskId := r])
    {
      match storage
      case InMemory(m) => m.tasks := m.tasks[r.taskId := r];
      case OnFiles(f) => f.WriteTask(r);
    }

    method ReadEvents(id: TaskId) returns (events: seq<TaskEvent>)
      requires Valid()
      ensures events == EventsOf(Contents(), id)
    {
      match storage
      case InMemory(m) => events := if id in m.events then m.events[id] else [];
      case OnFiles(f) => events := f.ReadEvents(id);
    }

    method WriteEvents(id: TaskId, events: seq<TaskEvent>)
      requires Valid()
      modifies Footprint()
      ensures Valid() && Contents() == old(Contents()).(events := old(Contents()).events[id := events])
    {
      match storage
      case InMemory(m) => m.events := m.events[id := events];
      case OnFiles(f) => f.WriteEvents(id, events);
    }

    method ReadOutputs(id: TaskId) returns (items: seq<string>)
      requires Valid()
      ensures items == OutputsOf(Contents(), id)
    {
      match storage
      case InMemory(m) => items := if id in m.outputs then m.outputs[id] else [];
      case OnFiles(f) => items := f.ReadOutputs(id);
    }

    method WriteOutputs(id: TaskId, items: seq<string>)
      requires Valid()
      modifies Footprint()
      ensures Valid() && Contents() == old(Contents()).(outputs := old(Contents()).outputs[id := items])
    {
      match storage
      case InMemory(m) => m.outputs := m.outputs[id := items];
      case OnFiles(f) => f.WriteOutputs(id, items);
    }

    method ReadObservers(id: TaskId) returns (bindings: set<string>)
      requires Valid()
      ensures bindings == ObserversOf(Contents(), id)
    {
      match storage
      case InMemory(m) => bindings := if id in m.observers then m.observers[id] else {};
      case OnFiles(f) => bindings := f.ReadObservers(id);
    }

    method WriteObservers(id: TaskId, bindings: set<string>)
      requires Valid()
      modifies Footprint()
      ensures Valid() && Contents() == old(Contents()).(observers := old(Contents()).observers[id := bindings])
    {
      match storage
      case InMemory(m) => m.observers := m.observers[id := bindings];
      case OnFiles(f) => f.WriteObservers(id, bindings);
    }

    method Remove(id: TaskId)
      requires Valid()
      modifies Footprint()
      ensures Valid() && Contents() == Without(old(Contents()), {id}, policy.evictOutput)
    {
      match storage
      case InMemory(m) => m.Remove(id, policy.evictOutput);
      case OnFiles(f) => f.Remove(id, policy.evictOutput);
    }

    /** All task ids in the order of the listing. */
    method List() returns (ids: seq<TaskId>)
      requires Valid()
      ensures Sorted(ids) && Elements(ids) == Contents().tasks.Keys
    {
      match storage
      case InMemory(m) => ids := SortSet(m.tasks.Keys);
      case OnFiles(f) => ids := SortSet(f.tasksDir.Keys);
    }

    method Register(r: TaskRecord)
      requires Valid()
      modifies Footprint()
      ensures Valid() && Contents() == Registered(old(Contents()), r)
    {
      WriteTask(r);
      var events := ReadEvents(r.taskId);
      WriteEvents(r.taskId, events);
      var outputs := ReadOutputs(r.taskId);
      WriteOutputs(r.taskId, outputs);
      var observers := ReadObservers(r.taskId);
      WriteObservers(r.taskId, observers);
    }

    static method PatchRecord(r: TaskRecord, p: Patch, now: int) returns (record: TaskRecord)
      ensures record == Patched(r, p, now)
    {
      record := r;
      if p.status.Some? {
        record := record.(status := p.status.value);
        if IsTerminal(p.status.value) && record.endTime.None? {
          record := record.(endTime := Some(if p.endTime.Some? then p.endTime.value else now));
        }
      }
      if p.metadata.Some? {
        record := record.(metadata := record.metadata + p.metadata.value);
      }
      if p.outputRef.Some? {
        record := record.(outputRef := p.outputRef);
      }
      if p.outputCursor.Some? {
        record := record.(outputCursor := p.outputCursor);
      }
      if p.notified.Some? {
        record := record.(notified := p.notified.value);
      }
      if p.endTime.Some? {
        record := record.(endTime := p.endTime);
      }
    }

    method Update(id: TaskId, p: Patch, now: int) returns (r: Option<TaskRecord>)
      requires Valid() && KeyedBy(Contents())
      modifies Footprint()
      ensures Valid() && Contents() == Updated(old(Contents()), id, p, now)
      ensures r == if id in Contents().tasks then Some(Contents().tasks[id]) else None
    {
      r := Get(id);
      if r.None? {
        return;
      }
      var record := PatchRecord(r.value, p, now);
      WriteTask(record);
      r := Some(record);
    }

    method AppendEvent(id: TaskId, e: TaskEvent)
      requires Valid()
      modifies Footprint()
      ensures Valid() && Contents() == WithEvent(old(Contents()), id, e)
    {
      var events := ReadEvents(id);
      WriteEvents(id, events + [e]);
    }

    method ReadEventSlice(id: TaskId, cursor: nat) returns (slice: Option<Slice<TaskEvent>>)
      requires Valid()
      ensures slice == EventSlice(Contents(), id, cursor)
    {
      var events := ReadEvents(id);
      var r := Get(id);
      slice := if r.None? then None else Some(Slice(From(events, cursor), |events|, IsTerminal(r.value.status)));
    }

    method AppendOutput(id: TaskId, item: string, now: int) returns (cursor: Option<nat>)
      requires Valid() && KeyedBy(Contents())
      modifies Footprint()
      ensures Valid() && Contents() == WithOutput(old(Contents()), id, item, now)
      ensures cursor == if id in Contents().tasks then Some(|OutputsOf(Contents(), id)|) else None
    {
      var outputs := ReadOutputs(id);
      WriteOutputs(id, outputs + [item]);
      var r := Update(id, Patch(outputCursor := Some(|outputs| + 1)), now);
      cursor := if r.Some? then Some(|outputs| + 1) else None;
    }

    method ReadOutputSlice(id: TaskId, cursor: nat) returns (slice: Option<Slice<string>>)
      requires Valid()
      ensures slice == OutputSlice(Contents(), id, cursor)
    {
      var outputs := ReadOutputs(id);
      var r := Get(id);
      slice := if r.None? then None else Some(Slice(From(outputs, cursor), |outputs|, IsTerminal(r.value.status)));
    }

    method AttachObserver(id: TaskId, b: string)
      requires Valid()
      modifies Footprint()
      ensures Valid() && Contents() == WithObserver(old(Contents()), id, b)
    {
      var bindings := ReadObservers(id);
      WriteObservers(id, bindings + {b});
    }

    method DetachObserver(id: TaskId, b: string)
      requires Valid()
      modifies Footprint()
      ensures Valid() && Contents() == WithoutObserver(old(Contents()), id, b)
    {
      var bindings := ReadObservers(id);
      WriteObservers(id, bindings - {b});
    }

    method IsExpired(id: TaskId, now: int) returns (expired: bool)
      requires Valid()
      ensures expired == Evictable(Contents(), policy, now, id)
    {
      var r := Get(id);
      var bindings := ReadObservers(id);
      expired := r.Some? && IsTerminal(r.value.status) && bindings == {} && r.value.notified && r.value.endTime.Some?
                 && !(now < r.value.endTime.value + policy.grace);
    }

    /** One pass removes exactly the evictable tasks and reports them in listing order. */
    method EvictExpired(now: int) returns (removed: seq<TaskId>)
      requires Valid() && KeyedBy(Contents())
      modifies Footprint()
      ensures Valid()
      ensures var ids := EvictableIds(old(Contents()), policy, now);
              && Contents() == Without(old(Contents()), ids, policy.evictOutput)
              && Sorted(removed) && Elements(removed) == ids
    {
      hide Evictable, Without, IsTerminal;
      removed := [];
      ghost var before := Contents();
      if !policy.evictTerminal {
        WithoutNone(before, policy.evictOutput);
        return;
      }
      var ids := List();
      var i := 0;
      WithoutNone(before, policy.evictOutput);
      assert Elements(removed) == {};
      while i < |ids|
        invariant 0 <= i <= |ids| && Valid()
        invariant Contents() == Without(before, Elements(removed), policy.evictOutput)
        invariant Swept(before, policy, now, ids, i, removed)
      {
        NotRemovedYet(ids, i, removed);
        EvictableApart(before, policy, now, Elements(removed), ids[i]);
        SweptNext(before, policy, now, ids, i, removed);
        var expired := IsExpired(ids[i], now);
        if expired {
          WithoutMore(before, Elements(removed), ids[i], policy.evictOutput);
          Remove(ids[i]);
          removed := removed + [ids[i]];
        }
        i := i + 1;
      }
      SweptAll(before, policy, now, ids, removed);
    }
  }

  /** After `i` listed tasks, the removed ones are the evictable among them. */
  ghost predicate Swept(before: TaskStore, policy: RetentionPolicy, now: int, ids: seq<TaskId>, i: nat,
      removed: seq<TaskId>)
    requires i <= |ids|
  {
    Sorted(removed) && forall id :: id in removed <==> id in ids[..i] && Evictable(before, policy, now, id)
  }

  lemma {:induction false} SweptAll(before: TaskStore, policy: RetentionPolicy, now: int, ids: seq<TaskId>,
      removed: seq<TaskId>)
    requires policy.evictTerminal && Elements(ids) == before.tasks.Keys &&
            Swept(before, policy, now, ids, |ids|, removed)
    ensures Sorted(removed) && Elements(removed) == EvictableIds(before, policy, now)
  {
    assert ids[..|ids|] == ids;
    assert forall id :: id in ids <==> id in Elements(ids);
  }

  lemma {:induction false} SweptNext(before: TaskStore, policy: RetentionPolicy, now: int, ids: seq<TaskId>, i: nat,
      removed: seq<TaskId>)
    requires Sorted(ids) && i < |ids| && Swept(before, policy, now, ids, i, removed)
    ensures var expired := Evictable(before, policy, now, ids[i]);
            && Swept(before, policy, now, ids, i + 1, if expired then removed + [ids[i]] else removed)
            && (expired ==> Elements(removed + [ids[i]]) == Elements(removed) + {ids[i]})
  {
    SortedSnoc(ids, i, removed);
    assert ids[..i + 1] == ids[..i] + [ids[i]];
  }

  /** Records are filed under their own ids. */
  ghost predicate KeyedBy(s: TaskStore) {
    forall id :: id in s.tasks ==> s.tasks[id].taskId == id
  }

  /** Removing other tasks changes nothing for this one. */
  lemma {:induction false} EvictableApart(s: TaskStore, policy: RetentionPolicy, now: int, ids: set<TaskId>, id: TaskId)
    requires id !in ids
    ensures Evictable(Without(s, ids, policy.evictOutput), policy, now, id) == Evictable(s, policy, now, id)
  {}

  lemma {:induction false} NotRemovedYet(ids: seq<TaskId>, i: nat, removed: seq<TaskId>)
    requires Sorted(ids) && i < |ids| && forall id :: id in removed ==> id in ids[..i]
    ensures ids[i] !in removed
  {
    LessTotal(ids[i], ids[i]);
  }

  lemma {:induction false} WithoutNone(s: TaskStore, withOutput: bool)
    ensures Without(s, {}, withOutput) == s
  {
    assert s.tasks - {} == s.tasks && s.events - {} == s.events;
    assert s.observers - {} == s.observers && s.outputs - {} == s.outputs;
  }

  lemma {:induction false} WithoutMore(s: TaskStore, ids: set<TaskId>, id: TaskId, withOutput: bool)
    ensures Without(Without(s, ids, withOutput), {id}, withOutput) == Without(s, ids + {id}, withOutput)
  {
    assert (s.tasks - ids) - {id} == s.tasks - (ids + {id});
    assert (s.events - ids) - {id} == s.events - (ids + {id});
    assert (s.observers - ids) - {id} == s.observers - (ids + {id});
    assert (s.outputs - ids) - {id} == s.outputs - (ids + {id});
  }

  lemma {:induction false} SortedSnoc(ids: seq<TaskId>, i: nat, removed: seq<TaskId>)
    requires Sorted(ids) && i < |ids| && Sorted(removed) && forall id :: id in removed ==> id in ids[..i]
    ensures Sorted(removed + [ids[i]])
    ensures Elements(removed + [ids[i]]) == Elements(removed) + {ids[i]}
  {
    forall j | 0 <= j < |removed| ensures Less(removed[j], ids[i]) {
      assert removed[j] in removed;
    }
  }
}
