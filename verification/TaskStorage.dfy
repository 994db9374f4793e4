/** Task state on two interchangeable storages, and the registry that runs on either. */
module TaskStorage {
  import opened Wrappers
  import opened Order
  import Decimal

  type TaskId = string

  datatype Status =
    | Pending | Running | Completed | Cancelled | Killed | Stopped | Blocked | Failed | BudgetExhausted
    | Other(text: string)

  predicate IsTerminal(s: Status) {
    s in {Completed, Failed, Cancelled, Killed, Stopped}
  }

  datatype TaskRecord = TaskRecord(
    taskId: TaskId,
    kind: string,
    status: Status,
    description: string,
    agentId: Option<string>,
    outputRef: Option<string>,
    outputCursor: Option<nat>,
    endTime: Option<int>,
    notified: bool,
    metadata: map<string, string>)

  datatype TaskEvent = TaskEvent(eventId: string, kind: string)

  /** What an update names; the rest of the record stays. */
  datatype Patch = Patch(
    status: Option<Status> := None,
    metadata: Option<map<string, string>> := None,
    outputRef: Option<string> := None,
    outputCursor: Option<nat> := None,
    notified: Option<bool> := None,
    endTime: Option<int> := None)

  function Patched(r: TaskRecord, p: Patch, now: int): TaskRecord {
    var ended :=
      if p.status.Some? && IsTerminal(p.status.value) && r.endTime.None? then
        r.(endTime := Some(if p.endTime.Some? then p.endTime.value else now))
      else r;
    ended.(status := if p.status.Some? then p.status.value else r.status,
           metadata := if p.metadata.Some? then r.metadata + p.metadata.value else r.metadata,
           outputRef := if p.outputRef.Some? then p.outputRef else r.outputRef,
           outputCursor := if p.outputCursor.Some? then p.outputCursor else r.outputCursor,
           notified := if p.notified.Some? then p.notified.value else r.notified,
           endTime := if p.endTime.Some? then p.endTime else ended.endTime)
  }

  /** What either storage holds. */
  datatype TaskStore = TaskStore(
    tasks: map<TaskId, TaskRecord>,
    events: map<TaskId, seq<TaskEvent>>,
    outputs: map<TaskId, seq<string>>,
    observers: map<TaskId, set<string>>,
    counter: nat)

  const EMPTY_STORE := TaskStore(map[], map[], map[], map[], 0)

  function IdOf(n: nat): TaskId {
    "task_" + Decimal.Show(n)
  }

  lemma {:induction false} IdInjective(m: nat, n: nat)
    requires IdOf(m) == IdOf(n)
    ensures m == n
  {
    assert IdOf(m)[5..] == Decimal.Show(m) && IdOf(n)[5..] == Decimal.Show(n);
    Decimal.ShowInjective(m, n);
  }

  function EventsOf(s: TaskStore, id: TaskId): seq<TaskEvent> {
    if id in s.events then s.events[id] else []
  }

  function OutputsOf(s: TaskStore, id: TaskId): seq<string> {
    if id in s.outputs then s.outputs[id] else []
  }

  function ObserversOf(s: TaskStore, id: TaskId): set<string> {
    if id in s.observers then s.observers[id] else {}
  }

  /** Forget tasks, keeping their outputs unless told otherwise. */
  function Without(s: TaskStore, ids: set<TaskId>, withOutput: bool): TaskStore {
    s.(tasks := s.tasks - ids, events := s.events - ids, observers := s.observers - ids,
       outputs := if withOutput then s.outputs - ids else s.outputs)
  }

  // ------------------------------------------------------------------ in memory

  class InMemoryTaskStorage {
    var tasks: map<TaskId, TaskRecord>
    var events: map<TaskId, seq<TaskEvent>>
    var outputs: map<TaskId, seq<string>>
    var observers: map<TaskId, set<string>>
    var counter: nat

    constructor ()
      ensures Contents() == EMPTY_STORE
    {
      tasks, events, outputs, observers, counter := map[], map[], map[], map[], 0;
    }

    ghost function Contents(): TaskStore
      reads this
    {
      TaskStore(tasks, events, outputs, observers, counter)
    }

    method NextTaskId() returns (id: TaskId)
      modifies this
      ensures Contents() == old(Contents()).(counter := old(counter) + 1) && id == IdOf(old(counter) + 1)
    {
      counter := counter + 1;
      id := "task_" + Decimal.Show(counter);
    }

    method Remove(id: TaskId, withOutput: bool)
      modifies this
      ensures Contents() == Without(old(Contents()), {id}, withOutput)
    {
      tasks, events, observers := tasks - {id}, events - {id}, observers - {id};
      if withOutput {
        outputs := outputs - {id};
      }
    }
  }

  // ------------------------------------------------------------------ on files

  /** The JSON document of one file. */
  datatype Doc =
    | TaskDoc(record: TaskRecord)
    | EventsDoc(events: seq<TaskEvent>)
    | OutputsDoc(items: seq<string>)
    | BindingsDoc(bindings: seq<string>)

  function RecordsIn(dir: map<TaskId, Doc>): map<TaskId, TaskRecord> {
    map id | id in dir && dir[id].TaskDoc? :: dir[id].record
  }

  function EventsIn(dir: map<TaskId, Doc>): map<TaskId, seq<TaskEvent>> {
    map id | id in dir && dir[id].EventsDoc? :: dir[id].events
  }

  function OutputsIn(dir: map<TaskId, Doc>): map<TaskId, seq<string>> {
    map id | id in dir && dir[id].OutputsDoc? :: dir[id].items
  }

  function BindingsIn(dir: map<TaskId, Doc>): map<TaskId, set<string>> {
    map id | id in dir && dir[id].BindingsDoc? :: Elements(dir[id].bindings)
  }

  /** The number a counter file stands for; no file stands for zero. */
  function CountIn(file: Option<string>): nat {
    if file.None? then 0
    else
      match Decimal.Read(file.value)
      case Some(n) => if n >= 0 then n else 0
      case None => 0
  }

  /** A counter file stands for the number written to it, and no file for 0. */
  lemma {:induction false} CountReadsBack(n: nat)
    ensures CountIn(Some(Decimal.Show(n))) == n && CountIn(None) == 0
  {
    Decimal.ReadShow(n);
  }

  /** One file per task in each of four directories, and a counter file holding decimal text. */
  class FileTaskStorage {
    var tasksDir: map<TaskId, Doc>
    var eventsDir: map<TaskId, Doc>
    var outputsDir: map<TaskId, Doc>
    var observersDir: map<TaskId, Doc>
    var counterFile: Option<string>

    /** Every file has the shape its directory calls for. */
    ghost predicate Valid()
      reads this
    {
      && (forall id :: id in tasksDir ==> tasksDir[id].TaskDoc?)
      && (forall id :: id in eventsDir ==> eventsDir[id].EventsDoc?)
      && (forall id :: id in outputsDir ==> outputsDir[id].OutputsDoc?)
      && (forall id :: id in observersDir ==> observersDir[id].BindingsDoc?)
      && (counterFile.Some? ==> counterFile.value == Decimal.Show(CountIn(counterFile)))
    }

    ghost function Contents(): TaskStore
      reads this
    {
      TaskStore(RecordsIn(tasksDir), EventsIn(eventsDir), OutputsIn(outputsDir), BindingsIn(observersDir),
          CountIn(counterFile))
    }

    constructor ()
      ensures Valid() && Contents() == EMPTY_STORE
    {
      tasksDir, eventsDir, outputsDir, observersDir, counterFile := map[], map[], map[], map[], None;
    }

    method NextTaskId() returns (id: TaskId)
      requires Valid()
      modifies this`counterFile
      ensures Valid()
      ensures var n := old(Contents()).counter + 1; Contents() == old(Contents()).(counter := n) && id == IdOf(n)
    {
      var current := 0;
      if counterFile.Some? {
        Decimal.ReadShow(CountIn(counterFile));
        current := Decimal.Read(counterFile.value).value;
      }
      current := current + 1;
      Decimal.ReadShow(current);
      counterFile := Some(Decimal.Show(current));
      id := "task_" + Decimal.Show(current);
    }

    method WriteTask(r: TaskRecord)
      requires Valid()
      modifies this`tasksDir
      ensures Valid() && Contents() == old(Contents()).(tasks := old(Contents()).tasks[r.taskId := r])
    {
      assert RecordsIn(tasksDir[r.taskId := TaskDoc(r)]) == RecordsIn(tasksDir)[r.taskId := r];
      tasksDir := tasksDir[r.taskId := TaskDoc(r)];
    }

    method ReadEvents(id: TaskId) returns (events: seq<TaskEvent>)
      requires Valid()
      ensures events == EventsOf(Contents(), id)
    {
      events := if id in eventsDir && eventsDir[id].EventsDoc? then eventsDir[id].events else [];
    }

    method WriteEvents(id: TaskId, events: seq<TaskEvent>)
      requires Valid()
      modifies this`eventsDir
      ensures Valid() && Contents() == old(Contents()).(events := old(Contents()).events[id := events])
    {
      assert EventsIn(eventsDir[id := EventsDoc(events)]) == EventsIn(eventsDir)[id := events];
      eventsDir := eventsDir[id := EventsDoc(events)];
    }

    method ReadOutputs(id: TaskId) returns (items: seq<string>)
      requires Valid()
      ensures items == OutputsOf(Contents(), id)
    {
      items := if id in outputsDir && outputsDir[id].OutputsDoc? then outputsDir[id].items else [];
    }

    method WriteOutputs(id: TaskId, items: seq<string>)
      requires Valid()
      modifies this`outputsDir
      ensures Valid() && Contents() == old(Contents()).(outputs := old(Contents()).outputs[id := items])
    {
      assert OutputsIn(outputsDir[id := OutputsDoc(items)]) == OutputsIn(outputsDir)[id := items];
      outputsDir := outputsDir[id := OutputsDoc(items)];
    }

    method ReadObservers(id: TaskId) returns (bindings: set<string>)
      requires Valid()
      ensures bindings == ObserversOf(Contents(), id)
    {
      bindings := if id in observersDir && observersDir[id].BindingsDoc? then Elements(observersDir[id].bindings)
        else {};
    }

    method WriteObservers(id: TaskId, bindings: set<string>)
      requires Valid()
      modifies this`observersDir
      ensures Valid() && Contents() == old(Contents()).(observers := old(Contents()).observers[id := bindings])
    {
      var sorted := SortSet(bindings);
      assert BindingsIn(observersDir[id := BindingsDoc(sorted)]) == BindingsIn(observersDir)[id := bindings];
      observersDir := observersDir[id := BindingsDoc(sorted)];
    }

    method Remove(id: TaskId, withOutput: bool)
      requires Valid()
      modifies this
      ensures Valid() && Contents() == Without(old(Contents()), {id}, withOutput)
    {
      ForgetIn(tasksDir, id);
      ForgetIn(eventsDir, id);
      ForgetIn(observersDir, id);
      ForgetIn(outputsDir, id);
      tasksDir, eventsDir, observersDir := tasksDir - {id}, eventsDir - {id}, observersDir - {id};
      if withOutput {
        outputsDir := outputsDir - {id};
      }
    }
  }

  /** Unlinking a file removes exactly its entry. */
  lemma {:induction false} ForgetIn(dir: map<TaskId, Doc>, id: TaskId)
    ensures RecordsIn(dir - {id}) == RecordsIn(dir) - {id}
    ensures EventsIn(dir - {id}) == EventsIn(dir) - {id}
    ensures OutputsIn(dir - {id}) == OutputsIn(dir) - {id}
    ensures BindingsIn(dir - {id}) == BindingsIn(dir) - {id}
  {}
}
