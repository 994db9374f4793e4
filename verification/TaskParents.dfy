/** What each operation does to a task's record and logs, and the task that its parent session always hears of. */
module TaskParents {
  import opened Wrappers
  import opened Order
  import opened TaskStorage
  import opened TaskRegistry
  import opened TaskRuntime
  import opened TaskHistory
  import Decimal

  /** The operation ends this task. */
  predicate Ends(op: TaskOp, id: TaskId) {
    op.FinishOp? && op.id == id
  }

  /** A task as it was before and is after an operation that did not remove it. */
  ghost predicate Survives(policy: RetentionPolicy, y: System, op: TaskOp, id: TaskId) {
    SystemValid(y) && id in y.store.tasks && id in SysStep(policy, y, op).store.tasks
  }

  lemma {:induction false} OtherId(y: System, id: TaskId)
    requires SystemValid(y) && id in y.store.tasks
    ensures id != IdOf(y.store.counter + 1)
  {
    hide IdOf;
    NewIdNotIssued(y.store);
  }

  /** What the operation is about is another task, or none. */
  predicate Foreign(op: TaskOp, id: TaskId) {
    op.SpawnOp? || op.EvictOp? || (op.FinishOp? && op.id != id)
  }

  lemma {:induction false} SpawnApart(s: TaskStore, op: TaskOp, id: TaskId)
    requires op.SpawnOp? && id in s.tasks && id != IdOf(s.counter + 1)
    ensures var t := Spawned(s, op.kind, op.description, op.agentId, op.metadata, op.now);
            && id in t.tasks && t.tasks[id] == s.tasks[id] && EventsOf(t, id) == EventsOf(s, id)
            && OutputsOf(t, id) == OutputsOf(s, id) && ObserversOf(t, id) == ObserversOf(s, id)
  {
    hide EventLabel, IdOf, Patched;
  }

  lemma {:induction false} EndingApart(s: TaskStore, other: TaskId, e: Ending, now: int, id: TaskId)
    requires id in s.tasks && other != id
    ensures var t := Ended(s, other, e, now);
            && id in t.tasks && t.tasks[id] == s.tasks[id] && EventsOf(t, id) == EventsOf(s, id)
            && OutputsOf(t, id) == OutputsOf(s, id) && ObserversOf(t, id) == ObserversOf(s, id)
  {
    hide EventLabel, Patched;
  }

  lemma {:induction false} ForeignApart(policy: RetentionPolicy, y: System, op: TaskOp, id: TaskId)
    requires Survives(policy, y, op, id) && Foreign(op, id)
    ensures var s, t := y.store, SysStep(policy, y, op).store;
            && t.tasks[id] == s.tasks[id] && EventsOf(t, id) == EventsOf(s, id)
            && OutputsOf(t, id) == OutputsOf(s, id) && ObserversOf(t, id) == ObserversOf(s, id)
  {
    OtherId(y, id);
    hide SystemValid, IdOf, EvictableIds, Spawned, Ended;
    if op.SpawnOp? {
      SpawnApart(y.store, op, id);
    } else if op.FinishOp? {
      EndingApart(y.store, op.id, op.ending, op.now, id);
    }
  }

  /** An operation merges the metadata it names into a task's and keeps every other key; a failure names its reason
      unless its metadata does. */
  lemma {:induction false} MetadataMerged(policy: RetentionPolicy, y: System, op: TaskOp, id: TaskId, key: string)
    requires Survives(policy, y, op, id)
    ensures var before, after := y.store.tasks[id].metadata, SysStep(policy, y, op).store.tasks[id].metadata;
            if Ends(op, id) && !op.ending.KillIt? && key in op.ending.metadata then
              key in after && after[key] == op.ending.metadata[key]
            else if Ends(op, id) && op.ending.Fail? && key == "reason" then
              key in after && after[key] == op.ending.reason
            else (key in after <==> key in before) && (key in before ==> after[key] == before[key])
  {
    if Ends(op, id) {
      EndedMetadata(y.store, id, op.ending, op.now, key);
    } else {
      MetadataStays(policy, y, op, id);
    }
  }

  lemma {:induction false} EndedMetadata(s: TaskStore, id: TaskId, e: Ending, now: int, key: string)
    requires id in s.tasks && id in Ended(s, id, e, now).tasks
    ensures var before, after := s.tasks[id].metadata, Ended(s, id, e, now).tasks[id].metadata;
            if !e.KillIt? && key in e.metadata then key in after && after[key] == e.metadata[key]
            else if e.Fail? && key == "reason" then key in after && after[key] == e.reason
            else (key in after <==> key in before) && (key in before ==> after[key] == before[key])
  {
    hide EventLabel, IsTerminal;
  }

  lemma {:induction false} MetadataStays(policy: RetentionPolicy, y: System, op: TaskOp, id: TaskId)
    requires Survives(policy, y, op, id) && !Ends(op, id)
    ensures SysStep(policy, y, op).store.tasks[id].metadata == y.store.tasks[id].metadata
  {
    hide SystemValid, Spawned, Ended, Without;
    if Foreign(op, id) {
      ForeignApart(policy, y, op, id);
    }
  }

  /** Nothing but its own ending, its own output and its parent's sync changes a task's record, and they change the
      fields they are for. */
  lemma {:induction false} RecordChanges(policy: RetentionPolicy, y: System, op: TaskOp, id: TaskId)
    requires Survives(policy, y, op, id)
    ensures var r, q := y.store.tasks[id], SysStep(policy, y, op).store.tasks[id];
            && q.taskId == r.taskId && q.kind == r.kind && q.description == r.description && q.agentId == r.agentId
            && q.status == (if !Ends(op, id) then r.status
                            else match op.ending case Complete(_, _) => Completed case Fail(_, _) => Failed
                                                 case KillIt => Killed)
            && q.endTime == (if Ends(op, id) && r.endTime.None? then Some(op.now) else r.endTime)
            && q.outputRef == (if Ends(op, id) && op.ending.Complete? && op.ending.outputRef.Some? then
                                 op.ending.outputRef else r.outputRef)
            && q.outputCursor == (if op.OutputOp? && op.id == id then Some(|OutputsOf(y.store, id)| + 1)
                                  else r.outputCursor)
            && q.notified == (r.notified ||
                  (op.SyncOp? && r.status in {Completed, Failed, Killed} &&
                   "parent_session_id" in r.metadata && r.metadata["parent_session_id"] == op.recipient))
  {
    hide SystemValid, Spawned, Without;
    if Ends(op, id) {
      EndedRecord(y.store, id, op.ending, op.now);
    }
    hide Ended;
    if Foreign(op, id) {
      ForeignApart(policy, y, op, id);
    }
  }

  lemma {:induction false} EndedRecord(s: TaskStore, id: TaskId, e: Ending, now: int)
    requires id in s.tasks
    ensures id in Ended(s, id, e, now).tasks
    ensures var r, q := s.tasks[id], Ended(s, id, e, now).tasks[id];
            && q.taskId == r.taskId && q.kind == r.kind && q.description == r.description && q.agentId == r.agentId
            && q.status == (match e case Complete(_, _) => Completed case Fail(_, _) => Failed case KillIt => Killed)
            && q.endTime == (if r.endTime.None? then Some(now) else r.endTime)
            && q.outputRef == (if e.Complete? && e.outputRef.Some? then e.outputRef else r.outputRef)
            && q.outputCursor == r.outputCursor && q.notified == r.notified
  {
    hide EventLabel;
  }

  /** A spawned task is running, unreported, and everything it was spawned with. */
  lemma {:induction false} SpawnMakes(policy: RetentionPolicy, y: System, op: TaskOp)
    requires op.SpawnOp?
    ensures var id, z := IdOf(y.store.counter + 1), SysStep(policy, y, op);
            && z.store.counter == y.store.counter + 1 && id in z.store.tasks
            && z.store.tasks[id] == TaskRecord(id, op.kind, Running, op.description, op.agentId, None, None, None,
                                               false, op.metadata)
            && EventsOf(z.store, id) == EventsOf(y.store, id) + [Numbered("started", id, 1)]
            && OutputsOf(z.store, id) == OutputsOf(y.store, id) && ObserversOf(z.store, id) == ObserversOf(y.store, id)
  {
    hide IdOf;
  }

  /** An eviction pass takes an evicted task's record, events and observers, and its outputs if the policy says so;
      it takes nothing from any other task. */
  lemma {:induction false} EvictionTakes(policy: RetentionPolicy, y: System, now: int, id: TaskId)
    requires id in y.store.tasks
    ensures var s, t := y.store, SysStep(policy, y, EvictOp(now)).store;
            if id in t.tasks then
              && t.tasks[id] == s.tasks[id] && EventsOf(t, id) == EventsOf(s, id)
              && OutputsOf(t, id) == OutputsOf(s, id) && ObserversOf(t, id) == ObserversOf(s, id)
            else
              && EventsOf(t, id) == [] && ObserversOf(t, id) == {}
              && OutputsOf(t, id) == if policy.evictOutput then [] else OutputsOf(s, id)
  {
    hide Evictable;
  }

  function KindOf(e: Ending): string {
    match e case Complete(_, _) => "completed" case Fail(_, _) => "failed" case KillIt => "killed"
  }

  /** A lifecycle event, named by its kind, its task and its place in the log. */
  function Numbered(kind: string, id: TaskId, n: nat): TaskEvent {
    TaskEvent("task_" + kind + ":" + id + ":" + Decimal.Show(n), kind)
  }

  /** Events, outputs and observers of a task grow and shrink by what is added and removed, and by one closing event. */
  lemma {:induction false} LogsChange(policy: RetentionPolicy, y: System, op: TaskOp, id: TaskId)
    requires Survives(policy, y, op, id)
    ensures var s, t := y.store, SysStep(policy, y, op).store;
            && (if op.EventOp? && op.id == id then EventsOf(t, id) == EventsOf(s, id) + [op.event]
                else if Ends(op, id) then
                  && |EventsOf(t, id)| == |EventsOf(s, id)| + 1 && EventsOf(s, id) <= EventsOf(t, id)
                  && EventsOf(t, id)[|EventsOf(s, id)|] == Numbered(KindOf(op.ending), id, |EventsOf(t, id)|)
                else EventsOf(t, id) == EventsOf(s, id))
            && OutputsOf(t, id) == OutputsOf(s, id) + (if op.OutputOp? && op.id == id then [op.item] else [])
            && ObserversOf(t, id) == (if op.AttachOp? && op.id == id then ObserversOf(s, id) + {op.binding}
                                      else if op.DetachOp? && op.id == id then ObserversOf(s, id) - {op.binding}
                                      else ObserversOf(s, id))
  {
    hide SystemValid, Spawned, Without, Patched;
    if Ends(op, id) {
      ClosingEvent(y.store, id, op.ending, op.now);
    }
    hide Ended;
    if Foreign(op, id) {
      ForeignApart(policy, y, op, id);
    }
  }

  lemma {:induction false} ClosingEvent(s: TaskStore, id: TaskId, e: Ending, now: int)
    requires id in s.tasks
    ensures var events := EventsOf(Ended(s, id, e, now), id);
            && |events| == |EventsOf(s, id)| + 1 && EventsOf(s, id) <= events
            && events[|EventsOf(s, id)|] == Numbered(KindOf(e), id, |events|)
            && OutputsOf(Ended(s, id, e, now), id) == OutputsOf(s, id)
            && ObserversOf(Ended(s, id, e, now), id) == ObserversOf(s, id)
  {
    hide Patched, IsTerminal;
  }

  /** A reader's answer: with what comes before its cursor the whole log, the log's length to come back with, and
      whether the task has ended. */
  ghost predicate SliceTells<T>(slice: Slice<T>, log: seq<T>, cursor: nat, status: Status) {
    && (cursor <= |log| ==> log[..cursor] + slice.items == log)
    && (cursor > |log| ==> slice.items == [])
    && slice.cursor == |log|
    && slice.done == (status in [Completed, Failed, Cancelled, Killed, Stopped])
  }

  /** Ending a task that is not there changes nothing; its output is stored all the same. */
  lemma {:induction false} UnknownTask(policy: RetentionPolicy, y: System, op: TaskOp)
    requires (op.FinishOp? || op.OutputOp?) && op.id !in y.store.tasks
    ensures var s, t := y.store, SysStep(policy, y, op).store;
            && t.tasks == s.tasks && t.events == s.events && t.observers == s.observers
            && OutputsOf(t, op.id) == OutputsOf(s, op.id) + (if op.OutputOp? then [op.item] else [])
            && forall id :: id != op.id ==> OutputsOf(t, id) == OutputsOf(s, id)
  {}

  /** An update sets the fields it names, merges metadata, and gives a task its end time when it first ends, unless it
      names one itself. */
  lemma {:induction false} UpdateSets(r: TaskRecord, p: Patch, now: int)
    ensures var q := Patched(r, p, now);
            && q.taskId == r.taskId && q.kind == r.kind && q.description == r.description && q.agentId == r.agentId
            && (p.status.Some? ==> q.status == p.status.value) && (p.status.None? ==> q.status == r.status)
            && (p.outputRef.Some? ==> q.outputRef == p.outputRef) && (p.outputRef.None? ==> q.outputRef == r.outputRef)
            && (p.outputCursor.Some? ==> q.outputCursor == p.outputCursor)
            && (p.outputCursor.None? ==> q.outputCursor == r.outputCursor)
            && (p.notified.Some? ==> q.notified == p.notified.value) && (p.notified.None? ==> q.notified == r.notified)
            && (p.endTime.Some? ==> q.endTime == p.endTime)
            && (p.endTime.None? ==>
                  if r.endTime.None? && p.status.Some? &&
                     p.status.value in {Completed, Failed, Cancelled, Killed, Stopped} then q.endTime == Some(now)
                  else q.endTime == r.endTime)
            && (p.metadata.None? ==> q.metadata == r.metadata)
            && (p.metadata.Some? ==> forall key ::
                  && (key in q.metadata <==> key in r.metadata || key in p.metadata.value)
                  && (key in p.metadata.value ==> q.metadata[key] == p.metadata.value[key])
                  && (key in r.metadata && key !in p.metadata.value ==> q.metadata[key] == r.metadata[key]))
  {}

  // ------------------------------------------------------------------ what a reader ends up with

  /** What happens besides the reads. */
  function WorldOps(turns: seq<Turn>): seq<TaskOp> {
    if turns == [] then []
    else (if turns[0].World? then [turns[0].op] else []) + WorldOps(turns[1..])
  }

  /** Reading changes nothing. */
  lemma {:induction false} ReadersOnlyRead(policy: RetentionPolicy, y: System, id: TaskId, r: Reader, turns: seq<Turn>)
    ensures ReaderRun(policy, y, id, r, turns).0 == SysRun(policy, y, WorldOps(turns))
    decreases |turns|
  {
    hide SysStep, EventSlice, OutputSlice;
    if turns != [] {
      match turns[0] {
        case World(op) =>
          ReadersOnlyRead(policy, SysStep(policy, y, op), id, r, turns[1..]);
          assert ([op] + WorldOps(turns[1..]))[1..] == WorldOps(turns[1..]);
        case ReadEventsTurn =>
          var slice := EventSlice(y.store, id, r.eventCursor);
          var next :=
            if slice.None? then r
            else r.(eventCursor := slice.value.cursor, events := r.events + slice.value.items);
          ReadersOnlyRead(policy, y, id, next, turns[1..]);
        case ReadOutputsTurn =>
          var slice := OutputSlice(y.store, id, r.outputCursor);
          var next :=
            if slice.None? then r
            else r.(outputCursor := slice.value.cursor, outputs := r.outputs + slice.value.items);
          ReadersOnlyRead(policy, y, id, next, turns[1..]);
      }
      assert [] + WorldOps(turns[1..]) == WorldOps(turns[1..]);
    }
  }

  /** After whatever interleaving, a reader that reads once more has the whole of both logs. */
  lemma {:induction false} LastReadIsWhole(policy: RetentionPolicy, y: System, id: TaskId, r: Reader)
    requires id in y.store.tasks
    requires UpToDate(EventsOf(y.store, id), r.events, r.eventCursor)
    requires UpToDate(OutputsOf(y.store, id), r.outputs, r.outputCursor)
    ensures ReaderRun(policy, y, id, r, [ReadEventsTurn]).1.events == EventsOf(y.store, id)
    ensures ReaderRun(policy, y, id, r, [ReadOutputsTurn]).1.outputs == OutputsOf(y.store, id)
  {
    assert [ReadEventsTurn][1..] == [] && [ReadOutputsTurn][1..] == [];
    var events, outputs := EventSlice(y.store, id, r.eventCursor), OutputSlice(y.store, id, r.outputCursor);
    var a := r.(eventCursor := events.value.cursor, events := r.events + events.value.items);
    var b := r.(outputCursor := outputs.value.cursor, outputs := r.outputs + outputs.value.items);
    assert ReaderRun(policy, y, id, r, [ReadEventsTurn]) == ReaderRun(policy, y, id, a, []);
    assert ReaderRun(policy, y, id, r, [ReadOutputsTurn]) == ReaderRun(policy, y, id, b, []);
  }

  // ------------------------------------------------------------------ what operations answer

  /** What an operation answers, told by what the store holds before and after: a spawn the one new task, an ending
      whether the task was known, an output the length it brought the outputs to, an eviction pass the tasks that are
      gone, in listing order, a look-up the record, and a read what its cursor has not seen. */
  lemma {:induction false} AnswersTell(policy: RetentionPolicy, y: System, op: TaskOp)
    requires SystemValid(y)
    ensures var s, t, answer := y.store, SysStep(policy, y, op).store, Answer(policy, y, op);
            match op
            case SpawnOp(_, _, _, _, _) =>
              answer.IdResponse? && answer.id !in s.tasks && t.tasks.Keys == s.tasks.Keys + {answer.id}
            case FinishOp(id, _, _) => answer.KnownResponse? && (answer.known <==> id in s.tasks)
            case OutputOp(id, _, _) =>
              answer == CursorResponse(if id in s.tasks then Some(|OutputsOf(t, id)|) else None)
            case EvictOp(_) =>
              answer.RemovedResponse? && Sorted(answer.ids) && Elements(answer.ids) == s.tasks.Keys - t.tasks.Keys
            case GetOp(id) => answer == RecordResponse(if id in t.tasks then Some(t.tasks[id]) else None)
            case ReadEventsOp(id, cursor) =>
              && answer.EventsResponse? && (answer.events.Some? <==> id in s.tasks)
              && (id in s.tasks ==>
                    SliceTells(answer.events.value, EventsOf(s, id), cursor, s.tasks[id].status))
            case ReadOutputsOp(id, cursor) =>
              && answer.OutputsResponse? && (answer.outputs.Some? <==> id in s.tasks)
              && (id in s.tasks ==>
                    SliceTells(answer.outputs.value, OutputsOf(s, id), cursor, s.tasks[id].status))
            case _ => true
  {
    hide EventLabel, IdOf;
    if op.SpawnOp? {
      NewIdNotIssued(y.store);
    }
  }

  // ------------------------------------------------------------------ the parent is told

  /** A task of this parent that is not reported yet; it has ended or is running. */
  ghost predicate Waiting(y: System, id: TaskId, parent: string, description: string, ended: bool) {
    && id in y.store.tasks
    && var r := y.store.tasks[id];
       && "parent_session_id" in r.metadata && r.metadata["parent_session_id"] == parent
       && !r.notified && r.description == description
       && if ended then r.status in {Completed, Failed, Killed} else r.status == Running
  }

  /** No ending of the task names its parent anew. */
  predicate KeepsParent(op: TaskOp, id: TaskId) {
    Ends(op, id) && !op.ending.KillIt? ==> "parent_session_id" !in op.ending.metadata
  }

  lemma {:induction false} StepWaiting(policy: RetentionPolicy, y: System, op: TaskOp, id: TaskId, parent: string,
      description: string, ended: bool)
    requires SystemValid(y) && Waiting(y, id, parent, description, ended) && KeepsParent(op, id)
    requires ended ==> !(op.SyncOp? && op.recipient == parent)
    ensures Waiting(SysStep(policy, y, op), id, parent, description, ended || Ends(op, id))
  {
    StepStays(policy, y, op, id);
    RecordChanges(policy, y, op, id);
    MetadataMerged(policy, y, op, id, "parent_session_id");
    hide SysStep, SystemValid;
  }

  /** A task that is not reported is not removed. */
  lemma {:induction false} StepStays(policy: RetentionPolicy, y: System, op: TaskOp, id: TaskId)
    requires id in y.store.tasks && !y.store.tasks[id].notified
    ensures id in SysStep(policy, y, op).store.tasks
  {
    hide EventLabel, IdOf, IsTerminal;
  }

  lemma {:induction false} RunWaiting(policy: RetentionPolicy, y: System, ops: seq<TaskOp>, id: TaskId, parent: string,
      description: string, ended: bool)
    requires SystemValid(y) && Waiting(y, id, parent, description, ended)
    requires forall i :: 0 <= i < |ops| ==> KeepsParent(ops[i], id)
    requires forall i :: 0 <= i < |ops| ==>
               if ended then !(ops[i].SyncOp? && ops[i].recipient == parent) else !Ends(ops[i], id)
    ensures SystemValid(SysRun(policy, y, ops)) && Waiting(SysRun(policy, y, ops), id, parent, description, ended)
    decreases |ops|
  {
    hide SysStep, SystemValid, Waiting, KeepsParent, Ends;
    if ops != [] {
      SysStepValid(policy, y, ops[0]);
      StepWaiting(policy, y, ops[0], id, parent, description, ended);
      assert forall i :: 0 <= i < |ops[1..]| ==> ops[1..][i] == ops[i + 1];
      RunWaiting(policy, SysStep(policy, y, ops[0]), ops[1..], id, parent, description, ended);
    }
  }

  lemma {:induction false} RunConcat(policy: RetentionPolicy, y: System, a: seq<TaskOp>, b: seq<TaskOp>)
    ensures SysRun(policy, y, a + b) == SysRun(policy, SysRun(policy, y, a), b)
    decreases |a|
  {
    hide SysStep;
    if a == [] {
      assert a + b == b;
    } else {
      assert (a + b)[0] == a[0] && (a + b)[1..] == a[1..] + b;
      RunConcat(policy, SysStep(policy, y, a[0]), a[1..], b);
    }
  }

  /** The ended, unreported task of a parent is in what its next sync hands out, with its description and its status. */
  lemma {:induction false} WaitingIsHanded(y: System, id: TaskId, parent: string, description: string)
    requires SystemValid(y) && Waiting(y, id, parent, description, true)
    ensures exists i :: 0 <= i < |Handed(y, parent)| &&
              var note := Handed(y, parent)[i];
              && note.taskId == id && note.recipient == parent && note.summary == description
              && note.status == y.store.tasks[id].status && note.outputRef == y.store.tasks[id].outputRef
  {
    ValidKeyed(y);
    hide Distinct, Consistent, NewNotes;
    NewNotesExact(y.store, parent);
    assert Queued(y.queues, parent) == [];
    assert Handed(y, parent) == NewNotes(y.store, parent);
    assert id in ReportableIds(y.store, parent);
    var i :| 0 <= i < |Handed(y, parent)| && Handed(y, parent)[i].taskId == id;
    assert Announces(y.store, Handed(y, parent)[i], parent);
  }

  /** For every history: a task is spawned for a parent session, anything happens (`running`), it ends, anything but a
      sync of the parent happens (`after`). As long as no ending names the parent anew, the next sync of the parent
      hands out the task's note. */
  lemma {:induction false} ParentIsTold(policy: RetentionPolicy, y: System, spawn: TaskOp, running: seq<TaskOp>,
      end: TaskOp, after: seq<TaskOp>, parent: string)
    requires SystemValid(y) && spawn.SpawnOp?
    requires "parent_session_id" in spawn.metadata && spawn.metadata["parent_session_id"] == parent
    requires var id := IdOf(y.store.counter + 1);
             && (forall i :: 0 <= i < |running| ==> !Ends(running[i], id))
             && Ends(end, id) && KeepsParent(end, id)
             && (forall i :: 0 <= i < |after| ==>
                   KeepsParent(after[i], id) && !(after[i].SyncOp? && after[i].recipient == parent))
    ensures var id, z := IdOf(y.store.counter + 1), SysRun(policy, y, [spawn] + running + [end] + after);
            && id in z.store.tasks
            && exists i :: 0 <= i < |Handed(z, parent)| &&
                 var note := Handed(z, parent)[i];
                 && note.taskId == id && note.recipient == parent && note.summary == spawn.description
                 && note.status == z.store.tasks[id].status && note.status in {Completed, Failed, Killed}
  {
    hide SysStep, SystemValid, KeepsParent, Ends, IdOf, Handed;
    var id, d := IdOf(y.store.counter + 1), spawn.description;
    SpawnMakes(policy, y, spawn);
    SysStepValid(policy, y, spawn);
    var y1 := SysStep(policy, y, spawn);
    NoEndKeepsParent(running, id);
    RunWaiting(policy, y1, running, id, parent, d, false);
    var y2 := SysRun(policy, y1, running);
    EndIsNoSync(end, id);
    StepWaiting(policy, y2, end, id, parent, d, false);
    SysStepValid(policy, y2, end);
    var y3 := SysStep(policy, y2, end);
    RunWaiting(policy, y3, after, id, parent, d, true);
    FourParts(policy, y, spawn, running, end, after);
    WaitingIsHanded(SysRun(policy, y3, after), id, parent, d);
  }

  lemma {:induction false} NoEndKeepsParent(ops: seq<TaskOp>, id: TaskId)
    requires forall i :: 0 <= i < |ops| ==> !Ends(ops[i], id)
    ensures forall i :: 0 <= i < |ops| ==> KeepsParent(ops[i], id)
  {}

  lemma {:induction false} EndIsNoSync(op: TaskOp, id: TaskId)
    requires Ends(op, id)
    ensures !op.SyncOp?
  {}

  lemma {:induction false} FourParts(policy: RetentionPolicy, y: System, spawn: TaskOp, running: seq<TaskOp>,
      end: TaskOp, after: seq<TaskOp>)
    ensures SysRun(policy, y, [spawn] + running + [end] + after) ==
            SysRun(policy, SysStep(policy, SysRun(policy, SysStep(policy, y, spawn), running), end), after)
  {
    hide SysStep;
    RunConcat(policy, y, [spawn] + running + [end], after);
    RunConcat(policy, y, [spawn] + running, [end]);
    RunConcat(policy, y, [spawn], running);
    assert [spawn][1..] == [] && [end][1..] == [];
    assert SysRun(policy, y, [spawn]) == SysStep(policy, y, spawn);
    var mid := SysRun(policy, SysStep(policy, y, spawn), running);
    assert SysRun(policy, mid, [end]) == SysStep(policy, mid, end);
  }
}
