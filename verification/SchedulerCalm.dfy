/** What can happen while somebody else holds the edit lock: Add, Load, Remove, SetMaxRunning,
    saving, worker reports and worker exits. None of them wakes a task that is not waiting. */
module SchedulerCalm {
  import opened Sets
  import opened Options
  import opened Tasks
  import opened SchedulerState
  import opened SchedulerInvariant
  import opened SchedulerSteps

  // A waiting task with this property cannot be started by a scheduling pass.
  ghost predicate Blocked(s: State, t: Task) {
    s.stopping || t.packId !in s.registered
  }

  ghost predicate Asleep(s: State, t: Task) {
    !Active(t.status) && (t.status == Waiting ==> Blocked(s, t))
  }

  ghost predicate CalmTask(s: State, before: Task, after: Task) {
    && after.packId == before.packId
    && (Asleep(s, before) ==> !Active(after.status) && (after.status == Waiting ==> before.status == Waiting))
  }

  ghost predicate CalmTasks(s: State, t: State) {
    && (forall id :: id in s.tasks && id in t.tasks ==> CalmTask(s, s.tasks[id], t.tasks[id]))
    && (forall id :: id in t.tasks && id in s.seen ==> id in s.tasks)
  }

  // Entries are never renamed, and new ones are for new tasks or for tasks that were startable.
  ghost predicate CalmEntries(s: State, t: State) {
    forall id :: id in t.running && id in s.seen ==>
      || (id in s.running && t.running[id].worker == s.running[id].worker)
      || (id in s.tasks && !Asleep(s, s.tasks[id]))
  }

  ghost predicate CalmWorkers(s: State, t: State) {
    && |s.workers| <= |t.workers|
    && (s.stopping ==> |t.workers| == |s.workers|)
    && (forall w :: 0 <= w < |s.workers| ==>
          t.workers[w].id == s.workers[w].id && (s.workers[w].phase == Finished ==> t.workers[w].phase == Finished))
  }

  ghost predicate CalmRest(s: State, t: State) {
    t.registered == s.registered && t.stopping == s.stopping && t.pauseEpoch == s.pauseEpoch && s.seen <= t.seen
  }

  ghost predicate Calm(s: State, t: State) {
    CalmTasks(s, t) && CalmEntries(s, t) && CalmWorkers(s, t) && CalmRest(s, t)
  }

  lemma {:induction false} CalmSelf(s: State)
    ensures Calm(s, s)
  {
  }

  lemma {:induction false} CalmChain(s: State, t: State, u: State)
    requires Calm(s, t) && Calm(t, u) && Remembered(s.tasks, s.running, s.seen) && Remembered(t.tasks, t.running, t.seen)
    ensures Calm(s, u)
  {
  }

  // A step that touches neither entries nor goroutines, and changes one known task calmly.
  lemma {:induction false} CalmUpdate(s: State, id: TaskId, t: Task)
    requires id in s.tasks && CalmTask(s, s.tasks[id], t)
    ensures Calm(s, SetTask(s, id, t))
  {
  }

  lemma {:induction false} FailingIsCalm(s: State, t: Task)
    ensures CalmTask(s, t, t.(status := Failed, error := "worker not registered"))
  {
  }

  lemma {:induction false} CalmStart(s: State, id: TaskId)
    requires id in s.tasks && !s.stopping && s.tasks[id].status == Waiting && s.tasks[id].packId in s.registered
    ensures Calm(s, Start(s, id))
  {
    assert !Asleep(s, s.tasks[id]);
    assert forall w :: 0 <= w < |s.workers| ==> Start(s, id).workers[w] == s.workers[w];
  }

  lemma {:induction false} CalmAttempt(s: State, id: TaskId, t: State)
    requires Attempt(s, id, t)
    requires id in s.tasks && t == Start(s, id) ==> !s.stopping && s.tasks[id].status == Waiting && s.tasks[id].packId in s.registered
    ensures Calm(s, t)
  {
    hide SlotCount, Calm, CalmTask;
    if t == s {
      CalmSelf(s);
    } else if t == Start(s, id) {
      CalmStart(s, id);
    } else {
      var failed := s.tasks[id].(status := Failed, error := "worker not registered");
      assert CalmTask(s, s.tasks[id], failed) by { FailingIsCalm(s, s.tasks[id]); }
      CalmUpdate(s, id, failed);
    }
  }

  lemma {:induction false} CalmSchedule(s: State, ids: seq<TaskId>)
    requires Good(s)
    ensures Calm(s, ScheduleAll(s, ids))
    decreases ids
  {
    hide Calm, Listing, Agreement, Attached, LiveSlots, SlotCount;
    if ids == [] {
      CalmSelf(s);
    } else {
      var s1 := ScheduleIfWaiting(s, ids[0]);
      CalmAttempt(s, ids[0], s1);
      ScheduledOne(s, ids[0]);
      CalmSchedule(s1, ids[1..]);
      CalmChain(s, s1, ScheduleAll(s1, ids[1..]));
    }
  }

  lemma {:induction false} CalmPause(s: State, id: TaskId)
    requires id in s.tasks && id in s.running
    ensures Calm(s, PauseAndCancel(s, id))
  {
  }

  lemma {:induction false} CalmEnforceFrom(s: State, ids: seq<TaskId>, kept: nat)
    requires Remembered(s.tasks, s.running, s.seen)
    ensures Calm(s, EnforceFrom(s, ids, kept))
    decreases ids
  {
    hide Calm;
    if ids == [] {
      CalmSelf(s);
    } else if TakesSlot(s, ids[0]) && kept >= s.maxRunning {
      var s1 := PauseAndCancel(s, ids[0]);
      CalmPause(s, ids[0]);
      CalmEnforceFrom(s1, ids[1..], kept);
      CalmChain(s, s1, EnforceFrom(s1, ids[1..], kept));
    } else {
      CalmEnforceFrom(s, ids[1..], if TakesSlot(s, ids[0]) then kept + 1 else kept);
    }
  }

  lemma {:induction false} CalmEnforce(s: State)
    requires Remembered(s.tasks, s.running, s.seen)
    ensures Calm(s, Enforce(s))
  {
    hide Calm;
    CalmSelf(s);
    CalmEnforceFrom(s, s.order, 0);
  }

  lemma {:induction false} CalmSetMax(s: State, n: int)
    requires Good(s)
    ensures Calm(s, SetMax(s, n))
  {
    hide Enforce, ScheduleAll, LiveSlots, Listing, Agreement, Attached;
    var s1 := s.(maxRunning := if n <= 0 then 1 else n);
    assert Calm(s, s1);
    hide Calm;
    EnforcedAll(s1);
    CalmEnforce(s1);
    CalmSchedule(Enforce(s1), Enforce(s1).order);
    CalmChain(s1, Enforce(s1), SetMax(s, n));
    CalmChain(s, s1, SetMax(s, n));
  }

  lemma {:induction false} CalmAppend(s: State, t: Task)
    requires Unknown(s, t.id) && Remembered(s.tasks, s.running, s.seen)
    ensures Calm(s, Append(s, t))
  {
  }

  lemma {:induction false} CalmIgnores(s: State, t: State)
    requires t == s.(accepted := t.accepted, saved := t.saved, loadFailed := t.loadFailed)
    ensures Calm(s, t)
  {
  }

  // Starting a task nobody knew before is calm for everyone else.
  lemma {:induction false} CalmNewcomer(s: State, s1: State, t: State, id: TaskId)
    requires Unknown(s, id) && Remembered(s.tasks, s.running, s.seen) && Calm(s, s1) && Attempt(s1, id, t) && (s1.stopping ==> t == s1)
    ensures Calm(s, t)
  {
    hide SlotCount;
  }

  lemma {:induction false} CalmGranted(s: State, t: Task)
    requires Unknown(s, t.id) && Remembered(s.tasks, s.running, s.seen)
    ensures Calm(s, Grant(Append(s, t), t))
  {
    hide Calm;
    CalmAppend(s, t);
    CalmIgnores(Append(s, t), Grant(Append(s, t), t));
    CalmChain(s, Append(s, t), Grant(Append(s, t), t));
  }

  lemma {:induction false} CalmAdd(s: State, t: Task, fs: FileSystem)
    requires Good(s) && Unknown(s, t.id)
    ensures Calm(s, AddTask(s, t, fs))
  {
    hide Calm, Prepare, ReservedOutputs, Listing, Agreement, Attached, LiveSlots, SlotCount;
    match Prepare(t, ReservedOutputs(s), fs)
    case Rejected(reason) =>
      CalmAppend(s, t.(status := Failed, error := reason, stage := t.stage.(status := Failed, error := reason)));
    case Accepted(p0) =>
      PreparedStatus(t, ReservedOutputs(s), fs);
      var p := if t.status == Waiting && p0.status == Paused then WithStatus(p0, Waiting) else p0;
      var s1 := Grant(Append(s, p), p);
      CalmGranted(s, p);
      CalmNewcomer(s, s1, ScheduleOne(s1, p.id), p.id);
  }

  lemma {:induction false} CalmLoad(s: State, ts: seq<Task>, fs: FileSystem)
    requires Remembered(s.tasks, s.running, s.seen) && AllUnknown(s, ts)
    ensures Calm(s, LoadTasks(s, ts, fs))
    decreases ts
  {
    hide Calm, Prepare;
    if ts == [] {
      CalmSelf(s);
    } else {
      match Prepare(ts[0], ReservedOutputs(s), fs)
      case Rejected(_) => CalmIgnores(s, s.(loadFailed := true));
      case Accepted(p) =>
        PreparedStatus(ts[0], ReservedOutputs(s), fs);
        var s1 := Append(s, Rested(p));
        CalmAppend(s, Rested(p));
        CalmIgnores(s1, Grant(s1, p));
        CalmChain(s, s1, Grant(s1, p));
        CalmLoad(Grant(s1, p), ts[1..], fs);
        CalmChain(s, Grant(s1, p), LoadTasks(s, ts, fs));
    }
  }

  lemma {:induction false} CalmDropped(s: State, id: TaskId)
    requires id in s.tasks
    ensures Calm(s, Dropped(s, id))
  {
  }

  lemma {:induction false} CalmRemove(s: State, id: TaskId)
    requires Good(s)
    ensures Calm(s, RemoveTask(s, id))
  {
    hide Calm, ScheduleAll, Listing, Agreement, Attached, LiveSlots;
    CalmSelf(s);
    if id in s.tasks {
      CalmDropped(s, id);
      DroppedKeeps(s, id);
      CalmSchedule(Dropped(s, id), Dropped(s, id).order);
      CalmChain(s, Dropped(s, id), RemoveTask(s, id));
    }
  }

  lemma {:induction false} CalmReport(s: State, id: TaskId, u: Update)
    requires Good(s) && (u.status.Some? ==> Active(u.status.value))
    ensures Calm(s, Report(s, id, u))
  {
    hide Calm, ScheduleAll, Enforce, Listing, Agreement, Attached;
    CalmSelf(s);
    if id in s.tasks {
      TaskFacts(s, id);
      var t := Reported(s.tasks[id], u);
      CalmUpdate(s, id, t);
      TaskReplaced(s, id, t);
      var s1 := SetTask(s, id, t);
      if s.tasks[id].usesSlot && !t.usesSlot {
        SubsetSize(LiveSlots(s1), LiveSlots(s));
        CalmSchedule(s1, s1.order);
        CalmChain(s, s1, ScheduleWaiting(s1));
      } else if !s.tasks[id].usesSlot && t.usesSlot {
        CalmEnforce(s1);
        CalmChain(s, s1, Enforce(s1));
      }
    }
  }

  lemma {:induction false} CalmBeginRun(s: State, w: nat)
    requires w < |s.workers| && s.workers[w].phase == Spawned
    ensures Calm(s, BeginRun(s, w))
  {
  }

  lemma {:induction false} CalmSame(s: State)
    ensures forall k :: k in s.tasks ==> CalmTask(s, s.tasks[k], s.tasks[k])
  {
  }

  lemma {:induction false} EndedCalm(s: State, t: Task, o: Outcome)
    ensures CalmTask(s, t, Ended(t, o))
  {
    EndedTask(t, o);
  }

  lemma {:induction false} CalmTasksUnregistered(s: State, w: nat, o: Outcome)
    requires w < |s.workers|
    ensures CalmTasks(s, Unregistered(s, w, o))
  {
    hide Ended, CalmTask;
    var id, t := s.workers[w].id, Unregistered(s, w, o);
    assert forall k :: k in s.tasks ==> CalmTask(s, s.tasks[k], s.tasks[k]) by { CalmSame(s); }
    if id in s.tasks {
      EndedCalm(s, s.tasks[id], o);
      assert t.tasks == s.tasks[id := Ended(s.tasks[id], o)];
    }
  }

  lemma {:induction false} CalmUnregistered(s: State, w: nat, o: Outcome)
    requires w < |s.workers| && s.workers[w].phase == InRun
    ensures Calm(s, Unregistered(s, w, o))
  {
    hide CalmTasks, Ended;
    CalmTasksUnregistered(s, w, o);
  }

  lemma {:induction false} CalmExit(s: State, w: nat, o: Outcome)
    requires Good(s) && w < |s.workers| && s.workers[w].phase == InRun
    ensures Calm(s, Exit(s, w, o))
  {
    hide Calm, ScheduleAll, Listing, Agreement, Attached, LiveSlots;
    var s1 := Unregistered(s, w, o);
    CalmUnregistered(s, w, o);
    UnregisteredKeeps(s, w, o);
    CalmSchedule(s1, s.order);
    CalmChain(s, s1, ScheduleAll(s1, s.order));
  }
}
