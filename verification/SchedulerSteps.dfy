/** Every locked stretch of the scheduler keeps the invariant. */
module SchedulerSteps {
  import opened Sets
  import opened Options
  import opened Tasks
  import opened SchedulerState
  import opened SchedulerInvariant

  // An identifier the scheduler was never given.
  ghost predicate Unknown(s: State, id: TaskId) {
    id !in s.seen
  }

  lemma {:induction false} AppendedListing(order: seq<TaskId>, tasks: map<TaskId, Task>, t: Task)
    requires Listing(order, tasks) && t.id !in tasks
    ensures Listing(order + [t.id], tasks[t.id := t])
  {
    assert Members(order + [t.id]) == Members(order) + {t.id};
    assert t.id !in Members(order);
  }

  // A new task has no entry.
  lemma {:induction false} UnknownAttached(s: State, id: TaskId)
    requires Sound(s) && Unknown(s, id)
    ensures Attached(s.tasks.Keys + {id}, s.running, s.workers)
  {
    hide Listing, Agreement;
  }

  lemma {:induction false} Appended(s: State, t: Task)
    requires Good(s) && Unknown(s, t.id) && !Active(t.status)
    ensures Good(Append(s, t))
  {
    var s' := Append(s, t);
    assert Listing(s'.order, s'.tasks) by { AppendedListing(s.order, s.tasks, t); }
    hide Listing, Attached;
    assert LiveSlots(s') == LiveSlots(s);
    assert Attached(s'.tasks.Keys, s.running, s.workers) by { UnknownAttached(s, t.id); }
  }

  // Good reads neither the history of grants nor the storage fields.
  lemma {:induction false} GoodIgnores(s: State, t: State)
    requires Good(s)
    requires t == s.(accepted := t.accepted, saved := t.saved, loadFailed := t.loadFailed,
                     pauseEpoch := t.pauseEpoch, stopping := t.stopping)
    ensures Good(t)
  {
  }

  lemma {:induction false} Granted(s: State, t: Task)
    requires Good(s) && Unknown(s, t.id) && !Active(t.status)
    ensures Good(Grant(Append(s, t), t))
  {
    hide Good, Append;
    Appended(s, t);
    GoodIgnores(Append(s, t), Grant(Append(s, t), t));
  }

  lemma {:induction false} PreparedStatus(t: Task, reserved: set<Path>, fs: FileSystem)
    requires Prepare(t, reserved, fs).Accepted?
    ensures var p := Prepare(t, reserved, fs).task;
            p.id == t.id && p.usesSlot == t.usesSlot && (p.status == t.status || p.status == Paused)
  {
  }

  lemma {:induction false} AddKeeps(s: State, t: Task, fs: FileSystem)
    requires Good(s) && Unknown(s, t.id) && !Active(t.status)
    ensures Good(AddTask(s, t, fs))
  {
    hide Good, ScheduleOne, OutputKey, Prepare, Append, Grant, ReservedOutputs;
    match Prepare(t, ReservedOutputs(s), fs)
    case Rejected(reason) =>
      Appended(s, t.(status := Failed, error := reason, stage := t.stage.(status := Failed, error := reason)));
    case Accepted(p0) =>
      PreparedStatus(t, ReservedOutputs(s), fs);
      var p := if t.status == Waiting && p0.status == Paused then WithStatus(p0, Waiting) else p0;
      Granted(s, p);
      ScheduledOne(Grant(Append(s, p), p), p.id);
  }

  ghost predicate AllUnknown(s: State, ts: seq<Task>) {
    && (forall i :: 0 <= i < |ts| ==> Unknown(s, ts[i].id))
    && (forall i, j :: 0 <= i < j < |ts| ==> ts[i].id != ts[j].id)
  }

  // Loading the first task leaves the others new.
  lemma {:induction false} LoadedOne(s: State, ts: seq<Task>, fs: FileSystem)
    requires Good(s) && AllUnknown(s, ts) && ts != [] && Prepare(ts[0], ReservedOutputs(s), fs).Accepted?
    ensures var p := Prepare(ts[0], ReservedOutputs(s), fs).task;
            var s1 := Grant(Append(s, Rested(p)), p);
            Rested(p).id == ts[0].id && !Active(Rested(p).status) && Good(s1) && AllUnknown(s1, ts[1..])
  {
    hide Good, Prepare, ReservedOutputs;
    PreparedStatus(ts[0], ReservedOutputs(s), fs);
    var p := Prepare(ts[0], ReservedOutputs(s), fs).task;
    var s1 := Append(s, Rested(p));
    Appended(s, Rested(p));
    GoodIgnores(s1, Grant(s1, p));
  }

  lemma {:induction false} LoadKeeps(s: State, ts: seq<Task>, fs: FileSystem)
    requires Good(s) && AllUnknown(s, ts)
    ensures Good(LoadTasks(s, ts, fs))
    decreases ts
  {
    hide Good, Prepare, AllUnknown, Append, Grant, Rested, ReservedOutputs;
    if ts != [] {
      match Prepare(ts[0], ReservedOutputs(s), fs)
      case Rejected(_) => GoodIgnores(s, s.(loadFailed := true));
      case Accepted(p) =>
        LoadedOne(s, ts, fs);
        LoadKeeps(Grant(Append(s, Rested(p)), p), ts[1..], fs);
    }
  }

  lemma {:induction false} SetMaxKeeps(s: State, n: int)
    requires Good(s)
    ensures Good(SetMax(s, n))
  {
    hide ScheduleAll, Enforce, Listing, Agreement, Attached, LiveSlots;
    var s1 := s.(maxRunning := if n <= 0 then 1 else n);
    EnforcedAll(s1);
    ScheduledAll(Enforce(s1), Enforce(s1).order);
  }

  lemma {:induction false} TaskFacts(s: State, id: TaskId)
    requires Sound(s) && id in s.tasks
    ensures s.tasks[id].id == id && (Active(s.tasks[id].status) <==> Live(s, id))
  {
  }

  lemma {:induction false} ToggleKeeps(s: State, id: TaskId)
    requires Good(s)
    ensures Good(Toggle(s, id))
  {
    hide ScheduleOne, Listing, Agreement, Attached, LiveSlots;
    if id in s.tasks {
      var t := s.tasks[id];
      TaskFacts(s, id);
      if Active(t.status) && id in s.running {
        PausedAndCancelled(s, id, Stopped(t));
        SubsetSize(LiveSlots(s) - {id}, LiveSlots(s));
      } else if t.status == Waiting {
        TaskReplaced(s, id, Stopped(t));
      } else if t.status != Completed {
        TaskReplaced(s, id, WithStatus(t, Waiting));
        ScheduledOne(SetTask(s, id, WithStatus(t, Waiting)), id);
      }
    }
  }

  // Replacing the whole task map at once, entries kept or all cancelled.
  lemma {:induction false} TasksReplaced(s: State, tasks: map<TaskId, Task>, running: map<TaskId, Entry>)
    requires Good(s) && tasks.Keys == s.tasks.Keys && (running == s.running || running == CancelAll(s.running))
    requires forall id :: id in tasks ==> tasks[id].id == id && tasks[id].usesSlot == s.tasks[id].usesSlot
    requires forall id :: id in tasks ==> (Active(tasks[id].status) <==> IsLive(running, id))
    ensures Good(s.(tasks := tasks, running := running))
  {
    SubsetSize(LiveUsers(tasks, running), LiveSlots(s));
  }

  lemma {:induction false} StartEveryKeeps(s: State)
    requires Good(s)
    ensures Good(StartEvery(s))
  {
    hide ScheduleAll, LiveUsers, Attached;
    TasksReplaced(s, AllWaiting(s.tasks), s.running);
    assert s.(tasks := AllWaiting(s.tasks), running := s.running) == s.(tasks := AllWaiting(s.tasks));
    ScheduledAll(s.(tasks := AllWaiting(s.tasks)), s.order);
  }

  lemma {:induction false} PauseEveryKeeps(s: State)
    requires Good(s)
    ensures Good(PauseEvery(s))
  {
    hide LiveUsers, Attached;
    var t := PauseEvery(s);
    TasksReplaced(s, t.tasks, t.running);
    GoodIgnores(s.(tasks := t.tasks, running := t.running), t);
  }

  lemma {:induction false} BeginStopKeeps(s: State)
    requires Good(s)
    ensures Good(BeginStop(s))
  {
    hide LiveUsers, Attached;
    var t := BeginStop(s);
    TasksReplaced(s, t.tasks, t.running);
    GoodIgnores(s.(tasks := t.tasks, running := t.running), t);
  }

  lemma {:induction false} WithoutOne(ids: seq<TaskId>, id: TaskId)
    requires Distinct(ids)
    ensures Distinct(Without(ids, id)) && Members(Without(ids, id)) == Members(ids) - {id}
  {
    if ids != [] {
      var rest := ids[1..];
      assert Members(ids) == Members(rest) + {ids[0]};
      if ids[0] == id {
        assert id !in Members(rest);
      } else {
        WithoutOne(rest, id);
        var w := Without(rest, id);
        assert Members([ids[0]] + w) == {ids[0]} + Members(w);
        assert ids[0] !in Members(w);
      }
    }
  }

  // The state Remove hands to the scheduling pass.
  function Dropped(s: State, id: TaskId): State {
    var s1 := if id in s.running then Cancel(s, id) else s;
    s1.(tasks := s1.tasks - {id}, order := Without(s1.order, id))
  }

  lemma {:induction false} LiveAfterDrop(tasks: map<TaskId, Task>, running: map<TaskId, Entry>, id: TaskId)
    ensures |LiveUsers(tasks - {id}, running)| <= |LiveUsers(tasks, running)|
    ensures id in running ==>
              |LiveUsers(tasks - {id}, running[id := running[id].(cancelled := true)])| <= |LiveUsers(tasks, running)|
  {
    SubsetSize(LiveUsers(tasks - {id}, running), LiveUsers(tasks, running));
    if id in running {
      SubsetSize(LiveUsers(tasks - {id}, running[id := running[id].(cancelled := true)]), LiveUsers(tasks, running));
    }
  }

  lemma {:induction false} DroppedAgreement(tasks: map<TaskId, Task>, running: map<TaskId, Entry>, id: TaskId)
    requires Agreement(tasks, running)
    ensures id !in running ==> Agreement(tasks - {id}, running)
    ensures id in running ==> Agreement(tasks - {id}, running[id := running[id].(cancelled := true)])
  {
  }

  lemma {:induction false} DroppedAttached(known: set<TaskId>, running: map<TaskId, Entry>, workers: seq<Worker>, id: TaskId)
    requires Attached(known, running, workers)
    ensures Attached(known - {id}, running, workers)
    ensures id in running ==> Attached(known - {id}, running[id := running[id].(cancelled := true)], workers)
  {
  }

  lemma {:induction false} DroppedKeeps(s: State, id: TaskId)
    requires Good(s) && id in s.tasks
    ensures Good(Dropped(s, id))
  {
    hide Distinct, Members, Attached, Agreement, LiveUsers;
    WithoutOne(s.order, id);
    var t := Dropped(s, id);
    DroppedAgreement(s.tasks, s.running, id);
    assert t.tasks.Keys == s.tasks.Keys - {id};
    DroppedAttached(s.tasks.Keys, s.running, s.workers, id);
    LiveAfterDrop(s.tasks, s.running, id);
  }

  lemma {:induction false} RemoveKeeps(s: State, id: TaskId)
    requires Good(s)
    ensures Good(RemoveTask(s, id))
  {
    hide Good, ScheduleAll;
    if id in s.tasks {
      DroppedKeeps(s, id);
      ScheduledAll(Dropped(s, id), Dropped(s, id).order);
    }
  }

  lemma {:induction false} BeginKeeps(s: State, id: TaskId)
    requires Good(s)
    ensures Good(BeginRedownload(s, id)) && Good(BeginEdit(s, id))
  {
    hide Listing, Agreement, Attached, LiveSlots;
    if id in s.tasks && id in s.running {
      TaskFacts(s, id);
      PausedAndCancelled(s, id, WithStatus(s.tasks[id], Paused));
      PausedAndCancelled(s, id, Stopped(s.tasks[id]));
      SubsetSize(LiveSlots(s) - {id}, LiveSlots(s));
    }
  }

  lemma {:induction false} CommitRedownloadKeeps(s: State, id: TaskId, reset: Task)
    requires Good(s) && (id in s.tasks ==> !Active(s.tasks[id].status))
    ensures Good(CommitRedownload(s, id, reset))
  {
    hide ScheduleAll, Listing, Agreement, Attached, LiveSlots;
    if !s.stopping && id in s.tasks {
      TaskFacts(s, id);
      TaskReplaced(s, id, Rewound(s.tasks[id], reset));
      ScheduledAll(SetTask(s, id, Rewound(s.tasks[id], reset)), s.order);
    }
  }

  lemma {:induction false} CommitEditKeeps(s: State, id: TaskId, resume: bool, original: Task, epoch: nat, outcome: EditOutcome)
    requires Good(s) && !Active(original.status)
    ensures Good(CommitEdit(s, id, resume, original, epoch, outcome))
  {
    hide ScheduleOne, Listing, Agreement, Attached, LiveSlots;
    if EditApplies(s, id, original, epoch) {
      TaskFacts(s, id);
      var t := if outcome.Edited? then EditedTask(original, outcome.task, resume) else WithStatus(original, Waiting);
      TaskReplaced(s, id, t);
      ScheduledOne(SetTask(s, id, t), id);
    }
  }

  lemma {:induction false} ReportKeeps(s: State, id: TaskId, u: Update)
    requires Good(s) && (u.status.Some? ==> Active(u.status.value))
    ensures Good(Report(s, id, u))
  {
    hide ScheduleAll, Enforce, Listing, Agreement, Attached;
    if id in s.tasks {
      TaskFacts(s, id);
      var t := Reported(s.tasks[id], u);
      TaskReplaced(s, id, t);
      var s1 := SetTask(s, id, t);
      if s.tasks[id].usesSlot && !t.usesSlot {
        SubsetSize(LiveSlots(s1), LiveSlots(s));
        ScheduledAll(s1, s1.order);
      } else if !s.tasks[id].usesSlot && t.usesSlot {
        EnforcedAll(s1);
      }
    }
  }

  lemma {:induction false} BeginRunKeeps(s: State, w: nat)
    requires Good(s) && w < |s.workers| && s.workers[w].phase == Spawned
    ensures Good(BeginRun(s, w))
  {
    assert LiveSlots(BeginRun(s, w)) == LiveSlots(s);
  }

  // The state a returning worker hands to the scheduling pass.
  function Unregistered(s: State, w: nat, o: Outcome): State
    requires w < |s.workers|
  {
    var id := s.workers[w].id;
    var s1 := SetPhase(s, w, Finished).(running := s.running - {id});
    if id in s.tasks then SetTask(s1, id, Ended(s1.tasks[id], o)) else s1
  }

  lemma {:induction false} EndedTask(t: Task, o: Outcome)
    ensures Ended(t, o).id == t.id && Ended(t, o).packId == t.packId && !Active(Ended(t, o).status) && (Ended(t, o).status == Waiting ==> t.status == Waiting)
  {
  }

  lemma {:induction false} ExitAgreement(tasks: map<TaskId, Task>, running: map<TaskId, Entry>, after: map<TaskId, Task>, id: TaskId)
    requires Agreement(tasks, running) && after.Keys == tasks.Keys
    requires forall k :: k in after && k != id ==> after[k] == tasks[k]
    requires id in after ==> !Active(after[id].status)
    ensures Agreement(after, running - {id})
  {
  }

  lemma {:induction false} LiveAfterExit(tasks: map<TaskId, Task>, running: map<TaskId, Entry>, after: map<TaskId, Task>, id: TaskId)
    requires forall k :: k in after && k != id ==> k in tasks && after[k] == tasks[k]
    ensures |LiveUsers(after, running - {id})| <= |LiveUsers(tasks, running)|
  {
    SubsetSize(LiveUsers(after, running - {id}), LiveUsers(tasks, running));
  }

  lemma {:induction false} ExitAttached(known: set<TaskId>, running: map<TaskId, Entry>, workers: seq<Worker>, w: nat)
    requires Attached(known, running, workers) && w < |workers| && workers[w].phase != Finished
    ensures Attached(known, running - {workers[w].id}, workers[w := workers[w].(phase := Finished)])
  {
  }

  lemma {:induction false} UnregisteredKeeps(s: State, w: nat, o: Outcome)
    requires Good(s) && w < |s.workers| && s.workers[w].phase == InRun
    ensures Good(Unregistered(s, w, o))
  {
    hide Distinct, Members, Attached, Agreement, LiveUsers, Ended;
    var id := s.workers[w].id;
    ExitAttached(s.tasks.Keys, s.running, s.workers, w);
    var t := Unregistered(s, w, o);
    if id in s.tasks {
      EndedTask(s.tasks[id], o);
      assert t.tasks == s.tasks[id := Ended(s.tasks[id], o)];
      assert t.tasks.Keys == s.tasks.Keys;
    }
    ExitAgreement(s.tasks, s.running, t.tasks, id);
    LiveAfterExit(s.tasks, s.running, t.tasks, id);
  }

  lemma {:induction false} ExitKeeps(s: State, w: nat, o: Outcome)
    requires Good(s) && w < |s.workers| && s.workers[w].phase == InRun
    ensures Good(Exit(s, w, o))
  {
    hide Good, ScheduleAll;
    UnregisteredKeeps(s, w, o);
    ScheduledAll(Unregistered(s, w, o), s.order);
  }
}
