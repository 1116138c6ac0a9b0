/** The scheduler object. Each method is one stretch of code that holds `mu`, with the loops the
    program runs, and its contract ties the new fields to the value-level function of the old ones. */
module SchedulerClass {
  import opened Options
  import opened Tasks
  import opened TaskChanges
  import opened SchedulerState
  import opened SchedulerInvariant
  import opened SchedulerSteps
  import opened SchedulerEffects

  // Stopping the tasks with entries and then the waiting ones is what PauseEvery does at once.
  lemma {:induction false} TwoSweeps(s: State, mid: map<TaskId, Task>, after: map<TaskId, Task>)
    requires mid.Keys == s.tasks.Keys == after.Keys
    requires forall id :: id in mid ==> mid[id] == if id in s.running then Stopped(s.tasks[id]) else s.tasks[id]
    requires forall id :: id in after ==> after[id] == if mid[id].status == Waiting then Stopped(mid[id]) else mid[id]
    ensures PauseEvery(s) == s.(pauseEpoch := (s.pauseEpoch + 1) % EPOCHS, running := CancelAll(s.running), tasks := after)
  {
    assert after.Keys == PauseEvery(s).tasks.Keys;
    forall id | id in after
      ensures after[id] == PauseEvery(s).tasks[id]
    {
    }
  }

  lemma {:induction false} StoredKeeps(s: State, stored: Stored, fs: FileSystem)
    requires Good(s) && (stored.Read? ==> AllUnknown(s, stored.tasks))
    ensures Good(Load(s, stored, fs))
  {
    hide Good, LoadTasks;
    GoodIgnores(s, s.(loadFailed := true));
    GoodIgnores(s, s.(loadFailed := false));
    if stored.Read? { LoadKeeps(s.(loadFailed := false), stored.tasks, fs); }
  }

  class Scheduler {
    var tasks: map<TaskId, Task>
    var order: seq<TaskId>
    var running: map<TaskId, Entry>
    var maxRunning: nat
    var stopping: bool
    var pauseEpoch: nat
    var hasStore: bool
    var loadFailed: bool
    var saved: seq<Task>
    var registered: set<string>
    var workers: seq<Worker>
    var seen: set<TaskId>
    var accepted: set<TaskId>

    function Abs(): State
      reads this
    {
      State(tasks, order, running, maxRunning, stopping, pauseEpoch, hasStore, loadFailed, saved, registered,
            workers, seen, accepted)
    }

    constructor (max: int, packs: set<string>, store: bool)
      ensures Abs() == State(map[], [], map[], if max <= 0 then 3 else max, false, 0, store, false, [], packs, [], {}, {})
    {
      tasks, order, running := map[], [], map[];
      maxRunning := if max <= 0 then 3 else max;
      stopping, pauseEpoch, hasStore, loadFailed := false, 0, store, false;
      saved, registered, workers, seen, accepted := [], packs, [], {}, {};
    }

    /** Counts the entries of known slot users, cancelled ones included. */
    method RunningSlotCount() returns (count: nat)
      ensures count == |SlotIds(Abs())|
    {
      count := 0;
      var rest := running.Keys;
      assert SlotIds(Abs()) * rest == SlotIds(Abs());
      while rest != {}
        invariant rest <= running.Keys
        invariant count + |SlotIds(Abs()) * rest| == |SlotIds(Abs())|
        decreases rest
      {
        var id :| id in rest;
        ghost var slots := SlotIds(Abs());
        assert slots * (rest - {id}) == (slots * rest) - {id};
        if id in tasks && tasks[id].usesSlot {
          assert id in slots * rest;
          count := count + 1;
        } else {
          assert id !in slots;
          assert slots * (rest - {id}) == slots * rest;
        }
        rest := rest - {id};
      }
      assert SlotIds(Abs()) * rest == {};
    }

    method Schedule(id: TaskId)
      modifies this`tasks, this`running, this`workers
      ensures Abs() == ScheduleOne(old(Abs()), id)
      ensures Attempted(old(Abs()), Abs(), id)
      ensures Good(old(Abs())) ==> Good(Abs())
    {
      hide Good, Attempted;
      AttemptEffect(Abs(), id);
      if Good(Abs()) { ScheduledOne(Abs(), id); }
      if stopping {
        return;
      }
      if id !in tasks || id in running || Active(tasks[id].status) || tasks[id].status == Completed {
        return;
      }
      var t := tasks[id];
      if t.usesSlot {
        var count := RunningSlotCount();
        if count >= maxRunning {
          return;
        }
      }
      if t.packId !in registered {
        tasks := tasks[id := t.(status := Failed, error := "worker not registered")];
        return;
      }
      running := running[id := Entry(|workers|, false)];
      tasks := tasks[id := WithStatus(t, Running)];
      workers := workers + [Worker(id, Spawned)];
    }

    method ScheduleAllWaiting()
      modifies this`tasks, this`running, this`workers
      ensures Abs() == ScheduleWaiting(old(Abs()))
      ensures Passed(old(Abs()), Abs())
      ensures Good(old(Abs())) ==> Good(Abs())
    {
      hide Good, Passed, Attempted, ScheduleOne;
      PassEffect(Abs());
      if Good(Abs()) { ScheduledAll(Abs(), order); }
      ghost var was := Abs();
      for i := 0 to |order|
        invariant order == was.order
        invariant ScheduleAll(Abs(), order[i..]) == ScheduleWaiting(was)
      {
        ghost var before := Abs();
        assert order[i..][0] == order[i] && order[i..][1..] == order[i + 1..];
        if order[i] in tasks && tasks[order[i]].status == Waiting {
          Schedule(order[i]);
        }
        assert Abs() == ScheduleIfWaiting(before, before.order[i]);
      }
    }

    method EnforceMaxRunning()
      modifies this`tasks, this`running
      ensures Abs() == Enforce(old(Abs()))
      ensures Sound(old(Abs())) ==> Enforced(old(Abs()), Abs())
      ensures Sound(old(Abs())) ==> Good(Abs())
    {
      hide Good, Sound, Enforced;
      if Sound(Abs()) {
        EnforcedAll(Abs());
        EnforceEffect(Abs());
      }
      ghost var was := Abs();
      var count := RunningSlotCount();
      if count <= maxRunning {
        return;
      }
      var kept := 0;
      for i := 0 to |order|
        invariant order == was.order && maxRunning == was.maxRunning
        invariant EnforceFrom(Abs(), order[i..], kept) == EnforceFrom(was, was.order, 0)
      {
        var id := order[i];
        assert order[i..][0] == id && order[i..][1..] == order[i + 1..];
        if id in running && id in tasks && tasks[id].usesSlot {
          if kept < maxRunning {
            kept := kept + 1;
          } else {
            tasks := tasks[id := Stopped(tasks[id])];
            running := running[id := running[id].(cancelled := true)];
          }
        }
      }
    }

    method Reserved() returns (paths: set<Path>)
      ensures paths == ReservedOutputs(Abs())
    {
      paths := {};
      var rest := tasks.Keys;
      while rest != {}
        invariant rest <= tasks.Keys
        invariant paths == set id | id in tasks.Keys - rest :: Fold(OutputFile(tasks[id]))
        decreases rest
      {
        var id :| id in rest;
        paths := paths + {Fold(OutputFile(tasks[id]))};
        rest := rest - {id};
      }
    }

    method Insert(t: Task, granted: bool)
      modifies this
      ensures var s1 := Append(old(Abs()), t); Abs() == if granted then s1.(accepted := s1.accepted + {t.id}) else s1
    {
      tasks := tasks[t.id := t];
      order := order + [t.id];
      seen := seen + {t.id};
      if granted {
        accepted := accepted + {t.id};
      }
    }

    method Add(task: Task, fs: FileSystem)
      modifies this
      ensures Abs() == AddTask(old(Abs()), task, fs)
      ensures Added(old(Abs()), Abs(), task, Prepare(task, ReservedOutputs(old(Abs())), fs))
      ensures Good(old(Abs())) && Unknown(old(Abs()), task.id) && !Active(task.status) ==> Good(Abs())
    {
      hide Good, Prepare, ScheduleOne, ReservedOutputs, IsFtpDirectory, Append, Extends, Added, Attempted;
      AddEffect(Abs(), task, fs);
      if Good(Abs()) && Unknown(Abs(), task.id) && !Active(task.status) { AddKeeps(Abs(), task, fs); }
      var reserved := Reserved();
      var prepared := Prepare(task, reserved, fs);
      if prepared.Rejected? {
        var reason := prepared.reason;
        Insert(task.(status := Failed, error := reason, stage := task.stage.(status := Failed, error := reason)), false);
        return;
      }
      var t := prepared.task;
      if task.status == Waiting && t.status == Paused {
        t := WithStatus(t, Waiting);
      }
      Insert(t, IsFtpDirectory(t));
      if t.status != Paused {
        Schedule(t.id);
      }
    }

    // One task after the other, until one is refused.
    method LoadEach(ts: seq<Task>, fs: FileSystem)
      modifies this
      ensures Abs() == LoadTasks(old(Abs()), ts, fs)
    {
      hide Prepare, ReservedOutputs, IsFtpDirectory, Append;
      ghost var was := Abs();
      for i := 0 to |ts|
        invariant LoadTasks(Abs(), ts[i..], fs) == LoadTasks(was, ts, fs)
      {
        assert ts[i..][0] == ts[i] && ts[i..][1..] == ts[i + 1..];
        var reserved := Reserved();
        var prepared := Prepare(ts[i], reserved, fs);
        if prepared.Rejected? {
          loadFailed := true;
          return;
        }
        var t := prepared.task;
        if Active(t.status) {
          t := Stopped(t);
        }
        Insert(t, IsFtpDirectory(prepared.task));
      }
    }

    method LoadStored(stored: Stored, fs: FileSystem)
      modifies this
      ensures Abs() == Load(old(Abs()), stored, fs)
      ensures LoadedFrom(old(Abs()), Abs(), stored, fs)
      ensures Good(old(Abs())) && (stored.Read? ==> AllUnknown(old(Abs()), stored.tasks)) ==> Good(Abs())
    {
      hide Good, AllUnknown, LoadedFrom, LoadTasks;
      LoadEffect(Abs(), stored, fs);
      if Good(Abs()) && (stored.Read? ==> AllUnknown(Abs(), stored.tasks)) { StoredKeeps(Abs(), stored, fs); }
      if !hasStore {
        return;
      }
      loadFailed := stored.ReadError?;
      if stored.ReadError? {
        return;
      }
      LoadEach(stored.tasks, fs);
    }

    method SetMaxRunning(n: int)
      modifies this
      ensures Abs() == SetMax(old(Abs()), n)
      ensures Good(old(Abs())) ==> MaxSet(old(Abs()), Abs(), n)
      ensures Good(old(Abs())) ==> Good(Abs())
    {
      hide Good, MaxSet, Passed, Enforced;
      if Good(Abs()) {
        SetMaxKeeps(Abs(), n);
        SetMaxEffect(Abs(), n);
      }
      maxRunning := if n <= 0 then 1 else n;
      EnforceMaxRunning();
      ScheduleAllWaiting();
    }

    method TogglePause(id: TaskId) returns (ok: bool)
      modifies this
      ensures Abs() == Toggle(old(Abs()), id)
      ensures Toggled(old(Abs()), Abs(), id)
      ensures Good(old(Abs())) ==> Good(Abs())
      ensures ok <==> id in old(tasks) && old(tasks)[id].status != Completed
    {
      hide Good, Toggled, Attempted;
      ToggleEffect(Abs(), id);
      if Good(Abs()) { ToggleKeeps(Abs(), id); }
      if id !in tasks {
        return false;
      }
      var t := tasks[id];
      if Active(t.status) && id in running {
        tasks := tasks[id := Stopped(t)];
        running := running[id := running[id].(cancelled := true)];
        return true;
      }
      if t.status == Waiting {
        tasks := tasks[id := Stopped(t)];
        return true;
      }
      if t.status == Completed {
        return false;
      }
      tasks := tasks[id := WithStatus(t, Waiting)];
      Schedule(id);
      return true;
    }

    method StartAll()
      requires Members(order) == tasks.Keys
      modifies this
      ensures Abs() == StartEvery(old(Abs()))
      ensures StartedAll(old(Abs()), Abs())
      ensures Good(old(Abs())) ==> Good(Abs())
    {
      hide Good, StartedAll, Passed;
      StartAllEffect(Abs());
      if Good(Abs()) { StartEveryKeeps(Abs()); }
      ghost var was := Abs();
      WakeListed();
      assert tasks == AllWaiting(was.tasks);
      ScheduleAllWaiting();
    }

    // Marks every listed task that is paused or waiting as waiting.
    method WakeListed()
      modifies this`tasks
      ensures tasks.Keys == old(tasks).Keys
      ensures forall id :: id in tasks ==>
                tasks[id] == if id in Members(order) then AllWaiting(old(tasks))[id] else old(tasks)[id]
    {
      ghost var was := tasks;
      for i := 0 to |order|
        invariant tasks.Keys == was.Keys
        invariant forall id :: id in tasks ==> tasks[id] == if id in order[..i] then AllWaiting(was)[id] else was[id]
      {
        var id := order[i];
        assert order[..i + 1] == order[..i] + [id];
        if id in tasks && (tasks[id].status == Paused || tasks[id].status == Waiting) {
          tasks := tasks[id := WithStatus(tasks[id], Waiting)];
        }
      }
      assert order[..|order|] == order;
    }

    // Cancels every entry, whatever the order the entries come in.
    method CancelEntries()
      modifies this`running
      ensures running == CancelAll(old(running))
    {
      ghost var was := running;
      var rest := running.Keys;
      while rest != {}
        invariant rest <= was.Keys && running.Keys == was.Keys
        invariant forall id :: id in was ==> running[id] == if id in rest then was[id] else was[id].(cancelled := true)
        decreases rest
      {
        var id :| id in rest;
        running := running[id := running[id].(cancelled := true)];
        rest := rest - {id};
      }
    }

    // Stops every known task that has an entry.
    method StopEntries()
      modifies this`tasks
      ensures tasks.Keys == old(tasks).Keys
      ensures forall id :: id in tasks ==> tasks[id] == if id in running then Stopped(old(tasks)[id]) else old(tasks)[id]
    {
      ghost var was := tasks;
      var rest := running.Keys;
      while rest != {}
        invariant rest <= running.Keys && tasks.Keys == was.Keys
        invariant forall id :: id in was ==>
                    tasks[id] == if id in running && id !in rest then Stopped(was[id]) else was[id]
        decreases rest
      {
        var id :| id in rest;
        if id in tasks {
          tasks := tasks[id := Stopped(tasks[id])];
        }
        rest := rest - {id};
      }
    }

    // Stops every task with the given kind of status: waiting only, or active ones as well.
    method StopTasks(activeToo: bool)
      modifies this`tasks
      ensures tasks.Keys == old(tasks).Keys
      ensures forall id :: id in tasks ==>
                var t := old(tasks)[id];
                tasks[id] == if t.status == Waiting || (activeToo && Active(t.status)) then Stopped(t) else t
    {
      ghost var was := tasks;
      var rest := tasks.Keys;
      while rest != {}
        invariant rest <= was.Keys && tasks.Keys == was.Keys
        invariant forall id :: id in was ==>
                    var t := was[id];
                    tasks[id] == if id !in rest && (t.status == Waiting || (activeToo && Active(t.status)))
                                 then Stopped(t) else t
        decreases rest
      {
        var id :| id in rest;
        if tasks[id].status == Waiting || (activeToo && Active(tasks[id].status)) {
          tasks := tasks[id := Stopped(tasks[id])];
        }
        rest := rest - {id};
      }
    }

    method PauseAll()
      modifies this
      ensures Abs() == PauseEvery(old(Abs()))
      ensures old(pauseEpoch) < EPOCHS ==> PausedAll(old(Abs()), Abs())
      ensures Good(old(Abs())) ==> Good(Abs())
    {
      hide Good, PausedAll;
      if pauseEpoch < EPOCHS { PauseAllEffect(Abs()); }
      if Good(Abs()) { PauseEveryKeeps(Abs()); }
      hide CancelAll, Stopped, PauseEvery;
      pauseEpoch := (pauseEpoch + 1) % EPOCHS;
      StopEntries();
      ghost var mid := tasks;
      CancelEntries();
      StopTasks(false);
      TwoSweeps(old(Abs()), mid, tasks);
    }

    method Remove(id: TaskId) returns (ok: bool)
      modifies this
      ensures Abs() == RemoveTask(old(Abs()), id)
      ensures Good(old(Abs())) ==> Removed(old(Abs()), Abs(), id)
      ensures Good(old(Abs())) ==> Good(Abs())
      ensures ok <==> id in old(tasks)
    {
      hide Good, Removed, Passed;
      if Good(Abs()) {
        RemoveKeeps(Abs(), id);
        RemoveEffect(Abs(), id);
      }
      if id !in tasks {
        return false;
      }
      if id in running {
        running := running[id := running[id].(cancelled := true)];
      }
      tasks := tasks - {id};
      Unlist(id);
      ScheduleAllWaiting();
      return true;
    }

    // Takes the first occurrence of id out of the list.
    method Unlist(id: TaskId)
      modifies this`order
      ensures order == Without(old(order), id)
    {
      var i := 0;
      while i < |order| && order[i] != id
        invariant 0 <= i <= |order| && order == old(order)
        invariant Without(order, id) == order[..i] + Without(order[i..], id)
      {
        assert order[i..][0] == order[i] && order[i..][1..] == order[i + 1..];
        assert order[..i] + [order[i]] == order[..i + 1];
        i := i + 1;
      }
      if i < |order| {
        assert order[i..][0] == id && order[i..][1..] == order[i + 1..];
        order := order[..i] + order[i + 1..];
      } else {
        assert order[..i] == order && order[i..] == [];
      }
    }

    method RedownloadBegin(id: TaskId)
      requires id in tasks
      modifies this
      ensures Abs() == BeginRedownload(old(Abs()), id)
      ensures if id in old(running) then Interrupted(old(Abs()), Abs(), id) && IsPut(old(tasks)[id], tasks[id], Paused)
              else Abs() == old(Abs())
      ensures Good(old(Abs())) ==> Good(Abs())
    {
      hide Good, Interrupted, IsPut;
      RedownloadBeginEffect(Abs(), id);
      if Good(Abs()) { BeginKeeps(Abs(), id); }
      if id in running {
        tasks := tasks[id := WithStatus(tasks[id], Paused)];
        running := running[id := running[id].(cancelled := true)];
      }
    }

    method RedownloadCommit(id: TaskId, reset: Task) returns (ok: bool)
      modifies this
      ensures Abs() == CommitRedownload(old(Abs()), id, reset)
      ensures Restarted(old(Abs()), Abs(), id, reset)
      ensures Good(old(Abs())) && (id in old(tasks) ==> !Active(old(tasks)[id].status)) ==> Good(Abs())
      ensures ok <==> !old(stopping) && id in old(tasks)
    {
      hide Good, Restarted, Passed;
      RedownloadEffect(Abs(), id, reset);
      if Good(Abs()) && (id in tasks ==> !Active(tasks[id].status)) { CommitRedownloadKeeps(Abs(), id, reset); }
      if stopping || id !in tasks {
        return false;
      }
      tasks := tasks[id := Rewound(tasks[id], reset)];
      ScheduleAllWaiting();
      return true;
    }

    method EditBegin(id: TaskId)
      requires id in tasks
      modifies this
      ensures Abs() == BeginEdit(old(Abs()), id)
      ensures if id in old(running) then Interrupted(old(Abs()), Abs(), id) && IsPaused(old(tasks)[id], tasks[id])
              else Abs() == old(Abs())
      ensures Good(old(Abs())) ==> Good(Abs())
    {
      hide Good, Interrupted, IsPaused;
      EditBeginEffect(Abs(), id);
      if Good(Abs()) { BeginKeeps(Abs(), id); }
      if id in running {
        tasks := tasks[id := Stopped(tasks[id])];
        running := running[id := running[id].(cancelled := true)];
      }
    }

    method EditCommit(id: TaskId, resume: bool, original: Task, epoch: nat, outcome: EditOutcome) returns (ok: bool)
      modifies this
      ensures Abs() == CommitEdit(old(Abs()), id, resume, original, epoch, outcome)
      ensures !EditApplies(old(Abs()), id, original, epoch) ==> Abs() == old(Abs())
      ensures EditApplies(old(Abs()), id, original, epoch) ==>
                if outcome.Edited? then EditStored(old(Abs()), Abs(), id, resume, outcome.task)
                else if resume then Woken(old(Abs()), Abs(), id) else Abs() == old(Abs())
      ensures Good(old(Abs())) && !Active(original.status) ==> Good(Abs())
      ensures ok <==> EditApplies(old(Abs()), id, original, epoch) && outcome.Edited?
    {
      hide Good, EditStored, Woken, Attempted;
      EditEffect(Abs(), id, resume, original, epoch, outcome);
      if Good(Abs()) && !Active(original.status) { CommitEditKeeps(Abs(), id, resume, original, epoch, outcome); }
      if stopping || id !in tasks || pauseEpoch != epoch || tasks[id] != original {
        return false;
      }
      if outcome.EditFailed? {
        if resume {
          tasks := tasks[id := WithStatus(tasks[id], Waiting)];
          Schedule(id);
        }
        return false;
      }
      tasks := tasks[id := EditedTask(original, outcome.task, resume)];
      if resume {
        Schedule(id);
      }
      return true;
    }

    method StopBegin()
      modifies this
      ensures Abs() == BeginStop(old(Abs()))
      ensures StopBegun(old(Abs()), Abs())
      ensures Good(old(Abs())) ==> Good(Abs())
    {
      hide Good, CancelAll, Stopped, Active, StopBegun;
      StopEffect(Abs());
      if Good(Abs()) { BeginStopKeeps(Abs()); }
      stopping := true;
      CancelEntries();
      StopTasks(true);
      assert tasks == BeginStop(old(Abs())).tasks;
      hide BeginStop;
    }

    // The known tasks in list order.
    method ListTasks() returns (list: seq<Task>)
      ensures list == Listed(tasks, order)
    {
      list := [];
      for i := 0 to |order|
        invariant list + Listed(tasks, order[i..]) == Listed(tasks, order)
      {
        assert order[i..][0] == order[i] && order[i..][1..] == order[i + 1..];
        if order[i] in tasks {
          list := list + [tasks[order[i]]];
        }
      }
    }

    method SaveNow()
      modifies this`saved
      ensures Abs() == Save(old(Abs()))
      ensures Good(old(Abs())) ==> SavedIn(old(Abs()), Abs())
    {
      hide Good, SavedIn, Listed;
      if Good(Abs()) { SaveEffect(Abs()); }
      if !hasStore || loadFailed {
        return;
      }
      var list := ListTasks();
      saved := list;
    }

    method ReportProgress(id: TaskId, u: Update)
      modifies this
      ensures Abs() == Report(old(Abs()), id, u)
      ensures Good(old(Abs())) && (u.status.Some? ==> Active(u.status.value)) ==> ReportedTo(old(Abs()), Abs(), id, u)
      ensures Good(old(Abs())) && (u.status.Some? ==> Active(u.status.value)) ==> Good(Abs())
    {
      hide Good, ReportedTo, Passed, Enforced;
      if Good(Abs()) && (u.status.Some? ==> Active(u.status.value)) {
        ReportKeeps(Abs(), id, u);
        ReportEffect(Abs(), id, u);
      }
      if id !in tasks {
        return;
      }
      var previous := tasks[id].usesSlot;
      tasks := tasks[id := Reported(tasks[id], u)];
      if previous && !tasks[id].usesSlot {
        ScheduleAllWaiting();
      } else if !previous && tasks[id].usesSlot {
        EnforceMaxRunning();
      }
    }

    method WorkerReturned(w: nat, o: Outcome)
      requires w < |workers|
      modifies this
      ensures Abs() == Exit(old(Abs()), w, o)
      ensures ExitedFrom(old(Abs()), Abs(), w, o)
      ensures var id := old(workers)[w].id;
              id in old(tasks) && !(o.WasCanceled? && old(tasks)[id].status == Waiting) ==>
                id in tasks && id !in running && IsEnded(old(tasks)[id], o, tasks[id])
      ensures Good(old(Abs())) && old(workers)[w].phase == InRun ==> Good(Abs())
    {
      hide Good, ScheduleAll, Ended, Extends, ExitedFrom, IsEnded, Passed;
      ExitEffect(Abs(), w, o);
      if Good(Abs()) && workers[w].phase == InRun { ExitKeeps(Abs(), w, o); }
      var id := workers[w].id;
      Mark(w, o);
      if id in tasks {
        ScheduleAllWaiting();
      }
    }

    // Takes the goroutine off the books and gives its task the outcome.
    method Mark(w: nat, o: Outcome)
      requires w < |workers|
      modifies this`workers, this`running, this`tasks
      ensures Abs() == Unregistered(old(Abs()), w, o)
    {
      hide Ended;
      var id := workers[w].id;
      workers := workers[w := workers[w].(phase := Finished)];
      running := running - {id};
      if id in tasks {
        tasks := tasks[id := Ended(tasks[id], o)];
      }
    }
  }
}
