/** What every operation of the scheduler does, task by task and field by field: each is described by
    a relation between the old state and the new one that leaves nothing open. */
module SchedulerEffects {
  import opened Options
  import opened Tasks
  import opened TaskChanges
  import opened SchedulerState
  import opened SchedulerInvariant
  import opened SchedulerSteps
  import opened SchedulerMachine
  import opened SchedulerQueue

  // ---- One task and its entry ----

  predicate OthersSame(s: State, t: State, id: TaskId) {
    t.tasks - {id} == s.tasks - {id} && t.running - {id} == s.running - {id}
  }

  predicate Known(s: State, t: State, id: TaskId) {
    id in s.tasks && id in t.tasks
  }

  // Only this task's record is new.
  predicate OnlyTask(s: State, t: State, id: TaskId) {
    Known(s, t, id) && OthersSame(s, t, id) && t.running == s.running && t.workers == s.workers && SameElse(s, t)
  }

  // Its entry is cancelled and goes on standing for the same goroutine.
  predicate EntryCancelled(s: State, t: State, id: TaskId) {
    id in s.running && id in t.running && t.running[id].cancelled && t.running[id].worker == s.running[id].worker
  }

  predicate Interrupted(s: State, t: State, id: TaskId) {
    Known(s, t, id) && EntryCancelled(s, t, id) && OthersSame(s, t, id) && t.workers == s.workers && SameElse(s, t)
  }

  function Holders(s: State): nat {
    |set k | k in s.running && k in s.tasks && s.tasks[k].usesSlot|
  }

  predicate CanStart(s: State, id: TaskId) {
    && !s.stopping && id in s.tasks && id !in s.running && !Active(s.tasks[id].status) && s.tasks[id].status != Completed
    && (s.tasks[id].usesSlot ==> Holders(s) < s.maxRunning)
  }

  // An attempt to start a task: one new goroutine and its entry, a failure for want of a registered
  // worker, or nothing.
  predicate Attempted(s: State, t: State, id: TaskId) {
    if !CanStart(s, id) then t == s
    else if s.tasks[id].packId !in s.registered then
      OnlyTask(s, t, id) && IsUnregistered(s.tasks[id], t.tasks[id])
    else
      && Known(s, t, id) && IsPut(s.tasks[id], t.tasks[id], Running) && OthersSame(s, t, id) && SameElse(s, t)
      && id in t.running && t.running[id] == Entry(|s.workers|, false) && t.workers == s.workers + [Worker(id, Spawned)]
  }

  // A scheduling pass: what is in line is started or failed for want of a worker, and whatever
  // stays in line waits for a slot.
  ghost predicate Passed(s: State, t: State) {
    Explained(s, t) && (Members(s.order) == s.tasks.Keys ==> Conserving(t))
  }

  // The limit check: over the limit, the first maxRunning slot holders of the list go on and the
  // others are interrupted.
  ghost predicate Enforced(s: State, t: State) {
    if Holders(s) <= s.maxRunning then t == s
    else
      && SameElse(s, t) && t.workers == s.workers && t.tasks.Keys == s.tasks.Keys && t.running.Keys == s.running.Keys
      && (forall i :: 0 <= i < |s.order| && TakesSlot(s, s.order[i]) ==>
            if Rank(s, s.order, i) < s.maxRunning then Untouched(s, t, s.order[i]) else PausedThere(s, t, s.order[i]))
      && (forall id :: id in s.tasks && !TakesSlot(s, id) ==> t.tasks[id] == s.tasks[id])
      && (forall id :: id in s.running && !TakesSlot(s, id) ==> t.running[id] == s.running[id])
  }

  lemma {:induction false} PausedIs(t: Task)
    ensures IsPaused(t, Stopped(t))
  {
  }

  lemma {:induction false} OneTask(s: State, id: TaskId, u: Task)
    requires id in s.tasks
    ensures OnlyTask(s, SetTask(s, id, u), id)
  {
  }

  lemma {:induction false} AttemptEffect(s: State, id: TaskId)
    ensures Attempted(s, ScheduleOne(s, id), id)
  {
    hide IsPut, IsUnregistered, WithStatus;
    if id in s.tasks {
      UnregisteredIs(s.tasks[id]);
      PutIs(s.tasks[id], Running);
    }
  }

  lemma {:induction false} PassEffect(s: State)
    ensures Passed(s, ScheduleWaiting(s))
  {
    hide Explained, Conserving, ScheduleAll;
    PassExplained(s, s.order);
    if Members(s.order) == s.tasks.Keys { PassConserves(s); }
  }

  lemma {:induction false} EnforceElsewhere(s: State, ids: seq<TaskId>, kept: nat)
    ensures var t := EnforceFrom(s, ids, kept);
            && SameElse(s, t) && t.workers == s.workers && t.tasks.Keys == s.tasks.Keys && t.running.Keys == s.running.Keys
            && (forall id :: id in s.tasks && !TakesSlot(s, id) ==> t.tasks[id] == s.tasks[id])
            && (forall id :: id in s.running && !TakesSlot(s, id) ==> t.running[id] == s.running[id])
    decreases ids
  {
    if ids != [] {
      if TakesSlot(s, ids[0]) && kept >= s.maxRunning {
        var s1 := PauseAndCancel(s, ids[0]);
        EnforceElsewhere(s1, ids[1..], kept);
        assert forall id :: TakesSlot(s, id) <==> TakesSlot(s1, id);
      } else {
        EnforceElsewhere(s, ids[1..], if TakesSlot(s, ids[0]) then kept + 1 else kept);
      }
    }
  }

  lemma {:induction false} EnforceEffect(s: State)
    requires Sound(s)
    ensures Enforced(s, Enforce(s))
  {
    hide Sound, TakesSlot, Rank, Untouched, PausedThere, EnforceFrom;
    assert Holders(s) == SlotCount(s);
    EnforceElsewhere(s, s.order, 0);
    if SlotCount(s) > s.maxRunning {
      forall i | 0 <= i < |s.order| && TakesSlot(s, s.order[i])
        ensures if Rank(s, s.order, i) < s.maxRunning then Untouched(s, Enforce(s), s.order[i])
                else PausedThere(s, Enforce(s), s.order[i])
      {
        EnforceKeepsFirst(s, i);
      }
    }
  }

  // ---- Pausing and waking one task ----

  // The task goes back in line, and an attempt to start it is made at once.
  ghost predicate Woken(s: State, t: State, id: TaskId) {
    id in s.tasks && exists w: Task :: IsPut(s.tasks[id], w, Waiting) && Attempted(s.(tasks := s.tasks[id := w]), t, id)
  }

  ghost predicate Toggled(s: State, t: State, id: TaskId) {
    if id !in s.tasks || s.tasks[id].status == Completed then t == s
    else if Active(s.tasks[id].status) && id in s.running then
      Interrupted(s, t, id) && IsPaused(s.tasks[id], t.tasks[id])
    else if s.tasks[id].status == Waiting then OnlyTask(s, t, id) && IsPaused(s.tasks[id], t.tasks[id])
    else Woken(s, t, id)
  }

  lemma {:induction false} WokenIs(s: State, id: TaskId)
    requires id in s.tasks
    ensures Woken(s, ScheduleOne(SetTask(s, id, WithStatus(s.tasks[id], Waiting)), id), id)
  {
    PutIs(s.tasks[id], Waiting);
    AttemptEffect(SetTask(s, id, WithStatus(s.tasks[id], Waiting)), id);
    hide Attempted, IsPut, ScheduleOne;
  }

  lemma {:induction false} InterruptedIs(s: State, id: TaskId)
    requires id in s.tasks && id in s.running
    ensures Interrupted(s, PauseAndCancel(s, id), id) && IsPaused(s.tasks[id], PauseAndCancel(s, id).tasks[id])
  {
    PausedIs(s.tasks[id]);
    hide IsPaused, Stopped;
  }

  /** TogglePause: an active task with an entry is paused and its entry cancelled; a waiting one is
      paused; a completed or unknown one is left alone; any other goes in line and is started, failed
      for want of a registered worker, or left waiting. */
  lemma {:induction false} ToggleEffect(s: State, id: TaskId)
    ensures Toggled(s, Toggle(s, id), id)
  {
    hide Woken, Interrupted, IsPaused, OnlyTask, PauseAndCancel, ScheduleOne;
    if id in s.tasks {
      PausedIs(s.tasks[id]);
      OneTask(s, id, Stopped(s.tasks[id]));
      if id in s.running { InterruptedIs(s, id); }
      WokenIs(s, id);
    }
  }

  // ---- All tasks at once ----

  ghost predicate WokenAll(s: State, mid: State) {
    && SameElse(s, mid) && mid.running == s.running && mid.workers == s.workers && mid.tasks.Keys == s.tasks.Keys
    && forall id :: id in s.tasks ==>
         if s.tasks[id].status == Paused || s.tasks[id].status == Waiting then IsPut(s.tasks[id], mid.tasks[id], Waiting)
         else mid.tasks[id] == s.tasks[id]
  }

  ghost predicate StartedAll(s: State, t: State) {
    exists mid: State :: WokenAll(s, mid) && Passed(mid, t)
  }

  /** StartAll: every paused or waiting task is put in line, the others are left alone, and a pass
      follows. */
  lemma {:induction false} StartAllEffect(s: State)
    ensures StartedAll(s, StartEvery(s))
  {
    hide Passed, ScheduleWaiting, IsPut;
    var mid := s.(tasks := AllWaiting(s.tasks));
    PassEffect(mid);
    forall id | id in s.tasks ensures IsPut(s.tasks[id], WithStatus(s.tasks[id], Waiting), Waiting) {
      PutIs(s.tasks[id], Waiting);
    }
    assert WokenAll(s, mid);
  }

  ghost predicate AllCancelled(s: State, t: State) {
    t.running.Keys == s.running.Keys && forall id :: id in s.running ==> EntryCancelled(s, t, id)
  }

  ghost predicate PausedAll(s: State, t: State) {
    && t.pauseEpoch == (if s.pauseEpoch + 1 == EPOCHS then 0 else s.pauseEpoch + 1)
    && SameElse(s.(pauseEpoch := t.pauseEpoch), t) && t.workers == s.workers && AllCancelled(s, t)
    && t.tasks.Keys == s.tasks.Keys
    && forall id :: id in s.tasks ==>
         if id in s.running || s.tasks[id].status == Waiting then IsPaused(s.tasks[id], t.tasks[id])
         else t.tasks[id] == s.tasks[id]
  }

  /** PauseAll: every entry is cancelled, every task that has one or waits is paused, and the counter
      of such calls goes on, from 2^64 - 1 to 0. */
  lemma {:induction false} PauseAllEffect(s: State)
    requires s.pauseEpoch < EPOCHS
    ensures PausedAll(s, PauseEvery(s))
  {
    hide IsPaused;
    forall id | id in s.tasks ensures IsPaused(s.tasks[id], Stopped(s.tasks[id])) { PausedIs(s.tasks[id]); }
  }

  ghost predicate StopBegun(s: State, t: State) {
    && t.stopping && SameElse(s.(stopping := true), t) && t.workers == s.workers && AllCancelled(s, t)
    && t.tasks.Keys == s.tasks.Keys
    && forall id :: id in s.tasks ==>
         if Active(s.tasks[id].status) || s.tasks[id].status == Waiting then IsPaused(s.tasks[id], t.tasks[id])
         else t.tasks[id] == s.tasks[id]
  }

  /** StopAll begins: stopping is set, every entry is cancelled, every active or waiting task is paused. */
  lemma {:induction false} StopEffect(s: State)
    ensures StopBegun(s, BeginStop(s))
  {
    hide IsPaused;
    forall id | id in s.tasks ensures IsPaused(s.tasks[id], Stopped(s.tasks[id])) { PausedIs(s.tasks[id]); }
  }

  ghost predicate MaxSet(s: State, t: State, n: int) {
    exists mid: State :: Enforced(s.(maxRunning := if n <= 0 then 1 else n), mid) && Passed(mid, t)
  }

  /** SetMaxRunning: the limit is the number given, or 1; then the limit check and a pass. */
  lemma {:induction false} SetMaxEffect(s: State, n: int)
    requires Good(s)
    ensures MaxSet(s, SetMax(s, n), n)
  {
    hide Passed, Enforced, Enforce, ScheduleWaiting;
    var s1 := s.(maxRunning := if n <= 0 then 1 else n);
    SoundLimit(s, s1);
    EnforceEffect(s1);
    PassEffect(Enforce(s1));
  }

  // ---- Adding, removing, saving ----

  // What Add stores: the task refused, with the reason; or the prepared task, waiting if it was
  // to wait and was paused by a move.
  ghost predicate StoredAs(t: Task, p: Prepared, w: Task) {
    match p
    case Rejected(reason) => IsBroken(t, w, reason)
    case Accepted(q) => if t.status == Waiting && q.status == Paused then IsPut(q, w, Waiting) else w == q
  }

  predicate AppendedTask(s: State, mid: State, w: Task, granted: bool) {
    && mid.tasks == s.tasks[w.id := w] && mid.order == s.order + [w.id] && mid.seen == s.seen + {w.id}
    && mid.accepted == (if granted then s.accepted + {w.id} else s.accepted)
    && mid.running == s.running && mid.workers == s.workers
    && SameElse(s.(order := mid.order, seen := mid.seen, accepted := mid.accepted), mid)
  }

  ghost predicate AddedBy(s: State, t: State, task: Task, p: Prepared, w: Task, mid: State) {
    && StoredAs(task, p, w) && AppendedTask(s, mid, w, p.Accepted? && IsFtpDirectory(w))
    && if p.Rejected? || w.status == Paused then t == mid else Attempted(mid, t, w.id)
  }

  ghost predicate Added(s: State, t: State, task: Task, p: Prepared) {
    exists w: Task, mid: State :: AddedBy(s, t, task, p, w, mid)
  }

  lemma {:induction false} AppendedIs(s: State, w: Task)
    ensures AppendedTask(s, Append(s, w), w, false) && AppendedTask(s, Grant(Append(s, w), w), w, IsFtpDirectory(w))
  {
    hide IsFtpDirectory;
  }

  lemma {:induction false} BrokenIs(t: Task, e: string)
    ensures IsBroken(t, t.(status := Failed, error := e, stage := t.stage.(status := Failed, error := e)), e)
  {
  }

  /** Add: the task goes to the end of the list as its output's preparation left it, failed if the
      output was refused, and unless it is paused or failed an attempt to start it is made. */
  lemma {:induction false} AddEffect(s: State, task: Task, fs: FileSystem)
    ensures Added(s, AddTask(s, task, fs), task, Prepare(task, ReservedOutputs(s), fs))
  {
    hide Prepare, ReservedOutputs, Attempted, ScheduleOne, IsPut, IsBroken, WithStatus;
    var p, t := Prepare(task, ReservedOutputs(s), fs), AddTask(s, task, fs);
    match p
    case Rejected(reason) =>
      var w := task.(status := Failed, error := reason, stage := task.stage.(status := Failed, error := reason));
      BrokenIs(task, reason);
      AppendedIs(s, w);
      hide AppendedTask;
      assert AddedBy(s, t, task, p, w, Append(s, w));
    case Accepted(q) =>
      var w := if task.status == Waiting && q.status == Paused then WithStatus(q, Waiting) else q;
      PutIs(q, Waiting);
      var mid := Grant(Append(s, w), w);
      AttemptEffect(mid, w.id);
      AppendedIs(s, w);
      hide AppendedTask;
      assert AddedBy(s, t, task, p, w, mid);
  }

  ghost predicate DroppedTask(s: State, mid: State, id: TaskId) {
    && id in s.tasks && mid.tasks == s.tasks - {id} && mid.workers == s.workers && SameElse(s.(order := mid.order), mid)
    && (exists i :: 0 <= i < |s.order| && s.order[i] == id && mid.order == s.order[..i] + s.order[i + 1..])
    && mid.running - {id} == s.running - {id}
    && (if id in s.running then EntryCancelled(s, mid, id) else id !in mid.running)
  }

  ghost predicate Removed(s: State, t: State, id: TaskId) {
    if id !in s.tasks then t == s else exists mid: State :: DroppedTask(s, mid, id) && Passed(mid, t)
  }

  lemma {:induction false} WithoutOne(ids: seq<TaskId>, id: TaskId) returns (i: nat)
    requires id in ids
    ensures i < |ids| && ids[i] == id && Without(ids, id) == ids[..i] + ids[i + 1..]
  {
    if ids[0] == id {
      i := 0;
    } else {
      var j := WithoutOne(ids[1..], id);
      i := j + 1;
      assert [ids[0]] + (ids[1..][..j] + ids[1..][j + 1..]) == ids[..i] + ids[i + 1..];
    }
  }

  lemma {:induction false} DroppedIs(s: State, id: TaskId)
    requires Good(s) && id in s.tasks
    ensures DroppedTask(s, Dropped(s, id), id)
  {
    hide Agreement, Attached, LiveSlots, Without;
    assert id in Members(s.order);
    var i := WithoutOne(s.order, id);
  }

  /** Remove: the task and its place in the list go, its entry stays cancelled, and a pass follows. */
  lemma {:induction false} RemoveEffect(s: State, id: TaskId)
    requires Good(s)
    ensures Removed(s, RemoveTask(s, id), id)
  {
    hide Passed, ScheduleWaiting, Good, DroppedTask;
    if id in s.tasks {
      DroppedIs(s, id);
      PassEffect(Dropped(s, id));
    }
  }

  ghost predicate SavedIn(s: State, t: State) {
    && t == s.(saved := t.saved) && (!s.hasStore || s.loadFailed ==> t.saved == s.saved)
    && (s.hasStore && !s.loadFailed ==>
          |t.saved| == |s.order| && forall i :: 0 <= i < |s.order| ==> s.order[i] in s.tasks && t.saved[i] == s.tasks[s.order[i]])
  }

  lemma {:induction false} ListedAt(ids: seq<TaskId>, tasks: map<TaskId, Task>)
    requires forall id :: id in ids ==> id in tasks
    ensures |Listed(tasks, ids)| == |ids| && forall i :: 0 <= i < |ids| ==> Listed(tasks, ids)[i] == tasks[ids[i]]
  {
    if ids != [] { ListedAt(ids[1..], tasks); }
  }

  /** Saving writes the tasks in list order; the timer does so unless the scheduler is stopping. */
  lemma {:induction false} SaveEffect(s: State)
    requires Good(s)
    ensures SavedIn(s, Save(s)) && (if s.stopping then TimerSave(s) == s else SavedIn(s, TimerSave(s)))
  {
    hide Agreement, Attached, LiveSlots;
    assert forall id :: id in s.order ==> id in Members(s.order);
    ListedAt(s.order, s.tasks);
  }

  // The prepared task, paused if it was active.
  ghost predicate RestedFrom(p: Task, w: Task) {
    if Active(p.status) then IsPaused(p, w) else w == p
  }

  // One task after the other, each prepared against the outputs before it, up to the first that
  // is refused.
  ghost predicate LoadedIn(s: State, t: State, ts: seq<Task>, fs: FileSystem)
    decreases ts
  {
    if ts == [] then t == s
    else
      match Prepare(ts[0], ReservedOutputs(s), fs)
      case Rejected(_) => t == s.(loadFailed := true)
      case Accepted(p) =>
        exists w: Task, mid: State ::
          RestedFrom(p, w) && AppendedTask(s, mid, w, IsFtpDirectory(p)) && LoadedIn(mid, t, ts[1..], fs)
  }

  ghost predicate LoadedFrom(s: State, t: State, stored: Stored, fs: FileSystem) {
    if !s.hasStore then t == s
    else match stored
      case ReadError => t == s.(loadFailed := true)
      case Read(ts) => LoadedIn(s.(loadFailed := false), t, ts, fs)
  }

  lemma {:induction false} LoadedWith(s: State, t: State, ts: seq<Task>, fs: FileSystem, p: Task, w: Task, mid: State)
    requires ts != [] && Prepare(ts[0], ReservedOutputs(s), fs) == Accepted(p)
    requires RestedFrom(p, w) && AppendedTask(s, mid, w, IsFtpDirectory(p)) && LoadedIn(mid, t, ts[1..], fs)
    ensures LoadedIn(s, t, ts, fs)
  {
    hide Prepare, ReservedOutputs, RestedFrom, AppendedTask, IsFtpDirectory;
  }

  lemma {:induction false} RestedIdentity(p: Task)
    ensures Rested(p).id == p.id
  {
  }

  lemma {:induction false} LoadOneEffect(s: State, p: Task)
    ensures RestedFrom(p, Rested(p)) && AppendedTask(s, Grant(Append(s, Rested(p)), p), Rested(p), IsFtpDirectory(p))
  {
    PausedIs(p);
    hide IsPaused, IsFtpDirectory, Stopped;
    assert Rested(p).id == p.id by { RestedIdentity(p); }
  }

  lemma {:induction false} LoadTasksEffect(s: State, ts: seq<Task>, fs: FileSystem)
    ensures LoadedIn(s, LoadTasks(s, ts, fs), ts, fs)
    decreases ts
  {
    if ts != [] {
      hide Prepare, ReservedOutputs, RestedFrom, AppendedTask, IsFtpDirectory, Rested, Append, Grant;
      match Prepare(ts[0], ReservedOutputs(s), fs)
      case Rejected(_) =>
      case Accepted(p) =>
        var mid := Grant(Append(s, Rested(p)), p);
        LoadOneEffect(s, p);
        LoadTasksEffect(mid, ts[1..], fs);
        LoadedWith(s, LoadTasks(s, ts, fs), ts, fs, p, Rested(p), mid);
    }
  }

  /** Load: nothing without a store, the failure noted when reading fails, and otherwise the tasks put
      on the list one by one, active ones paused, until one is refused. */
  lemma {:induction false} LoadEffect(s: State, stored: Stored, fs: FileSystem)
    ensures LoadedFrom(s, Load(s, stored, fs), stored, fs)
  {
    hide LoadTasks, LoadedIn;
    if stored.Read? { LoadTasksEffect(s.(loadFailed := false), stored.tasks, fs); }
  }

  // ---- Redownload ----

  /** Redownload begins: the entry is cancelled and its task put on pause, its speed untouched. */
  lemma {:induction false} RedownloadBeginEffect(s: State, id: TaskId)
    ensures var t := BeginRedownload(s, id);
            if id in s.tasks && id in s.running then Interrupted(s, t, id) && IsPut(s.tasks[id], t.tasks[id], Paused) else t == s
  {
    if id in s.tasks { PutIs(s.tasks[id], Paused); }
    hide IsPut, WithStatus;
  }

  ghost predicate Restarted(s: State, t: State, id: TaskId, reset: Task) {
    if s.stopping || id !in s.tasks then t == s
    else exists mid: State :: OnlyTask(s, mid, id) && IsRewound(s.tasks[id], reset, mid.tasks[id]) && Passed(mid, t)
  }

  lemma {:induction false} RewoundIs(t: Task, reset: Task)
    ensures IsRewound(t, reset, Rewound(t, reset))
  {
  }

  /** Redownload commits: the task is back at its beginning with what the reset gave it, waiting, and
      a pass follows. */
  lemma {:induction false} RedownloadEffect(s: State, id: TaskId, reset: Task)
    ensures Restarted(s, CommitRedownload(s, id, reset), id, reset)
  {
    hide Passed, ScheduleWaiting, IsRewound, OnlyTask;
    if !s.stopping && id in s.tasks {
      var mid := SetTask(s, id, Rewound(s.tasks[id], reset));
      OneTask(s, id, Rewound(s.tasks[id], reset));
      RewoundIs(s.tasks[id], reset);
      PassEffect(mid);
    }
  }

  // ---- EditTask ----

  /** EditTask begins: the entry is cancelled and its task paused. */
  lemma {:induction false} EditBeginEffect(s: State, id: TaskId)
    ensures var t := BeginEdit(s, id);
            if id in s.tasks && id in s.running then Interrupted(s, t, id) && IsPaused(s.tasks[id], t.tasks[id]) else t == s
  {
    hide Interrupted, IsPaused, PauseAndCancel;
    if id in s.tasks && id in s.running { InterruptedIs(s, id); }
  }

  // The edit takes the task's place, under its identity, and is started if it is to go on.
  ghost predicate EditStored(s: State, t: State, id: TaskId, resume: bool, edit: Task) {
    id in s.tasks && exists mid: State ::
      && OnlyTask(s, mid, id) && IsEdited(s.tasks[id], edit, mid.tasks[id], resume)
      && if resume then Attempted(mid, t, id) else t == mid
  }

  lemma {:induction false} EditedIs(original: Task, edit: Task, resume: bool)
    ensures IsEdited(original, edit, EditedTask(original, edit, resume), resume)
  {
  }

  lemma {:induction false} EditStoredWith(s: State, t: State, mid: State, id: TaskId, resume: bool, edit: Task)
    requires id in s.tasks && OnlyTask(s, mid, id) && IsEdited(s.tasks[id], edit, mid.tasks[id], resume)
    requires if resume then Attempted(mid, t, id) else t == mid
    ensures EditStored(s, t, id, resume, edit)
  {
  }

  /** Whatever becomes of its start, the task has the edit's content and its own identity, stands still
      without another error than a missing worker's, and no other task or entry has changed. */
  lemma {:induction false} EditedContent(s: State, t: State, id: TaskId, resume: bool, edit: Task)
    requires EditStored(s, t, id, resume, edit)
    ensures id in t.tasks && SameContent(edit, t.tasks[id]) && SameIdentity(s.tasks[id], t.tasks[id])
    ensures AtStandstill(t.tasks[id]) && t.tasks[id].stage.error == ""
    ensures OthersSame(s, t, id) && SameElse(s, t)
    ensures !resume ==> InStatus(t.tasks[id], Paused) && t.tasks[id].error == "" && t.running == s.running
    ensures resume ==>
              || InStatus(t.tasks[id], Waiting)
              || (InStatus(t.tasks[id], Running) && id in t.running && !t.running[id].cancelled)
              || (t.tasks[id].status == Failed && s.tasks[id].packId !in s.registered)
  {
    hide CanStart;
    var mid: State :| OnlyTask(s, mid, id) && IsEdited(s.tasks[id], edit, mid.tasks[id], resume)
                      && if resume then Attempted(mid, t, id) else t == mid;
  }

  /** EditTask commits: where it applies, the edit is stored, or a failed edit's task goes back in
      line; a task that was not to go on stays as it is. Where it does not apply nothing changes. */
  lemma {:induction false} EditEffect(s: State, id: TaskId, resume: bool, original: Task, epoch: nat, outcome: EditOutcome)
    ensures var t := CommitEdit(s, id, resume, original, epoch, outcome);
            if !(!s.stopping && id in s.tasks && s.pauseEpoch == epoch && s.tasks[id] == original) then t == s
            else match outcome
              case EditFailed => if resume then Woken(s, t, id) else t == s
              case Edited(edit) => EditStored(s, t, id, resume, edit)
  {
    hide Woken, EditStored, ScheduleOne, Attempted, OnlyTask, IsEdited, EditedTask;
    if EditApplies(s, id, original, epoch) {
      match outcome
      case EditFailed => WokenIs(s, id);
      case Edited(edit) =>
        var mid := SetTask(s, id, EditedTask(original, edit, resume));
        OneTask(s, id, EditedTask(original, edit, resume));
        EditedIs(original, edit, resume);
        AttemptEffect(mid, id);
        EditStoredWith(s, CommitEdit(s, id, resume, original, epoch, outcome), mid, id, resume, edit);
    }
  }

  // ---- Workers ----

  // The report's numbers, and its detail, sizes, status and stage state where it has any.
  ghost predicate IsReported(t: Task, u: Update, v: Task) {
    && SameIdentity(t, v) && SameError(t, v) && v.title == t.title && v.url == t.url && v.path == t.path
    && v.stage.config == t.stage.config
    && v.received == v.stage.received == u.received && v.speed == v.stage.speed == u.speed
    && v.progress == v.stage.progress == u.progress
    && (if u.fileSize > 0 then v.fileSize == v.stage.fileSize == u.fileSize
        else v.fileSize == t.fileSize && v.stage.fileSize == t.stage.fileSize)
    && v.detail == (if u.detail != "" then u.detail else t.detail)
    && (if u.status.Some? && Active(t.status) then InStatus(v, u.status.value)
        else v.status == t.status && v.stage.status == t.stage.status)
    && v.usesSlot == (if u.usesSlot.Some? then u.usesSlot.value else t.usesSlot)
    && (forall key :: key in v.stage.state <==> key in t.stage.state || key in u.stageState)
    && (forall key :: key in v.stage.state ==>
          v.stage.state[key] == if key in u.stageState then u.stageState[key] else t.stage.state[key])
  }

  ghost predicate ReportedTo(s: State, t: State, id: TaskId, u: Update) {
    if id !in s.tasks then t == s
    else exists mid: State ::
      && OnlyTask(s, mid, id) && IsReported(s.tasks[id], u, mid.tasks[id])
      && if s.tasks[id].usesSlot && !mid.tasks[id].usesSlot then Passed(mid, t)
         else if !s.tasks[id].usesSlot && mid.tasks[id].usesSlot then Enforced(mid, t)
         else t == mid
  }

  lemma {:induction false} ReportedWith(s: State, t: State, mid: State, id: TaskId, u: Update)
    requires id in s.tasks && OnlyTask(s, mid, id) && IsReported(s.tasks[id], u, mid.tasks[id])
    requires if s.tasks[id].usesSlot && !mid.tasks[id].usesSlot then Passed(mid, t)
             else if !s.tasks[id].usesSlot && mid.tasks[id].usesSlot then Enforced(mid, t) else t == mid
    ensures ReportedTo(s, t, id, u)
  {
  }

  lemma {:induction false} ReportedIs(t: Task, u: Update)
    ensures IsReported(t, u, Reported(t, u))
  {
  }

  lemma {:induction false} ReportSound(s: State, id: TaskId, u: Update)
    requires Good(s) && id in s.tasks && (u.status.Some? ==> Active(u.status.value))
    ensures Sound(SetTask(s, id, Reported(s.tasks[id], u)))
  {
    hide Sound;
    TaskFacts(s, id);
    TaskReplaced(s, id, Reported(s.tasks[id], u));
  }

  /** A report: its numbers go into the task, and a slot given up or taken sets off a pass or the
      limit check. */
  lemma {:induction false} ReportEffect(s: State, id: TaskId, u: Update)
    requires Good(s) && (u.status.Some? ==> Active(u.status.value))
    ensures ReportedTo(s, Report(s, id, u), id, u)
  {
    if id in s.tasks {
      hide Passed, Enforced, ReportedTo, OnlyTask, IsReported, Reported, Good, Enforce, ScheduleWaiting;
      var v := Reported(s.tasks[id], u);
      var mid := SetTask(s, id, v);
      OneTask(s, id, v);
      ReportedIs(s.tasks[id], u);
      ReportSound(s, id, u);
      PassEffect(mid);
      EnforceEffect(mid);
      ReportedWith(s, Report(s, id, u), mid, id, u);
    }
  }

  // The outcome's mark on the task.
  predicate IsEnded(t: Task, o: Outcome, u: Task) {
    match o
    case Succeeded => IsCompleted(t, u)
    case WasCanceled => if Active(t.status) then IsPut(t, u, Paused) else u == t
    case Broke(e) => IsBroken(t, u, e)
  }

  // The goroutine is done, its entry gone and its task marked.
  ghost predicate ReturnedFrom(s: State, mid: State, w: nat, o: Outcome)
    requires w < |s.workers|
  {
    var id := s.workers[w].id;
    && mid.workers == s.workers[w := Worker(id, Finished)] && mid.running == s.running - {id} && SameElse(s, mid)
    && mid.tasks - {id} == s.tasks - {id} && (id in mid.tasks <==> id in s.tasks)
    && (id in s.tasks && id in mid.tasks ==> IsEnded(s.tasks[id], o, mid.tasks[id]))
  }

  ghost predicate ExitedFrom(s: State, t: State, w: nat, o: Outcome)
    requires w < |s.workers|
  {
    exists mid: State :: ReturnedFrom(s, mid, w, o) && if s.workers[w].id in s.tasks then Passed(mid, t) else t == mid
  }

  lemma {:induction false} EndedIs(t: Task, o: Outcome)
    ensures IsEnded(t, o, Ended(t, o))
  {
  }

  // A pass leaves alone what is not in line.
  lemma {:induction false} PassSkips(s: State, t: State, id: TaskId)
    requires Passed(s, t) && id in s.tasks && s.tasks[id].status != Waiting
    ensures id in t.tasks && t.tasks[id] == s.tasks[id] && (id !in s.running ==> id !in t.running)
  {
    hide Conserving, NewWorkers;
  }

  lemma {:induction false} EndedStatus(t: Task, o: Outcome, u: Task)
    requires IsEnded(t, o, u)
    ensures u.status == Waiting ==> o.WasCanceled? && t.status == Waiting
  {
  }

  /** A worker returns: its goroutine is finished and its entry gone; its task is Completed, Failed with
      the error, or, if it was active when it was cancelled, Paused; and a pass follows. */
  lemma {:induction false} ExitEffect(s: State, w: nat, o: Outcome)
    requires w < |s.workers|
    ensures var t, id := Exit(s, w, o), s.workers[w].id;
            && ExitedFrom(s, t, w, o)
            && (id in s.tasks && !(o.WasCanceled? && s.tasks[id].status == Waiting) ==>
                  id in t.tasks && id !in t.running && IsEnded(s.tasks[id], o, t.tasks[id]))
  {
    hide Passed, ScheduleWaiting, IsEnded, Ended;
    var mid, id := Unregistered(s, w, o), s.workers[w].id;
    assert ReturnedFrom(s, mid, w, o) by {
      if id in s.tasks { EndedIs(s.tasks[id], o); }
    }
    if id in s.tasks {
      PassEffect(mid);
      EndedStatus(s.tasks[id], o, mid.tasks[id]);
      if mid.tasks[id].status != Waiting { PassSkips(mid, Exit(s, w, o), id); }
    }
  }

  /** A goroutine begins: it is inside Run, or finished at once when its task is gone. */
  lemma {:induction false} BeginRunEffect(s: State, w: nat)
    requires w < |s.workers|
    ensures var t, id := BeginRun(s, w), s.workers[w].id;
            t == s.(workers := t.workers) && t.workers == s.workers[w := Worker(id, if id in s.tasks then InRun else Finished)]
  {
  }

  // ---- The machine's steps ----

  function WorkerOf(s: State, id: TaskId): Option<nat> {
    if id in s.running then Some(s.running[id].worker) else None
  }

  // What each step does to the state, to the lock and to the edit in progress.
  ghost predicate Does(m: Machine, step: Step, n: Machine)
    requires Enabled(m, step)
  {
    var s, t := m.s, n.s;
    match step
    case LoadStep(stored, fs) => n == m.(s := t) && LoadedFrom(s, t, stored, fs)
    case SetMaxStep(k) => n == m.(s := t) && MaxSet(s, t, k)
    case AddStep(task, fs) => n == m.(s := t) && Added(s, t, task, Prepare(task, ReservedOutputs(s), fs))
    case ToggleStep(id) => n == m.(s := t) && Toggled(s, t, id)
    case StartAllStep => n == m.(s := t) && StartedAll(s, t)
    case PauseAllStep => n == m.(s := t) && PausedAll(s, t)
    case RemoveStep(id) => n == m.(s := t) && Removed(s, t, id)
    case RedownloadBegin(id) =>
      && n == m.(s := t, lock := RedownloadDraining(id, WorkerOf(s, id)))
      && if id in s.running then Interrupted(s, t, id) && IsPut(s.tasks[id], t.tasks[id], Paused) else t == s
    case RedownloadRead => n == m.(lock := if m.lock.id in s.tasks then RedownloadReady(m.lock.id, m.lock.done) else Free)
    case RedownloadFail => n == m.(lock := Free)
    case RedownloadCommit(reset) => n == m.(s := t, lock := Free) && Restarted(s, t, m.lock.id, reset)
    case EditBegin(id) =>
      && n == m.(s := t, editor := Draining,
                 lock := EditDraining(id, s.tasks[id].status !in {Paused, Canceled}, WorkerOf(s, id)))
      && if id in s.running then Interrupted(s, t, id) && IsPaused(s.tasks[id], t.tasks[id]) else t == s
    case EditRead =>
      n == m.(lock := Free,
              editor := if s.stopping || m.lock.id !in s.tasks then Idle
                        else Editing(m.lock.id, m.lock.resume, s.tasks[m.lock.id], s.pauseEpoch))
    case EditCommit(outcome) =>
      var e := m.editor;
      && n == m.(s := t, editor := Idle)
      && if s.stopping || e.id !in s.tasks || s.pauseEpoch != e.epoch || s.tasks[e.id] != e.original then t == s
         else if outcome.Edited? then EditStored(s, t, e.id, e.resume, outcome.task)
         else if e.resume then Woken(s, t, e.id)
         else t == s
    case StopBegin =>
      n == m.(s := t, lock := StopDraining(s.tasks.Keys, set id | id in s.running :: s.running[id].worker)) && StopBegun(s, t)
    case StopEnd => n == m.(s := t, lock := Free) && SavedIn(s, t)
    case TimerStep => n == m.(s := t) && if s.stopping then t == s else SavedIn(s, t)
    case WorkerBegin(w) =>
      var id := s.workers[w].id;
      && n == m.(s := t)
      && t == s.(workers := s.workers[w := Worker(id, if id in s.tasks then InRun else Finished)])
    case WorkerReport(w, u) => n == m.(s := t) && ReportedTo(s, t, s.workers[w].id, u)
    case WorkerExit(w, o) => n == m.(s := t) && ExitedFrom(s, t, w, o)
  }

  /** Every step does what its operation is for. */
  lemma {:induction false} StepDoes(m: Machine, step: Step)
    requires Good(m.s) && m.s.pauseEpoch < EPOCHS && Enabled(m, step)
    ensures Does(m, step, Apply(m, step))
  {
    hide Good, LoadedFrom, MaxSet, Added, Toggled, StartedAll, PausedAll, Removed, Interrupted, IsPut, IsPaused, Restarted, Woken,
         EditStored, StopBegun, SavedIn, ReportedTo, ExitedFrom, ScheduleOne, ScheduleWaiting;
    hide Load, SetMax, AddTask, Toggle, StartEvery, PauseEvery, RemoveTask, BeginRedownload, CommitRedownload, BeginEdit, CommitEdit,
         BeginStop, Save, TimerSave, Report, Exit, Prepare, ReservedOutputs;
    var s := m.s;
    match step
    case LoadStep(stored, fs) => LoadEffect(s, stored, fs);
    case SetMaxStep(k) => SetMaxEffect(s, k);
    case AddStep(task, fs) => AddEffect(s, task, fs);
    case ToggleStep(id) => ToggleEffect(s, id);
    case StartAllStep => StartAllEffect(s);
    case PauseAllStep => PauseAllEffect(s);
    case RemoveStep(id) => RemoveEffect(s, id);
    case RedownloadBegin(id) => RedownloadBeginEffect(s, id);
    case RedownloadRead =>
    case RedownloadFail =>
    case RedownloadCommit(reset) => RedownloadEffect(s, m.lock.id, reset);
    case EditBegin(id) => EditBeginEffect(s, id);
    case EditRead =>
    case EditCommit(outcome) => EditEffect(s, m.editor.id, m.editor.resume, m.editor.original, m.editor.epoch, outcome);
    case StopBegin => StopEffect(s);
    case StopEnd => SaveEffect(s);
    case TimerStep => SaveEffect(s);
    case WorkerBegin(w) => BeginRunEffect(s, w);
    case WorkerReport(w, u) => ReportEffect(s, s.workers[w].id, u);
    case WorkerExit(w, o) => ExitEffect(s, w, o);
  }
}
