/** FTP directory tasks granted an output never share it, and a saved list reloads unmoved. */
module SchedulerOutputs {
  import opened Options
  import opened Tasks
  import opened SchedulerState
  import opened SchedulerInvariant
  import opened SchedulerSteps
  import opened SchedulerMachine

  // Every granted task's output differs, ignoring case, from the output of all earlier tasks.
  ghost predicate Apart(ids: seq<TaskId>, tasks: map<TaskId, Task>, accepted: set<TaskId>) {
    forall i, j :: 0 <= i < j < |ids| && ids[i] in tasks && ids[j] in tasks && ids[j] in accepted ==>
      Fold(OutputFile(tasks[ids[i]])) != Fold(OutputFile(tasks[ids[j]]))
  }

  ghost predicate Granted(tasks: map<TaskId, Task>, accepted: set<TaskId>) {
    forall id :: id in tasks && id in accepted ==> IsFtpDirectory(tasks[id]) && !Escapes(OutputName(tasks[id]))
  }

  ghost predicate OutputsApart(s: State) {
    Apart(s.order, s.tasks, s.accepted) && Granted(s.tasks, s.accepted) && s.accepted <= s.seen
  }

  // The steps this property is about leave existing outputs alone.
  ghost predicate SameOutputs(s: State, t: State) {
    && t.order == s.order && t.accepted == s.accepted && t.seen == s.seen && t.tasks.Keys == s.tasks.Keys
    && forall id :: id in s.tasks ==> OutputKey(t.tasks[id]) == OutputKey(s.tasks[id])
  }

  lemma {:induction false} SameOutputsKeep(s: State, t: State)
    requires OutputsApart(s) && SameOutputs(s, t)
    ensures OutputsApart(t)
  {
  }

  lemma {:induction false} SettingsKeepOutput(t: Task, u: Task)
    requires SameSettings(t, u)
    ensures OutputKey(t) == OutputKey(u)
  {
  }

  lemma {:induction false} ExtendsOutputs(s: State, t: State)
    requires SameFrame(s, t)
    ensures SameOutputs(s, t)
  {
    hide OutputKey;
    forall id | id in s.tasks
      ensures OutputKey(t.tasks[id]) == OutputKey(s.tasks[id])
    {
      SettingsKeepOutput(s.tasks[id], t.tasks[id]);
    }
  }

  lemma {:induction false} SameOutputsChain(s: State, t: State, u: State)
    requires SameOutputs(s, t) && SameOutputs(t, u)
    ensures SameOutputs(s, u)
  {
    hide OutputKey;
  }

  lemma {:induction false} SetTaskOutputs(s: State, t: State, id: TaskId, u: Task)
    requires id in s.tasks && OutputKey(u) == OutputKey(s.tasks[id])
    requires t.tasks == s.tasks[id := u] && t.order == s.order && t.accepted == s.accepted && t.seen == s.seen
    ensures SameOutputs(s, t)
  {
    hide OutputKey;
  }

  lemma {:induction false} PassOutputs(s: State, t: State, id: TaskId)
    requires SameOutputs(s, t)
    ensures SameOutputs(s, ScheduleWaiting(t)) && SameOutputs(s, ScheduleOne(t, id))
  {
    hide OutputKey, SameFrame, ScheduleAll, ScheduleOne;
    PassExtends(t, t.order);
    AttemptExtends(t, id, ScheduleOne(t, id)) by { AttemptMade(t, id); }
    ExtendsOutputs(t, ScheduleWaiting(t));
    ExtendsOutputs(t, ScheduleOne(t, id));
    SameOutputsChain(s, t, ScheduleWaiting(t));
    SameOutputsChain(s, t, ScheduleOne(t, id));
  }

  // ---- Growing and shrinking the list ----

  lemma {:induction false} AppendedApart(s: State, t: Task, granted: bool)
    requires OutputsApart(s) && Unknown(s, t.id) && Good(s)
    requires granted ==> IsFtpDirectory(t) && !Escapes(OutputName(t)) && Fold(OutputFile(t)) !in ReservedOutputs(s)
    ensures var s1 := Append(s, t); OutputsApart(if granted then s1.(accepted := s1.accepted + {t.id}) else s1)
  {
    hide Fold, Attached, Agreement, LiveSlots;
    var s1 := Append(s, t);
    var acc := if granted then s.accepted + {t.id} else s.accepted;
    assert t.id !in Members(s.order);
    forall i, j | 0 <= i < j < |s1.order| && s1.order[j] in acc
      ensures Fold(OutputFile(s1.tasks[s1.order[i]])) != Fold(OutputFile(s1.tasks[s1.order[j]]))
    {
      assert s.order[i] in Members(s.order);
      if j < |s.order| {
        assert s.order[j] in Members(s.order);
      } else {
        assert Fold(OutputFile(s.tasks[s.order[i]])) in ReservedOutputs(s);
      }
    }
  }

  lemma {:induction false} WithoutApart(ids: seq<TaskId>, id: TaskId, tasks: map<TaskId, Task>, accepted: set<TaskId>)
    requires Apart(ids, tasks, accepted)
    ensures Apart(Without(ids, id), tasks, accepted)
    ensures forall k :: k in Without(ids, id) ==> k in ids
  {
    hide Fold, OutputFile;
    if ids != [] {
      WithoutApart(ids[1..], id, tasks, accepted);
      var w := Without(ids[1..], id);
      if ids[0] != id {
        var x := ids[0];
        forall j | 0 <= j < |w| && x in tasks && w[j] in tasks && w[j] in accepted
          ensures Fold(OutputFile(tasks[x])) != Fold(OutputFile(tasks[w[j]]))
        {
          assert w[j] in w;
          var k :| 0 <= k < |ids[1..]| && ids[1..][k] == w[j];
          assert ids[k + 1] == w[j];
        }
      }
    }
  }

  lemma {:induction false} AcceptedOutput(t: Task, reserved: set<Path>, fs: FileSystem)
    requires IsFtpDirectory(t) && Prepare(t, reserved, fs).Accepted?
    ensures var p := Prepare(t, reserved, fs).task;
            IsFtpDirectory(p) && !Escapes(OutputName(p)) && Fold(OutputFile(p)) !in reserved
  {
    var p := Prepare(t, reserved, fs).task;
    PrepareIsExclusive(t, reserved, fs);
    if p != t {
      assert OutputName(p)[0] == 'f';
    }
  }

  lemma {:induction false} NotDirectory(t: Task, reserved: set<Path>, fs: FileSystem)
    requires !IsFtpDirectory(t)
    ensures Prepare(t, reserved, fs) == Accepted(t)
  {
  }

  lemma {:induction false} GrantedApart(s: State, t: Task, fs: FileSystem, p: Task)
    requires Good(s) && OutputsApart(s) && Unknown(s, t.id)
    requires Prepare(t, ReservedOutputs(s), fs).Accepted?
    requires p.id == t.id && OutputKey(p) == OutputKey(Prepare(t, ReservedOutputs(s), fs).task)
    ensures OutputsApart(Grant(Append(s, p), p))
  {
    hide Prepare, ReservedOutputs, Good, OutputsApart, Fold, Append;
    if IsFtpDirectory(t) {
      AcceptedOutput(t, ReservedOutputs(s), fs);
    } else {
      NotDirectory(t, ReservedOutputs(s), fs);
    }
    AppendedApart(s, p, IsFtpDirectory(p));
  }

  lemma {:induction false} SameSelf(s: State)
    ensures SameOutputs(s, s)
  {
  }

  lemma {:induction false} AddApart(s: State, t: Task, fs: FileSystem)
    requires Good(s) && OutputsApart(s) && Unknown(s, t.id)
    ensures OutputsApart(AddTask(s, t, fs))
  {
    hide Prepare, ReservedOutputs, Good, OutputsApart, ScheduleOne, Append, Grant;
    match Prepare(t, ReservedOutputs(s), fs)
    case Rejected(reason) =>
      AppendedApart(s, t.(status := Failed, error := reason, stage := t.stage.(status := Failed, error := reason)), false);
    case Accepted(p0) =>
      PreparedStatus(t, ReservedOutputs(s), fs);
      var p := if t.status == Waiting && p0.status == Paused then WithStatus(p0, Waiting) else p0;
      GrantedApart(s, t, fs, p);
      var s1 := Grant(Append(s, p), p);
      SameSelf(s1);
      PassOutputs(s1, s1, p.id);
      SameOutputsKeep(s1, ScheduleOne(s1, p.id));
  }

  lemma {:induction false} RestedApart(s: State, ts: seq<Task>, fs: FileSystem)
    requires Good(s) && OutputsApart(s) && AllUnknown(s, ts) && ts != []
    requires Prepare(ts[0], ReservedOutputs(s), fs).Accepted?
    ensures var p := Prepare(ts[0], ReservedOutputs(s), fs).task;
            OutputsApart(Grant(Append(s, Rested(p)), p))
  {
    hide Prepare, ReservedOutputs, Good, OutputsApart;
    PreparedStatus(ts[0], ReservedOutputs(s), fs);
    var p := Prepare(ts[0], ReservedOutputs(s), fs).task;
    GrantedApart(s, ts[0], fs, Rested(p));
    assert Grant(Append(s, Rested(p)), p) == Grant(Append(s, Rested(p)), Rested(p));
  }

  lemma {:induction false} NotLoaded(s: State)
    requires OutputsApart(s)
    ensures OutputsApart(s.(loadFailed := true))
  {
  }

  lemma {:induction false} LoadApart(s: State, ts: seq<Task>, fs: FileSystem)
    requires Good(s) && OutputsApart(s) && AllUnknown(s, ts)
    ensures OutputsApart(LoadTasks(s, ts, fs))
    decreases ts
  {
    hide Prepare, ReservedOutputs, Good, OutputsApart, AllUnknown, Append, Grant, Rested;
    if ts != [] {
      match Prepare(ts[0], ReservedOutputs(s), fs)
      case Rejected(_) =>
        NotLoaded(s);
      case Accepted(p) =>
        LoadedOne(s, ts, fs);
        RestedApart(s, ts, fs);
        LoadApart(Grant(Append(s, Rested(p)), p), ts[1..], fs);
    }
  }

  // ---- Steps ----

  ghost predicate SameNames(state: map<string, string>, other: map<string, string>) {
    Lookup(state, "directory") == Lookup(other, "directory") && Lookup(state, OUTPUT_NAME_KEY) == Lookup(other, OUTPUT_NAME_KEY)
  }

  // Edits leave path, title and output name alone, and neither reports nor resets touch the
  // state entries that decide the output.
  ghost predicate KeepsOutput(m: Machine, step: Step) {
    && (step.EditCommit? && step.outcome.Edited? && m.editor.Editing? ==>
          OutputKey(EditedTask(m.editor.original, step.outcome.task, m.editor.resume)) == OutputKey(m.editor.original))
    && (step.WorkerReport? ==> "directory" !in step.update.stageState && OUTPUT_NAME_KEY !in step.update.stageState)
    && (step.RedownloadCommit? && m.lock.RedownloadReady? && m.lock.id in m.s.tasks ==>
          SameNames(step.reset.stage.state, m.s.tasks[m.lock.id].stage.state))
  }

  lemma {:induction false} ReportOutputs(s: State, id: TaskId, u: Update)
    requires Good(s) && (u.status.Some? ==> Active(u.status.value))
    requires "directory" !in u.stageState && OUTPUT_NAME_KEY !in u.stageState
    ensures SameOutputs(s, Report(s, id, u))
  {
    hide ScheduleAll, Listing, Agreement, Attached, LiveSlots, EnforceFrom, SlotCount;
    if id in s.tasks {
      var s1 := SetTask(s, id, Reported(s.tasks[id], u));
      SetTaskOutputs(s, s1, id, Reported(s.tasks[id], u));
      PassOutputs(s, s1, id);
      TaskFacts(s, id);
      TaskReplaced(s, id, Reported(s.tasks[id], u));
      EnforcedAll(s1);
      ExtendsOutputs(s1, Enforce(s1));
      SameOutputsChain(s, s1, Enforce(s1));
    }
  }

  lemma {:induction false} EndedOutput(t: Task, o: Outcome)
    ensures OutputKey(Ended(t, o)) == OutputKey(t)
  {
  }

  lemma {:induction false} ExitOutputs(s: State, w: nat, o: Outcome)
    requires w < |s.workers|
    ensures SameOutputs(s, Exit(s, w, o))
  {
    hide ScheduleAll, OutputKey;
    var s1 := Unregistered(s, w, o);
    var id := s.workers[w].id;
    if id in s.tasks {
      EndedOutput(s.tasks[id], o);
      SetTaskOutputs(s, s1, id, Ended(s.tasks[id], o));
      PassOutputs(s, s1, id);
    }
  }

  lemma {:induction false} SetMaxOutputs(s: State, n: int)
    requires Good(s)
    ensures SameOutputs(s, SetMax(s, n))
  {
    hide ScheduleAll, Enforce, Listing, Agreement, Attached, LiveSlots;
    var s1 := s.(maxRunning := if n <= 0 then 1 else n);
    EnforcedAll(s1);
    ExtendsOutputs(s1, Enforce(s1));
    SameOutputsChain(s, s1, Enforce(s1));
    PassOutputs(s, Enforce(s1), TaskId(""));
  }

  lemma {:induction false} FewerApart(ids: seq<TaskId>, tasks: map<TaskId, Task>, fewer: map<TaskId, Task>, accepted: set<TaskId>)
    requires Apart(ids, tasks, accepted)
    requires forall id :: id in fewer ==> id in tasks && fewer[id] == tasks[id]
    ensures Apart(ids, fewer, accepted)
  {
  }

  lemma {:induction false} RemoveApart(s: State, id: TaskId)
    requires OutputsApart(s)
    ensures OutputsApart(RemoveTask(s, id))
  {
    hide ScheduleAll, Apart, Fold;
    if id in s.tasks {
      var t := Dropped(s, id);
      WithoutApart(s.order, id, s.tasks, s.accepted);
      FewerApart(t.order, s.tasks, t.tasks, s.accepted);
      assert OutputsApart(t);
      SameSelf(t);
      PassOutputs(t, t, id);
      SameOutputsKeep(t, ScheduleWaiting(t));
    }
  }

  lemma {:induction false} LocklessApart(m: Machine, step: Step)
    requires Good(m.s) && OutputsApart(m.s) && Enabled(m, step) && KeepsOutput(m, step) && Lockless(step)
    ensures OutputsApart(Apply(m, step).s)
  {
    hide Good, SameOutputs, Apart, Granted, AddTask, LoadTasks, Report, Exit, SetMax, RemoveTask;
    var s := m.s;
    match step
    case LoadStep(stored, fs) =>
      if s.hasStore && stored.Read? {
        GoodIgnores(s, s.(loadFailed := false));
        LoadApart(s.(loadFailed := false), stored.tasks, fs);
      }
    case SetMaxStep(n) => SetMaxOutputs(s, n); SameOutputsKeep(s, SetMax(s, n));
    case AddStep(t, fs) => AddApart(s, t, fs);
    case RemoveStep(id) => RemoveApart(s, id);
    case TimerStep =>
    case WorkerBegin(w) =>
    case WorkerReport(w, u) => ReportOutputs(s, s.workers[w].id, u); SameOutputsKeep(s, Report(s, s.workers[w].id, u));
    case WorkerExit(w, o) => ExitOutputs(s, w, o); SameOutputsKeep(s, Exit(s, w, o));
  }

  lemma {:induction false} ToggleOutputs(s: State, id: TaskId)
    ensures SameOutputs(s, Toggle(s, id))
  {
    hide ScheduleOne;
    if id in s.tasks {
      var t := s.tasks[id];
      if Active(t.status) && id in s.running {
        SetTaskOutputs(s, PauseAndCancel(s, id), id, Stopped(t));
      } else {
        SetTaskOutputs(s, SetTask(s, id, Stopped(t)), id, Stopped(t));
        SetTaskOutputs(s, SetTask(s, id, WithStatus(t, Waiting)), id, WithStatus(t, Waiting));
        PassOutputs(s, SetTask(s, id, WithStatus(t, Waiting)), id);
        SameSelf(s);
      }
    } else {
      SameSelf(s);
    }
  }

  lemma {:induction false} CommitEditOutputs(m: Machine, outcome: EditOutcome)
    requires Enabled(m, EditCommit(outcome)) && KeepsOutput(m, EditCommit(outcome))
    ensures SameOutputs(m.s, Apply(m, EditCommit(outcome)).s)
  {
    hide ScheduleOne;
    var s, e := m.s, m.editor;
    if EditApplies(s, e.id, e.original, e.epoch) {
      var t := if outcome.Edited? then EditedTask(e.original, outcome.task, e.resume) else WithStatus(e.original, Waiting);
      SetTaskOutputs(s, SetTask(s, e.id, t), e.id, t);
      PassOutputs(s, SetTask(s, e.id, t), e.id);
    }
  }

  lemma {:induction false} CommitRedownloadOutputs(s: State, id: TaskId, reset: Task)
    requires id in s.tasks ==> SameNames(reset.stage.state, s.tasks[id].stage.state)
    ensures SameOutputs(s, CommitRedownload(s, id, reset))
  {
    hide ScheduleAll;
    if id in s.tasks {
      var t := Rewound(s.tasks[id], reset);
      SetTaskOutputs(s, SetTask(s, id, t), id, t);
      PassOutputs(s, SetTask(s, id, t), id);
    }
  }

  lemma {:induction false} WholesaleOutputs(s: State, t: State)
    requires t.order == s.order && t.accepted == s.accepted && t.seen == s.seen && t.tasks.Keys == s.tasks.Keys
    requires forall id :: id in s.tasks ==>
               t.tasks[id] == s.tasks[id] || t.tasks[id] == Stopped(s.tasks[id]) || t.tasks[id] == WithStatus(s.tasks[id], Waiting)
               || t.tasks[id] == WithStatus(s.tasks[id], Paused)
    ensures SameOutputs(s, t)
  {
  }

  lemma {:induction false} StartEveryOutputs(s: State)
    ensures SameOutputs(s, StartEvery(s))
  {
    hide SameOutputs, ScheduleAll;
    var s1 := s.(tasks := AllWaiting(s.tasks));
    WholesaleOutputs(s, s1);
    PassOutputs(s, s1, TaskId(""));
  }

  lemma {:induction false} PauseOutputs(s: State, id: TaskId)
    ensures SameOutputs(s, BeginRedownload(s, id)) && SameOutputs(s, BeginEdit(s, id))
  {
    hide SameOutputs, Stopped, WithStatus;
    WholesaleOutputs(s, BeginRedownload(s, id));
    WholesaleOutputs(s, BeginEdit(s, id));
  }

  lemma {:induction false} PauseEveryOutputs(s: State)
    ensures SameOutputs(s, PauseEvery(s))
  {
    hide SameOutputs, Stopped, WithStatus;
    WholesaleOutputs(s, PauseEvery(s));
  }

  lemma {:induction false} BeginStopOutputs(s: State)
    ensures SameOutputs(s, BeginStop(s))
  {
    hide SameOutputs, Stopped, WithStatus;
    WholesaleOutputs(s, BeginStop(s));
  }

  lemma {:induction false} SaveOutputs(s: State)
    ensures SameOutputs(s, Save(s))
  {
  }

  lemma {:induction false} LockOutputs(m: Machine, step: Step)
    requires Enabled(m, step) && KeepsOutput(m, step) && !Lockless(step)
    ensures SameOutputs(m.s, Apply(m, step).s)
  {
    hide SameOutputs, Toggle, StartEvery, PauseEvery, BeginStop, BeginRedownload, BeginEdit, CommitRedownload, Save;
    var s := m.s;
    match step
    case ToggleStep(id) => ToggleOutputs(s, id);
    case StartAllStep => StartEveryOutputs(s);
    case PauseAllStep => PauseEveryOutputs(s);
    case StopBegin => BeginStopOutputs(s);
    case RedownloadBegin(id) => PauseOutputs(s, id);
    case EditBegin(id) => PauseOutputs(s, id);
    case RedownloadCommit(reset) => CommitRedownloadOutputs(s, m.lock.id, reset);
    case EditCommit(outcome) => CommitEditOutputs(m, outcome);
    case StopEnd => SaveOutputs(s);
    case _ => SameSelf(s);
  }

  lemma {:induction false} LockApart(m: Machine, step: Step)
    requires OutputsApart(m.s) && Enabled(m, step) && KeepsOutput(m, step) && !Lockless(step)
    ensures OutputsApart(Apply(m, step).s)
  {
    hide OutputsApart, SameOutputs, Enabled, Apply, KeepsOutput;
    LockOutputs(m, step);
    SameOutputsKeep(m.s, Apply(m, step).s);
  }

  ghost predicate OutputKeeping(m: Machine, steps: seq<Step>)
    requires Runs(m, steps)
    decreases steps
  {
    steps == [] || (KeepsOutput(m, steps[0]) && OutputKeeping(Apply(m, steps[0]), steps[1..]))
  }

  lemma {:induction false} RunApart(m: Machine, steps: seq<Step>)
    requires MachineInv(m) && OutputsApart(m.s) && Runs(m, steps) && Careful(m, steps) && OutputKeeping(m, steps)
    ensures OutputsApart(End(m, steps).s) && MachineInv(End(m, steps))
    decreases steps
  {
    hide Good, LockInv, EditorInv, OutputsApart, Enabled, Apply, Disciplined, KeepsOutput;
    if steps != [] {
      if Lockless(steps[0]) { LocklessApart(m, steps[0]); } else { LockApart(m, steps[0]); }
      StepKeeps(m, steps[0]);
      RunApart(Apply(m, steps[0]), steps[1..]);
    }
  }

  lemma {:induction false} InitialApart(max: int, registered: set<string>, hasStore: bool)
    ensures OutputsApart(Initial(max, registered, hasStore).s)
  {
  }

  lemma {:induction false} PairApart(s: State, a: TaskId, b: TaskId)
    requires Good(s) && OutputsApart(s)
    requires a in s.tasks && b in s.tasks && a in s.accepted && b in s.accepted && a != b
    ensures Fold(OutputFile(s.tasks[a])) != Fold(OutputFile(s.tasks[b]))
  {
    hide Agreement, Attached, Remembered, LiveSlots, OutputFile, Fold;
    assert a in Members(s.order) && b in Members(s.order);
    var i :| 0 <= i < |s.order| && s.order[i] == a;
    var j :| 0 <= j < |s.order| && s.order[j] == b;
    assert i < j || j < i;
  }

  /** In every reachable state any two FTP directory tasks that were granted an output have outputs
      that differ ignoring case. */
  lemma {:induction false} GrantedOutputsDiffer(max: int, registered: set<string>, hasStore: bool, steps: seq<Step>, a: TaskId, b: TaskId)
    requires Runs(Initial(max, registered, hasStore), steps)
    requires Careful(Initial(max, registered, hasStore), steps)
    requires OutputKeeping(Initial(max, registered, hasStore), steps)
    requires var s := End(Initial(max, registered, hasStore), steps).s;
             a in s.tasks && b in s.tasks && a in s.accepted && b in s.accepted && a != b
    ensures var s := End(Initial(max, registered, hasStore), steps).s;
            Fold(OutputFile(s.tasks[a])) != Fold(OutputFile(s.tasks[b]))
  {
    hide OutputsApart, OutputFile, Fold, LockInv, EditorInv, Listing, Agreement, Attached, Remembered, LiveSlots;
    var m := Initial(max, registered, hasStore);
    InitialHolds(max, registered, hasStore);
    InitialApart(max, registered, hasStore);
    RunApart(m, steps);
    PairApart(End(m, steps).s, a, b);
  }

  // ---- Reloading a saved list ----

  ghost predicate Settled(t: Task, fs: FileSystem) {
    IsFtpDirectory(t) ==> !Escapes(OutputName(t)) && VerifyOwner(fs, OutputFile(t), t.id)
  }

  ghost predicate ListApart(ts: seq<Task>) {
    forall i, j :: 0 <= i < j < |ts| && IsFtpDirectory(ts[j]) ==> Fold(OutputFile(ts[i])) != Fold(OutputFile(ts[j]))
  }

  ghost predicate ClearOf(ts: seq<Task>, reserved: set<Path>) {
    forall j :: 0 <= j < |ts| && IsFtpDirectory(ts[j]) ==> Fold(OutputFile(ts[j])) !in reserved
  }

  lemma {:induction false} SettledStays(t: Task, reserved: set<Path>, fs: FileSystem)
    requires Settled(t, fs) && (IsFtpDirectory(t) ==> Fold(OutputFile(t)) !in reserved)
    ensures Prepare(t, reserved, fs) == Accepted(t)
  {
  }

  // A list that reloads unmoved behind the tasks of s.
  ghost predicate Reloadable(s: State, ts: seq<Task>, fs: FileSystem) {
    && AllUnknown(s, ts) && Remembered(s.tasks, s.running, s.seen)
    && (forall k :: 0 <= k < |ts| ==> Settled(ts[k], fs))
    && ListApart(ts) && ClearOf(ts, ReservedOutputs(s))
  }

  function Ids(ts: seq<Task>): seq<TaskId> {
    if ts == [] then [] else [ts[0].id] + Ids(ts[1..])
  }

  ghost predicate Reloaded(s: State, ts: seq<Task>, t: State) {
    && t.loadFailed == s.loadFailed
    && (forall id :: id in s.tasks ==> id in t.tasks && t.tasks[id] == s.tasks[id])
    && (forall k :: 0 <= k < |ts| ==> ts[k].id in t.tasks && t.tasks[ts[k].id] == Rested(ts[k]))
    && t.order == s.order + Ids(ts)
  }

  function LoadOne(s: State, t: Task): State {
    Grant(Append(s, Rested(t)), t)
  }

  lemma {:induction false} LoadsOne(s: State, ts: seq<Task>, fs: FileSystem)
    requires ts != [] && Settled(ts[0], fs) && (IsFtpDirectory(ts[0]) ==> Fold(OutputFile(ts[0])) !in ReservedOutputs(s))
    ensures LoadTasks(s, ts, fs) == LoadTasks(LoadOne(s, ts[0]), ts[1..], fs)
  {
    hide Prepare, Fold, OutputName, OutputFile, Settled, IsFtpDirectory, ReservedOutputs, Append, Grant;
    SettledStays(ts[0], ReservedOutputs(s), fs);
  }

  lemma {:induction false} RestedOutput(t: Task)
    ensures OutputFile(Rested(t)) == OutputFile(t)
  {
  }

  lemma {:induction false} ReservedAfter(s: State, t: Task)
    requires t.id !in s.tasks
    ensures ReservedOutputs(Append(s, t)) == ReservedOutputs(s) + {Fold(OutputFile(t))}
  {
    hide Fold, OutputFile;
    var s1 := Append(s, t);
    forall id | id in s.tasks
      ensures Fold(OutputFile(s.tasks[id])) in ReservedOutputs(s1)
    {
      assert s1.tasks[id] == s.tasks[id];
    }
    assert s1.tasks[t.id] == t;
  }

  lemma {:induction false} ReloadStep(s: State, ts: seq<Task>, fs: FileSystem)
    requires ts != [] && Reloadable(s, ts, fs)
    ensures Reloadable(LoadOne(s, ts[0]), ts[1..], fs)
    ensures LoadTasks(s, ts, fs) == LoadTasks(LoadOne(s, ts[0]), ts[1..], fs)
  {
    hide Prepare, Fold, OutputName, OutputFile, Settled, IsFtpDirectory, LoadTasks;
    var s1 := LoadOne(s, ts[0]);
    var out := Fold(OutputFile(ts[0]));
    RestedOutput(ts[0]);
    ReservedAfter(s, Rested(ts[0]));
    assert ReservedOutputs(s1) == ReservedOutputs(Append(s, Rested(ts[0])));
    assert ClearOf(ts[1..], ReservedOutputs(s) + {out});
    LoadsOne(s, ts, fs);
  }

  lemma {:induction false} LoadOneFacts(s: State, t: Task)
    ensures var s1 := LoadOne(s, t);
            s1.tasks == s.tasks[t.id := Rested(t)] && s1.order == s.order + [t.id] && s1.loadFailed == s.loadFailed
  {
  }

  lemma {:induction false} ReloadedOne(s: State, ts: seq<Task>, t: State)
    requires ts != [] && ts[0].id !in s.tasks && Reloaded(LoadOne(s, ts[0]), ts[1..], t)
    ensures Reloaded(s, ts, t)
  {
    hide LoadOne, Rested;
    LoadOneFacts(s, ts[0]);
    var s1 := LoadOne(s, ts[0]);
    assert s1.order + Ids(ts[1..]) == s.order + Ids(ts);
    forall k | 0 <= k < |ts|
      ensures ts[k].id in t.tasks && t.tasks[ts[k].id] == Rested(ts[k])
    {
      if k > 0 {
        assert ts[1..][k - 1] == ts[k];
      }
    }
  }

  lemma {:induction false} ReloadFrom(s: State, ts: seq<Task>, fs: FileSystem)
    requires Reloadable(s, ts, fs)
    ensures Reloaded(s, ts, LoadTasks(s, ts, fs))
    decreases ts
  {
    hide Prepare, Fold, OutputFile, Settled, ListApart, ClearOf, ReservedOutputs, LoadOne;
    if ts != [] {
      ReloadStep(s, ts, fs);
      ReloadFrom(LoadOne(s, ts[0]), ts[1..], fs);
      ReloadedOne(s, ts, LoadTasks(s, ts, fs));
    }
  }

  lemma {:induction false} NothingReserved(s: State, ts: seq<Task>, fs: FileSystem)
    requires s.tasks == map[] && s.running == map[] && s.seen == {}
    requires forall i, j :: 0 <= i < j < |ts| ==> ts[i].id != ts[j].id
    requires (forall k :: 0 <= k < |ts| ==> Settled(ts[k], fs)) && ListApart(ts)
    ensures Reloadable(s, ts, fs)
  {
    hide Fold, OutputFile, IsFtpDirectory, Settled, ListApart;
    assert ReservedOutputs(s) == {};
  }

  /** Loading into a new scheduler a saved list whose FTP directory outputs are pairwise apart and
      each absent or owned keeps every output where it was, and fails nowhere. */
  lemma {:induction false} ReloadMovesNothing(max: int, registered: set<string>, ts: seq<Task>, fs: FileSystem)
    requires forall i, j :: 0 <= i < j < |ts| ==> ts[i].id != ts[j].id
    requires (forall k :: 0 <= k < |ts| ==> Settled(ts[k], fs)) && ListApart(ts)
    ensures var t := Load(Initial(max, registered, true).s, Read(ts), fs);
            && !t.loadFailed && t.order == Ids(ts)
            && (forall k :: 0 <= k < |ts| ==> ts[k].id in t.tasks && t.tasks[ts[k].id] == Rested(ts[k])
                                              && OutputFile(t.tasks[ts[k].id]) == OutputFile(ts[k]))
  {
    hide Fold, OutputFile, IsFtpDirectory, Settled, ListApart, LoadTasks, Rested, Reloadable, Ids;
    var s := Initial(max, registered, true).s;
    NothingReserved(s, ts, fs);
    assert s.(loadFailed := false) == s;
    ReloadFrom(s, ts, fs);
    assert s.order + Ids(ts) == Ids(ts);
    forall k | 0 <= k < |ts|
      ensures OutputFile(Rested(ts[k])) == OutputFile(ts[k])
    {
      RestedOutput(ts[k]);
    }
  }

  lemma {:induction false} ListedApart(ids: seq<TaskId>, tasks: map<TaskId, Task>, accepted: set<TaskId>)
    requires Apart(ids, tasks, accepted) && (forall id :: id in ids ==> id in tasks)
    requires forall id :: id in ids && IsFtpDirectory(tasks[id]) ==> id in accepted
    ensures ListApart(Listed(tasks, ids))
    ensures |Listed(tasks, ids)| == |ids| && forall k :: 0 <= k < |ids| ==> Listed(tasks, ids)[k] == tasks[ids[k]]
  {
    hide Fold, OutputFile, IsFtpDirectory;
    if ids != [] {
      ListedApart(ids[1..], tasks, accepted);
    }
  }

  /** What a good state saves, all its FTP directory tasks granted, is such a list: saving and
      loading again in the same order relocates nothing. */
  lemma {:induction false} SaveThenLoad(s: State, max: int, fs: FileSystem)
    requires Good(s) && OutputsApart(s)
    requires forall id :: id in s.tasks && IsFtpDirectory(s.tasks[id]) ==>
               id in s.accepted && VerifyOwner(fs, OutputFile(s.tasks[id]), id)
    ensures var t := Load(Initial(max, s.registered, true).s, Read(Listed(s.tasks, s.order)), fs);
            && !t.loadFailed && t.tasks.Keys >= s.tasks.Keys
            && forall id :: id in s.tasks ==> OutputFile(t.tasks[id]) == OutputFile(s.tasks[id])
  {
    hide Fold, Agreement, Attached, LiveSlots, OutputFile, IsFtpDirectory, Load, VerifyOwner;
    assert forall id :: id in s.order ==> id in Members(s.order);
    ListedApart(s.order, s.tasks, s.accepted);
    var ts := Listed(s.tasks, s.order);
    ReloadMovesNothing(max, s.registered, ts, fs);
    var t := Load(Initial(max, s.registered, true).s, Read(ts), fs);
    forall id | id in s.tasks
      ensures id in t.tasks && OutputFile(t.tasks[id]) == OutputFile(s.tasks[id])
    {
      assert id in Members(s.order);
      var k :| 0 <= k < |s.order| && s.order[k] == id;
      assert ts[k].id == id;
    }
  }

  // ---- When a saved list loads at all ----

  // The outputs the first n tasks of a list take when they are loaded in order.
  function TakenBy(ts: seq<Task>, n: nat, fs: FileSystem): set<Path>
    requires n <= |ts|
  {
    if n == 0 then {}
    else
      var before := TakenBy(ts, n - 1, fs);
      match Prepare(ts[n - 1], before, fs)
      case Accepted(p) => before + {Fold(OutputFile(p))}
      case Rejected(_) => before
  }

  ghost predicate Preparable(ts: seq<Task>, k: nat, fs: FileSystem)
    requires k < |ts|
  {
    Prepare(ts[k], TakenBy(ts, k, fs), fs).Accepted?
  }

  lemma {:induction false} PreparedIdentity(t: Task, reserved: set<Path>, fs: FileSystem)
    requires Prepare(t, reserved, fs).Accepted?
    ensures Prepare(t, reserved, fs).task.id == t.id
  {
  }

  lemma {:induction false} TakenStep(ts: seq<Task>, n: nat, fs: FileSystem)
    requires n < |ts|
    ensures match Prepare(ts[n], TakenBy(ts, n, fs), fs)
            case Accepted(p) => TakenBy(ts, n + 1, fs) == TakenBy(ts, n, fs) + {Fold(OutputFile(p))}
            case Rejected(_) => TakenBy(ts, n + 1, fs) == TakenBy(ts, n, fs)
  {
  }

  lemma {:induction false} SameReserved(s: State, t: State)
    requires s.tasks == t.tasks
    ensures ReservedOutputs(s) == ReservedOutputs(t)
  {
  }

  // Loading the tasks from number n on, when s holds the first n as prepared.
  lemma {:induction false} LoadFromIff(s: State, ts: seq<Task>, n: nat, fs: FileSystem)
    requires n <= |ts| && ReservedOutputs(s) == TakenBy(ts, n, fs) && !s.loadFailed
    requires forall i, j :: 0 <= i < j < |ts| ==> ts[i].id != ts[j].id
    requires forall k :: n <= k < |ts| ==> ts[k].id !in s.tasks
    ensures !LoadTasks(s, ts[n..], fs).loadFailed <==> forall k :: n <= k < |ts| ==> Preparable(ts, k, fs)
    decreases |ts| - n
  {
    hide Prepare, Fold, OutputFile, IsFtpDirectory, ReservedOutputs, TakenBy;
    if n < |ts| {
      assert ts[n..][0] == ts[n] && ts[n..][1..] == ts[n + 1..];
      TakenStep(ts, n, fs);
      match Prepare(ts[n], TakenBy(ts, n, fs), fs)
      case Rejected(_) => assert !Preparable(ts, n, fs);
      case Accepted(p) =>
        PreparedIdentity(ts[n], TakenBy(ts, n, fs), fs);
        var s1 := Grant(Append(s, Rested(p)), p);
        RestedOutput(p);
        ReservedAfter(s, Rested(p));
        SameReserved(s1, Append(s, Rested(p)));
        LoadFromIff(s1, ts, n + 1, fs);
        assert Preparable(ts, n, fs);
        if !LoadTasks(s1, ts[n + 1..], fs).loadFailed {
          forall k | n <= k < |ts| ensures Preparable(ts, k, fs) {
            assert k == n || n + 1 <= k;
          }
        }
    }
  }

  lemma {:induction false} ListedFacts(ids: seq<TaskId>, tasks: map<TaskId, Task>)
    requires forall id :: id in ids ==> id in tasks
    ensures |Listed(tasks, ids)| == |ids| && forall k :: 0 <= k < |ids| ==> Listed(tasks, ids)[k] == tasks[ids[k]]
    decreases ids
  {
    if ids != [] { ListedFacts(ids[1..], tasks); }
  }

  lemma {:induction false} NoneTaken(ts: seq<Task>, fs: FileSystem)
    ensures TakenBy(ts, 0, fs) == {}
  {
  }

  // The name an FTP directory task is moved to.
  function Alternate(t: Task): Path {
    t.path + ["ftp-" + t.id.text]
  }

  ghost predicate Fresh(places: seq<Path>, k: nat, p: Path) {
    forall j :: 0 <= j < |places| && j < k ==> Fold(places[j]) != Fold(p)
  }

  // Task number k has its place: its saved output, if that is apart from the places before it and
  // absent or its own; else the alternative, on the same terms, unless it has been moved before.
  ghost predicate Placed(ts: seq<Task>, places: seq<Path>, k: nat, fs: FileSystem)
    requires k < |ts| == |places|
  {
    var t, own := ts[k], OutputFile(ts[k]);
    if !IsFtpDirectory(t) then places[k] == own
    else
      && !Escapes(OutputName(t))
      && if Fresh(places, k, own) && VerifyOwner(fs, own, t.id) then places[k] == own
         else
           && places[k] == Alternate(t) && Fresh(places, k, Alternate(t)) && VerifyOwner(fs, Alternate(t), t.id)
           && Lookup(t.stage.state, OUTPUT_NAME_KEY) == "" && Inspect(fs, own) != Unreadable
  }

  // A place for every saved task.
  ghost predicate Placement(ts: seq<Task>, places: seq<Path>, fs: FileSystem) {
    |places| == |ts| && forall k :: 0 <= k < |ts| ==> Placed(ts, places, k, fs)
  }

  ghost predicate FoldsOf(places: seq<Path>, n: nat, taken: set<Path>) {
    && (forall j :: 0 <= j < |places| && j < n ==> Fold(places[j]) in taken)
    && (forall p :: p in taken ==> exists j :: 0 <= j < |places| && j < n && Fold(places[j]) == p)
  }

  lemma {:induction false} FoldsMore(places: seq<Path>, n: nat, taken: set<Path>)
    requires n < |places| && FoldsOf(places, n, taken)
    ensures FoldsOf(places, n + 1, taken + {Fold(places[n])})
  {
    hide Fold;
    forall p | p in taken + {Fold(places[n])} ensures exists j :: 0 <= j < |places| && j < n + 1 && Fold(places[j]) == p {
      if p in taken { var j :| 0 <= j < |places| && j < n && Fold(places[j]) == p; }
    }
  }

  lemma {:induction false} RelocatedOutput(t: Task)
    requires IsFtpDirectory(t)
    ensures OutputFile(Relocate(t)) == Alternate(t)
  {
    var r := Relocate(t);
    assert Lookup(r.stage.state, "directory") == Lookup(t.stage.state, "directory");
    assert Lookup(r.stage.state, OUTPUT_NAME_KEY) == "ftp-" + t.id.text;
  }

  lemma {:induction false} FreshIff(places: seq<Path>, k: nat, taken: set<Path>, p: Path)
    requires FoldsOf(places, k, taken)
    ensures Fresh(places, k, p) <==> Fold(p) !in taken
  {
    hide Fold;
    if Fold(p) in taken {
      var j :| 0 <= j < |places| && j < k && Fold(places[j]) == Fold(p);
    }
  }

  // Preparing one task against the places before it gives it its place.
  lemma {:induction false} PlacedIff(ts: seq<Task>, places: seq<Path>, k: nat, taken: set<Path>, fs: FileSystem)
    requires k < |ts| == |places| && FoldsOf(places, k, taken)
    ensures Placed(ts, places, k, fs) <==>
              Prepare(ts[k], taken, fs).Accepted? && OutputFile(Prepare(ts[k], taken, fs).task) == places[k]
  {
    var t, own := ts[k], OutputFile(ts[k]);
    FreshIff(places, k, taken, own);
    FreshIff(places, k, taken, Alternate(t));
    hide Fold, Fresh, FoldsOf, Escapes;
    if IsFtpDirectory(t) && Lookup(t.stage.state, OUTPUT_NAME_KEY) == "" {
      assert OutputFile(Relocate(t)) == Alternate(t) by { RelocatedOutput(t); }
    }
  }

  lemma {:induction false} NoFolds(places: seq<Path>)
    ensures FoldsOf(places, 0, {})
  {
  }

  // Up to any number, a placement says what the tasks take.
  lemma {:induction false} PlacementTakes(ts: seq<Task>, places: seq<Path>, n: nat, fs: FileSystem)
    requires n <= |ts| == |places| && forall k :: 0 <= k < n ==> Placed(ts, places, k, fs)
    ensures FoldsOf(places, n, TakenBy(ts, n, fs))
    ensures forall k :: 0 <= k < n ==> Preparable(ts, k, fs) && OutputFile(Prepare(ts[k], TakenBy(ts, k, fs), fs).task) == places[k]
    decreases n
  {
    hide Fold, OutputFile, Prepare, TakenBy, Placed, FoldsOf;
    if n == 0 {
      NoneTaken(ts, fs);
      assert FoldsOf(places, 0, {}) by { NoFolds(places); }
    } else {
      PlacementTakes(ts, places, n - 1, fs);
      PlacedIff(ts, places, n - 1, TakenBy(ts, n - 1, fs), fs);
      TakenStep(ts, n - 1, fs);
      FoldsMore(places, n - 1, TakenBy(ts, n - 1, fs));
    }
  }

  // Where preparation puts the tasks.
  function PreparedPlaces(ts: seq<Task>, fs: FileSystem): (places: seq<Path>)
    ensures |places| == |ts|
  {
    seq(|ts|, k requires 0 <= k < |ts| =>
          match Prepare(ts[k], TakenBy(ts, k, fs), fs) case Accepted(p) => OutputFile(p) case Rejected(_) => [])
  }

  lemma {:induction false} PreparedArePlaced(ts: seq<Task>, n: nat, fs: FileSystem)
    requires n <= |ts| && forall k :: 0 <= k < |ts| ==> Preparable(ts, k, fs)
    ensures FoldsOf(PreparedPlaces(ts, fs), n, TakenBy(ts, n, fs))
    ensures forall k :: 0 <= k < n ==> Placed(ts, PreparedPlaces(ts, fs), k, fs)
    decreases n
  {
    hide Fold, OutputFile, Prepare, TakenBy, Placed, FoldsOf;
    var places := PreparedPlaces(ts, fs);
    if n == 0 {
      NoneTaken(ts, fs);
      NoFolds(places);
    } else {
      PreparedArePlaced(ts, n - 1, fs);
      assert Preparable(ts, n - 1, fs);
      PlacedIff(ts, places, n - 1, TakenBy(ts, n - 1, fs), fs);
      TakenStep(ts, n - 1, fs);
      FoldsMore(places, n - 1, TakenBy(ts, n - 1, fs));
    }
  }

  lemma {:induction false} PreparableIffPlaced(ts: seq<Task>, fs: FileSystem)
    ensures (forall k :: 0 <= k < |ts| ==> Preparable(ts, k, fs)) <==> exists places :: Placement(ts, places, fs)
  {
    hide Preparable, Placed, PreparedPlaces;
    if forall k :: 0 <= k < |ts| ==> Preparable(ts, k, fs) {
      PreparedArePlaced(ts, |ts|, fs);
      assert Placement(ts, PreparedPlaces(ts, fs), fs);
    }
    if exists places :: Placement(ts, places, fs) {
      var places :| Placement(ts, places, fs);
      PlacementTakes(ts, places, |ts|, fs);
    }
  }

  lemma {:induction false} RestedIdentity(t: Task)
    ensures Rested(t).id == t.id
  {
  }

  // What loading from number n on makes of the outputs.
  lemma {:induction false} LoadedPlaces(s: State, ts: seq<Task>, n: nat, places: seq<Path>, fs: FileSystem)
    requires n <= |ts| && ReservedOutputs(s) == TakenBy(ts, n, fs) && Placement(ts, places, fs)
    requires forall i, j :: 0 <= i < j < |ts| ==> ts[i].id != ts[j].id
    requires forall k :: n <= k < |ts| ==> ts[k].id !in s.tasks
    requires forall k :: 0 <= k < n ==> ts[k].id in s.tasks && OutputFile(s.tasks[ts[k].id]) == places[k]
    ensures var t := LoadTasks(s, ts[n..], fs);
            forall k :: 0 <= k < |ts| ==> ts[k].id in t.tasks && OutputFile(t.tasks[ts[k].id]) == places[k]
    decreases |ts| - n
  {
    hide Prepare, Fold, OutputFile, IsFtpDirectory, ReservedOutputs, TakenBy, Placed, Rested;
    if n < |ts| {
      assert ts[n..][0] == ts[n] && ts[n..][1..] == ts[n + 1..];
      PlacementTakes(ts, places, n + 1, fs);
      TakenStep(ts, n, fs);
      assert Preparable(ts, n, fs);
      var p := Prepare(ts[n], TakenBy(ts, n, fs), fs).task;
      PreparedIdentity(ts[n], TakenBy(ts, n, fs), fs);
      RestedIdentity(p);
      RestedOutput(p);
      ReservedAfter(s, Rested(p));
      var s1 := Grant(Append(s, Rested(p)), p);
      SameReserved(s1, Append(s, Rested(p)));
      LoadedPlaces(s1, ts, n + 1, places, fs);
    } else {
      assert ts[n..] == [];
    }
  }

  lemma {:induction false} SavedIds(s: State, ts: seq<Task>)
    requires Good(s) && ts == Listed(s.tasks, s.order)
    ensures forall i, j :: 0 <= i < j < |ts| ==> ts[i].id != ts[j].id
  {
    hide Agreement, Attached, LiveSlots;
    assert forall id :: id in s.order ==> id in Members(s.order);
    ListedFacts(s.order, s.tasks);
    forall i, j | 0 <= i < j < |ts| ensures ts[i].id != ts[j].id {
      assert s.order[i] != s.order[j] && s.order[i] in s.order && s.order[j] in s.order;
    }
  }

  /** Loading what a good state saved completes if and only if there is a place for every task: its
      saved output or, for an FTP directory task not moved before, the one named after it, apart
      ignoring case from the places before it, and absent or its own. */
  lemma {:induction false} SaveThenLoadIff(s: State, max: int, fs: FileSystem)
    requires Good(s)
    ensures var ts := Listed(s.tasks, s.order);
            !Load(Initial(max, s.registered, true).s, Read(ts), fs).loadFailed <==> exists places :: Placement(ts, places, fs)
  {
    hide Good, LoadTasks, Prepare, Placement, Preparable, Listed;
    var ts, s0 := Listed(s.tasks, s.order), Initial(max, s.registered, true).s;
    SavedIds(s, ts);
    assert ReservedOutputs(s0) == {};
    assert ts[0..] == ts && s0.(loadFailed := false) == s0;
    LoadFromIff(s0, ts, 0, fs);
    PreparableIffPlaced(ts, fs);
  }

  /** Such a placement is where the load puts the tasks. */
  lemma {:induction false} LoadFollowsPlacement(s: State, max: int, places: seq<Path>, fs: FileSystem)
    requires Good(s) && Placement(Listed(s.tasks, s.order), places, fs)
    ensures var ts, t := Listed(s.tasks, s.order), Load(Initial(max, s.registered, true).s, Read(Listed(s.tasks, s.order)), fs);
            !t.loadFailed && forall k :: 0 <= k < |ts| ==> ts[k].id in t.tasks && OutputFile(t.tasks[ts[k].id]) == places[k]
  {
    hide Good, LoadTasks, Prepare, Placed, OutputFile, Listed;
    var ts, s0 := Listed(s.tasks, s.order), Initial(max, s.registered, true).s;
    SaveThenLoadIff(s, max, fs);
    SavedIds(s, ts);
    NoneTaken(ts, fs);
    assert ReservedOutputs(s0) == {};
    assert ts[0..] == ts && s0.(loadFailed := false) == s0;
    LoadedPlaces(s0, ts, 0, places, fs);
  }

  // A settled list takes its own outputs.
  lemma {:induction false} SettledTakes(ts: seq<Task>, n: nat, fs: FileSystem)
    requires n <= |ts| && ListApart(ts[..n]) && forall k :: 0 <= k < n ==> Settled(ts[k], fs)
    ensures TakenBy(ts, n, fs) == set k | 0 <= k < n :: Fold(OutputFile(ts[k]))
    ensures forall k :: 0 <= k < n ==> Preparable(ts, k, fs)
    decreases n
  {
    hide Fold, OutputFile, IsFtpDirectory, Settled, Prepare, TakenBy;
    if n > 0 {
      assert forall k :: 0 <= k < n ==> ts[..n][k] == ts[k];
      assert forall k :: 0 <= k < n - 1 ==> ts[..n - 1][k] == ts[k];
      SettledTakes(ts, n - 1, fs);
      assert forall k :: 0 <= k < n - 1 && IsFtpDirectory(ts[n - 1]) ==>
               Fold(OutputFile(ts[..n][k])) != Fold(OutputFile(ts[..n][n - 1]));
      SettledStays(ts[n - 1], TakenBy(ts, n - 1, fs), fs);
      TakenStep(ts, n - 1, fs);
    } else {
      NoneTaken(ts, fs);
    }
  }

  lemma {:induction false} RefusedStays(t: Task, failed: Task, reserved: set<Path>, fs: FileSystem)
    requires Prepare(t, reserved, fs).Rejected?
    requires failed == t.(status := Failed, error := failed.error,
                          stage := t.stage.(status := Failed, error := failed.stage.error))
    ensures Prepare(failed, reserved, fs).Rejected?
  {
    hide Fold;
  }

  // Behind the tasks of s, the next one of the list is prepared against their outputs.
  lemma {:induction false} TakenByState(s: State, ts: seq<Task>, n: nat, fs: FileSystem)
    requires n <= |ts| && n == |s.order| && ListApart(ts[..n]) && Members(s.order) == s.tasks.Keys
    requires forall k :: 0 <= k < n ==> s.order[k] in s.tasks && ts[k] == s.tasks[s.order[k]] && Settled(ts[k], fs)
    ensures TakenBy(ts, n, fs) == ReservedOutputs(s)
  {
    hide Fold, OutputFile, IsFtpDirectory, Settled, TakenBy, ListApart;
    SettledTakes(ts, n, fs);
    forall p | p in ReservedOutputs(s) ensures p in TakenBy(ts, n, fs) {
      var id :| id in s.tasks && p == Fold(OutputFile(s.tasks[id]));
      assert id in Members(s.order);
      var k :| 0 <= k < n && s.order[k] == id;
      assert Fold(OutputFile(ts[k])) in TakenBy(ts, n, fs);
    }
    forall p | p in TakenBy(ts, n, fs) ensures p in ReservedOutputs(s) {
      var k :| 0 <= k < n && p == Fold(OutputFile(ts[k]));
      assert s.order[k] in s.tasks;
    }
  }

  lemma {:induction false} GrantedSettled(s: State, id: TaskId, fs: FileSystem)
    requires Good(s) && OutputsApart(s) && id in s.tasks
    requires IsFtpDirectory(s.tasks[id]) ==> id in s.accepted && VerifyOwner(fs, OutputFile(s.tasks[id]), id)
    ensures Settled(s.tasks[id], fs)
  {
    hide Agreement, Attached, LiveSlots, OutputFile;
    assert id in Members(s.order);
  }

  lemma {:induction false} ListedMore(ids: seq<TaskId>, tasks: map<TaskId, Task>, t: Task)
    requires t.id !in ids
    ensures Listed(tasks[t.id := t], ids + [t.id]) == Listed(tasks, ids) + [t]
  {
    var more, u := ids + [t.id], tasks[t.id := t];
    if ids == [] {
      assert more == [t.id] && more[1..] == [] && Listed(u, []) == [];
    } else {
      var first := if ids[0] in tasks then [tasks[ids[0]]] else [];
      assert more[0] == ids[0] && more[1..] == ids[1..] + [t.id];
      ListedMore(ids[1..], tasks, t);
      assert Listed(u, more) == first + (Listed(tasks, ids[1..]) + [t]);
      assert Listed(tasks, ids) == first + Listed(tasks, ids[1..]);
    }
  }

  lemma {:induction false} KnownOrder(s: State)
    requires Good(s)
    ensures forall k :: 0 <= k < |s.order| ==> s.order[k] in s.tasks
    ensures forall id :: id in s.order ==> id in s.tasks && id in s.seen
  {
    hide Agreement, Attached, LiveSlots;
    assert forall id :: id in s.order ==> id in Members(s.order);
  }

  // What is saved after a refused Add: the list as it was, and the failed task behind it.
  lemma {:induction false} RefusedList(s: State, t: Task, fs: FileSystem)
    requires Good(s) && Unknown(s, t.id) && !Active(t.status) && Prepare(t, ReservedOutputs(s), fs).Rejected?
    ensures var s1 := AddTask(s, t, fs);
            var ts, ts1 := Listed(s.tasks, s.order), Listed(s1.tasks, s1.order);
            && Good(s1) && t.id in s1.tasks && s1.tasks[t.id].status == Failed
            && |ts| == |s.order| && |ts1| == |ts| + 1 && ts1[..|ts|] == ts && ts1[|ts|] == s1.tasks[t.id]
            && Prepare(ts1[|ts|], ReservedOutputs(s), fs).Rejected?
            && forall k :: 0 <= k < |ts| ==> s.order[k] in s.tasks && ts1[k] == s.tasks[s.order[k]]
  {
    var s1 := AddTask(s, t, fs);
    var failed := s1.tasks[t.id];
    assert s1 == Append(s, failed);
    hide Good, AddTask, Prepare, ReservedOutputs, Listed;
    RefusedStays(t, failed, ReservedOutputs(s), fs);
    AddKeeps(s, t, fs);
    KnownOrder(s);
    ListedFacts(s.order, s.tasks);
    ListedMore(s.order, s.tasks, failed);
  }

  /** A task whose output Add refuses is kept as Failed and saved; while the refusal holds, the next
      Load stops there and the program does not start. */
  lemma {:induction false} RefusedAddStopsLoad(s: State, t: Task, max: int, fs: FileSystem)
    requires Good(s) && OutputsApart(s) && Unknown(s, t.id) && !Active(t.status)
    requires Prepare(t, ReservedOutputs(s), fs).Rejected?
    requires forall id :: id in s.tasks && IsFtpDirectory(s.tasks[id]) ==>
               id in s.accepted && VerifyOwner(fs, OutputFile(s.tasks[id]), id)
    ensures var s1 := AddTask(s, t, fs);
            && t.id in s1.tasks && s1.tasks[t.id].status == Failed
            && Load(Initial(max, s1.registered, true).s, Read(Listed(s1.tasks, s1.order)), fs).loadFailed
  {
    hide Agreement, Attached, LiveSlots, Prepare, Fold, OutputFile, IsFtpDirectory, Settled, Load, ReservedOutputs, TakenBy, AddTask, Listed;
    var s1, n := AddTask(s, t, fs), |s.order|;
    var ts1 := Listed(s1.tasks, s1.order);
    RefusedList(s, t, fs);
    assert forall id :: id in s.order ==> id in Members(s.order);
    ListedApart(s.order, s.tasks, s.accepted);
    forall k | 0 <= k < n ensures Settled(ts1[k], fs) {
      GrantedSettled(s, s.order[k], fs);
    }
    TakenByState(s, ts1, n, fs);
    SaveThenLoadIff(s1, max, fs);
    assert !Preparable(ts1, n, fs);
    PreparableIffPlaced(ts1, fs);
  }
}
