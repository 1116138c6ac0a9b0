/** Work conservation and list order: who waits, and who goes first. */
module SchedulerQueue {
  import opened Sets
  import opened Options
  import opened Tasks
  import opened TaskChanges
  import opened SchedulerState
  import opened SchedulerInvariant
  import opened SchedulerSteps
  import opened SchedulerCalm
  import opened SchedulerMachine

  ghost predicate InLine(s: State, id: TaskId) {
    id in s.tasks && s.tasks[id].status == Waiting && id !in s.running
  }

  // Whoever is in line uses a slot, and no slot is free.
  ghost predicate Served(s: State, id: TaskId) {
    InLine(s, id) ==> s.tasks[id].usesSlot && SlotCount(s) >= s.maxRunning
  }

  ghost predicate Conserving(s: State) {
    !s.stopping ==> forall id :: id in s.tasks ==> Served(s, id)
  }

  // From s to t, nobody joined the line and no slot was given back.
  ghost predicate Fills(s: State, t: State) {
    && SlotIds(s) <= SlotIds(t) && t.maxRunning == s.maxRunning && t.stopping == s.stopping
    && forall id :: InLine(t, id) ==> InLine(s, id) && t.tasks[id].usesSlot == s.tasks[id].usesSlot
  }

  lemma {:induction false} FillsSelf(s: State)
    ensures Fills(s, s)
  {
  }

  lemma {:induction false} FillsChain(s: State, t: State, u: State)
    requires Fills(s, t) && Fills(t, u)
    ensures Fills(s, u)
  {
  }

  lemma {:induction false} FillsServed(s: State, t: State, id: TaskId)
    requires Fills(s, t) && Served(s, id)
    ensures Served(t, id)
  {
    SubsetSize(SlotIds(s), SlotIds(t));
  }

  lemma {:induction false} FillsConserving(s: State, t: State)
    requires Fills(s, t) && Conserving(s)
    ensures Conserving(t)
  {
    if !t.stopping {
      forall id | id in t.tasks
        ensures Served(t, id)
      {
        FillsServed(s, t, id);
      }
    }
  }

  // ---- Scheduling attempts and passes ----

  lemma {:induction false} StartFills(s: State, id: TaskId)
    requires id in s.tasks && id !in s.running
    ensures Fills(s, Start(s, id))
  {
  }

  lemma {:induction false} FailFills(s: State, id: TaskId)
    requires id in s.tasks && id !in s.running
    ensures Fills(s, SetTask(s, id, s.tasks[id].(status := Failed, error := "worker not registered")))
  {
  }

  lemma {:induction false} AttemptFills(s: State, id: TaskId, t: State)
    requires Attempt(s, id, t)
    ensures Fills(s, t)
  {
    hide SlotCount, Fills;
    FillsSelf(s);
    if t != s {
      if t == Start(s, id) {
        StartFills(s, id);
      } else {
        FailFills(s, id);
      }
    }
  }

  lemma {:induction false} AttemptServes(s: State, id: TaskId)
    requires !s.stopping
    ensures Served(ScheduleIfWaiting(s, id), id)
  {
  }

  lemma {:induction false} PassFills(s: State, ids: seq<TaskId>)
    ensures Fills(s, ScheduleAll(s, ids))
    decreases ids
  {
    hide Fills, SlotCount;
    FillsSelf(s);
    if ids != [] {
      var s1 := ScheduleIfWaiting(s, ids[0]);
      AttemptFills(s, ids[0], s1);
      PassFills(s1, ids[1..]);
      FillsChain(s, s1, ScheduleAll(s1, ids[1..]));
    }
  }

  lemma {:induction false} PassServes(s: State, ids: seq<TaskId>, id: TaskId)
    requires id in ids && !s.stopping
    ensures Served(ScheduleAll(s, ids), id)
    decreases ids
  {
    hide Fills, Served, SlotCount;
    var s1 := ScheduleIfWaiting(s, ids[0]);
    if ids[0] == id {
      AttemptServes(s, id);
      PassFills(s1, ids[1..]);
      FillsServed(s1, ScheduleAll(s1, ids[1..]), id);
    } else {
      PassServes(s1, ids[1..], id);
    }
  }

  // A pass over the whole list makes any state conserving.
  lemma {:induction false} PassConserves(s: State)
    requires Members(s.order) == s.tasks.Keys
    ensures Conserving(ScheduleWaiting(s))
  {
    hide Served, SlotCount, ScheduleAll;
    var t := ScheduleWaiting(s);
    PassExtends(s, s.order);
    if !t.stopping {
      forall id | id in t.tasks
        ensures Served(t, id)
      {
        assert id in Members(s.order);
        PassServes(s, s.order, id);
      }
    }
  }

  // One task was put in line, everybody else was served already: trying that task is enough.
  lemma {:induction false} OneMore(s: State, s1: State, id: TaskId)
    requires Conserving(s) && s1.stopping == s.stopping && s1.maxRunning == s.maxRunning && SlotIds(s) <= SlotIds(s1)
    requires forall k :: k != id && InLine(s1, k) ==> InLine(s, k) && s1.tasks[k].usesSlot == s.tasks[k].usesSlot
    requires id in s1.tasks && s1.tasks[id].status == Waiting
    ensures Conserving(ScheduleOne(s1, id))
  {
    var t := ScheduleOne(s1, id);
    if !t.stopping {
      AttemptFills(s1, id, t);
      AttemptServes(s1, id);
      forall k | k in t.tasks
        ensures Served(t, k)
      {
        if k != id && InLine(t, k) {
          SubsetSize(SlotIds(s), SlotIds(s1));
          FillsServed(s1, t, k);
        }
      }
    }
  }

  lemma {:induction false} PauseFills(s: State, id: TaskId, t: Task)
    requires id in s.tasks && t.usesSlot == s.tasks[id].usesSlot && t.status != Waiting
    ensures Fills(s, SetTask(s, id, t))
    ensures id in s.running ==> Fills(s, Cancel(SetTask(s, id, t), id))
  {
  }

  lemma {:induction false} EnforceFills(s: State, ids: seq<TaskId>, kept: nat)
    ensures Fills(s, EnforceFrom(s, ids, kept))
    decreases ids
  {
    hide Fills;
    FillsSelf(s);
    if ids != [] {
      if TakesSlot(s, ids[0]) && kept >= s.maxRunning {
        var s1 := PauseAndCancel(s, ids[0]);
        PauseFills(s, ids[0], Stopped(s.tasks[ids[0]]));
        EnforceFills(s1, ids[1..], kept);
        FillsChain(s, s1, EnforceFrom(s1, ids[1..], kept));
      } else {
        EnforceFills(s, ids[1..], if TakesSlot(s, ids[0]) then kept + 1 else kept);
      }
    }
  }

  // ---- Whole steps ----

  // Edits keep UsesSlot, or at least do not give back a slot somebody holds.
  ghost predicate KeepsSlot(m: Machine, step: Step) {
    step.EditCommit? && step.outcome.Edited? && m.editor.Editing? ==>
      step.outcome.task.usesSlot || !m.editor.original.usesSlot || m.editor.id !in m.s.running
  }

  lemma {:induction false} GoodOrder(s: State)
    requires Good(s)
    ensures Members(s.order) == s.tasks.Keys
  {
  }

  lemma {:induction false} AppendSlots(s: State, t: Task)
    requires Good(s) && Unknown(s, t.id)
    ensures SlotIds(Append(s, t)) == SlotIds(s)
  {
  }

  lemma {:induction false} AcceptedWaiting(s: State, p: Task)
    requires Good(s) && Conserving(s) && Unknown(s, p.id) && p.status == Waiting
    ensures Conserving(ScheduleOne(Grant(Append(s, p), p), p.id))
  {
    hide SlotCount, Good, Served, Conserving, ScheduleOne;
    AppendSlots(s, p);
    OneMore(s, Grant(Append(s, p), p), p.id);
  }

  lemma {:induction false} AppendFills(s: State, t: Task)
    requires Good(s) && Unknown(s, t.id) && t.status != Waiting
    ensures Fills(s, Append(s, t))
  {
    AppendSlots(s, t);
  }

  lemma {:induction false} AcceptedFills(s: State, p: Task)
    requires Good(s) && Unknown(s, p.id) && p.status != Waiting
    ensures Fills(s, Grant(Append(s, p), p))
  {
    hide SlotCount, Good;
    AppendFills(s, p);
  }

  lemma {:induction false} AcceptedConserves(s: State, p: Task)
    requires Good(s) && Conserving(s) && Unknown(s, p.id)
    ensures Conserving(Grant(Append(s, p), p)) || p.status == Waiting
    ensures p.status != Paused ==> Conserving(ScheduleOne(Grant(Append(s, p), p), p.id))
  {
    hide SlotCount, Good, Served, Conserving, ScheduleOne, Fills, Append, SlotIds, Grant;
    var s1 := Grant(Append(s, p), p);
    if p.status == Waiting {
      AcceptedWaiting(s, p);
    } else {
      AcceptedFills(s, p);
      FillsConserving(s, s1);
      AttemptFills(s1, p.id, ScheduleOne(s1, p.id)) by { AttemptMade(s1, p.id); }
      FillsConserving(s1, ScheduleOne(s1, p.id));
    }
  }

  lemma {:induction false} AddConserves(s: State, t: Task, fs: FileSystem)
    requires Good(s) && Conserving(s) && Unknown(s, t.id) && !Active(t.status)
    ensures Conserving(AddTask(s, t, fs))
  {
    hide Prepare, ReservedOutputs, Good, Conserving, ScheduleOne, Append, Grant;
    match Prepare(t, ReservedOutputs(s), fs)
    case Rejected(reason) =>
      var p := t.(status := Failed, error := reason, stage := t.stage.(status := Failed, error := reason));
      AppendFills(s, p);
      FillsConserving(s, Append(s, p));
    case Accepted(p0) =>
      PreparedStatus(t, ReservedOutputs(s), fs);
      AcceptedConserves(s, if t.status == Waiting && p0.status == Paused then WithStatus(p0, Waiting) else p0);
  }

  lemma {:induction false} ReportConserves(s: State, id: TaskId, u: Update)
    requires Good(s) && Conserving(s) && (u.status.Some? ==> Active(u.status.value)) && id in s.running
    ensures Conserving(Report(s, id, u))
  {
    hide SlotCount, Served, Conserving, ScheduleAll, Listing, Agreement, Attached, LiveSlots, EnforceFrom;
    if id in s.tasks {
      var t := Reported(s.tasks[id], u);
      var s1 := SetTask(s, id, t);
      if s.tasks[id].usesSlot && !t.usesSlot {
        GoodOrder(s);
        assert s1.tasks.Keys == s.tasks.Keys;
        PassConserves(s1);
      } else {
        assert Fills(s, s1);
        FillsConserving(s, s1);
        EnforceFills(s1, s1.order, 0);
        FillsConserving(s1, EnforceFrom(s1, s1.order, 0));
      }
    }
  }

  lemma {:induction false} ExitConserves(s: State, w: nat, o: Outcome)
    requires Good(s) && Conserving(s) && w < |s.workers| && s.workers[w].phase == InRun
    ensures Conserving(Exit(s, w, o))
  {
    hide SlotCount, Served, Conserving, ScheduleAll, Listing, Agreement, Attached, LiveSlots, Ended;
    var id := s.workers[w].id;
    var s1 := Unregistered(s, w, o);
    if id in s.tasks {
      GoodOrder(s);
      assert s1.tasks.Keys == s.tasks.Keys;
      PassConserves(s1);
    } else {
      assert Fills(s, s1);
      FillsConserving(s, s1);
    }
  }

  // A task replaced by one that gives up no slot: back in line, or paused.
  lemma {:induction false} ReplacedConserves(s: State, id: TaskId, t: Task)
    requires Conserving(s) && id in s.tasks && (t.usesSlot || !s.tasks[id].usesSlot || id !in s.running)
    ensures t.status == Waiting ==> Conserving(ScheduleOne(SetTask(s, id, t), id))
    ensures t.status != Waiting ==> Conserving(SetTask(s, id, t))
  {
    hide SlotCount, Served, Conserving, ScheduleOne;
    var s1 := SetTask(s, id, t);
    assert SlotIds(s) <= SlotIds(s1);
    if t.status == Waiting {
      OneMore(s, s1, id);
    } else {
      assert Fills(s, s1);
      FillsConserving(s, s1);
    }
  }

  lemma {:induction false} ToggleConserves(s: State, id: TaskId)
    requires Good(s) && Conserving(s)
    ensures Conserving(Toggle(s, id))
  {
    hide SlotCount, Served, Good, Conserving, Fills, SetTask, Cancel, ScheduleOne, SlotIds;
    if id in s.tasks {
      var t := s.tasks[id];
      if (Active(t.status) && id in s.running) || t.status == Waiting {
        PauseFills(s, id, Stopped(t));
        FillsConserving(s, Toggle(s, id));
      } else if t.status != Completed {
        ReplacedConserves(s, id, WithStatus(t, Waiting));
      }
    }
  }

  lemma {:induction false} CommitEditConserves(s: State, id: TaskId, resume: bool, original: Task, epoch: nat, outcome: EditOutcome)
    requires Good(s) && Conserving(s)
    requires outcome.Edited? ==> outcome.task.usesSlot || !original.usesSlot || id !in s.running
    ensures Conserving(CommitEdit(s, id, resume, original, epoch, outcome))
  {
    hide SlotCount, Served, Good, Conserving, Fills, SetTask, ScheduleOne, SlotIds;
    if EditApplies(s, id, original, epoch) && (resume || outcome.Edited?) {
      var t := if outcome.Edited? then EditedTask(original, outcome.task, resume) else WithStatus(original, Waiting);
      ReplacedConserves(s, id, t);
    }
  }

  lemma {:induction false} PausedConserves(s: State, t: State)
    requires forall id :: id in t.tasks ==> t.tasks[id].status != Waiting
    ensures Conserving(t)
  {
  }

  lemma {:induction false} SameLine(s: State, t: State)
    requires t.tasks == s.tasks && t.running == s.running && t.maxRunning == s.maxRunning && t.stopping == s.stopping
    ensures Fills(s, t)
  {
  }

  lemma {:induction false} LocklessConserves(m: Machine, step: Step)
    requires Good(m.s) && Enabled(m, step) && Conserving(m.s) && Lockless(step) && !step.LoadStep?
    ensures Conserving(Apply(m, step).s)
  {
    hide Conserving, AddTask, Report, Exit, ScheduleAll, Enforce, LiveSlots, Members, Fills;
    var s := m.s;
    match step
    case SetMaxStep(n) =>
      var s1 := s.(maxRunning := if n <= 0 then 1 else n);
      assert Sound(s1);
      EnforcedAll(s1);
      GoodOrder(Enforce(s1));
      PassConserves(Enforce(s1));
    case AddStep(t, fs) => AddConserves(s, t, fs);
    case RemoveStep(id) =>
      if id in s.tasks {
        DroppedKeeps(s, id);
        GoodOrder(Dropped(s, id));
        PassConserves(Dropped(s, id));
      }
    case TimerStep => SameLine(s, TimerSave(s)); FillsConserving(s, TimerSave(s));
    case WorkerBegin(w) => SameLine(s, BeginRun(s, w)); FillsConserving(s, BeginRun(s, w));
    case WorkerReport(w, u) => ReportConserves(s, s.workers[w].id, u);
    case WorkerExit(w, o) => ExitConserves(s, w, o);
  }

  lemma {:induction false} LockConserves(m: Machine, step: Step)
    requires Good(m.s) && Enabled(m, step) && Conserving(m.s) && !Lockless(step) && KeepsSlot(m, step)
    ensures Conserving(Apply(m, step).s)
  {
    hide Good, Served, SlotCount, SlotIds, Toggle, CommitEdit, ScheduleAll, Fills;
    var s := m.s;
    GoodOrder(s);
    match step
    case ToggleStep(id) => ToggleConserves(s, id);
    case StartAllStep => PassConserves(s.(tasks := AllWaiting(s.tasks)));
    case PauseAllStep => PausedConserves(s, PauseEvery(s));
    case RedownloadBegin(id) =>
      PauseFills(s, id, WithStatus(s.tasks[id], Paused));
      FillsSelf(s);
      FillsConserving(s, BeginRedownload(s, id));
    case RedownloadCommit(reset) =>
      if !s.stopping && m.lock.id in s.tasks {
        var s1 := SetTask(s, m.lock.id, Rewound(s.tasks[m.lock.id], reset));
        assert s1.tasks.Keys == s.tasks.Keys;
        PassConserves(s1);
      }
    case EditBegin(id) =>
      PauseFills(s, id, Stopped(s.tasks[id]));
      FillsSelf(s);
      FillsConserving(s, BeginEdit(s, id));
    case EditCommit(outcome) =>
      CommitEditConserves(s, m.editor.id, m.editor.resume, m.editor.original, m.editor.epoch, outcome);
    case StopBegin =>
    case StopEnd => SameLine(s, Save(s)); FillsConserving(s, Save(s));
    case _ =>
  }

  /** Every step except Load keeps this: while the scheduler is not stopping, a waiting task without
      an entry uses a slot and every slot is taken. */
  lemma {:induction false} StepConserves(m: Machine, step: Step)
    requires Good(m.s) && Enabled(m, step) && Conserving(m.s) && KeepsSlot(m, step) && !step.LoadStep?
    ensures Conserving(Apply(m, step).s)
  {
    hide Good, Conserving, Apply, Enabled, KeepsSlot;
    if Lockless(step) {
      LocklessConserves(m, step);
    } else {
      LockConserves(m, step);
    }
  }

  // Along a run: no Load, and edits keep UsesSlot.
  ghost predicate SlotKeeping(m: Machine, steps: seq<Step>)
    requires Runs(m, steps)
    decreases steps
  {
    steps == [] || (KeepsSlot(m, steps[0]) && !steps[0].LoadStep? && SlotKeeping(Apply(m, steps[0]), steps[1..]))
  }

  lemma {:induction false} RunConserves(m: Machine, steps: seq<Step>)
    requires MachineInv(m) && Conserving(m.s) && Runs(m, steps) && Careful(m, steps) && SlotKeeping(m, steps)
    ensures Conserving(End(m, steps).s)
    decreases steps
  {
    hide Good, LockInv, EditorInv, Conserving, Enabled, Apply, Disciplined, KeepsSlot;
    if steps != [] {
      StepConserves(m, steps[0]);
      StepKeeps(m, steps[0]);
      RunConserves(Apply(m, steps[0]), steps[1..]);
    }
  }

  // Steps that pass over the whole line, or clear it, whatever it was before.
  ghost predicate Settling(m: Machine, step: Step)
    requires Enabled(m, step)
  {
    match step
    case SetMaxStep(_) | StartAllStep | PauseAllStep | StopBegin => true
    case RemoveStep(id) => id in m.s.tasks
    case RedownloadCommit(_) => !m.s.stopping && m.lock.id in m.s.tasks
    case WorkerExit(w, _) => m.s.workers[w].id in m.s.tasks
    case _ => false
  }

  lemma {:induction false} SoundLimit(s: State, t: State)
    requires Good(s) && t.maxRunning >= 1 && t == s.(maxRunning := t.maxRunning)
    ensures Sound(t)
  {
  }

  lemma {:induction false} SettlingConserves(m: Machine, step: Step)
    requires Good(m.s) && Enabled(m, step) && Settling(m, step)
    ensures Conserving(Apply(m, step).s)
  {
    hide Conserving, ScheduleAll, Enforce, LiveSlots, Members, Fills, Good, Ended, SlotCount;
    var s := m.s;
    GoodOrder(s);
    match step
    case SetMaxStep(n) =>
      var s1 := s.(maxRunning := if n <= 0 then 1 else n);
      SoundLimit(s, s1);
      EnforcedAll(s1);
      GoodOrder(Enforce(s1));
      PassConserves(Enforce(s1));
    case StartAllStep => PassConserves(s.(tasks := AllWaiting(s.tasks)));
    case PauseAllStep => PausedConserves(s, PauseEvery(s));
    case StopBegin => PausedConserves(s, BeginStop(s));
    case RemoveStep(id) =>
      DroppedKeeps(s, id);
      GoodOrder(Dropped(s, id));
      PassConserves(Dropped(s, id));
    case RedownloadCommit(reset) =>
      var s1 := SetTask(s, m.lock.id, Rewound(s.tasks[m.lock.id], reset));
      assert s1.tasks.Keys == s.tasks.Keys;
      PassConserves(s1);
    case WorkerExit(w, o) =>
      var s1 := Unregistered(s, w, o);
      assert s1.tasks.Keys == s.tasks.Keys;
      PassConserves(s1);
  }

  /** Whatever ran before, Load included, from the first step that passes over the whole line on the
      scheduler is work-conserving. */
  lemma {:induction false} ConservesFromFirstPass(m: Machine, before: seq<Step>, step: Step, after: seq<Step>)
    requires MachineInv(m) && Runs(m, before) && Careful(m, before)
    requires Enabled(End(m, before), step) && Disciplined(End(m, before), step) && Settling(End(m, before), step)
    requires Runs(Apply(End(m, before), step), after) && Careful(Apply(End(m, before), step), after)
    requires SlotKeeping(Apply(End(m, before), step), after)
    ensures Conserving(End(Apply(End(m, before), step), after).s)
  {
    hide Good, LockInv, EditorInv, Conserving, Enabled, Apply, Disciplined, Settling, SlotKeeping;
    RunKeeps(m, before);
    SettlingConserves(End(m, before), step);
    StepKeeps(End(m, before), step);
    RunConserves(Apply(End(m, before), step), after);
  }

  // ---- First come, first served ----

  lemma {:induction false} FullStays(s: State, ids: seq<TaskId>, id: TaskId)
    requires SlotCount(s) >= s.maxRunning && id in s.tasks && s.tasks[id].usesSlot && id !in s.running
    ensures id !in ScheduleAll(s, ids).running
    decreases ids
  {
    if ids != [] {
      var s1 := ScheduleIfWaiting(s, ids[0]);
      AttemptFills(s, ids[0], s1);
      AttemptExtends(s, ids[0], s1);
      SubsetSize(SlotIds(s), SlotIds(s1));
      FullStays(s1, ids[1..], id);
    }
  }

  // In line for a slot, and nothing but a free slot is missing.
  ghost predicate ReadyForSlot(s: State, id: TaskId) {
    InLine(s, id) && s.tasks[id].usesSlot && !Blocked(s, s.tasks[id])
  }

  lemma {:induction false} AttemptKeepsReady(s: State, other: TaskId, id: TaskId, t: State)
    requires Attempt(s, other, t) && other != id && ReadyForSlot(s, id)
    ensures ReadyForSlot(t, id)
  {
    hide SlotCount;
  }

  lemma {:induction false} ExtendsEntry(s: State, t: State, id: TaskId)
    requires Extends(s, t) && id in s.running
    ensures id in t.running
  {
  }

  lemma {:induction false} FirstComeFrom(s: State, ids: seq<TaskId>, i: nat, j: nat)
    requires i < j < |ids| && Distinct(ids) && ReadyForSlot(s, ids[i]) && ReadyForSlot(s, ids[j])
    requires ids[j] in ScheduleAll(s, ids).running
    ensures ids[i] in ScheduleAll(s, ids).running
    decreases ids
  {
    hide SlotCount, Extends;
    var s1 := ScheduleIfWaiting(s, ids[0]);
    AttemptKeepsReady(s, ids[0], ids[j], s1);
    if i == 0 {
      if ids[0] in s1.running {
        PassExtends(s1, ids[1..]);
        ExtendsEntry(s1, ScheduleAll(s1, ids[1..]), ids[0]);
      } else {
        assert SlotCount(s1) >= s1.maxRunning;
        FullStays(s1, ids[1..], ids[j]);
      }
    } else {
      AttemptKeepsReady(s, ids[0], ids[i], s1);
      FirstComeFrom(s1, ids[1..], i - 1, j - 1);
    }
  }

  /** A scheduling pass never starts a slot user while an earlier startable slot user stays in line. */
  lemma {:induction false} FirstComeFirstServed(s: State, i: nat, j: nat)
    requires Good(s) && i < j < |s.order|
    requires ReadyForSlot(s, s.order[i]) && ReadyForSlot(s, s.order[j])
    requires s.order[j] in ScheduleWaiting(s).running
    ensures s.order[i] in ScheduleWaiting(s).running
  {
    FirstComeFrom(s, s.order, i, j);
  }

  // ---- What the limit check keeps, and what a pass may do ----

  // How many slot entries the list has before position i.
  function Rank(s: State, ids: seq<TaskId>, i: nat): nat
    requires i <= |ids|
    decreases ids
  {
    if i == 0 then 0 else (if TakesSlot(s, ids[0]) then 1 else 0) + Rank(s, ids[1..], i - 1)
  }

  ghost predicate Untouched(s: State, t: State, id: TaskId) {
    id in s.tasks && id in t.tasks && t.tasks[id] == s.tasks[id] && id in s.running && id in t.running && t.running[id] == s.running[id]
  }

  ghost predicate PausedThere(s: State, t: State, id: TaskId) {
    && id in s.tasks && id in t.tasks && IsPaused(s.tasks[id], t.tasks[id])
    && id in s.running && id in t.running && t.running[id].cancelled && t.running[id].worker == s.running[id].worker
  }

  lemma {:induction false} SameTakers(s: State, id: TaskId, ids: seq<TaskId>, i: nat)
    requires id in s.tasks && id in s.running && i <= |ids|
    ensures Rank(PauseAndCancel(s, id), ids, i) == Rank(s, ids, i)
    ensures forall k :: TakesSlot(PauseAndCancel(s, id), k) <==> TakesSlot(s, k)
    decreases ids
  {
    if i > 0 { SameTakers(s, id, ids[1..], i - 1); }
  }

  lemma {:induction false} NotListed(s: State, ids: seq<TaskId>, kept: nat, id: TaskId)
    requires id !in ids && id in s.tasks && id in s.running
    ensures Untouched(s, EnforceFrom(s, ids, kept), id)
    decreases ids
  {
    if ids != [] {
      if TakesSlot(s, ids[0]) && kept >= s.maxRunning {
        NotListed(PauseAndCancel(s, ids[0]), ids[1..], kept, id);
      } else {
        NotListed(s, ids[1..], if TakesSlot(s, ids[0]) then kept + 1 else kept, id);
      }
    }
  }

  lemma {:induction false} PausedEffect(s: State, id: TaskId)
    requires id in s.tasks && id in s.running
    ensures var t := PauseAndCancel(s, id);
            && PausedThere(s, t, id) && t.maxRunning == s.maxRunning
            && forall k :: k != id ==> (k in t.tasks <==> k in s.tasks) && (k in s.tasks ==> t.tasks[k] == s.tasks[k])
                                       && (k in t.running <==> k in s.running) && (k in s.running ==> t.running[k] == s.running[k])
  {
  }

  lemma {:induction false} EnforceAt(s: State, ids: seq<TaskId>, kept: nat, i: nat)
    requires Distinct(ids) && i < |ids| && TakesSlot(s, ids[i]) && kept <= s.maxRunning
    ensures var t := EnforceFrom(s, ids, kept);
            if kept + Rank(s, ids, i) < s.maxRunning then Untouched(s, t, ids[i]) else PausedThere(s, t, ids[i])
    decreases ids
  {
    hide PauseAndCancel;
    var rest, taken, full := ids[1..], TakesSlot(s, ids[0]), kept >= s.maxRunning;
    var s1 := if taken && full then PauseAndCancel(s, ids[0]) else s;
    var kept1 := if taken && !full then kept + 1 else kept;
    assert EnforceFrom(s, ids, kept) == EnforceFrom(s1, rest, kept1);
    if taken && full { PausedEffect(s, ids[0]); }
    if i == 0 {
      assert ids[0] !in rest;
      NotListed(s1, rest, kept1, ids[0]);
    } else {
      if taken && full { SameTakers(s, ids[0], rest, i - 1); }
      assert rest[i - 1] == ids[i] != ids[0];
      EnforceAt(s1, rest, kept1, i - 1);
    }
  }

  /** When there are more slot entries than the limit, the first maxRunning of them in list order are
      kept as they are, and every later one is paused and cancelled. */
  lemma {:induction false} EnforceKeepsFirst(s: State, i: nat)
    requires Sound(s) && SlotCount(s) > s.maxRunning && i < |s.order| && TakesSlot(s, s.order[i])
    ensures if Rank(s, s.order, i) < s.maxRunning then Untouched(s, Enforce(s), s.order[i])
            else PausedThere(s, Enforce(s), s.order[i])
  {
    hide Agreement, Attached, SlotCount;
    EnforceAt(s, s.order, 0, i);
  }

  ghost predicate StartedThere(s: State, t: State, id: TaskId) {
    && id in s.tasks && id in t.tasks && IsPut(s.tasks[id], t.tasks[id], Running) && id in t.running
    && !t.running[id].cancelled && |s.workers| <= t.running[id].worker < |t.workers|
    && t.workers[t.running[id].worker] == Worker(id, Spawned)
  }

  // All but the tasks, the entries, the goroutines and what is saved.
  predicate SameElse(s: State, t: State) {
    && t.order == s.order && t.maxRunning == s.maxRunning && t.stopping == s.stopping && t.pauseEpoch == s.pauseEpoch
    && t.hasStore == s.hasStore && t.loadFailed == s.loadFailed && t.registered == s.registered
    && t.seen == s.seen && t.accepted == s.accepted && t.saved == s.saved
  }

  // The new goroutines are those of the new entries.
  ghost predicate NewWorkers(s: State, t: State) {
    && |s.workers| <= |t.workers| && t.workers[..|s.workers|] == s.workers
    && forall w :: |s.workers| <= w < |t.workers| ==>
         var id := t.workers[w].id;
         t.workers[w].phase == Spawned && id !in s.running && id in t.running && t.running[id].worker == w
  }

  // The one change a pass makes to a task: it was in line, and was started or had no worker.
  ghost predicate TasksExplained(s: State, t: State) {
    && t.tasks.Keys == s.tasks.Keys
    && forall id :: id in s.tasks && t.tasks[id] != s.tasks[id] ==>
         InLine(s, id) && if s.tasks[id].packId in s.registered then StartedThere(s, t, id)
                          else IsUnregistered(s.tasks[id], t.tasks[id])
  }

  ghost predicate EntriesExplained(s: State, t: State) {
    && (forall id :: id in t.running && id !in s.running ==> id in s.tasks && id in t.tasks && t.tasks[id] != s.tasks[id])
    && (forall id :: id in s.running ==> id in t.running && t.running[id] == s.running[id])
  }

  ghost predicate Explained(s: State, t: State) {
    NewWorkers(s, t) && TasksExplained(s, t) && EntriesExplained(s, t) && SameElse(s, t)
  }

  lemma {:induction false} PutIs(t: Task, st: Status)
    ensures IsPut(t, WithStatus(t, st), st)
  {
  }

  lemma {:induction false} ExplainedStart(s: State, id: TaskId)
    requires InLine(s, id) && s.tasks[id].packId in s.registered
    ensures Explained(s, Start(s, id))
  {
    PutIs(s.tasks[id], Running);
    hide IsPut;
    assert Start(s, id).workers[..|s.workers|] == s.workers;
  }

  lemma {:induction false} UnregisteredIs(t: Task)
    ensures IsUnregistered(t, t.(status := Failed, error := "worker not registered"))
  {
  }

  lemma {:induction false} ExplainedFailure(s: State, id: TaskId)
    requires InLine(s, id) && s.tasks[id].packId !in s.registered
    ensures Explained(s, SetTask(s, id, s.tasks[id].(status := Failed, error := "worker not registered")))
  {
    UnregisteredIs(s.tasks[id]);
    hide IsUnregistered;
  }

  lemma {:induction false} ExplainedSelf(s: State)
    ensures Explained(s, s)
  {
  }

  lemma {:induction false} ExplainedOne(s: State, id: TaskId)
    ensures Explained(s, ScheduleIfWaiting(s, id))
  {
    hide SlotCount, Explained, Start;
    ExplainedSelf(s);
    if InLine(s, id) {
      if s.tasks[id].packId in s.registered { ExplainedStart(s, id); } else { ExplainedFailure(s, id); }
    }
  }

  lemma {:induction false} ChangedNotInLine(s: State, t: State, id: TaskId)
    requires Explained(s, t) && id in s.tasks && t.tasks[id] != s.tasks[id]
    ensures !InLine(t, id)
  {
  }

  lemma {:induction false} NewWorkersChain(s: State, t: State, u: State)
    requires NewWorkers(s, t) && NewWorkers(t, u)
    requires forall id :: id in s.running ==> id in t.running
    requires forall id :: id in t.running ==> id in u.running && u.running[id] == t.running[id]
    ensures NewWorkers(s, u)
  {
    assert u.workers[..|s.workers|] == u.workers[..|t.workers|][..|s.workers|];
    forall w | |s.workers| <= w < |u.workers|
      ensures var id := u.workers[w].id;
              u.workers[w].phase == Spawned && id !in s.running && id in u.running && u.running[id].worker == w
    {
      if w < |t.workers| { assert u.workers[w] == u.workers[..|t.workers|][w]; }
    }
  }

  // What one of two passes did to a task, the other left alone.
  lemma {:induction false} ExplainedTwice(s: State, t: State, u: State, id: TaskId)
    requires Explained(s, t) && Explained(t, u) && id in s.tasks && u.tasks[id] != s.tasks[id]
    ensures InLine(s, id)
    ensures if s.tasks[id].packId in s.registered then StartedThere(s, u, id) else IsUnregistered(s.tasks[id], u.tasks[id])
  {
    hide IsPut, IsUnregistered;
    if t.tasks[id] != s.tasks[id] {
      ChangedNotInLine(s, t, id);
      if StartedThere(s, t, id) {
        assert u.workers[..|t.workers|][t.running[id].worker] == t.workers[t.running[id].worker];
      }
    }
  }

  lemma {:induction false} EntriesTwice(s: State, t: State, u: State, id: TaskId)
    requires Explained(s, t) && Explained(t, u) && id in u.running && id !in s.running
    ensures id in s.tasks && id in u.tasks && u.tasks[id] != s.tasks[id]
  {
    hide NewWorkers, IsPut, IsUnregistered, SameElse;
    assert id in s.tasks;
    if t.tasks[id] != s.tasks[id] { ChangedNotInLine(s, t, id); }
  }

  lemma {:induction false} EntriesStay(s: State, t: State, u: State)
    requires EntriesExplained(s, t) && EntriesExplained(t, u)
    ensures forall id :: id in s.running ==> id in t.running && id in u.running && u.running[id] == s.running[id] == t.running[id]
    ensures forall id :: id in t.running ==> id in u.running && u.running[id] == t.running[id]
  {
  }

  lemma {:induction false} ExplainedChain(s: State, t: State, u: State)
    requires Explained(s, t) && Explained(t, u)
    ensures Explained(s, u)
  {
    EntriesStay(s, t, u);
    hide NewWorkers, StartedThere, InLine, IsPut, IsUnregistered;
    NewWorkersChain(s, t, u);
    assert TasksExplained(s, u) by {
      forall id | id in s.tasks && u.tasks[id] != s.tasks[id]
        ensures InLine(s, id)
        ensures if s.tasks[id].packId in s.registered then StartedThere(s, u, id) else IsUnregistered(s.tasks[id], u.tasks[id])
      {
        ExplainedTwice(s, t, u, id);
      }
    }
    assert EntriesExplained(s, u) by {
      forall id | id in u.running && id !in s.running ensures id in s.tasks && id in u.tasks && u.tasks[id] != s.tasks[id] {
        EntriesTwice(s, t, u, id);
      }
    }
  }

  /** A pass changes a task only if it was in line: it starts one goroutine for it, or fails it for
      want of a registered worker; it drops and changes no entry, and adds none but those. */
  lemma {:induction false} PassExplained(s: State, ids: seq<TaskId>)
    ensures Explained(s, ScheduleAll(s, ids))
    decreases ids
  {
    hide Explained;
    ExplainedSelf(s);
    if ids != [] {
      var s1 := ScheduleIfWaiting(s, ids[0]);
      ExplainedOne(s, ids[0]);
      PassExplained(s1, ids[1..]);
      ExplainedChain(s, s1, ScheduleAll(s1, ids[1..]));
    }
  }
}
