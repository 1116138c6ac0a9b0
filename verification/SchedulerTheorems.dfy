/** Whole-run properties: atomic edits, the stop protocol, and what beginning an operation on a
    startable waiting task does. */
module SchedulerTheorems {
  import opened Sets
  import opened Options
  import opened Tasks
  import opened TaskChanges
  import opened SchedulerState
  import opened SchedulerInvariant
  import opened SchedulerSteps
  import opened SchedulerCalm
  import opened SchedulerMachine
  import opened SchedulerEffects

  // ---- Edits are atomic at their commit ----

  ghost predicate NoCommit(steps: seq<Step>) {
    forall i :: 0 <= i < |steps| ==> !steps[i].EditCommit?
  }

  function PauseAlls(steps: seq<Step>): nat {
    if steps == [] then 0 else (if steps[0].PauseAllStep? then 1 else 0) + PauseAlls(steps[1..])
  }

  // A pass, a limit check and a single attempt leave stopping, the epoch and the history alone.
  lemma {:induction false} PassFrame(s: State, id: TaskId)
    ensures ScheduleOne(s, id).pauseEpoch == s.pauseEpoch && ScheduleOne(s, id).stopping == s.stopping
    ensures ScheduleWaiting(s).pauseEpoch == s.pauseEpoch && ScheduleWaiting(s).stopping == s.stopping
  {
    hide SlotCount;
    PassExtends(s, s.order);
  }

  lemma {:induction false} CalmFrame(s: State, t: State)
    requires Calm(s, t)
    ensures t.pauseEpoch == s.pauseEpoch && t.stopping == s.stopping
  {
  }

  lemma {:induction false} ToggleFrame(s: State, id: TaskId)
    ensures Toggle(s, id).pauseEpoch == s.pauseEpoch && Toggle(s, id).stopping == s.stopping
  {
    hide ScheduleOne;
    if id in s.tasks {
      PassFrame(SetTask(s, id, WithStatus(s.tasks[id], Waiting)), id);
    }
  }

  lemma {:induction false} LockedOut(m: Machine, step: Step)
    requires Enabled(m, step) && !Lockless(step)
    ensures m.lock.StopDraining? ==> step.StopEnd?
    ensures step.RedownloadCommit? || step.RedownloadFail? ==> m.lock.RedownloadReady?
    ensures step.EditRead? ==> m.lock.EditDraining?
    ensures step.EditCommit? ==> m.editor.Editing?
    ensures step.RedownloadRead? ==> m.lock.RedownloadDraining?
    ensures step.EditBegin? ==> m.editor.Idle? && step.id in m.s.tasks
    ensures step.RedownloadBegin? ==> step.id in m.s.tasks
  {
  }

  lemma {:induction false} EpochStep(m: Machine, step: Step)
    requires Good(m.s) && EditorInv(m) && Enabled(m, step)
    ensures Apply(m, step).s.pauseEpoch == if step.PauseAllStep? then (m.s.pauseEpoch + 1) % EPOCHS else m.s.pauseEpoch
    ensures Apply(m, step).s.stopping == (m.s.stopping || step.StopBegin?)
    ensures m.editor.Editing? && !step.EditCommit? ==> Apply(m, step).editor == m.editor
    ensures m.lock.StopDraining? && !step.StopEnd? ==> Apply(m, step).lock == m.lock
  {
    hide Good, ScheduleAll, ScheduleOne, Enabled, Calm, WithStatus, Rewound, EditedTask, AllWaiting, Stopped, CancelAll, Toggle;
    if Lockless(step) {
      LocklessStep(m, step);
      CalmFrame(m.s, Apply(m, step).s);
    } else {
      LockedOut(m, step);
      match step
      case ToggleStep(id) => ToggleFrame(m.s, id);
      case StartAllStep => PassFrame(m.s.(tasks := AllWaiting(m.s.tasks)), TaskId(""));
      case RedownloadCommit(reset) =>
        if m.lock.id in m.s.tasks { PassFrame(SetTask(m.s, m.lock.id, Rewound(m.s.tasks[m.lock.id], reset)), m.lock.id); }
      case EditCommit(outcome) =>
        var e := m.editor;
        if e.id in m.s.tasks { PassFrame(SetTask(m.s, e.id, WithStatus(m.s.tasks[e.id], Waiting)), e.id); }
        if outcome.Edited? { PassFrame(SetTask(m.s, e.id, EditedTask(e.original, outcome.task, e.resume)), e.id); }
      case _ =>
    }
  }

  lemma {:induction false} EditorWaits(m: Machine, steps: seq<Step>)
    requires MachineInv(m) && m.editor.Editing? && Runs(m, steps) && Careful(m, steps) && NoCommit(steps)
    ensures var n := End(m, steps);
            && n.editor == m.editor
            && n.s.pauseEpoch % EPOCHS == (m.s.pauseEpoch + PauseAlls(steps)) % EPOCHS
            && (m.s.pauseEpoch < EPOCHS ==> n.s.pauseEpoch < EPOCHS)
    decreases steps
  {
    hide Good, LockInv, Enabled, Apply, Disciplined;
    if steps != [] {
      EpochStep(m, steps[0]);
      StepKeeps(m, steps[0]);
      EditorWaits(Apply(m, steps[0]), steps[1..]);
    }
  }

  lemma {:induction false} CommitStep(m: Machine, outcome: EditOutcome)
    requires Enabled(m, EditCommit(outcome))
    ensures var e := m.editor;
            e.Editing? && Apply(m, EditCommit(outcome)).s == CommitEdit(m.s, e.id, e.resume, e.original, e.epoch, outcome)
  {
  }

  lemma {:induction false} CommitRefused(s: State, id: TaskId, resume: bool, original: Task, epoch: nat, outcome: EditOutcome)
    requires !EditApplies(s, id, original, epoch)
    ensures CommitEdit(s, id, resume, original, epoch, outcome) == s
  {
  }

  lemma {:induction false} CommitReplaces(s: State, id: TaskId, resume: bool, original: Task, epoch: nat, edit: Task)
    requires Good(s) && EditApplies(s, id, original, epoch) && !Active(original.status)
    ensures var t := CommitEdit(s, id, resume, original, epoch, Edited(edit));
            && !Live(s, id) && EditStored(s, t, id, resume, edit)
            && id in t.tasks && SameIdentity(original, t.tasks[id]) && SameContent(edit, t.tasks[id])
  {
    hide SlotCount, Listing, Attached, LiveSlots, CommitEdit, EditStored, SameContent, SameIdentity;
    EditEffect(s, id, resume, original, epoch, Edited(edit));
    EditedContent(s, CommitEdit(s, id, resume, original, epoch, Edited(edit)), id, resume, edit);
  }

  lemma {:induction false} EpochsAgree(e: nat, n: nat)
    requires e % EPOCHS == (e + n) % EPOCHS
    ensures n % EPOCHS == 0
  {
  }

  /** An edit that returns nil acts at its commit alone: the task it replaces is the one its callback
      was given, the number of PauseAll calls in between is a multiple of 2^64, the task has no live
      worker, and what takes its place is the edit's content under its own identity, paused or given
      to the scheduler to start. An edit that is refused changes nothing. */
  lemma {:induction false} EditIsAtomic(m: Machine, steps: seq<Step>, edit: Task)
    requires MachineInv(m) && m.editor.Editing?
    requires m.editor.id in m.s.tasks && m.editor.original == m.s.tasks[m.editor.id] && m.editor.epoch == m.s.pauseEpoch
    requires Runs(m, steps) && Careful(m, steps) && NoCommit(steps)
    requires Enabled(End(m, steps), EditCommit(Edited(edit)))
    ensures var n, e := End(m, steps), m.editor;
            var n' := Apply(n, EditCommit(Edited(edit)));
            if EditApplies(n.s, e.id, e.original, e.epoch) then
              && n.s.tasks[e.id] == m.s.tasks[e.id]
              && PauseAlls(steps) % EPOCHS == 0
              && !Live(n.s, e.id)
              && EditStored(n.s, n'.s, e.id, e.resume, edit)
              && e.id in n'.s.tasks && SameIdentity(m.s.tasks[e.id], n'.s.tasks[e.id]) && SameContent(edit, n'.s.tasks[e.id])
            else n'.s == n.s
  {
    hide Runs, Careful, End, Good, LockInv, Apply, CommitEdit, EditStored, SameIdentity, SameContent, Live;
    var n, e := End(m, steps), m.editor;
    EditorWaits(m, steps);
    RunKeeps(m, steps);
    CommitStep(n, Edited(edit));
    if EditApplies(n.s, e.id, e.original, e.epoch) {
      CommitReplaces(n.s, e.id, e.resume, e.original, e.epoch, edit);
      EpochsAgree(m.s.pauseEpoch, PauseAlls(steps));
    } else {
      CommitRefused(n.s, e.id, e.resume, e.original, e.epoch, Edited(edit));
    }
  }

  lemma {:induction false} EpochsMeet(e: nat, n: nat, later: nat)
    requires e < EPOCHS && later < EPOCHS && later % EPOCHS == (e + n) % EPOCHS
    ensures later == e <==> n % EPOCHS == 0
  {
    if later == e { EpochsAgree(e, n); }
  }

  /** What an edit notices: it is refused exactly when the scheduler is stopping, the task is gone or
      differs, or PauseAll ran a number of times that is no multiple of 2^64. */
  lemma {:induction false} EditNoticesIff(m: Machine, steps: seq<Step>)
    requires MachineInv(m) && m.editor.Editing? && m.editor.epoch == m.s.pauseEpoch < EPOCHS
    requires Runs(m, steps) && Careful(m, steps) && NoCommit(steps)
    ensures var s, e := End(m, steps).s, m.editor;
            EditApplies(s, e.id, e.original, e.epoch) <==>
              !s.stopping && e.id in s.tasks && s.tasks[e.id] == e.original && PauseAlls(steps) % EPOCHS == 0
  {
    hide Runs, Careful, End, MachineInv, PauseAlls;
    EditorWaits(m, steps);
    EpochsMeet(m.s.pauseEpoch, PauseAlls(steps), End(m, steps).s.pauseEpoch);
  }

  /** Between one and 2^64 - 1 calls of PauseAll during an edit's callback: the edit is refused. */
  lemma {:induction false} PausesAreNoticed(m: Machine, steps: seq<Step>)
    requires MachineInv(m) && m.editor.Editing? && m.editor.epoch == m.s.pauseEpoch < EPOCHS
    requires Runs(m, steps) && Careful(m, steps) && NoCommit(steps) && 0 < PauseAlls(steps) < EPOCHS
    ensures !EditApplies(End(m, steps).s, m.editor.id, m.editor.original, m.editor.epoch)
  {
    hide Runs, Careful, End, MachineInv, PauseAlls, NoCommit;
    EditNoticesIff(m, steps);
  }

  function Pauses(n: nat): seq<Step> {
    if n == 0 then [] else [PauseAllStep] + Pauses(n - 1)
  }

  lemma {:induction false} PauseStep(m: Machine, id: TaskId)
    requires m.lock.Free? && id in m.s.tasks && id !in m.s.running && m.s.tasks[id].status == Paused
    ensures Enabled(m, PauseAllStep)
    ensures var n := Apply(m, PauseAllStep);
            && n.lock.Free? && id in n.s.tasks && id !in n.s.running && n.s.tasks[id] == m.s.tasks[id]
            && n.s.stopping == m.s.stopping
  {
  }

  // Any number of PauseAll calls in a row leaves a paused task that has no entry alone.
  lemma {:induction false} PausesRun(m: Machine, n: nat, id: TaskId)
    requires m.lock.Free? && id in m.s.tasks && id !in m.s.running && m.s.tasks[id].status == Paused
    ensures Runs(m, Pauses(n)) && Careful(m, Pauses(n)) && NoCommit(Pauses(n)) && PauseAlls(Pauses(n)) == n
    ensures var t := End(m, Pauses(n)).s; id in t.tasks && t.tasks[id] == m.s.tasks[id] && t.stopping == m.s.stopping
    decreases n
  {
    hide Enabled, Apply;
    if n > 0 {
      PauseStep(m, id);
      assert Pauses(n)[0] == PauseAllStep && Pauses(n)[1..] == Pauses(n - 1);
      PausesRun(Apply(m, PauseAllStep), n - 1, id);
    }
  }

  /** The case the counter misses: 2^64 calls of PauseAll during an edit's callback go unnoticed. */
  lemma {:induction false} WrappedPausesGoUnnoticed(m: Machine)
    requires MachineInv(m) && m.lock.Free? && m.editor.Editing? && m.editor.epoch == m.s.pauseEpoch < EPOCHS
    requires var e := m.editor;
             e.id in m.s.tasks && e.id !in m.s.running && m.s.tasks[e.id] == e.original && e.original.status == Paused
    requires !m.s.stopping
    ensures var steps, e := Pauses(EPOCHS), m.editor;
            && Runs(m, steps) && Careful(m, steps) && NoCommit(steps) && PauseAlls(steps) == EPOCHS
            && EditApplies(End(m, steps).s, e.id, e.original, e.epoch)
  {
    hide Runs, Careful, End, MachineInv, Pauses, PauseAlls, NoCommit;
    PausesRun(m, EPOCHS, m.editor.id);
    EditNoticesIff(m, Pauses(EPOCHS));
  }

  // ---- The stop protocol ----

  ghost predicate NoStopEnd(steps: seq<Step>) {
    forall i :: 0 <= i < |steps| ==> !steps[i].StopEnd?
  }

  lemma {:induction false} StoppedPass(s: State, ids: seq<TaskId>)
    requires s.stopping
    ensures ScheduleAll(s, ids) == s
    decreases ids
  {
    if ids != [] {
      StoppedPass(s, ids[1..]);
    }
  }

  /** Once the scheduler is stopping it stays so, and no step starts a worker. */
  lemma {:induction false} StoppingStep(m: Machine, step: Step)
    requires MachineInv(m) && Enabled(m, step) && m.s.stopping
    ensures Apply(m, step).s.stopping && |Apply(m, step).s.workers| == |m.s.workers|
  {
    hide Good, Enabled, SlotCount;
    EpochStep(m, step);
    if Lockless(step) {
      LocklessStep(m, step);
    } else {
      LockedOut(m, step);
      if step.StartAllStep? {
        StoppedPass(m.s.(tasks := AllWaiting(m.s.tasks)), m.s.order);
      }
    }
  }

  lemma {:induction false} StoppingRun(m: Machine, steps: seq<Step>)
    requires MachineInv(m) && Runs(m, steps) && Careful(m, steps) && m.s.stopping
    ensures End(m, steps).s.stopping && |End(m, steps).s.workers| == |m.s.workers|
    ensures m.lock.StopDraining? && NoStopEnd(steps) ==> End(m, steps).lock == m.lock
    decreases steps
  {
    hide Good, LockInv, Enabled, Apply, Disciplined;
    if steps != [] {
      EpochStep(m, steps[0]);
      StoppingStep(m, steps[0]);
      StepKeeps(m, steps[0]);
      StoppingRun(Apply(m, steps[0]), steps[1..]);
    }
  }

  lemma {:induction false} ListedMembers(tasks: map<TaskId, Task>, ids: seq<TaskId>, t: Task)
    requires t in Listed(tasks, ids)
    ensures exists id :: id in ids && id in tasks && tasks[id] == t
  {
    if ids[0] in tasks && tasks[ids[0]] == t {
    } else {
      ListedMembers(tasks, ids[1..], t);
    }
  }

  lemma {:induction false} StopSteps(m: Machine)
    requires Enabled(m, StopBegin)
    ensures var b := Apply(m, StopBegin);
            b.s.stopping && b.lock == StopDraining(m.s.tasks.Keys, Entries(m.s)) && |b.s.workers| == |m.s.workers|
  {
  }

  lemma {:induction false} GoodIds(s: State, id: TaskId)
    requires Good(s) && id in s.tasks
    ensures s.tasks[id].id == id
  {
  }

  lemma {:induction false} StopSaves(m: Machine, present: set<TaskId>, draining: set<nat>)
    requires MachineInv(m) && m.lock == StopDraining(present, draining) && Enabled(m, StopEnd)
    ensures var n := Apply(m, StopEnd);
            && n.s.stopping && n.s.workers == m.s.workers
            && (forall w :: 0 <= w < |n.s.workers| ==> n.s.workers[w].phase == Finished)
            && (n.s.hasStore && !n.s.loadFailed ==>
                  && n.s.saved == Listed(n.s.tasks, n.s.order)
                  && forall t :: t in n.s.saved && t.id in present ==> AtRest(t.status))
  {
    hide Good;
    var n := Apply(m, StopEnd);
    forall w: nat | w < |n.s.workers|
      ensures n.s.workers[w].phase == Finished
    {
      assert w in draining ==> Returned(m.s, Some(w));
    }
    forall t | t in Listed(m.s.tasks, m.s.order) && t.id in present
      ensures AtRest(t.status)
    {
      ListedMembers(m.s.tasks, m.s.order, t);
      var id :| id in m.s.tasks && m.s.tasks[id] == t;
      GoodIds(m.s, id);
    }
  }

  /** From the moment StopAll sets stopping to its final save, whatever else happens: no worker
      starts, every worker has returned at the save, and every saved task that was present when
      stopping was set is neither Running, Seeding nor Waiting. */
  lemma {:induction false} StopIsFinal(m: Machine, steps: seq<Step>)
    requires MachineInv(m) && Enabled(m, StopBegin)
    requires Runs(Apply(m, StopBegin), steps) && Careful(Apply(m, StopBegin), steps) && NoStopEnd(steps)
    requires Enabled(End(Apply(m, StopBegin), steps), StopEnd)
    ensures var n := Apply(End(Apply(m, StopBegin), steps), StopEnd);
            && n.s.stopping && |n.s.workers| == |m.s.workers|
            && (forall w :: 0 <= w < |n.s.workers| ==> n.s.workers[w].phase == Finished)
            && (n.s.hasStore && !n.s.loadFailed ==>
                  && n.s.saved == Listed(n.s.tasks, n.s.order)
                  && forall t :: t in n.s.saved && t.id in m.s.tasks ==> AtRest(t.status))
  {
    hide Runs, Careful, End, Good, Apply, Returned;
    var b := Apply(m, StopBegin);
    StopSteps(m);
    StepKeeps(m, StopBegin);
    StoppingRun(b, steps);
    RunKeeps(b, steps);
    var e := End(b, steps);
    StopSaves(e, m.s.tasks.Keys, Entries(m.s));
  }

  // ---- Beginning on a startable waiting task ----

  lemma {:induction false} RoomFor(s: State, id: TaskId)
    requires id in s.tasks && id !in s.running && |s.tasks| <= s.maxRunning
    ensures SlotCount(s) < s.maxRunning
  {
    SubsetSize(SlotIds(s), s.tasks.Keys - {id});
    assert |s.tasks.Keys| == |s.tasks|;
  }

  ghost predicate Startable(s: State, id: TaskId) {
    && id in s.tasks && s.tasks[id].status == Waiting && !Blocked(s, s.tasks[id])
    && id !in s.running && |s.tasks| <= s.maxRunning
  }

  ghost predicate LiveAndActive(s: State, id: TaskId) {
    id in s.running && !s.running[id].cancelled && id in s.tasks && Active(s.tasks[id].status)
  }

  lemma {:induction false} AttemptPassesBy(s: State, other: TaskId, id: TaskId, t: State)
    requires Startable(s, id) && other != id && Attempt(s, other, t)
    ensures Startable(t, id)
  {
    hide SlotCount;
    assert t.tasks.Keys == s.tasks.Keys;
    assert |t.tasks| == |t.tasks.Keys| && |s.tasks| == |s.tasks.Keys|;
  }

  lemma {:induction false} StartsNow(s: State, id: TaskId)
    requires Startable(s, id)
    ensures LiveAndActive(ScheduleIfWaiting(s, id), id)
  {
    hide SlotCount;
    RoomFor(s, id);
  }

  lemma {:induction false} ExtendsLive(s: State, t: State, id: TaskId)
    requires Extends(s, t) && LiveAndActive(s, id)
    ensures LiveAndActive(t, id)
  {
  }

  lemma {:induction false} PassStarts(s: State, ids: seq<TaskId>, id: TaskId)
    requires id in ids && Startable(s, id)
    ensures LiveAndActive(ScheduleAll(s, ids), id)
    decreases ids
  {
    hide Startable, LiveAndActive, SlotCount, Extends;
    var s1 := ScheduleIfWaiting(s, ids[0]);
    if ids[0] == id {
      StartsNow(s, id);
      PassExtends(s1, ids[1..]);
      ExtendsLive(s1, ScheduleAll(s1, ids[1..]), id);
    } else {
      AttemptPassesBy(s, ids[0], id, s1);
      PassStarts(s1, ids[1..], id);
    }
  }

  lemma {:induction false} RaisedLimitStarts(s: State, id: TaskId)
    requires Good(s) && Hazard(s, id)
    ensures var t := SetMax(s, |s.tasks|);
            LiveAndActive(t, id) && t.stopping == s.stopping && t.pauseEpoch == s.pauseEpoch
  {
    hide Agreement, Attached, LiveUsers, ScheduleAll, EnforceFrom;
    var n := |s.tasks|;
    var s1 := s.(maxRunning := n);
    assert n == |s.tasks.Keys|;
    SubsetSize({id}, s.tasks.Keys);
    RoomFor(s1, id);
    assert id in Members(s.order);
    PassStarts(s1, s.order, id);
    PassExtends(s1, s.order);
  }

  // A commit that marks a task with a live entry as waiting breaks the invariant.
  lemma {:induction false} WaitingButLive(s: State, t: State, id: TaskId)
    requires LiveAndActive(s, id) && id in t.tasks && t.tasks[id].status == Waiting && t.running == s.running
    ensures !Good(ScheduleWaiting(t)) && !Good(ScheduleOne(t, id))
  {
    hide SlotCount, ScheduleAll, Listing, Attached, LiveSlots;
    PassExtends(t, t.order);
  }

  // The steps that break the invariant once an operation began on a hazardous task.
  function Ambush(s: State, last: seq<Step>): seq<Step> {
    [SetMaxStep(|s.tasks|)] + last
  }

  lemma {:induction false} RewoundWaits(t: Task, reset: Task)
    ensures Rewound(t, reset).status == Waiting
  {
  }

  lemma {:induction false} ThreeSteps(m: Machine, steps: seq<Step>)
    requires |steps| == 3 && Enabled(m, steps[0]) && Enabled(Apply(m, steps[0]), steps[1])
    requires Enabled(Apply(Apply(m, steps[0]), steps[1]), steps[2])
    requires forall i :: 0 <= i < 3 ==> !steps[i].RedownloadBegin? && !steps[i].EditBegin?
    ensures Runs(m, steps) && Careful(m, steps)
    ensures End(m, steps) == Apply(Apply(Apply(m, steps[0]), steps[1]), steps[2])
  {
    hide Enabled, Apply;
    var n := Apply(m, steps[0]);
    var o := Apply(n, steps[1]);
    assert steps[1..][0] == steps[1] && steps[1..][1..][0] == steps[2];
    assert Runs(Apply(o, steps[2]), steps[1..][1..][1..]);
    assert Runs(o, steps[1..][1..]);
    assert Runs(n, steps[1..]);
    assert Careful(o, steps[1..][1..]) && Careful(n, steps[1..]);
    assert End(o, steps[1..][1..]) == Apply(o, steps[2]);
    assert End(n, steps[1..]) == End(o, steps[1..][1..]);
  }

  lemma {:induction false} RedownloadAmbush(m: Machine, id: TaskId)
    requires MachineInv(m) && m.lock.Free? && Hazard(m.s, id)
    ensures var b := Apply(m, RedownloadBegin(id));
            var steps := Ambush(m.s, [RedownloadRead, RedownloadCommit(m.s.tasks[id])]);
            Runs(b, steps) && Careful(b, steps) && !Good(End(b, steps).s)
  {
    hide SetMax, Good, LockInv, ScheduleAll, Runs, Careful, End, Rewound;
    var b := Apply(m, RedownloadBegin(id));
    var reset := m.s.tasks[id];
    RaisedLimitStarts(m.s, id);
    var c := Machine(SetMax(m.s, |m.s.tasks|), RedownloadDraining(id, None), m.editor);
    assert Apply(b, SetMaxStep(|m.s.tasks|)) == c;
    var d := c.(lock := RedownloadReady(id, None));
    assert Apply(c, RedownloadRead) == d;
    RewoundWaits(d.s.tasks[id], reset);
    WaitingButLive(d.s, SetTask(d.s, id, Rewound(d.s.tasks[id], reset)), id);
    ThreeSteps(b, Ambush(m.s, [RedownloadRead, RedownloadCommit(reset)]));
  }

  // Some careful continuation of m reaches a state that breaks the invariant.
  ghost predicate CanBreak(m: Machine) {
    exists steps :: Runs(m, steps) && Careful(m, steps) && !Good(End(m, steps).s)
  }

  lemma {:induction false} NeverBreaks(m: Machine)
    requires MachineInv(m)
    ensures !CanBreak(m)
  {
    hide Good, LockInv, Runs, Careful, End;
    if CanBreak(m) {
      var steps :| Runs(m, steps) && Careful(m, steps) && !Good(End(m, steps).s);
      RunKeeps(m, steps);
    }
  }

  /** Redownload is safe to begin exactly when its task is not a startable waiting task: then every
      continuation keeps the invariant, and otherwise some continuation breaks it. */
  lemma {:induction false} RedownloadIsSafeIff(m: Machine, id: TaskId)
    requires MachineInv(m) && Enabled(m, RedownloadBegin(id))
    ensures CanBreak(Apply(m, RedownloadBegin(id))) <==> Hazard(m.s, id)
  {
    hide Good, LockInv, Hazard, Runs, Careful, End;
    var b := Apply(m, RedownloadBegin(id));
    if Hazard(m.s, id) {
      RedownloadAmbush(m, id);
    } else {
      StepKeeps(m, RedownloadBegin(id));
      NeverBreaks(b);
    }
  }

  lemma {:induction false} EditedWaits(original: Task, edit: Task)
    ensures EditedTask(original, edit, true).status == Waiting
  {
  }

  lemma {:induction false} EditAmbush(m: Machine, id: TaskId)
    requires MachineInv(m) && Enabled(m, EditBegin(id)) && Hazard(m.s, id)
    ensures var b := Apply(m, EditBegin(id));
            var steps := Ambush(m.s, [EditRead, EditCommit(Edited(m.s.tasks[id]))]);
            Runs(b, steps) && Careful(b, steps) && !Good(End(b, steps).s)
  {
    hide SetMax, Good, LockInv, ScheduleOne, Runs, Careful, End, EditedTask;
    var b := Apply(m, EditBegin(id));
    var edit := m.s.tasks[id];
    RaisedLimitStarts(m.s, id);
    var c := Machine(SetMax(m.s, |m.s.tasks|), EditDraining(id, true, None), Draining);
    assert Apply(b, SetMaxStep(|m.s.tasks|)) == c;
    var d := Machine(c.s, Free, Editing(id, true, c.s.tasks[id], c.s.pauseEpoch));
    assert Apply(c, EditRead) == d;
    EditedWaits(d.s.tasks[id], edit);
    WaitingButLive(d.s, SetTask(d.s, id, EditedTask(d.s.tasks[id], edit, true)), id);
    ThreeSteps(b, Ambush(m.s, [EditRead, EditCommit(Edited(edit))]));
  }

  /** The same holds of EditTask. */
  lemma {:induction false} EditIsSafeIff(m: Machine, id: TaskId)
    requires MachineInv(m) && Enabled(m, EditBegin(id))
    ensures CanBreak(Apply(m, EditBegin(id))) <==> Hazard(m.s, id)
  {
    hide Good, LockInv, Hazard, Runs, Careful, End;
    var b := Apply(m, EditBegin(id));
    if Hazard(m.s, id) {
      EditAmbush(m, id);
    } else {
      StepKeeps(m, EditBegin(id));
      NeverBreaks(b);
    }
  }
}
