/** The scheduler as a machine: the locked state, the holder of the edit lock, and the edit whose
    callback is running. A step is one stretch of code that holds `mu`. */
module SchedulerMachine {
  import opened Options
  import opened Tasks
  import opened SchedulerState
  import opened SchedulerInvariant
  import opened SchedulerSteps
  import opened SchedulerCalm

  // Who holds editMu between two locked stretches. `done` is the goroutine being waited for.
  datatype Lock =
    | Free
    | RedownloadDraining(id: TaskId, done: Option<nat>)
    | RedownloadReady(id: TaskId, done: Option<nat>)
    | EditDraining(id: TaskId, resume: bool, done: Option<nat>)
    | StopDraining(present: set<TaskId>, draining: set<nat>)

  // Who holds editSerialMu: nobody, an edit that still holds editMu, or an edit in its callback.
  datatype Editor = Idle | Draining | Editing(id: TaskId, resume: bool, original: Task, epoch: nat)

  datatype Machine = Machine(s: State, lock: Lock, editor: Editor)

  datatype Step =
    | LoadStep(stored: Stored, fs: FileSystem)
    | SetMaxStep(max: int)
    | AddStep(task: Task, fs: FileSystem)
    | ToggleStep(id: TaskId)
    | StartAllStep
    | PauseAllStep
    | RemoveStep(id: TaskId)
    | RedownloadBegin(id: TaskId)
    | RedownloadRead
    | RedownloadFail
    | RedownloadCommit(reset: Task)
    | EditBegin(id: TaskId)
    | EditRead
    | EditCommit(outcome: EditOutcome)
    | StopBegin
    | StopEnd
    | TimerStep
    | WorkerBegin(w: nat)
    | WorkerReport(w: nat, update: Update)
    | WorkerExit(w: nat, end: Outcome)

  function Initial(max: int, registered: set<string>, hasStore: bool): Machine {
    Machine(
      State(map[], [], map[], if max <= 0 then 3 else max, false, 0, hasStore, false, [], registered, [], {}, {}),
      Free, Idle)
  }

  function EntryOf(s: State, id: TaskId): Option<nat> {
    if id in s.running then Some(s.running[id].worker) else None
  }

  ghost predicate Returned(s: State, done: Option<nat>) {
    done.Some? ==> done.value < |s.workers| && s.workers[done.value].phase == Finished
  }

  // What the environment may do, and what the locks allow.
  ghost predicate Enabled(m: Machine, step: Step) {
    match step
    case LoadStep(stored, _) => stored.Read? ==> AllUnknown(m.s, stored.tasks)
    case AddStep(t, _) => Unknown(m.s, t.id) && !Active(t.status)
    case SetMaxStep(_) | RemoveStep(_) | TimerStep => true
    case ToggleStep(_) | StartAllStep | PauseAllStep | StopBegin => m.lock.Free?
    case RedownloadBegin(id) => m.lock.Free? && id in m.s.tasks
    case RedownloadRead => m.lock.RedownloadDraining? && Returned(m.s, m.lock.done)
    case RedownloadFail => m.lock.RedownloadReady?
    case RedownloadCommit(_) => m.lock.RedownloadReady?
    case EditBegin(id) => m.lock.Free? && m.editor.Idle? && id in m.s.tasks
    case EditRead => m.lock.EditDraining? && Returned(m.s, m.lock.done)
    case EditCommit(_) => m.lock.Free? && m.editor.Editing?
    case StopEnd => m.lock.StopDraining? && forall w :: w in m.lock.draining ==> Returned(m.s, Some(w))
    case WorkerBegin(w) => w < |m.s.workers| && m.s.workers[w].phase == Spawned
    case WorkerReport(w, u) =>
      w < |m.s.workers| && m.s.workers[w].phase == InRun && (u.status.Some? ==> Active(u.status.value))
    case WorkerExit(w, _) => w < |m.s.workers| && m.s.workers[w].phase == InRun
  }

  // The goroutines StopAll waits for.
  function Entries(s: State): set<nat> {
    set id | id in s.running :: s.running[id].worker
  }

  function Apply(m: Machine, step: Step): Machine
    requires Enabled(m, step)
  {
    var s := m.s;
    match step
    case LoadStep(stored, fs) => m.(s := Load(s, stored, fs))
    case SetMaxStep(n) => m.(s := SetMax(s, n))
    case AddStep(t, fs) => m.(s := AddTask(s, t, fs))
    case ToggleStep(id) => m.(s := Toggle(s, id))
    case StartAllStep => m.(s := StartEvery(s))
    case PauseAllStep => m.(s := PauseEvery(s))
    case RemoveStep(id) => m.(s := RemoveTask(s, id))
    case RedownloadBegin(id) =>
      m.(s := BeginRedownload(s, id), lock := RedownloadDraining(id, EntryOf(s, id)))
    case RedownloadRead =>
      m.(lock := if m.lock.id in s.tasks then RedownloadReady(m.lock.id, m.lock.done) else Free)
    case RedownloadFail => m.(lock := Free)
    case RedownloadCommit(reset) => m.(s := CommitRedownload(s, m.lock.id, reset), lock := Free)
    case EditBegin(id) =>
      m.(s := BeginEdit(s, id), editor := Draining,
         lock := EditDraining(id, s.tasks[id].status != Paused && s.tasks[id].status != Canceled, EntryOf(s, id)))
    case EditRead =>
      if s.stopping || m.lock.id !in s.tasks then m.(lock := Free, editor := Idle)
      else m.(lock := Free, editor := Editing(m.lock.id, m.lock.resume, s.tasks[m.lock.id], s.pauseEpoch))
    case EditCommit(outcome) =>
      var e := m.editor;
      m.(s := CommitEdit(s, e.id, e.resume, e.original, e.epoch, outcome), editor := Idle)
    case StopBegin => m.(s := BeginStop(s), lock := StopDraining(s.tasks.Keys, Entries(s)))
    case StopEnd => m.(s := Save(s), lock := Free)
    case TimerStep => m.(s := TimerSave(s))
    case WorkerBegin(w) => m.(s := BeginRun(s, w))
    case WorkerReport(w, u) => m.(s := Report(s, s.workers[w].id, u))
    case WorkerExit(w, o) => m.(s := Exit(s, w, o))
  }

  // A waiting task that a freed slot can start behind the back of the operation that begins on it.
  ghost predicate Hazard(s: State, id: TaskId) {
    && id in s.tasks && s.tasks[id].status == Waiting && id !in s.running
    && !Blocked(s, s.tasks[id])
  }

  ghost predicate Disciplined(m: Machine, step: Step) {
    && (step.RedownloadBegin? ==> !Hazard(m.s, step.id))
    && (step.EditBegin? ==> !Hazard(m.s, step.id))
  }

  // ---- The machine's invariant ----

  // The task an operation began on cannot start, and its only entry is the one being drained.
  ghost predicate HeldAsleep(s: State, id: TaskId, done: Option<nat>) {
    && id in s.seen
    && (id in s.tasks ==> Asleep(s, s.tasks[id]))
    && (id in s.running ==> done == Some(s.running[id].worker))
  }

  ghost predicate AtRest(st: Status) {
    !Active(st) && st != Waiting
  }

  ghost predicate StopHolds(s: State, present: set<TaskId>, draining: set<nat>) {
    && s.stopping && present <= s.seen
    && (forall id :: id in present && id in s.tasks ==> AtRest(s.tasks[id].status))
    && (forall w :: 0 <= w < |s.workers| && s.workers[w].phase != Finished ==> w in draining)
  }

  ghost predicate LockInv(s: State, lock: Lock) {
    match lock
    case Free => true
    case RedownloadDraining(id, done) => HeldAsleep(s, id, done)
    case RedownloadReady(id, done) => HeldAsleep(s, id, done) && Returned(s, done)
    case EditDraining(id, _, done) => HeldAsleep(s, id, done)
    case StopDraining(present, draining) => StopHolds(s, present, draining)
  }

  ghost predicate EditorInv(m: Machine) {
    && (m.editor.Draining? <==> m.lock.EditDraining?)
    && (m.editor.Editing? ==> !Active(m.editor.original.status) && m.editor.original.id == m.editor.id)
  }

  ghost predicate MachineInv(m: Machine) {
    Good(m.s) && LockInv(m.s, m.lock) && EditorInv(m)
  }

  lemma {:induction false} InitialHolds(max: int, registered: set<string>, hasStore: bool)
    ensures MachineInv(Initial(max, registered, hasStore))
  {
    var s := Initial(max, registered, hasStore).s;
    assert LiveSlots(s) == {};
    assert Members(s.order) == s.tasks.Keys;
  }

  // ---- Steps that do not take the edit lock ----

  ghost predicate Lockless(step: Step) {
    || step.LoadStep? || step.SetMaxStep? || step.AddStep? || step.RemoveStep? || step.TimerStep?
    || step.WorkerBegin? || step.WorkerReport? || step.WorkerExit?
  }

  lemma {:induction false} LocklessStep(m: Machine, step: Step)
    requires Good(m.s) && Enabled(m, step) && Lockless(step)
    ensures var m' := Apply(m, step); Good(m'.s) && Calm(m.s, m'.s) && m'.lock == m.lock && m'.editor == m.editor
  {
    hide Calm, Listing, Agreement, Attached, LiveSlots, AddTask, SetMax, RemoveTask, Report, Exit, BeginRun, LoadTasks;
    var s := m.s;
    match step
    case LoadStep(stored, fs) =>
      CalmSelf(s);
      if s.hasStore {
        CalmIgnores(s, s.(loadFailed := stored.ReadError?));
        GoodIgnores(s, s.(loadFailed := stored.ReadError?));
        if stored.Read? {
          LoadKeeps(s.(loadFailed := false), stored.tasks, fs);
          CalmLoad(s.(loadFailed := false), stored.tasks, fs);
          CalmChain(s, s.(loadFailed := false), Load(s, stored, fs));
        }
      }
    case SetMaxStep(n) => SetMaxKeeps(s, n); CalmSetMax(s, n);
    case AddStep(t, fs) => AddKeeps(s, t, fs); CalmAdd(s, t, fs);
    case RemoveStep(id) => RemoveKeeps(s, id); CalmRemove(s, id);
    case TimerStep =>
      GoodIgnores(s, TimerSave(s));
      CalmIgnores(s, TimerSave(s));
    case WorkerBegin(w) => BeginRunKeeps(s, w); CalmBeginRun(s, w);
    case WorkerReport(w, u) => ReportKeeps(s, s.workers[w].id, u); CalmReport(s, s.workers[w].id, u);
    case WorkerExit(w, o) => ExitKeeps(s, w, o); CalmExit(s, w, o);
  }

  lemma {:induction false} CalmKeepsHeld(s: State, t: State, id: TaskId, done: Option<nat>)
    requires Calm(s, t) && HeldAsleep(s, id, done)
    ensures HeldAsleep(t, id, done)
    ensures Returned(s, done) ==> Returned(t, done)
  {
  }

  lemma {:induction false} CalmKeepsStop(s: State, t: State, present: set<TaskId>, draining: set<nat>)
    requires Calm(s, t) && StopHolds(s, present, draining)
    ensures StopHolds(t, present, draining)
  {
    forall w | 0 <= w < |t.workers| && t.workers[w].phase != Finished
      ensures w in draining
    {
      assert s.workers[w].phase != Finished;
    }
  }

  lemma {:induction false} CalmKeepsLock(s: State, t: State, lock: Lock)
    requires Calm(s, t) && LockInv(s, lock)
    ensures LockInv(t, lock)
  {
    hide Calm, HeldAsleep, StopHolds, Returned;
    match lock
    case Free =>
    case RedownloadDraining(id, done) => CalmKeepsHeld(s, t, id, done);
    case RedownloadReady(id, done) => CalmKeepsHeld(s, t, id, done);
    case EditDraining(id, _, done) => CalmKeepsHeld(s, t, id, done);
    case StopDraining(present, draining) => CalmKeepsStop(s, t, present, draining);
  }

  // ---- Steps of the operations that take it ----

  lemma {:induction false} BeginHolds(s: State, id: TaskId)
    requires Good(s) && id in s.tasks && !Hazard(s, id)
    ensures HeldAsleep(BeginRedownload(s, id), id, EntryOf(s, id))
    ensures HeldAsleep(BeginEdit(s, id), id, EntryOf(s, id))
  {
    hide Listing, Attached, LiveSlots;
  }

  lemma {:induction false} StopBegins(s: State)
    requires Good(s)
    ensures StopHolds(BeginStop(s), s.tasks.Keys, Entries(s))
  {
    hide Listing, Agreement, LiveSlots;
    var t := BeginStop(s);
    forall w | 0 <= w < |t.workers| && t.workers[w].phase != Finished
      ensures w in Entries(s)
    {
      assert s.running[s.workers[w].id].worker == w;
    }
  }

  lemma {:induction false} HeldFacts(s: State, id: TaskId, done: Option<nat>)
    requires Good(s) && HeldAsleep(s, id, done)
    ensures id in s.tasks ==> !Active(s.tasks[id].status) && s.tasks[id].id == id
  {
  }

  lemma {:induction false} LockStep(m: Machine, step: Step)
    requires MachineInv(m) && Enabled(m, step) && Disciplined(m, step) && !Lockless(step)
    ensures MachineInv(Apply(m, step))
  {
    hide Good, HeldAsleep, StopHolds, Hazard, BeginRedownload, BeginEdit, CommitEdit, CommitRedownload, Toggle, StartEvery, PauseEvery, BeginStop;
    var s := m.s;
    match step
    case ToggleStep(id) => ToggleKeeps(s, id);
    case StartAllStep => StartEveryKeeps(s);
    case PauseAllStep => PauseEveryKeeps(s);
    case RedownloadBegin(id) => BeginKeeps(s, id); BeginHolds(s, id);
    case RedownloadRead =>
    case RedownloadFail =>
    case RedownloadCommit(reset) => HeldFacts(s, m.lock.id, m.lock.done); CommitRedownloadKeeps(s, m.lock.id, reset);
    case EditBegin(id) => BeginKeeps(s, id); BeginHolds(s, id);
    case EditRead => HeldFacts(s, m.lock.id, m.lock.done);
    case EditCommit(outcome) =>
      CommitEditKeeps(s, m.editor.id, m.editor.resume, m.editor.original, m.editor.epoch, outcome);
    case StopBegin => BeginStopKeeps(s); StopBegins(s);
    case StopEnd => GoodIgnores(s, Save(s));
    case LoadStep(_, _) | SetMaxStep(_) | AddStep(_, _) | RemoveStep(_) | TimerStep
      | WorkerBegin(_) | WorkerReport(_, _) | WorkerExit(_, _) =>
  }

  /** Every step keeps the machine's invariant, provided Redownload and EditTask do not begin on
      a startable waiting task. */
  lemma {:induction false} StepKeeps(m: Machine, step: Step)
    requires MachineInv(m) && Enabled(m, step) && Disciplined(m, step)
    ensures MachineInv(Apply(m, step))
  {
    hide Good, Calm, LockInv, Enabled, Apply, Disciplined;
    if Lockless(step) {
      LocklessStep(m, step);
      CalmKeepsLock(m.s, Apply(m, step).s, m.lock);
    } else {
      LockStep(m, step);
    }
  }

  // ---- Runs ----

  ghost predicate Runs(m: Machine, steps: seq<Step>)
    decreases steps
  {
    steps == [] || (Enabled(m, steps[0]) && Runs(Apply(m, steps[0]), steps[1..]))
  }

  ghost predicate Careful(m: Machine, steps: seq<Step>)
    requires Runs(m, steps)
    decreases steps
  {
    steps == [] || (Disciplined(m, steps[0]) && Careful(Apply(m, steps[0]), steps[1..]))
  }

  ghost function End(m: Machine, steps: seq<Step>): Machine
    requires Runs(m, steps)
    decreases steps
  {
    if steps == [] then m else End(Apply(m, steps[0]), steps[1..])
  }

  lemma {:induction false} RunKeeps(m: Machine, steps: seq<Step>)
    requires MachineInv(m) && Runs(m, steps) && Careful(m, steps)
    ensures MachineInv(End(m, steps))
    decreases steps
  {
    hide MachineInv, Enabled, Apply, Disciplined;
    if steps != [] {
      StepKeeps(m, steps[0]);
      RunKeeps(Apply(m, steps[0]), steps[1..]);
    }
  }

  /** In every reachable state: a known task is Running or Seeding exactly when it has an
      uncancelled entry, entries of removed tasks are cancelled, no identifier has two goroutines
      inside Run, and at most maxRunning uncancelled entries use a slot. */
  lemma {:induction false} ReachableStates(max: int, registered: set<string>, hasStore: bool, steps: seq<Step>)
    requires Runs(Initial(max, registered, hasStore), steps)
    requires Careful(Initial(max, registered, hasStore), steps)
    ensures var s := End(Initial(max, registered, hasStore), steps).s;
            && (forall id :: id in s.tasks ==>
                  (s.tasks[id].status == Running || s.tasks[id].status == Seeding <==>
                   id in s.running && !s.running[id].cancelled))
            && (forall id :: id in s.running && id !in s.tasks ==> s.running[id].cancelled)
            && (forall v, w :: 0 <= v < w < |s.workers| && s.workers[v].phase == InRun && s.workers[w].phase == InRun ==>
                  s.workers[v].id != s.workers[w].id)
            && |set id | id in s.running && !s.running[id].cancelled && id in s.tasks && s.tasks[id].usesSlot| <= s.maxRunning
  {
    InitialHolds(max, registered, hasStore);
    RunKeeps(Initial(max, registered, hasStore), steps);
  }

  /** While Redownload deletes the files, no goroutine of the task is alive. */
  lemma {:induction false} CleanupIsExclusive(m: Machine)
    requires MachineInv(m) && m.lock.RedownloadReady?
    ensures forall w :: 0 <= w < |m.s.workers| && m.s.workers[w].id == m.lock.id ==> m.s.workers[w].phase == Finished
  {
  }
}
