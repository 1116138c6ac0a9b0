/** The scheduler's locked state as a value, and what each stretch of code that holds `mu`
    does to it. */
module SchedulerState {
  import opened Options
  import opened Tasks

  // A map entry of `running`: which goroutine it stands for, and whether its context was cancelled.
  datatype Entry = Entry(worker: nat, cancelled: bool)

  // A worker goroutine: started, inside Run, or returned (its done channel is closed).
  datatype Phase = Spawned | InRun | Finished
  datatype Worker = Worker(id: TaskId, phase: Phase)

  // History no operation reads: `workers` holds every goroutine ever started, `seen` every
  // identifier ever given to Add or Load, `accepted` every FTP directory task granted its output.
  datatype State = State(
    tasks: map<TaskId, Task>, order: seq<TaskId>, running: map<TaskId, Entry>,
    maxRunning: nat, stopping: bool, pauseEpoch: nat, hasStore: bool, loadFailed: bool,
    saved: seq<Task>, registered: set<string>, workers: seq<Worker>,
    seen: set<TaskId>, accepted: set<TaskId>)

  const EPOCHS: nat := 0x1_0000_0000_0000_0000

  predicate Active(st: Status) {
    st == Running || st == Seeding
  }

  function WithStatus(t: Task, st: Status): Task {
    t.(status := st, stage := t.stage.(status := st))
  }

  // Paused, with both speeds back at zero.
  function Stopped(t: Task): Task {
    t.(status := Paused, speed := 0, stage := t.stage.(status := Paused, speed := 0))
  }

  function SetTask(s: State, id: TaskId, t: Task): State {
    s.(tasks := s.tasks[id := t])
  }

  function Cancel(s: State, id: TaskId): State
    requires id in s.running
  {
    s.(running := s.running[id := s.running[id].(cancelled := true)])
  }

  // The entries runningSlotCountLocked counts: cancelled ones too, removed tasks never.
  function SlotIds(s: State): set<TaskId> {
    set id | id in s.running && id in s.tasks && s.tasks[id].usesSlot
  }

  function SlotCount(s: State): nat {
    |SlotIds(s)|
  }

  function Start(s: State, id: TaskId): State
    requires id in s.tasks
  {
    s.(running := s.running[id := Entry(|s.workers|, false)],
       tasks := s.tasks[id := WithStatus(s.tasks[id], Running)],
       workers := s.workers + [Worker(id, Spawned)])
  }

  function ScheduleOne(s: State, id: TaskId): State {
    if s.stopping || id !in s.tasks || id in s.running then s
    else
      var t := s.tasks[id];
      if Active(t.status) || t.status == Completed then s
      else if t.usesSlot && SlotCount(s) >= s.maxRunning then s
      else if t.packId !in s.registered then SetTask(s, id, t.(status := Failed, error := "worker not registered"))
      else Start(s, id)
  }

  function ScheduleIfWaiting(s: State, id: TaskId): State {
    if id in s.tasks && s.tasks[id].status == Waiting then ScheduleOne(s, id) else s
  }

  function ScheduleAll(s: State, ids: seq<TaskId>): State
    decreases ids
  {
    if ids == [] then s else ScheduleAll(ScheduleIfWaiting(s, ids[0]), ids[1..])
  }

  function ScheduleWaiting(s: State): State {
    ScheduleAll(s, s.order)
  }

  predicate TakesSlot(s: State, id: TaskId) {
    id in s.running && id in s.tasks && s.tasks[id].usesSlot
  }

  function PauseAndCancel(s: State, id: TaskId): State
    requires id in s.tasks && id in s.running
  {
    Cancel(SetTask(s, id, Stopped(s.tasks[id])), id)
  }

  // Keeps the first maxRunning slot entries in list order and cancels the others.
  function EnforceFrom(s: State, ids: seq<TaskId>, kept: nat): State
    decreases ids
  {
    if ids == [] then s
    else if !TakesSlot(s, ids[0]) then EnforceFrom(s, ids[1..], kept)
    else if kept < s.maxRunning then EnforceFrom(s, ids[1..], kept + 1)
    else EnforceFrom(PauseAndCancel(s, ids[0]), ids[1..], kept)
  }

  function Enforce(s: State): State {
    if SlotCount(s) <= s.maxRunning then s else EnforceFrom(s, s.order, 0)
  }

  // ---- Public operations, one function a locked stretch ----

  function ReservedOutputs(s: State): set<Path> {
    set id | id in s.tasks :: Fold(OutputFile(s.tasks[id]))
  }

  function Append(s: State, t: Task): State {
    s.(tasks := s.tasks[t.id := t], order := s.order + [t.id], seen := s.seen + {t.id})
  }

  function Grant(s: State, t: Task): State {
    if IsFtpDirectory(t) then s.(accepted := s.accepted + {t.id}) else s
  }

  function AddTask(s: State, t: Task, fs: FileSystem): State {
    match Prepare(t, ReservedOutputs(s), fs)
    case Rejected(reason) =>
      Append(s, t.(status := Failed, error := reason, stage := t.stage.(status := Failed, error := reason)))
    case Accepted(p) =>
      var p := if t.status == Waiting && p.status == Paused then WithStatus(p, Waiting) else p;
      var s1 := Grant(Append(s, p), p);
      if p.status != Paused then ScheduleOne(s1, p.id) else s1
  }

  function Rested(t: Task): Task {
    if Active(t.status) then Stopped(t) else t
  }

  // Stops at the first task whose output is refused.
  function LoadTasks(s: State, ts: seq<Task>, fs: FileSystem): State
    decreases ts
  {
    if ts == [] then s
    else
      match Prepare(ts[0], ReservedOutputs(s), fs)
      case Rejected(_) => s.(loadFailed := true)
      case Accepted(p) =>
        LoadTasks(Grant(Append(s, Rested(p)), p), ts[1..], fs)
  }

  datatype Stored = ReadError | Read(tasks: seq<Task>)

  function Load(s: State, stored: Stored, fs: FileSystem): State {
    if !s.hasStore then s
    else match stored
      case ReadError => s.(loadFailed := true)
      case Read(ts) => LoadTasks(s.(loadFailed := false), ts, fs)
  }

  function SetMax(s: State, n: int): State {
    ScheduleWaiting(Enforce(s.(maxRunning := if n <= 0 then 1 else n)))
  }

  // None is the error return, which leaves the state alone.
  function Toggle(s: State, id: TaskId): State {
    if id !in s.tasks then s
    else
      var t := s.tasks[id];
      if Active(t.status) && id in s.running then PauseAndCancel(s, id)
      else if t.status == Waiting then SetTask(s, id, Stopped(t))
      else if t.status == Completed then s
      else ScheduleOne(SetTask(s, id, WithStatus(t, Waiting)), id)
  }

  function AllWaiting(tasks: map<TaskId, Task>): map<TaskId, Task> {
    map id | id in tasks ::
      if tasks[id].status == Paused || tasks[id].status == Waiting then WithStatus(tasks[id], Waiting) else tasks[id]
  }

  function StartEvery(s: State): State {
    ScheduleWaiting(s.(tasks := AllWaiting(s.tasks)))
  }

  function CancelAll(running: map<TaskId, Entry>): map<TaskId, Entry> {
    map id | id in running :: running[id].(cancelled := true)
  }

  function PauseEvery(s: State): State {
    s.(pauseEpoch := (s.pauseEpoch + 1) % EPOCHS,
       running := CancelAll(s.running),
       tasks := map id | id in s.tasks ::
         if id in s.running || s.tasks[id].status == Waiting then Stopped(s.tasks[id]) else s.tasks[id])
  }

  // The list without the first occurrence of id.
  function Without(ids: seq<TaskId>, id: TaskId): seq<TaskId> {
    if ids == [] then [] else if ids[0] == id then ids[1..] else [ids[0]] + Without(ids[1..], id)
  }

  function RemoveTask(s: State, id: TaskId): State {
    if id !in s.tasks then s
    else
      var s1 := if id in s.running then Cancel(s, id) else s;
      ScheduleWaiting(s1.(tasks := s1.tasks - {id}, order := Without(s1.order, id)))
  }

  function BeginRedownload(s: State, id: TaskId): State {
    if id in s.tasks && id in s.running then Cancel(SetTask(s, id, WithStatus(s.tasks[id], Paused)), id) else s
  }

  // `reset` is the task copy after CleanupFiles and the pack's own reset.
  function Rewound(t: Task, reset: Task): Task {
    t.(status := Waiting, received := 0, speed := 0, progress := 0.0, detail := "", error := "",
       fileSize := reset.fileSize, usesSlot := reset.usesSlot,
       stage := t.stage.(status := Waiting, received := 0, speed := 0, progress := 0.0, error := "",
                         state := reset.stage.state, fileSize := reset.stage.fileSize))
  }

  function CommitRedownload(s: State, id: TaskId, reset: Task): State {
    if s.stopping || id !in s.tasks then s
    else ScheduleWaiting(SetTask(s, id, Rewound(s.tasks[id], reset)))
  }

  function BeginEdit(s: State, id: TaskId): State {
    if id in s.tasks && id in s.running then PauseAndCancel(s, id) else s
  }

  function EditedTask(original: Task, edited: Task, resume: bool): Task {
    WithStatus(
      edited.(id := original.id, createdAt := original.createdAt, packId := original.packId, speed := 0, error := "",
              stage := edited.stage.(speed := 0, error := "")),
      if resume then Waiting else Paused)
  }

  datatype EditOutcome = EditFailed | Edited(task: Task)

  predicate EditApplies(s: State, id: TaskId, original: Task, epoch: nat) {
    !s.stopping && id in s.tasks && s.pauseEpoch == epoch && s.tasks[id] == original
  }

  function CommitEdit(s: State, id: TaskId, resume: bool, original: Task, epoch: nat, outcome: EditOutcome): State {
    if !EditApplies(s, id, original, epoch) then s
    else match outcome
      case EditFailed =>
        if resume then ScheduleOne(SetTask(s, id, WithStatus(s.tasks[id], Waiting)), id) else s
      case Edited(t) =>
        var s1 := SetTask(s, id, EditedTask(original, t, resume));
        if resume then ScheduleOne(s1, id) else s1
  }

  function BeginStop(s: State): State {
    s.(stopping := true, running := CancelAll(s.running),
       tasks := map id | id in s.tasks ::
         if Active(s.tasks[id].status) || s.tasks[id].status == Waiting then Stopped(s.tasks[id]) else s.tasks[id])
  }

  function Listed(tasks: map<TaskId, Task>, ids: seq<TaskId>): seq<Task> {
    if ids == [] then []
    else (if ids[0] in tasks then [tasks[ids[0]]] else []) + Listed(tasks, ids[1..])
  }

  function Save(s: State): State {
    if !s.hasStore || s.loadFailed then s else s.(saved := Listed(s.tasks, s.order))
  }

  function TimerSave(s: State): State {
    if s.stopping then s else Save(s)
  }

  // ---- Worker goroutines ----

  datatype Update = Update(
    received: int, fileSize: int, speed: int, progress: real, detail: string,
    status: Option<Status>, stageState: map<string, string>, usesSlot: Option<bool>)

  function Reported(t: Task, u: Update): Task {
    var st := if u.status.Some? && Active(t.status) then u.status.value else t.status;
    var stageSt := if u.status.Some? && Active(t.status) then u.status.value else t.stage.status;
    t.(received := u.received,
       fileSize := if u.fileSize > 0 then u.fileSize else t.fileSize,
       speed := u.speed, progress := u.progress,
       detail := if u.detail != "" then u.detail else t.detail,
       status := st,
       usesSlot := if u.usesSlot.Some? then u.usesSlot.value else t.usesSlot,
       stage := t.stage.(status := stageSt, received := u.received, speed := u.speed, progress := u.progress,
                         fileSize := if u.fileSize > 0 then u.fileSize else t.stage.fileSize,
                         state := t.stage.state + u.stageState))
  }

  function Report(s: State, id: TaskId, u: Update): State {
    if id !in s.tasks then s
    else
      var previous := s.tasks[id].usesSlot;
      var s1 := SetTask(s, id, Reported(s.tasks[id], u));
      var now := s1.tasks[id].usesSlot;
      if previous && !now then ScheduleWaiting(s1)
      else if !previous && now then Enforce(s1)
      else s1
  }

  function SetPhase(s: State, w: nat, p: Phase): State
    requires w < |s.workers|
  {
    s.(workers := s.workers[w := s.workers[w].(phase := p)])
  }

  // The goroutine looks its task up before calling Run; a removed task ends it at once and
  // leaves its `running` entry behind.
  function BeginRun(s: State, w: nat): State
    requires w < |s.workers|
  {
    SetPhase(s, w, if s.workers[w].id in s.tasks then InRun else Finished)
  }

  datatype Outcome = Succeeded | WasCanceled | Broke(error: string)

  function Ended(t: Task, o: Outcome): Task {
    match o
    case Succeeded =>
      WithStatus(t, Completed).(progress := 100.0, speed := 0,
        stage := t.stage.(status := Completed, progress := 100.0, speed := 0))
    case WasCanceled => if Active(t.status) then WithStatus(t, Paused) else t
    case Broke(e) => WithStatus(t, Failed).(error := e, stage := t.stage.(status := Failed, error := e))
  }

  function Exit(s: State, w: nat, o: Outcome): State
    requires w < |s.workers|
  {
    var id := s.workers[w].id;
    var s1 := SetPhase(s, w, Finished).(running := s.running - {id});
    if id !in s.tasks then s1
    else ScheduleWaiting(SetTask(s1, id, Ended(s1.tasks[id], o)))
  }
}
