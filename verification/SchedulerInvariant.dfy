/** What every reachable scheduler state satisfies, and that each locked stretch keeps it. */
module SchedulerInvariant {
  import opened Sets
  import opened Options
  import opened Tasks
  import opened SchedulerState

  ghost predicate Distinct(ids: seq<TaskId>) {
    forall i, j :: 0 <= i < j < |ids| ==> ids[i] != ids[j]
  }

  function Members(ids: seq<TaskId>): set<TaskId> {
    set id | id in ids
  }

  ghost predicate IsLive(running: map<TaskId, Entry>, id: TaskId) {
    id in running && !running[id].cancelled
  }

  ghost predicate Live(s: State, id: TaskId) {
    IsLive(s.running, id)
  }

  // The order lists every known task exactly once.
  ghost predicate Listing(order: seq<TaskId>, tasks: map<TaskId, Task>) {
    && Distinct(order)
    && Members(order) == tasks.Keys
    && (forall id :: id in tasks ==> tasks[id].id == id)
  }

  // A known task is Running or Seeding exactly when it has an uncancelled entry; entries of
  // removed tasks are cancelled.
  ghost predicate Agreement(tasks: map<TaskId, Task>, running: map<TaskId, Entry>) {
    && (forall id :: id in tasks ==> (Active(tasks[id].status) <==> IsLive(running, id)))
    && (forall id :: id in running && id !in tasks ==> running[id].cancelled)
  }

  ghost predicate EntryFits(id: TaskId, e: Entry, workers: seq<Worker>) {
    e.worker < |workers| && workers[e.worker].id == id
  }

  // An entry names a goroutine of its own task, and every goroutine that has not returned is
  // the one its task's entry names. Only a removed task can have an entry whose goroutine is gone.
  ghost predicate Attached(known: set<TaskId>, running: map<TaskId, Entry>, workers: seq<Worker>) {
    && (forall id :: id in running ==> EntryFits(id, running[id], workers))
    && (forall w :: 0 <= w < |workers| && workers[w].phase != Finished ==>
          workers[w].id in running && running[workers[w].id].worker == w)
    && (forall id :: id in running && id in known ==> workers[running[id].worker].phase != Finished)
  }

  ghost predicate Remembered(tasks: map<TaskId, Task>, running: map<TaskId, Entry>, seen: set<TaskId>) {
    && (forall id :: id in tasks ==> id in seen)
    && (forall id :: id in running ==> id in seen)
  }

  ghost predicate Sound(s: State) {
    && Listing(s.order, s.tasks) && Agreement(s.tasks, s.running)
    && Attached(s.tasks.Keys, s.running, s.workers)
    && Remembered(s.tasks, s.running, s.seen) && s.maxRunning >= 1
  }

  // The tasks that hold a slot through an uncancelled entry.
  function LiveUsers(tasks: map<TaskId, Task>, running: map<TaskId, Entry>): set<TaskId> {
    set id | id in running && !running[id].cancelled && id in tasks && tasks[id].usesSlot
  }

  function LiveSlots(s: State): set<TaskId> {
    LiveUsers(s.tasks, s.running)
  }

  ghost predicate Good(s: State) {
    Sound(s) && |LiveSlots(s)| <= s.maxRunning
  }

  // The fields no scheduling decision changes.
  ghost predicate SameSettings(t: Task, u: Task) {
    && u.id == t.id && u.packId == t.packId && u.title == t.title && u.path == t.path
    && u.usesSlot == t.usesSlot && u.stage.state == t.stage.state
  }

  // What a scheduling pass and a limit check leave alone.
  ghost predicate SameFrame(s: State, t: State) {
    && t.order == s.order && t.tasks.Keys == s.tasks.Keys && t.maxRunning == s.maxRunning
    && t.stopping == s.stopping && t.pauseEpoch == s.pauseEpoch && t.registered == s.registered
    && t.seen == s.seen && t.accepted == s.accepted && t.saved == s.saved && t.loadFailed == s.loadFailed && t.hasStore == s.hasStore
    && (forall id :: id in s.tasks ==> SameSettings(s.tasks[id], t.tasks[id]))
  }

  // No identifier ever has two goroutines inside Run.
  lemma {:induction false} OneWorkerPerTask(s: State, v: nat, w: nat)
    requires Sound(s)
    requires v < |s.workers| && w < |s.workers| && s.workers[v].id == s.workers[w].id
    requires s.workers[v].phase != Finished && s.workers[w].phase != Finished
    ensures v == w
  {
  }

  // ---- Primitive updates ----

  lemma {:induction false} TaskReplaced(s: State, id: TaskId, t: Task)
    requires Sound(s) && id in s.tasks && t.id == id
    requires Active(t.status) <==> Live(s, id)
    ensures Sound(SetTask(s, id, t))
    ensures t.usesSlot == s.tasks[id].usesSlot || !Live(s, id) ==> LiveSlots(SetTask(s, id, t)) == LiveSlots(s)
  {
  }

  lemma {:induction false} AttachedAfterCancel(known: set<TaskId>, running: map<TaskId, Entry>, workers: seq<Worker>, id: TaskId)
    requires Attached(known, running, workers) && id in running
    ensures Attached(known, running[id := running[id].(cancelled := true)], workers)
  {
  }

  lemma {:induction false} LiveAfterCancel(tasks: map<TaskId, Task>, running: map<TaskId, Entry>, id: TaskId, t: Task, e: Entry)
    requires id in tasks && id in running && e.cancelled
    ensures LiveUsers(tasks[id := t], running[id := e]) == LiveUsers(tasks, running) - {id}
  {
  }

  lemma {:induction false} PausedAndCancelled(s: State, id: TaskId, t: Task)
    requires Sound(s) && id in s.tasks && id in s.running
    requires t.id == id && t.status == Paused && t.usesSlot == s.tasks[id].usesSlot
    ensures Sound(Cancel(SetTask(s, id, t), id))
    ensures LiveSlots(Cancel(SetTask(s, id, t), id)) == LiveSlots(s) - {id}
  {
    hide Distinct, Members, Attached, LiveUsers;
    LiveAfterCancel(s.tasks, s.running, id, t, s.running[id].(cancelled := true));
    AttachedAfterCancel(s.tasks.Keys, s.running, s.workers, id);
    assert s.tasks[id := t].Keys == s.tasks.Keys;
  }

  lemma {:induction false} LiveAfterStart(tasks: map<TaskId, Task>, running: map<TaskId, Entry>, id: TaskId, t: Task, e: Entry)
    requires id in tasks && id !in running && !e.cancelled && t.usesSlot == tasks[id].usesSlot
    ensures LiveUsers(tasks[id := t], running[id := e]) == LiveUsers(tasks, running) + (if t.usesSlot then {id} else {})
  {
  }

  // A scheduling pass only adds entries: nothing is cancelled, and a task that had an entry
  // keeps its value.
  ghost predicate Extends(s: State, t: State) {
    && SameFrame(s, t)
    && (forall k :: k in s.running ==> k in t.running && t.running[k] == s.running[k])
    && (forall k :: k in s.tasks && k in s.running ==> t.tasks[k] == s.tasks[k])
  }

  lemma {:induction false} StartAttached(known: set<TaskId>, running: map<TaskId, Entry>, workers: seq<Worker>, id: TaskId)
    requires Attached(known, running, workers) && id !in running
    ensures Attached(known, running[id := Entry(|workers|, false)], workers + [Worker(id, Spawned)])
  {
    var grown := workers + [Worker(id, Spawned)];
    assert forall w :: 0 <= w < |workers| ==> grown[w] == workers[w];
    assert grown[|workers|] == Worker(id, Spawned);
  }

  lemma {:induction false} StartedOne(s: State, id: TaskId)
    requires Sound(s) && id in s.tasks && id !in s.running
    ensures Sound(Start(s, id))
  {
    hide Attached, Distinct, Members;
    StartAttached(s.tasks.Keys, s.running, s.workers, id);
    assert Start(s, id).tasks.Keys == s.tasks.Keys;
  }

  // The three things one scheduling attempt can do.
  ghost predicate Attempt(s: State, id: TaskId, t: State) {
    || t == s
    || (id in s.tasks && id !in s.running &&
        (|| (t == Start(s, id) && (s.tasks[id].usesSlot ==> SlotCount(s) < s.maxRunning))
         || t == SetTask(s, id, s.tasks[id].(status := Failed, error := "worker not registered"))))
  }

  lemma {:induction false} AttemptMade(s: State, id: TaskId)
    ensures Attempt(s, id, ScheduleOne(s, id))
  {
  }

  lemma {:induction false} NotLive(s: State, id: TaskId)
    requires Sound(s) && id in s.tasks && id !in s.running
    ensures s.tasks[id].id == id && !Live(s, id)
  {
  }

  lemma {:induction false} AttemptKeeps(s: State, id: TaskId, t: State)
    requires Good(s) && Attempt(s, id, t)
    ensures Good(t)
  {
    hide Sound;
    if t != s {
      if t == Start(s, id) {
        StartedOne(s, id);
        LiveAfterStart(s.tasks, s.running, id, t.tasks[id], t.running[id]);
        SubsetSize(LiveSlots(s), SlotIds(s));
      } else {
        NotLive(s, id);
        TaskReplaced(s, id, t.tasks[id]);
      }
    }
  }

  lemma {:induction false} StartExtends(s: State, id: TaskId)
    requires id in s.tasks && id !in s.running
    ensures Extends(s, Start(s, id))
  {
  }

  lemma {:induction false} FailureExtends(s: State, id: TaskId)
    requires id in s.tasks && id !in s.running
    ensures Extends(s, SetTask(s, id, s.tasks[id].(status := Failed, error := "worker not registered")))
  {
  }

  lemma {:induction false} ExtendsSelf(s: State)
    ensures Extends(s, s)
  {
  }

  lemma {:induction false} AttemptExtends(s: State, id: TaskId, t: State)
    requires Attempt(s, id, t)
    ensures Extends(s, t)
  {
    hide SlotCount, Extends;
    if t == s {
      ExtendsSelf(s);
    } else if t == Start(s, id) {
      StartExtends(s, id);
    } else {
      FailureExtends(s, id);
    }
  }

  lemma {:induction false} ScheduledOne(s: State, id: TaskId)
    requires Good(s)
    ensures Good(ScheduleOne(s, id)) && Extends(s, ScheduleOne(s, id))
  {
    var t := ScheduleOne(s, id);
    assert Attempt(s, id, t);
    AttemptKeeps(s, id, t);
    AttemptExtends(s, id, t);
  }

  lemma {:induction false} ExtendsChain(s: State, t: State, u: State)
    requires Extends(s, t) && Extends(t, u)
    ensures Extends(s, u)
  {
  }

  // The same holds of a pass over any state, sound or not.
  lemma {:induction false} PassExtends(s: State, ids: seq<TaskId>)
    ensures Extends(s, ScheduleAll(s, ids))
    decreases ids
  {
    hide Extends, SlotCount;
    ExtendsSelf(s);
    if ids != [] {
      var s1 := ScheduleIfWaiting(s, ids[0]);
      AttemptExtends(s, ids[0], s1);
      PassExtends(s1, ids[1..]);
      ExtendsChain(s, s1, ScheduleAll(s1, ids[1..]));
    }
  }

  lemma {:induction false} ScheduledAll(s: State, ids: seq<TaskId>)
    requires Good(s)
    ensures Good(ScheduleAll(s, ids)) && Extends(s, ScheduleAll(s, ids))
    decreases ids
  {
    hide Good, Extends, ScheduleOne;
    PassExtends(s, ids);
    if ids != [] {
      ScheduledOne(s, ids[0]);
      ScheduledAll(ScheduleIfWaiting(s, ids[0]), ids[1..]);
    }
  }

  // What a limit check does: some tasks are stopped, no entry comes or goes.
  ghost predicate Trims(s: State, t: State) {
    && SameFrame(s, t) && t.running.Keys == s.running.Keys && t.workers == s.workers
    && (forall k :: k in s.tasks && t.tasks[k] != s.tasks[k] ==> t.tasks[k] == Stopped(s.tasks[k]))
  }

  lemma {:induction false} TrimsSelf(s: State)
    ensures Trims(s, s)
  {
  }

  lemma {:induction false} TrimsChain(s: State, t: State, u: State)
    requires Trims(s, t) && Trims(t, u)
    ensures Trims(s, u)
  {
  }

  lemma {:induction false} TrimmedOne(s: State, id: TaskId)
    requires id in s.tasks && id in s.running
    ensures Trims(s, PauseAndCancel(s, id))
  {
  }

  // How many live slot users lie outside the rest of the list, after one step of the limit check.
  lemma {:induction false} PassedOver(live: set<TaskId>, ids: seq<TaskId>, kept: nat)
    requires ids != [] && |live - Members(ids)| <= kept
    ensures |live - Members(ids[1..])| <= kept + 1
    ensures |(live - {ids[0]}) - Members(ids[1..])| <= kept
    ensures ids[0] !in live ==> |live - Members(ids[1..])| <= kept
  {
    var rest := live - Members(ids);
    assert Members(ids) == Members(ids[1..]) + {ids[0]};
    SubsetSize(live - Members(ids[1..]), rest + {ids[0]});
    assert (live - {ids[0]}) - Members(ids[1..]) == rest;
    if ids[0] !in live {
      assert live - {ids[0]} == live;
    }
  }

  lemma {:induction false} KnownId(s: State, id: TaskId)
    requires Sound(s) && id in s.tasks
    ensures s.tasks[id].id == id
  {
  }

  lemma {:induction false} EnforceStep(s: State, ids: seq<TaskId>, kept: nat)
    requires Sound(s) && ids != [] && |LiveSlots(s) - Members(ids)| <= kept
    ensures !TakesSlot(s, ids[0]) ==> |LiveSlots(s) - Members(ids[1..])| <= kept
    ensures |LiveSlots(s) - Members(ids[1..])| <= kept + 1
    ensures TakesSlot(s, ids[0]) ==> |LiveSlots(PauseAndCancel(s, ids[0])) - Members(ids[1..])| <= kept
    ensures TakesSlot(s, ids[0]) ==> Sound(PauseAndCancel(s, ids[0]))
  {
    hide Sound, Members;
    PassedOver(LiveSlots(s), ids, kept);
    if TakesSlot(s, ids[0]) {
      KnownId(s, ids[0]);
      PausedAndCancelled(s, ids[0], Stopped(s.tasks[ids[0]]));
    }
  }

  lemma {:induction false} AllListed(s: State, ids: seq<TaskId>, kept: nat)
    requires Sound(s) && ids == [] && |LiveSlots(s) - Members(ids)| <= kept <= s.maxRunning
    ensures Good(s)
  {
    assert LiveSlots(s) - Members(ids) == LiveSlots(s);
  }

  lemma {:induction false} TrimsLimit(s: State, t: State)
    requires Trims(s, t)
    ensures t.maxRunning == s.maxRunning
  {
  }

  // Soundness alone is enough: enforcing the limit is what restores the bound.
  lemma {:induction false} EnforcedFrom(s: State, ids: seq<TaskId>, kept: nat)
    requires Sound(s) && Distinct(ids) && kept <= s.maxRunning
    requires |LiveSlots(s) - Members(ids)| <= kept
    ensures Good(EnforceFrom(s, ids, kept)) && Trims(s, EnforceFrom(s, ids, kept))
    decreases ids
  {
    hide Sound, Good, Trims, LiveSlots, Members, PauseAndCancel;
    if ids == [] {
      AllListed(s, ids, kept);
      TrimsSelf(s);
    } else {
      EnforceStep(s, ids, kept);
      var s1 := if TakesSlot(s, ids[0]) && kept >= s.maxRunning then PauseAndCancel(s, ids[0]) else s;
      var kept1 := if TakesSlot(s, ids[0]) && kept < s.maxRunning then kept + 1 else kept;
      if s1 == s { TrimsSelf(s); } else { TrimmedOne(s, ids[0]); }
      assert s1.maxRunning == s.maxRunning by { TrimsLimit(s, s1); }
      EnforcedFrom(s1, ids[1..], kept1);
      TrimsChain(s, s1, EnforceFrom(s1, ids[1..], kept1));
    }
  }

  lemma {:induction false} WithinLimit(s: State)
    requires Sound(s) && SlotCount(s) <= s.maxRunning
    ensures Good(s)
  {
    hide Sound;
    SubsetSize(LiveSlots(s), SlotIds(s));
  }

  lemma {:induction false} WholeOrder(s: State)
    requires Sound(s)
    ensures Distinct(s.order) && |LiveSlots(s) - Members(s.order)| == 0
  {
    hide Distinct, Agreement, Attached, Remembered;
    assert LiveSlots(s) - Members(s.order) == {};
  }

  lemma {:induction false} EnforcedAll(s: State)
    requires Sound(s)
    ensures Good(Enforce(s)) && Trims(s, Enforce(s))
  {
    hide Sound, Good, Trims, LiveSlots, Members, Distinct, SlotCount;
    if SlotCount(s) <= s.maxRunning {
      WithinLimit(s);
      TrimsSelf(s);
    } else {
      WholeOrder(s);
      EnforcedFrom(s, s.order, 0);
    }
  }
}
