/** An FTP directory task as a whole: the output directory with its owner file, which the first
    run makes and every later one checks; the runs over the manifest behind that; and what a new
    start of the program does about a directory whose owner file was never finished. */
module FtpRoot {
  import opened Options
  import opened Files
  import opened Text
  import opened Trees
  import opened FtpManifest
  import opened FtpTree
  import opened FtpPublish
  import opened FtpVisit
  import opened FtpRuns
  import opened FtpClash
  import Tasks

  // The output directory, and what the owner file in it says, if there is one.
  datatype Root = NoRoot | RootDir(owner: Option<string>)

  datatype Ground = Ground(o: Outcome, root: Root, w: World)

  predicate IsOwned(root: Root, id: string) {
    root.RootDir? && root.owner.Some? && Trim(root.owner.value) == id
  }

  // A run can make the directory, or finds its own.
  predicate IsOpen(root: Root, id: string) {
    root.NoRoot? || IsOwned(root, id)
  }

  // ---- prepareDirectoryRoot ----

  // Make the directory, then create, write and close the owner file.
  function MakeRoot(w: World, id: string): Ground {
    var (o1, w1) := Try(w);
    if o1 != Done then Ground(o1, NoRoot, w1)
    else
      var (o2, w2) := Try(w1);
      if o2 != Done then Ground(o2, RootDir(None), w2)
      else
        var (flt, w3) := Next(w2);
        var root := RootDir(Some((id + "\n")[..Reached(flt, |id| + 1)]));
        if flt.Dies? then Ground(Dead, root, w3)
        else
          var (o4, w4) := Try(w3);
          Ground(if flt.Fails? && o4 == Done then Error else o4, root, w4)
  }

  function CheckRoot(root: Root, w: World, id: string): Ground
    requires root.RootDir?
  {
    var (o1, w1) := Try(w);
    if o1 != Done then Ground(o1, root, w1)
    else if root.owner.None? then Ground(Error, root, w1)
    else
      var (o2, w2) := Try(w1);
      if o2 != Done then Ground(o2, root, w2)
      else Ground(if Trim(root.owner.value) == id then Done else Error, root, w2)
  }

  // From the folder of the task to the two directories opened for the run.
  function PrepareRoot(root: Root, w: World, id: string): Ground {
    var (o1, w1) := Try(w);
    if o1 != Done then Ground(o1, root, w1)
    else
      var (o2, w2) := Try(w1);
      if o2 != Done then Ground(o2, root, w2)
      else
        var g := if root.NoRoot? then MakeRoot(w2, id) else CheckRoot(root, w2, id);
        if g.o != Done then g
        else
          var (o3, w3) := Try(g.w);
          if o3 != Done then Ground(o3, g.root, w3)
          else
            var (o4, w4) := Try(w3);
            Ground(o4, g.root, w4)
  }

  // ---- The life of a task ----

  // `moved`: the output is the one named after the task's identifier. `refused`: the saved task
  // is refused when the program starts, which then goes no further.
  datatype Site = Site(root: Root, moved: bool, refused: bool, world: World)

  // One run, with what its preparation and the entries meet; or a new start of the program.
  datatype Event = Run(prep: seq<Fault>, plans: seq<Plan>) | Restart

  function Begin(moved: bool): Site {
    Site(NoRoot, moved, false, NOTHING)
  }

  // The loop over the manifest only starts on a prepared directory.
  function RunTask(s: Site, items: seq<Item>, id: string, prep: seq<Fault>, plans: seq<Plan>, digest: seq<Byte> -> string): (Outcome, Site)
    requires Apart(items)
  {
    var g := PrepareRoot(s.root, s.world.(faults := prep), id);
    if g.o != Done then (g.o, s.(root := g.root))
    else
      var (o, w) := RunFrom(s.world, items, 0, plans, digest);
      (o, s.(root := g.root, world := w))
  }

  // A task whose directory is not its own is moved to the directory named after it, once.
  function Restarted(s: Site, id: string): Site {
    if s.refused || IsOpen(s.root, id) then s
    else if !s.moved then Site(NoRoot, true, false, s.world.(output := map[]))
    else s.(refused := true)
  }

  // A process that dies is followed by another.
  function Happen(s: Site, items: seq<Item>, id: string, e: Event, digest: seq<Byte> -> string): Site
    requires Apart(items)
  {
    if s.refused then s
    else
      match e
      case Restart => Restarted(s, id)
      case Run(prep, plans) =>
        var (o, t) := RunTask(s, items, id, prep, plans, digest);
        if o == Dead then Restarted(t, id) else t
  }

  function Later(s: Site, items: seq<Item>, id: string, events: seq<Event>, digest: seq<Byte> -> string): Site
    requires Apart(items)
    decreases events
  {
    if events == [] then s
    else Later(Happen(s, items, id, events[0], digest), items, id, events[1..], digest)
  }

  // A run from here ends well and leaves every entry in place.
  ghost predicate Publishes(s: Site, items: seq<Item>, id: string, prep: seq<Fault>, plans: seq<Plan>, digest: seq<Byte> -> string)
    requires Apart(items)
  {
    && !s.refused
    && var (o, t) := RunTask(s, items, id, prep, plans, digest);
       o == Done && ReadyUpTo(t.world, items, |items|, digest)
  }

  ghost predicate Plain(id: string) {
    forall i :: 0 <= i < |id| ==> !IsSpace(id[i])
  }

  // ---- What a preparation leaves ----

  function Fate(prep: seq<Fault>, i: nat): Fault {
    if i < |prep| then prep[i] else Works
  }

  // The preparation gets as far as making the directory.
  predicate Makes(prep: seq<Fault>) {
    Fate(prep, 0).Works? && Fate(prep, 1).Works? && Fate(prep, 2).Works?
  }

  // It stops between making the directory and the end of the identifier in the owner file.
  predicate Strands(prep: seq<Fault>, id: string) {
    Makes(prep) && (!Fate(prep, 3).Works? || (!Fate(prep, 4).Works? && Fate(prep, 4).reached < |id|))
  }

  predicate NoneStrands(events: seq<Event>, id: string) {
    forall i :: 0 <= i < |events| && events[i].Run? ==> !Strands(events[i].prep, id)
  }

  lemma {:induction false} TrimShortens(s: string)
    ensures |TrimLeft(s)| <= |s| && |TrimRight(s)| <= |s|
    decreases |s|
  {
    if s != "" {
      TrimShortens(s[1..]);
      TrimShortens(s[..|s| - 1]);
    }
  }

  lemma {:induction false} PlainTrims(id: string)
    requires Plain(id)
    ensures Trim(id) == id
  {
    assert id != "" ==> !IsSpace(id[0]) && !IsSpace(id[|id| - 1]);
  }

  // What is written of the owner file names the task as soon as the identifier is complete.
  lemma {:induction false} WrittenOwner(id: string, n: nat)
    requires Plain(id) && n <= |id| + 1
    ensures Trim((id + "\n")[..n]) == id <==> n >= |id|
  {
    var line := id + "\n";
    if n < |id| {
      TrimShortens(line[..n]);
      TrimShortens(TrimLeft(line[..n]));
    } else if n == |id| {
      assert line[..n] == id;
      PlainTrims(id);
    } else {
      assert line[..n] == line;
      MarkerReadsBack(id);
    }
  }

  lemma {:induction false} NextIs(w: World, k: nat)
    ensures Next(w).0 == Fate(w.faults, 0) && Fate(Next(w).1.faults, k) == Fate(w.faults, k + 1)
  {
  }

  // What the owner file is made of, by the fates of its two operations.
  lemma {:induction false} MakingSteps(w: World, id: string)
    requires Plain(id)
    ensures var g := MakeRoot(w, id);
            && (g.root.RootDir? <==> Fate(w.faults, 0).Works?)
            && (IsOwned(g.root, id) <==>
                  && Fate(w.faults, 0).Works? && Fate(w.faults, 1).Works?
                  && (Fate(w.faults, 2).Works? || Fate(w.faults, 2).reached >= |id|))
            && (g.o == Done ==> IsOwned(g.root, id))
  {
    hide Trim;
    var w1 := Next(w).1;
    var w2 := Next(w1).1;
    NextIs(w, 0);
    NextIs(w, 1);
    NextIs(w1, 0);
    NextIs(w2, 0);
    WrittenOwner(id, Reached(Next(w2).0, |id| + 1));
  }

  lemma {:induction false} NoRootIsNotOwned(id: string)
    ensures !IsOwned(NoRoot, id)
  {
  }

  /** The first preparation leaves no directory, an owned one or a stranded one, according to
      where it stops. */
  lemma {:induction false} FirstPreparation(w: World, id: string)
    requires Plain(id)
    ensures var g := PrepareRoot(NoRoot, w, id);
            && (g.root.RootDir? <==> Makes(w.faults))
            && (IsOpen(g.root, id) <==> !Strands(w.faults, id))
            && (g.o == Done ==> IsOwned(g.root, id))
  {
    hide Trim, MakeRoot, IsOwned;
    var w1 := Next(w).1;
    var w2 := Next(w1).1;
    NextIs(w, 0);
    NextIs(w, 1);
    NextIs(w, 2);
    NextIs(w, 3);
    NextIs(w1, 0);
    NextIs(w1, 1);
    NextIs(w1, 2);
    NextIs(w1, 3);
    MakingSteps(w2, id);
    NoRootIsNotOwned(id);
  }

  /** A later preparation changes nothing, and succeeds only on the task's own directory. */
  lemma {:induction false} LaterPreparation(root: Root, w: World, id: string)
    requires root.RootDir?
    ensures var g := PrepareRoot(root, w, id);
            g.root == root && (g.o == Done ==> IsOwned(root, id))
  {
    hide Trim;
  }

  lemma {:induction false} WorkingMake(w: World, id: string)
    requires AllWork(w.faults)
    ensures MakeRoot(w, id).o == Done && AllWork(MakeRoot(w, id).w.faults)
  {
    hide Trim, AllWork, Try, Next;
    var w1 := Try(w).1;
    var w2 := Try(w1).1;
    TryWorks(w);
    TryWorks(w1);
    NextWorks(w2);
    TryWorks(Next(w2).1);
  }

  lemma {:induction false} WorkingCheck(root: Root, w: World, id: string)
    requires root.RootDir? && AllWork(w.faults)
    ensures var g := CheckRoot(root, w, id);
            AllWork(g.w.faults) && (g.o == Done <==> IsOwned(root, id))
  {
    hide Trim, AllWork, Try;
    TryWorks(w);
    TryWorks(Try(w).1);
  }

  /** Where everything works, the preparation succeeds exactly on a directory that is open. */
  lemma {:induction false} WorkingPreparation(root: Root, w: World, id: string)
    requires Plain(id) && AllWork(w.faults)
    ensures PrepareRoot(root, w, id).o == Done <==> IsOpen(root, id)
  {
    hide Trim, AllWork, Try, Next;
    var w1 := Try(w).1;
    var w2 := Try(w1).1;
    TryWorks(w);
    TryWorks(w1);
    if root.NoRoot? {
      WorkingMake(w2, id);
    } else {
      WorkingCheck(root, w2, id);
    }
    var g := if root.NoRoot? then MakeRoot(w2, id) else CheckRoot(root, w2, id);
    TryWorks(g.w);
    TryWorks(Try(g.w).1);
  }

  // ---- Runs behind the preparation ----

  // The runs of a history that got to the manifest.
  function Reaching(s: Site, items: seq<Item>, id: string, events: seq<Event>, digest: seq<Byte> -> string): seq<seq<Plan>>
    requires Apart(items)
    decreases events
  {
    if events == [] then []
    else
      var e := events[0];
      var rest := Reaching(Happen(s, items, id, e, digest), items, id, events[1..], digest);
      if e.Run? && PrepareRoot(s.root, s.world.(faults := e.prep), id).o == Done then [e.plans] + rest else rest
  }

  // One event on an open directory, if it is no run that strands it.
  lemma {:induction false} OpenStep(s: Site, items: seq<Item>, id: string, e: Event, digest: seq<Byte> -> string)
    requires Apart(items) && Plain(id) && !s.refused && IsOpen(s.root, id)
    requires e.Run? && s.root.NoRoot? ==> !Strands(e.prep, id)
    ensures var t := Happen(s, items, id, e, digest);
            && !t.refused && t.moved == s.moved && IsOpen(t.root, id)
            && (if e.Run? && PrepareRoot(s.root, s.world.(faults := e.prep), id).o == Done
                then t.world == RunFrom(s.world, items, 0, e.plans, digest).1 else t.world == s.world)
  {
    hide PrepareRoot, RunFrom, Strands, IsOwned;
    if e.Run? {
      var w := s.world.(faults := e.prep);
      if s.root.NoRoot? { FirstPreparation(w, id); } else { LaterPreparation(s.root, w, id); }
    }
  }

  lemma {:induction false} OpenHistory(s: Site, items: seq<Item>, id: string, events: seq<Event>, digest: seq<Byte> -> string)
    requires Apart(items) && Plain(id) && !s.refused && IsOpen(s.root, id)
    requires NoneStrands(events, id)
    ensures var t := Later(s, items, id, events, digest);
            && !t.refused && t.moved == s.moved && IsOpen(t.root, id)
            && t.world == After(s.world, items, Reaching(s, items, id, events, digest), digest)
    decreases events
  {
    hide Happen, RunFrom, PrepareRoot, Strands, IsOpen;
    if events != [] {
      var e, rest := events[0], events[1..];
      OpenStep(s, items, id, e, digest);
      assert NoneStrands(rest, id) by { assert forall i :: 0 <= i < |rest| ==> rest[i] == events[i + 1]; }
      var t := Happen(s, items, id, e, digest);
      OpenHistory(t, items, id, rest, digest);
      var more := Reaching(t, items, id, rest, digest);
      if e.Run? { assert ([e.plans] + more)[1..] == more; }
    }
  }

  // ---- Which tasks are published in the end ----

  // A new output directory takes nothing away from the entries' soundness.
  lemma {:induction false} EmptiedSound(w: World, items: seq<Item>, digest: seq<Byte> -> string)
    requires Apart(items) && Sound(w, items, digest)
    ensures Sound(w.(output := map[]), items, digest)
  {
    hide PartKey, MarkerKey, TempKey, MarkerOk;
    var u := w.(output := map[]);
    forall i | 0 <= i < |items| ensures EntrySound(u, items[i], digest) {
      assert EntrySound(w, items[i], digest);
    }
  }

  lemma {:induction false} NothingReady(w: World, items: seq<Item>, digest: seq<Byte> -> string)
    requires Apart(items)
    ensures ReadyUpTo(w, items, 0, digest)
  {
  }

  lemma {:induction false} HappenSound(s: Site, items: seq<Item>, id: string, e: Event, digest: seq<Byte> -> string)
    requires Injective(digest) && Apart(items) && NoClash(items) && Sound(s.world, items, digest)
    ensures Sound(Happen(s, items, id, e, digest).world, items, digest)
  {
    hide Sound, NoClash, RunFrom, PrepareRoot, IsOpen;
    EmptiedSound(s.world, items, digest);
    if e.Run? {
      NothingReady(s.world, items, digest);
      RunSound(s.world, items, 0, e.plans, digest);
      var t := RunTask(s, items, id, e.prep, e.plans, digest).1;
      EmptiedSound(t.world, items, digest);
    }
  }

  lemma {:induction false} LaterSound(s: Site, items: seq<Item>, id: string, events: seq<Event>, digest: seq<Byte> -> string)
    requires Injective(digest) && Apart(items) && NoClash(items) && Sound(s.world, items, digest)
    ensures Sound(Later(s, items, id, events, digest).world, items, digest)
    decreases events
  {
    hide Sound, NoClash, Happen;
    if events != [] {
      HappenSound(s, items, id, events[0], digest);
      LaterSound(Happen(s, items, id, events[0], digest), items, id, events[1..], digest);
    }
  }

  // With nothing in each other's way, only the directory can stand in the way of a run.
  lemma {:induction false} SoundPublishes(s: Site, items: seq<Item>, id: string, prep: seq<Fault>, plans: seq<Plan>, digest: seq<Byte> -> string)
    requires Injective(digest) && Apart(items) && NoClash(items) && Plain(id) && Sound(s.world, items, digest)
    requires AllWork(prep) && UndisturbedRun(s.world, plans, items)
    ensures Publishes(s, items, id, prep, plans, digest) <==> !s.refused && IsOpen(s.root, id)
  {
    hide Sound, NoClash, RunFrom, PrepareRoot, IsOpen, AllWork, ReadyUpTo, UndisturbedRun;
    WorkingPreparation(s.root, s.world.(faults := prep), id);
    NothingReady(s.world, items, digest);
    assert items[0..] == items;
    RunSound(s.world, items, 0, plans, digest);
  }

  /** After any history, the preparations and new starts of the program included, an undisturbed
      run of a task whose entries are out of each other's way publishes all of it if and only if
      the task still loads and its directory is missing or has its own owner file. */
  lemma {:induction false} PublishesIffOpen(items: seq<Item>, id: string, moved: bool, events: seq<Event>,
      prep: seq<Fault>, plans: seq<Plan>, digest: seq<Byte> -> string)
    requires Injective(digest) && Apart(items) && NoClash(items) && Plain(id)
    requires AllWork(prep) && UndisturbedRun(Later(Begin(moved), items, id, events, digest).world, plans, items)
    ensures var s := Later(Begin(moved), items, id, events, digest);
            Publishes(s, items, id, prep, plans, digest) <==> !s.refused && IsOpen(s.root, id)
  {
    hide Sound, NoClash, Later, Publishes, IsOpen, AllWork, UndisturbedRun;
    NothingIsSound(items, digest);
    LaterSound(Begin(moved), items, id, events, digest);
    SoundPublishes(Later(Begin(moved), items, id, events, digest), items, id, prep, plans, digest);
  }

  // ---- One process ----

  predicate Alive(prep: seq<Fault>) {
    forall i :: 0 <= i < |prep| ==> !prep[i].Dies?
  }

  // No new start, and no preparation the process does not survive.
  predicate OneProcess(events: seq<Event>) {
    forall i :: 0 <= i < |events| ==> events[i].Run? && Alive(events[i].prep)
  }

  // The first run that makes the directory strands it.
  predicate Stranded(events: seq<Event>, id: string)
    requires OneProcess(events)
    decreases events
  {
    events != [] && if Makes(events[0].prep) then Strands(events[0].prep, id) else Stranded(events[1..], id)
  }

  lemma {:induction false} TryAlive(w: World)
    ensures Alive(w.faults) ==> Try(w).0 != Dead && !Next(w).0.Dies? && Alive(Next(w).1.faults) && Alive(Try(w).1.faults)
  {
  }

  lemma {:induction false} MakeAlive(w: World, id: string)
    requires Alive(w.faults)
    ensures MakeRoot(w, id).o != Dead && Alive(MakeRoot(w, id).w.faults)
  {
    hide Try, Next, Alive;
    var w1 := Try(w).1;
    var w2 := Try(w1).1;
    TryAlive(w);
    TryAlive(w1);
    TryAlive(w2);
    TryAlive(Next(w2).1);
  }

  lemma {:induction false} CheckAlive(root: Root, w: World, id: string)
    requires root.RootDir? && Alive(w.faults)
    ensures CheckRoot(root, w, id).o != Dead && Alive(CheckRoot(root, w, id).w.faults)
  {
    hide Try, Alive, Trim;
    TryAlive(w);
    TryAlive(Try(w).1);
  }

  lemma {:induction false} PrepareAlive(root: Root, w: World, id: string)
    requires Alive(w.faults)
    ensures PrepareRoot(root, w, id).o != Dead
  {
    hide Try, Alive, MakeRoot, CheckRoot;
    var w1 := Try(w).1;
    var w2 := Try(w1).1;
    TryAlive(w);
    TryAlive(w1);
    if root.NoRoot? { MakeAlive(w2, id); } else { CheckAlive(root, w2, id); }
    var g := if root.NoRoot? then MakeRoot(w2, id) else CheckRoot(root, w2, id);
    TryAlive(g.w);
    TryAlive(Try(g.w).1);
  }

  // A run in the same process: the first that makes the directory decides.
  lemma {:induction false} ProcessStep(s: Site, items: seq<Item>, id: string, prep: seq<Fault>, plans: seq<Plan>, digest: seq<Byte> -> string)
    requires Apart(items) && Plain(id) && !s.refused && Alive(prep)
    ensures var t := Happen(s, items, id, Run(prep, plans), digest);
            && !t.refused && (s.root.RootDir? ==> t.root == s.root)
            && (s.root.NoRoot? ==> (t.root.RootDir? <==> Makes(prep)) && (IsOpen(t.root, id) <==> !Strands(prep, id)))
  {
    hide PrepareRoot, RunFrom, Strands, Makes, IsOwned, Alive;
    var w := s.world.(faults := prep);
    PrepareAlive(s.root, w, id);
    if s.root.NoRoot? { FirstPreparation(w, id); } else { LaterPreparation(s.root, w, id); }
  }

  lemma {:induction false} StrandsMakes(prep: seq<Fault>, id: string)
    ensures Strands(prep, id) ==> Makes(prep)
  {
  }

  lemma {:induction false} ProcessHistory(s: Site, items: seq<Item>, id: string, events: seq<Event>, digest: seq<Byte> -> string)
    requires Apart(items) && Plain(id) && !s.refused && OneProcess(events)
    ensures var t := Later(s, items, id, events, digest);
            && !t.refused
            && (IsOpen(t.root, id) <==> if s.root.NoRoot? then !Stranded(events, id) else IsOpen(s.root, id))
    decreases events
  {
    hide Happen, Strands, Makes, IsOwned, Alive;
    if events != [] {
      var rest := events[1..];
      assert OneProcess(rest) by { assert forall i :: 0 <= i < |rest| ==> rest[i] == events[i + 1]; }
      ProcessStep(s, items, id, events[0].prep, events[0].plans, digest);
      ProcessHistory(Happen(s, items, id, events[0], digest), items, id, rest, digest);
      StrandsMakes(events[0].prep, id);
    }
  }

  /** As long as the process lives: an undisturbed run publishes all if and only if the first run
      that made the directory did not stop before the identifier was in its owner file. */
  lemma {:induction false} ProcessPublishesIff(items: seq<Item>, id: string, moved: bool, events: seq<Event>,
      prep: seq<Fault>, plans: seq<Plan>, digest: seq<Byte> -> string)
    requires Injective(digest) && Apart(items) && NoClash(items) && Plain(id) && OneProcess(events)
    requires AllWork(prep) && UndisturbedRun(Later(Begin(moved), items, id, events, digest).world, plans, items)
    ensures Publishes(Later(Begin(moved), items, id, events, digest), items, id, prep, plans, digest) <==> !Stranded(events, id)
  {
    hide NoClash, Later, Publishes, IsOpen, AllWork, UndisturbedRun, OneProcess, Stranded;
    PublishesIffOpen(items, id, moved, events, prep, plans, digest);
    ProcessHistory(Begin(moved), items, id, events, digest);
  }

  /** The failing history: the owner file cannot be created once. No later run of the process
      publishes anything, whatever the manifest. */
  lemma {:induction false} StrandedExample(items: seq<Item>, id: string, moved: bool, plans: seq<Plan>, events: seq<Event>,
      prep: seq<Fault>, last: seq<Plan>, digest: seq<Byte> -> string)
    requires Apart(items) && Plain(id) && id != "" && OneProcess(events) && AllWork(prep)
    ensures var history := [Run([Works, Works, Works, Fails(0)], plans)] + events;
            OneProcess(history) && !Publishes(Later(Begin(moved), items, id, history, digest), items, id, prep, last, digest)
  {
    var first := Run([Works, Works, Works, Fails(0)], plans);
    var history := [first] + events;
    assert Makes(first.prep) && Strands(first.prep, id) && Alive(first.prep);
    hide Later, IsOpen, Makes, Strands, AllWork, Alive, PrepareRoot;
    ProcessHistory(Begin(moved), items, id, history, digest);
    var s := Later(Begin(moved), items, id, history, digest);
    WorkingPreparation(s.root, s.world.(faults := prep), id);
  }

  // ---- A new start of the program ----

  /** A stranded task is moved when the program starts again, and can be published from then on. */
  lemma {:induction false} RestartFrees(s: Site, items: seq<Item>, id: string, prep: seq<Fault>, plans: seq<Plan>, digest: seq<Byte> -> string)
    requires Injective(digest) && Apart(items) && NoClash(items) && Plain(id) && Sound(s.world, items, digest)
    requires !s.refused && !s.moved && AllWork(prep) && UndisturbedRun(Restarted(s, id).world, plans, items)
    ensures Publishes(Restarted(s, id), items, id, prep, plans, digest)
  {
    hide Sound, NoClash, Publishes, AllWork, UndisturbedRun, IsOwned;
    EmptiedSound(s.world, items, digest);
    SoundPublishes(Restarted(s, id), items, id, prep, plans, digest);
  }

  lemma {:induction false} RefusedStays(s: Site, items: seq<Item>, id: string, events: seq<Event>, digest: seq<Byte> -> string)
    requires Apart(items) && s.refused
    ensures Later(s, items, id, events, digest) == s
    decreases events
  {
    if events != [] { RefusedStays(s, items, id, events[1..], digest); }
  }

  /** A task stranded in the directory it was moved to is refused: the program does not start. */
  lemma {:induction false} SecondStrandingStops(s: Site, items: seq<Item>, id: string, events: seq<Event>, digest: seq<Byte> -> string)
    requires Apart(items) && s.moved && !IsOpen(s.root, id)
    ensures Later(Restarted(s, id), items, id, events, digest).refused
  {
    RefusedStays(Restarted(s, id), items, id, events, digest);
  }

  // What the reservation code sees of the directory.
  function ProbeOf(root: Root, id: string): Tasks.Probe {
    if root.NoRoot? then Tasks.Absent
    else if IsOwned(root, id) then Tasks.Owned(Tasks.TaskId(id))
    else Tasks.Foreign
  }

  /** A new start does to the task what the reservation of its output does, with no other task or
      entry at either of its two paths. */
  lemma {:induction false} RestartIsPrepare(s: Site, t: Tasks.Task, reserved: set<Tasks.Path>, fs: Tasks.FileSystem)
    requires !s.refused && Tasks.IsFtpDirectory(t) && !Tasks.Escapes(Tasks.OutputName(t))
    requires Tasks.Fold(Tasks.OutputFile(t)) !in reserved
    requires Tasks.Inspect(fs, Tasks.OutputFile(t)) == ProbeOf(s.root, t.id.text)
    requires s.moved <==> Tasks.Lookup(t.stage.state, Tasks.OUTPUT_NAME_KEY) != ""
    requires var other := t.path + ["ftp-" + t.id.text];
             !s.moved ==> Tasks.Fold(other) !in reserved && Tasks.Inspect(fs, other) == Tasks.Absent
    ensures var r := Restarted(s, t.id.text);
            match Tasks.Prepare(t, reserved, fs)
            case Rejected(_) => r.refused
            case Accepted(p) => !r.refused && if IsOpen(s.root, t.id.text) then p == t && r == s
                                              else p == Tasks.Relocate(t) && r.moved && r.root.NoRoot?
  {
    hide IsOwned;
  }

  // ---- Exactly which manifests are always published ----

  // From nothing, after any history without a stranding preparation.
  ghost predicate AlwaysPublished(items: seq<Item>, id: string, moved: bool, digest: seq<Byte> -> string)
    requires Apart(items)
  {
    forall events: seq<Event>, prep: seq<Fault>, plans: seq<Plan> ::
      NoneStrands(events, id) && AllWork(prep)
      && UndisturbedRun(Later(Begin(moved), items, id, events, digest).world, plans, items) ==>
        Publishes(Later(Begin(moved), items, id, events, digest), items, id, prep, plans, digest)
  }

  lemma {:induction false} OpenPublishes(s: Site, items: seq<Item>, id: string, prep: seq<Fault>, plans: seq<Plan>, digest: seq<Byte> -> string)
    requires Apart(items) && Plain(id) && !s.refused && IsOpen(s.root, id) && AllWork(prep)
    ensures Publishes(s, items, id, prep, plans, digest) <==>
              RunFrom(s.world, items, 0, plans, digest).0 == Done
              && ReadyUpTo(RunFrom(s.world, items, 0, plans, digest).1, items, |items|, digest)
  {
    hide RunFrom, PrepareRoot, IsOpen, AllWork, ReadyUpTo;
    WorkingPreparation(s.root, s.world.(faults := prep), id);
  }

  // The runs of a history as events, with nothing in the way of a preparation.
  function AsEvents(history: seq<seq<Plan>>): (r: seq<Event>)
    ensures |r| == |history| && forall i :: 0 <= i < |history| ==> r[i] == Run([], history[i])
  {
    seq(|history|, i requires 0 <= i < |history| => Run([], history[i]))
  }

  lemma {:induction false} NothingInTheWay(id: string)
    ensures !Strands([], id) && AllWork([])
  {
  }

  lemma {:induction false} AllReach(s: Site, items: seq<Item>, id: string, history: seq<seq<Plan>>, digest: seq<Byte> -> string)
    requires Apart(items) && Plain(id) && !s.refused && IsOpen(s.root, id)
    ensures NoneStrands(AsEvents(history), id)
    ensures Reaching(s, items, id, AsEvents(history), digest) == history
    decreases history
  {
    hide Happen, PrepareRoot, IsOpen;
    if history != [] {
      var e, events := Run([], history[0]), AsEvents(history);
      assert events[0] == e && events[1..] == AsEvents(history[1..]);
      hide AllWork, Strands;
      assert !Strands(e.prep, id) && AllWork(e.prep) by { NothingInTheWay(id); }
      OpenStep(s, items, id, e, digest);
      WorkingPreparation(s.root, s.world.(faults := e.prep), id);
      AllReach(Happen(s, items, id, e, digest), items, id, history[1..], digest);
      assert [history[0]] + history[1..] == history;
    }
  }

  /** What happens before the manifest changes nothing about which manifests are safe. */
  lemma {:induction false} PublishedIsSurviving(items: seq<Item>, id: string, moved: bool, digest: seq<Byte> -> string)
    requires Apart(items) && Plain(id)
    ensures AlwaysPublished(items, id, moved, digest) <==> Survives(items, digest)
  {
    hide Publishes, Later, RunFrom, ReadyUpTo, UndisturbedRun, AllWork, After, Reaching, NoneStrands;
    var b := Begin(moved);
    if Survives(items, digest) {
      forall events: seq<Event>, prep: seq<Fault>, plans: seq<Plan>
        | NoneStrands(events, id) && AllWork(prep) && UndisturbedRun(Later(b, items, id, events, digest).world, plans, items)
        ensures Publishes(Later(b, items, id, events, digest), items, id, prep, plans, digest)
      {
        OpenHistory(b, items, id, events, digest);
        assert EndsWell(items, Reaching(b, items, id, events, digest), plans, digest);
        OpenPublishes(Later(b, items, id, events, digest), items, id, prep, plans, digest);
      }
    }
    if AlwaysPublished(items, id, moved, digest) {
      forall history: seq<seq<Plan>>, last: seq<Plan> | UndisturbedRun(After(NOTHING, items, history, digest), last, items)
        ensures EndsWell(items, history, last, digest)
      {
        var events := AsEvents(history);
        AllReach(b, items, id, history, digest);
        OpenHistory(b, items, id, events, digest);
        assert AllWork([]) by { NothingInTheWay(id); }
        assert Publishes(Later(b, items, id, events, digest), items, id, [], last, digest);
        OpenPublishes(Later(b, items, id, events, digest), items, id, [], last, digest);
      }
    }
  }

  /** Exactly the manifests without clashes are always published: whatever the files contain, and
      whatever runs failed, crashed or were cut before and whenever the program was started, as long
      as no preparation was stranded, an undisturbed run leaves every entry in place if and only if
      no file's part is on another entry's path and no file lies below another file's marker or
      temporary marker. */
  lemma {:induction false} TaskPublishesIff(items: seq<Item>, id: string, moved: bool, digest: seq<Byte> -> string)
    requires Injective(digest) && Apart(items) && Plain(id)
    ensures (forall filled: seq<Item> :: SamePaths(items, filled) && Apart(filled) ==> AlwaysPublished(filled, id, moved, digest))
            <==> NoClash(items)
  {
    hide Survives, AlwaysPublished, Clash, AreApart;
    PublishesIff(items, digest);
    forall filled: seq<Item> | SamePaths(items, filled) && Apart(filled)
      ensures AlwaysPublished(filled, id, moved, digest) <==> Survives(filled, digest)
    {
      PublishedIsSurviving(filled, id, moved, digest);
    }
  }

  /** The same for every manifest the validation accepts. */
  lemma {:induction false} AcceptedPublishesIff(es: seq<Entry>, id: string, moved: bool, digest: seq<Byte> -> string)
    requires Injective(digest) && TakeAll(map[], es).Some? && Plain(id)
    ensures var blank := seq(|es|, _ => []);
            && Apart(ItemsOf(es, blank))
            && ((forall filled: seq<Item> :: SamePaths(ItemsOf(es, blank), filled) && Apart(filled) ==>
                   AlwaysPublished(filled, id, moved, digest))
                <==> NoClash(ItemsOf(es, blank)))
  {
    hide TakeAll, AlwaysPublished, Clash, AreApart;
    var blank: seq<seq<Byte>> := seq(|es|, _ => []);
    AcceptedIsApart(es, blank);
    TaskPublishesIff(ItemsOf(es, blank), id, moved, digest);
  }

  /** No accepted entry, nor its part, is at or below the owner file, so the two do not meet. */
  lemma {:induction false} OwnerIsApart(es: seq<Entry>, i: nat)
    requires TakeAll(map[], es).Some? && i < |es|
    ensures KeyOf(es[i]) != [] && KeyOf(es[i])[0] != Lower(OWNER_MARKER) && PartKey(KeyOf(es[i]))[0] != Lower(OWNER_MARKER)
  {
    hide TakeAll;
    AcceptedIff(es);
    var key := KeyOf(es[i]);
    assert key[0] == Lower(es[i].local[0]);
    if |key| == 1 {
      var name, owner := key[0] + ".part", Lower(OWNER_MARKER);
      assert PartKey(key)[0] == name;
      assert name[|name| - 1] == 't' && owner[|owner| - 1] == 'r';
    }
  }
}
