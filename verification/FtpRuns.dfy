/** Whole runs over a manifest, one after the other, on the shared trees. What a run does before
    its first entry is in FtpRoot. */
module FtpRuns {
  import opened Options
  import opened Files
  import opened FtpManifest
  import opened FtpTree
  import opened Trees
  import opened FtpPublish
  import opened FtpVisit

  // What one visit leaves alone: everything but a file's own paths, except that missing
  // directories appear.
  ghost predicate Visited(w: World, u: World, e: Item)
    requires e.key != []
  {
    && (forall q :: (e.directory || (q != e.key && q != PartKey(e.key))) ==>
          || SameNode(w.output, u.output, q)
          || (q !in w.output && IsDir(u.output, q) && q != [] && q <= DirOf(e)))
    && (if e.directory then u.metadata == w.metadata else MarkerTree(w.metadata, u.metadata, e.key))
  }

  ghost predicate HasDirs(w: World, e: Item)
    requires e.key != []
  {
    forall q :: q != [] && q <= DirOf(e) ==> IsDir(w.output, q)
  }

  // The entry is there, whole and vouched for.
  ghost predicate Ready(w: World, e: Item, digest: seq<Byte> -> string)
    requires e.key != []
  {
    HasDirs(w, e) && (!e.directory ==> Published(w, e, digest))
  }

  lemma {:induction false} NextWorks(w: World)
    ensures AllWork(w.faults) ==> Next(w).0 == Works && AllWork(Next(w).1.faults)
    ensures Next(w).1.output == w.output && Next(w).1.metadata == w.metadata
  {
  }

  lemma {:induction false} MakeDirsStep(w: World, e: Item)
    requires e.key != []
    ensures var s := MakeDirs(w, e);
            && s.w.metadata == w.metadata
            && (forall q :: SameNode(w.output, s.w.output, q)
                            || (q !in w.output && IsDir(s.w.output, q) && q != [] && q <= DirOf(e)))
            && (s.o == Done ==> HasDirs(s.w, e))
            && (Blocked(s.w.output, DirOf(e)) ==> Blocked(w.output, DirOf(e)))
            && (HasDirs(w, e) ==> s.w.output == w.output)
            && (AllWork(w.faults) ==> AllWork(s.w.faults))
            && (AllWork(w.faults) && !Blocked(w.output, DirOf(e)) ==> s.o == Done)
  {
    hide AllWork;
    NextWorks(w);
    var (flt, w1) := Next(w);
    var dir := DirOf(e);
    if !Blocked(w1.output, dir) {
      var u := MkdirAll(w1.output, dir, Reached(flt, |dir|));
      forall q ensures SameNode(w.output, u, q) || (q !in w.output && IsDir(u, q) && q != [] && q <= dir) {}
      if flt.Works? {
        forall q | q != [] && q <= dir ensures IsDir(u, q) {
          assert q in Levels(dir, |dir|);
          assert q in w1.output ==> w1.output[q].Dir?;
        }
      }
      if HasDirs(w, e) {
        forall q | q in u ensures q in w.output {
          if q in Levels(dir, |dir|) { assert IsDir(w.output, q); }
        }
        assert u == w.output;
      }
    }
  }

  // The entry's own two paths are no directories on the way to it.
  lemma {:induction false} OwnPaths(e: Item, q: Key)
    requires e.key != [] && !e.directory && q <= DirOf(e)
    ensures q != e.key && q != PartKey(e.key)
  {
  }

  lemma {:induction false} NotBlockedWithDirs(w: World, e: Item)
    requires e.key != [] && HasDirs(w, e)
    ensures !Blocked(w.output, DirOf(e))
  {
    forall q | q in w.output && q != [] && q <= DirOf(e) ensures !w.output[q].File? {
      assert IsDir(w.output, q);
    }
  }

  lemma {:induction false} MarkerTreeSelf(t: Tree<string>, k: Key)
    requires k != []
    ensures MarkerTree(t, t, k)
  {
  }

  // Making the directories does not reach the entry's own paths.
  lemma {:induction false} OwnAfterDirs(w: World, u: World, e: Item, digest: seq<Byte> -> string)
    requires e.key != [] && !e.directory && u.metadata == w.metadata
    requires forall q :: SameNode(w.output, u.output, q)
                         || (q !in w.output && IsDir(u.output, q) && q != [] && q <= DirOf(e))
    ensures SameNode(w.output, u.output, e.key) && SameNode(w.output, u.output, PartKey(e.key))
    ensures Matching(w, e, digest) <==> Matching(u, e, digest)
    ensures Recoverable(w, e, digest) <==> Recoverable(u, e, digest)
    ensures Published(w, e, digest) <==> Published(u, e, digest)
    ensures Resumed(w, e) == Resumed(u, e)
  {
    hide PartKey, MarkerKey, TempKey;
    assert SameNode(w.output, u.output, e.key);
    assert SameNode(w.output, u.output, PartKey(e.key));
  }

  /** One visit: what it may touch, and that success leaves the entry's directories. */
  lemma {:induction false} VisitFrame(w: World, e: Item, p: Plan, digest: seq<Byte> -> string)
    requires e.key != [] && Injective(digest)
    ensures var s := VisitEntry(w, e, p, digest);
            && Visited(w, s.w, e)
            && (IsTree(w.metadata) ==> IsTree(s.w.metadata))
            && (s.o == Done ==> HasDirs(s.w, e))
            && (s.o == Done && !e.directory && !Matching(w, e, digest) ==>
                  PartKey(e.key) !in s.w.output && TempKey(e.key) !in s.w.metadata && !IsDir(w.output, PartKey(e.key)))
            && (AllWork(p.faults) && !e.directory && Matching(w, e, digest) && s.o == Done ==>
                  SameNode(w.output, s.w.output, e.key) && SameNode(w.output, s.w.output, PartKey(e.key))
                  && s.w.metadata == w.metadata)
  {
    hide PartKey, MarkerKey, TempKey, MakeDirs, DownloadFile, AllWork, IsTree, Blocked;
    var w0 := w.(faults := p.faults);
    MakeDirsStep(w0, e);
    var m := MakeDirs(w0, e);
    if e.directory {
    } else {
      MarkerTreeSelf(w.metadata, e.key);
      OwnAfterDirs(w, m.w, e, digest);
      if m.o == Done {
        DownloadFrame(m.w, e, p, digest);
        var s := DownloadFile(m.w, e, p, digest);
        forall q | q != e.key && q != PartKey(e.key)
          ensures SameNode(m.w.output, s.w.output, q)
          ensures SameNode(w.output, s.w.output, q)
                  || (q !in w.output && IsDir(s.w.output, q) && q != [] && q <= DirOf(e))
        {
          SameElsewhere(m.w.output, s.w.output, {e.key, PartKey(e.key)}, q);
          assert SameNode(w.output, m.w.output, q) || IsDir(m.w.output, q);
        }
        forall q | q != [] && q <= DirOf(e) ensures IsDir(s.w.output, q) {
          OwnPaths(e, q);
          assert IsDir(m.w.output, q) && SameNode(m.w.output, s.w.output, q);
        }
      }
    }
  }

  lemma {:induction false} VisitStep(w: World, e: Item, p: Plan, digest: seq<Byte> -> string)
    requires e.key != [] && Injective(digest) && !Blocked(w.output, DirOf(e))
    requires !e.directory ==> Recoverable(w, e, digest)
    ensures var s := VisitEntry(w, e, p, digest);
            && (!e.directory ==> Recoverable(s.w, e, digest))
            && (s.o == Done ==> Ready(s.w, e, digest))
            && (Undisturbed(w, e, p) || (AllWork(p.faults) && Ready(w, e, digest)) ==> s.o == Done)
  {
    hide PartKey, MarkerKey, TempKey, MakeDirs, DownloadFile, AllWork, Blocked, Recoverable, Published, Recovers, Resumed, Matching, HasDirs, Visited;
    VisitFrame(w, e, p, digest);
    var w0 := w.(faults := p.faults);
    MakeDirsStep(w0, e);
    var m := MakeDirs(w0, e);
    if !e.directory {
      OwnAfterDirs(w, m.w, e, digest);
      if m.o == Done { DownloadStep(m.w, e, p, digest); }
    }
  }

  // ---- Which manifests have no entry in another's way ----

  predicate AreApart(a: Item, b: Item) {
    a.key != b.key && (a.key < b.key ==> a.directory)
  }

  // Different paths, no file above another entry: what the manifest's validation ensures.
  ghost predicate Apart(items: seq<Item>) {
    && (forall i :: 0 <= i < |items| ==> items[i].key != [])
    && (forall i, j :: 0 <= i < |items| && 0 <= j < |items| && i != j ==> AreApart(items[i], items[j]))
  }

  // The file's part, marker and temporary file get in the other entry's way.
  predicate Clash(f: Item, e: Item)
    requires f.key != [] && e.key != []
  {
    !f.directory && (PartKey(f.key) <= e.key || (!e.directory && (MarkerKey(f.key) < e.key || TempKey(f.key) < e.key)))
  }

  ghost predicate NoClash(items: seq<Item>)
    requires Apart(items)
  {
    forall i, j :: 0 <= i < |items| && 0 <= j < |items| ==> !Clash(items[i], items[j])
  }

  ghost predicate EntrySound(w: World, e: Item, digest: seq<Byte> -> string)
    requires e.key != []
  {
    !Blocked(w.output, DirOf(e)) && (!e.directory ==> Recoverable(w, e, digest))
  }

  ghost predicate Sound(w: World, items: seq<Item>, digest: seq<Byte> -> string)
    requires Apart(items)
  {
    forall i :: 0 <= i < |items| ==> EntrySound(w, items[i], digest)
  }

  // Visiting e puts nothing in the way of g, and keeps g if it is there.
  lemma {:induction false} OtherDirs(w: World, u: World, e: Item, g: Item)
    requires e.key != [] && g.key != [] && AreApart(e, g) && !Clash(e, g)
    requires Visited(w, u, e)
    ensures !Blocked(w.output, DirOf(g)) ==> !Blocked(u.output, DirOf(g))
    ensures HasDirs(w, g) ==> HasDirs(u, g)
  {
    hide PartKey, MarkerKey, TempKey, MarkerTree;
    forall q | q != [] && q <= DirOf(g)
      ensures SameNode(w.output, u.output, q) || IsDir(u.output, q)
    {
      if !e.directory {
        assert q <= g.key;
        assert q != PartKey(e.key);
        assert q != e.key by { assert q <= g.key; }
      }
    }
    if Blocked(u.output, DirOf(g)) {
      var q :| q in u.output && q != [] && q <= DirOf(g) && u.output[q].File?;
      assert SameNode(w.output, u.output, q);
    }
    if HasDirs(w, g) {
      forall q | q != [] && q <= DirOf(g) ensures IsDir(u.output, q) {
        assert IsDir(w.output, q);
      }
    }
  }

  lemma {:induction false} ParentBelow(k: Key, q: Key)
    requires k != [] && q <= Parent(k)
    ensures q < k
  {
  }

  lemma {:induction false} DirBelow(e: Item, q: Key)
    requires e.key != []
    ensures q <= DirOf(e) ==> q <= e.key
  {
  }

  lemma {:induction false} OtherOutput(w: World, u: World, e: Item, g: Item)
    requires e.key != [] && g.key != [] && !g.directory && AreApart(e, g) && AreApart(g, e)
    requires !Clash(e, g) && !Clash(g, e) && Visited(w, u, e)
    ensures SameNode(w.output, u.output, g.key) && SameNode(w.output, u.output, PartKey(g.key))
  {
    hide MarkerTree;
    DirBelow(e, g.key);
    DirBelow(e, PartKey(g.key));
    if !e.directory && PartKey(g.key) == PartKey(e.key) {
      SuffixedInjective(g.key, e.key, ".part");
    }
  }

  lemma {:induction false} MarkerInjective(a: Key, b: Key)
    requires a != [] && b != [] && MarkerKey(a) == MarkerKey(b)
    ensures a == b
  {
    SuffixedInjective(a, b, ".complete");
  }

  lemma {:induction false} TempInjective(a: Key, b: Key)
    requires a != [] && b != [] && TempKey(a) == TempKey(b)
    ensures a == b
  {
    SuffixedInjective(a, b, ".complete.tmp");
  }

  lemma {:induction false} OtherMarkers(w: World, u: World, e: Item, g: Item)
    requires e.key != [] && g.key != [] && !g.directory && AreApart(e, g) && AreApart(g, e)
    requires !Clash(e, g) && !Clash(g, e) && Visited(w, u, e)
    ensures SameNode(w.metadata, u.metadata, MarkerKey(g.key))
    ensures SameNode(w.metadata, u.metadata, TempKey(g.key))
    ensures !Blocked(w.metadata, Parent(g.key)) ==> !Blocked(u.metadata, Parent(g.key))
  {
    if !e.directory {
      var t, v := w.metadata, u.metadata;
      assert MarkerTree(t, v, e.key);
      hide Visited, IsTree, Suffixed;
      SuffixesDiffer(g.key, e.key);
      SuffixesDiffer(e.key, g.key);
      assert MarkerKey(g.key) != MarkerKey(e.key) by {
        if MarkerKey(g.key) == MarkerKey(e.key) { MarkerInjective(g.key, e.key); }
      }
      assert TempKey(g.key) != TempKey(e.key) by {
        if TempKey(g.key) == TempKey(e.key) { TempInjective(g.key, e.key); }
      }
      forall q | q == MarkerKey(g.key) || q == TempKey(g.key) ensures SameNode(t, v, q) {
        if q <= Parent(e.key) { ParentBelow(e.key, q); }
      }
      forall q | q in v && q != [] && q <= Parent(g.key) && v[q].File? ensures IsFile(t, q) {
        ParentBelow(g.key, q);
        assert q != MarkerKey(e.key) && q != TempKey(e.key);
        assert SameNode(t, v, q);
      }
    }
  }

  lemma {:induction false} OthersKept(w: World, u: World, e: Item, g: Item, digest: seq<Byte> -> string)
    requires e.key != [] && g.key != [] && AreApart(e, g) && AreApart(g, e)
    requires !Clash(e, g) && !Clash(g, e) && Visited(w, u, e)
    ensures EntrySound(w, g, digest) ==> EntrySound(u, g, digest)
    ensures Ready(w, g, digest) ==> Ready(u, g, digest)
    ensures !g.directory ==> Resumed(w, g) == Resumed(u, g)
  {
    OtherDirs(w, u, e, g);
    if !g.directory {
      OtherOutput(w, u, e, g);
      OtherMarkers(w, u, e, g);
      hide PartKey, MarkerKey, TempKey, Visited, Blocked, HasDirs;
      assert PartData(w, g) == PartData(u, g);
    }
  }

  // ---- Runs ----

  // Every visit meets a working disk and connections that recover from where the file's part stands.
  ghost predicate UndisturbedRun(w: World, plans: seq<Plan>, items: seq<Item>)
    requires forall i :: 0 <= i < |items| ==> items[i].key != []
  {
    |plans| >= |items| && forall i :: 0 <= i < |items| ==> Undisturbed(w, items[i], plans[i])
  }

  ghost predicate ReadyUpTo(w: World, items: seq<Item>, n: nat, digest: seq<Byte> -> string)
    requires Apart(items)
  {
    forall i :: 0 <= i < |items| && i < n ==> Ready(w, items[i], digest)
  }

  // The run over the entries from number i on.
  function RunFrom(w: World, items: seq<Item>, i: nat, plans: seq<Plan>, digest: seq<Byte> -> string): (Outcome, World)
    requires Apart(items) && i <= |items|
  {
    RunAll(w, items[i..], plans, digest)
  }

  lemma {:induction false} RunFromStep(w: World, items: seq<Item>, i: nat, plans: seq<Plan>, digest: seq<Byte> -> string)
    requires Apart(items) && i < |items| && plans != []
    ensures var v := VisitEntry(w, items[i], plans[0], digest);
            RunFrom(w, items, i, plans, digest) ==
              if v.o != Done then (v.o, v.w) else RunFrom(v.w, items, i + 1, plans[1..], digest)
  {
    hide VisitEntry;
    assert items[i..][0] == items[i] && items[i..][1..] == items[i + 1..];
  }

  lemma {:induction false} SoundEntry(w: World, e: Item, digest: seq<Byte> -> string)
    requires e.key != [] && EntrySound(w, e, digest)
    ensures !Blocked(w.output, DirOf(e)) && (!e.directory ==> Recoverable(w, e, digest))
  {
  }

  lemma {:induction false} SoundAfter(w: World, u: World, e: Item, digest: seq<Byte> -> string)
    requires e.key != [] && EntrySound(w, e, digest) && Visited(w, u, e)
    requires !e.directory ==> Recoverable(u, e, digest)
    ensures EntrySound(u, e, digest)
  {
    hide PartKey, MarkerKey, TempKey, MarkerTree, Recoverable;
    forall q | q in u.output && q != [] && q <= DirOf(e) ensures u.output[q].File? ==> IsFile(w.output, q) {
      if !e.directory { OwnPaths(e, q); }
      assert SameNode(w.output, u.output, q) || IsDir(u.output, q);
    }
    assert forall q :: q in w.output && q != [] && q <= DirOf(e) ==> !w.output[q].File?;
  }

  lemma {:induction false} VisitSound(w: World, items: seq<Item>, i: nat, p: Plan, digest: seq<Byte> -> string)
    requires Injective(digest) && Apart(items) && NoClash(items) && i < |items|
    requires Sound(w, items, digest) && ReadyUpTo(w, items, i, digest)
    ensures var s := VisitEntry(w, items[i], p, digest);
            && Sound(s.w, items, digest)
            && (s.o == Done ==> ReadyUpTo(s.w, items, i + 1, digest))
            && (Undisturbed(w, items[i], p) ==> s.o == Done)
            && (forall j :: 0 <= j < |items| && j != i && !items[j].directory ==> Resumed(s.w, items[j]) == Resumed(w, items[j]))
  {
    hide VisitEntry, EntrySound, Ready, Visited, Clash, AreApart, Undisturbed, Resumed;
    var e := items[i];
    SoundEntry(w, e, digest);
    VisitFrame(w, e, p, digest);
    VisitStep(w, e, p, digest);
    var s := VisitEntry(w, e, p, digest);
    forall j | 0 <= j < |items|
      ensures EntrySound(s.w, items[j], digest)
      ensures s.o == Done && j < i + 1 ==> Ready(s.w, items[j], digest)
      ensures j != i && !items[j].directory ==> Resumed(s.w, items[j]) == Resumed(w, items[j])
    {
      if j != i {
        OthersKept(w, s.w, e, items[j], digest);
      } else {
        SoundAfter(w, s.w, e, digest);
      }
    }
  }

  lemma {:induction false} RestUndisturbed(w: World, u: World, plans: seq<Plan>, items: seq<Item>, i: nat)
    requires Apart(items) && i < |items| && UndisturbedRun(w, plans, items[i..])
    requires forall j :: 0 <= j < |items| && j != i && !items[j].directory ==> Resumed(u, items[j]) == Resumed(w, items[j])
    ensures plans != [] && Undisturbed(w, items[i], plans[0])
    ensures UndisturbedRun(u, plans[1..], items[i + 1..])
  {
    hide Resumed, Recovers, AreApart;
    assert items[i..][0] == items[i];
    var rest, later := plans[1..], items[i + 1..];
    forall j | 0 <= j < |later| ensures Undisturbed(u, later[j], rest[j]) {
      assert items[i..][j + 1] == later[j] == items[i + 1 + j] && plans[j + 1] == rest[j];
      assert Undisturbed(w, items[i..][j + 1], plans[j + 1]);
    }
  }

  lemma {:induction false} RunSound(w: World, items: seq<Item>, i: nat, plans: seq<Plan>, digest: seq<Byte> -> string)
    requires Injective(digest) && Apart(items) && NoClash(items) && i <= |items|
    requires Sound(w, items, digest) && ReadyUpTo(w, items, i, digest)
    ensures var (o, u) := RunFrom(w, items, i, plans, digest);
            && Sound(u, items, digest)
            && (o == Done ==> ReadyUpTo(u, items, |items|, digest))
            && (UndisturbedRun(w, plans, items[i..]) ==> o == Done)
    decreases |items| - i
  {
    hide Sound, ReadyUpTo, VisitEntry, Undisturbed, NoClash;
    if i < |items| && plans != [] {
      RunFromStep(w, items, i, plans, digest);
      VisitSound(w, items, i, plans[0], digest);
      var v := VisitEntry(w, items[i], plans[0], digest);
      if UndisturbedRun(w, plans, items[i..]) {
        RestUndisturbed(w, VisitEntry(w, items[i], plans[0], digest).w, plans, items, i);
      }
      if v.o == Done {
        RunSound(v.w, items, i + 1, plans[1..], digest);
      }
    } else if i == |items| {
      assert items[i..] == [];
    }
  }

  // The trees after any history of runs, each ending however it likes.
  function After(w: World, items: seq<Item>, history: seq<seq<Plan>>, digest: seq<Byte> -> string): World
    requires Apart(items)
    decreases history
  {
    if history == [] then w
    else After(RunFrom(w, items, 0, history[0], digest).1, items, history[1..], digest)
  }

  lemma {:induction false} HistorySound(w: World, items: seq<Item>, history: seq<seq<Plan>>, digest: seq<Byte> -> string)
    requires Injective(digest) && Apart(items) && NoClash(items) && Sound(w, items, digest)
    ensures Sound(After(w, items, history, digest), items, digest)
    decreases history
  {
    hide Sound, NoClash, RunFrom;
    if history != [] {
      RunSound(w, items, 0, history[0], digest);
      HistorySound(RunFrom(w, items, 0, history[0], digest).1, items, history[1..], digest);
    }
  }

  const NOTHING := World(map[], map[], [])

  lemma {:induction false} NothingIsSound(items: seq<Item>, digest: seq<Byte> -> string)
    requires Apart(items)
    ensures Sound(NOTHING, items, digest)
  {
  }

  ghost predicate EndsWell(items: seq<Item>, history: seq<seq<Plan>>, last: seq<Plan>, digest: seq<Byte> -> string)
    requires Apart(items)
  {
    var (o, w) := RunFrom(After(NOTHING, items, history, digest), items, 0, last, digest);
    o == Done && ReadyUpTo(w, items, |items|, digest)
  }

  // From nothing, after any history, an undisturbed run ends well with every entry in place.
  ghost predicate Survives(items: seq<Item>, digest: seq<Byte> -> string)
    requires Apart(items)
  {
    forall history: seq<seq<Plan>>, last: seq<Plan> ::
      UndisturbedRun(After(NOTHING, items, history, digest), last, items) ==> EndsWell(items, history, last, digest)
  }

  lemma {:induction false} NoneReady(items: seq<Item>, history: seq<seq<Plan>>, digest: seq<Byte> -> string)
    requires Apart(items)
    ensures ReadyUpTo(After(NOTHING, items, history, digest), items, 0, digest)
  {
  }

  /** Without clashes, whatever runs over the manifest failed, crashed or were cut before, an
      undisturbed one publishes every entry. */
  lemma {:induction false} NoClashSurvives(items: seq<Item>, digest: seq<Byte> -> string)
    requires Injective(digest) && Apart(items) && NoClash(items)
    ensures Survives(items, digest)
  {
    hide NoClash, Sound, RunFrom, ReadyUpTo, After;
    forall history: seq<seq<Plan>>, last: seq<Plan> | UndisturbedRun(After(NOTHING, items, history, digest), last, items)
      ensures EndsWell(items, history, last, digest)
    {
      NothingIsSound(items, digest);
      HistorySound(NOTHING, items, history, digest);
      assert ReadyUpTo(After(NOTHING, items, history, digest), items, 0, digest) by { NoneReady(items, history, digest); }
      assert items[0..] == items;
      RunSound(After(NOTHING, items, history, digest), items, 0, last, digest);
    }
  }
}
