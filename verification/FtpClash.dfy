/** Why entries in each other's way break a download: from any manifest with a clash, a
    history of runs after which an undisturbed run does not end well. */
module FtpClash {
  import opened Options
  import opened Files
  import opened FtpManifest
  import opened FtpNames
  import opened Text
  import opened FtpTree
  import opened Trees
  import opened FtpPublish
  import opened FtpVisit
  import opened FtpRuns

  // ---- Undisturbed runs and what they leave ----

  // One connection that brings the whole file, on a disk that works.
  function Perfect(size: nat): Plan {
    Plan([Attempt(true, true, true, [size], true)], 0, [])
  }

  function PerfectRun(items: seq<Item>): (plans: seq<Plan>)
    ensures |plans| == |items|
  {
    seq(|items|, i requires 0 <= i < |items| => Perfect(|items[i].content|))
  }

  lemma {:induction false} PerfectIsUndisturbed(w: World, items: seq<Item>)
    requires forall i :: 0 <= i < |items| ==> items[i].key != []
    ensures UndisturbedRun(w, PerfectRun(items), items)
  {
    hide PartData;
    forall i | 0 <= i < |items| ensures Undisturbed(w, items[i], PerfectRun(items)[i]) {
      var size := |items[i].content|;
      assert Total([size]) == size + Total([size][1..]);
    }
  }

  // From u on, the run over the entries from i to n ends in v without an error.
  ghost predicate Passes(u: World, items: seq<Item>, i: nat, n: nat, plans: seq<Plan>, v: World, digest: seq<Byte> -> string)
    requires Apart(items) && i <= n <= |items| && |plans| == |items|
    decreases n - i
  {
    if i == n then v == u
    else
      var s := VisitEntry(u, items[i], plans[i], digest);
      s.o == Done && Passes(s.w, items, i + 1, n, plans, v, digest)
  }

  // The world a stretch of a run ends in.
  function Stretch(u: World, items: seq<Item>, i: nat, n: nat, plans: seq<Plan>, digest: seq<Byte> -> string): World
    requires Apart(items) && i <= n <= |items| && |plans| == |items|
    decreases n - i
  {
    if i == n then u else Stretch(VisitEntry(u, items[i], plans[i], digest).w, items, i + 1, n, plans, digest)
  }

  // A run that ends well has passed every stretch.
  lemma {:induction false} DoneRunPasses(u: World, items: seq<Item>, i: nat, n: nat, plans: seq<Plan>, digest: seq<Byte> -> string)
    requires Apart(items) && i <= n <= |items| && |plans| == |items|
    requires RunFrom(u, items, i, plans[i..], digest).0 == Done
    ensures var v := Stretch(u, items, i, n, plans, digest);
            && Passes(u, items, i, n, plans, v, digest)
            && RunFrom(v, items, n, plans[n..], digest) == RunFrom(u, items, i, plans[i..], digest)
    decreases n - i
  {
    hide VisitEntry, RunFrom;
    if i < n {
      RunFromStep(u, items, i, plans[i..], digest);
      assert plans[i..][0] == plans[i] && plans[i..][1..] == plans[i + 1..];
      DoneRunPasses(VisitEntry(u, items[i], plans[i], digest).w, items, i + 1, n, plans, digest);
    }
  }

  // A run cut after n entries stands where the stretch ends.
  lemma {:induction false} CutRun(u: World, items: seq<Item>, i: nat, n: nat, plans: seq<Plan>, more: seq<Plan>, v: World, digest: seq<Byte> -> string)
    requires Apart(items) && i <= n <= |items| && |plans| == |items|
    requires Passes(u, items, i, n, plans, v, digest)
    ensures RunFrom(u, items, i, plans[i..n] + more, digest) == RunFrom(v, items, n, more, digest)
    decreases n - i
  {
    hide VisitEntry, RunFrom;
    if i == n {
      assert plans[i..n] + more == more;
    } else {
      var cut := plans[i..n] + more;
      RunFromStep(u, items, i, cut, digest);
      assert cut[0] == plans[i] && cut[1..] == plans[i + 1..n] + more;
      CutRun(VisitEntry(u, items[i], plans[i], digest).w, items, i + 1, n, plans, more, v, digest);
    }
  }

  // ---- What passing a stretch keeps ----

  lemma {:induction false} DirsOnly(w: World, u: World, e: Item)
    requires e.key != [] && u.output == w.output
    ensures HasDirs(w, e) <==> HasDirs(u, e)
  {
  }

  lemma {:induction false} SameMatching(w: World, u: World, e: Item, digest: seq<Byte> -> string)
    requires e.key != [] && u.output == w.output && u.metadata == w.metadata
    ensures Matching(w, e, digest) <==> Matching(u, e, digest)
    ensures Ready(w, e, digest) <==> Ready(u, e, digest)
  {
  }

  // An entry that is in place is skipped, and nothing changes.
  lemma {:induction false} SkipOne(w: World, e: Item, p: Plan, digest: seq<Byte> -> string)
    requires e.key != [] && Injective(digest) && Ready(w, e, digest) && AllWork(p.faults)
    ensures var s := VisitEntry(w, e, p, digest); s.o == Done && s.w.output == w.output && s.w.metadata == w.metadata
  {
    hide PartKey, MarkerKey, TempKey, MakeDirs, DownloadFile, AllWork, Blocked, HasDirs, Published, Matching;
    var w0 := w.(faults := p.faults);
    DirsOnly(w, w0, e);
    MakeDirsStep(w0, e);
    NotBlockedWithDirs(w0, e);
    if !e.directory {
      var m := MakeDirs(w0, e);
      MatchingIsPublished(w, e, digest);
      SameMatching(w, m.w, e, digest);
      DownloadFrame(m.w, e, p, digest);
    }
  }

  ghost predicate SameTree(w: World, u: World) {
    u.output == w.output && u.metadata == w.metadata
  }

  lemma {:induction false} SkipAll(w: World, items: seq<Item>, i: nat, n: nat, digest: seq<Byte> -> string)
    requires Injective(digest) && Apart(items) && i <= n <= |items| && ReadyUpTo(w, items, n, digest)
    ensures var v := Stretch(w, items, i, n, PerfectRun(items), digest);
            Passes(w, items, i, n, PerfectRun(items), v, digest) && SameTree(w, v)
    decreases n - i
  {
    hide VisitEntry, Ready;
    if i < n {
      var p := PerfectRun(items)[i];
      SkipOne(w, items[i], p, digest);
      var s := VisitEntry(w, items[i], p, digest);
      forall j | 0 <= j < n ensures Ready(s.w, items[j], digest) { SameMatching(w, s.w, items[j], digest); }
      SkipAll(s.w, items, i + 1, n, digest);
    }
  }

  // Another entry's successful visit never puts a file at g's path, nor changes g's marker.
  lemma {:induction false} PassedOther(w: World, e: Item, p: Plan, g: Item, digest: seq<Byte> -> string)
    requires e.key != [] && g.key != [] && Injective(digest) && AreApart(e, g) && AllWork(p.faults)
    requires VisitEntry(w, e, p, digest).o == Done
    ensures var u := VisitEntry(w, e, p, digest).w;
            && (IsFile(u.output, g.key) ==> SameNode(w.output, u.output, g.key))
            && (IsFile(u.metadata, MarkerKey(g.key)) ==> SameNode(w.metadata, u.metadata, MarkerKey(g.key)))
  {
    hide PartKey, MarkerKey, TempKey, VisitEntry, Matching;
    VisitFrame(w, e, p, digest);
    if !e.directory {
      SuffixesDiffer(g.key, e.key);
      if MarkerKey(g.key) == MarkerKey(e.key) { MarkerInjective(g.key, e.key); }
    }
  }

  lemma {:induction false} PassedDirs(w: World, e: Item, p: Plan, g: Item, digest: seq<Byte> -> string)
    requires e.key != [] && g.key != [] && Injective(digest) && AreApart(e, g) && AllWork(p.faults)
    requires VisitEntry(w, e, p, digest).o == Done && HasDirs(w, g)
    ensures HasDirs(VisitEntry(w, e, p, digest).w, g)
  {
    hide PartKey, MarkerKey, TempKey, VisitEntry, Matching, MarkerTree;
    VisitFrame(w, e, p, digest);
    var u := VisitEntry(w, e, p, digest).w;
    forall q | q != [] && q <= DirOf(g) ensures IsDir(u.output, q) {
      assert IsDir(w.output, q);
      DirBelow(g, q);
    }
  }

  lemma {:induction false} TailKeeps(u: World, items: seq<Item>, i: nat, n: nat, v: World, k: nat, digest: seq<Byte> -> string)
    requires Injective(digest) && Apart(items) && i <= n <= |items| && k < |items| && (k < i || n <= k)
    requires Passes(u, items, i, n, PerfectRun(items), v, digest)
    ensures IsFile(v.output, items[k].key) ==> SameNode(u.output, v.output, items[k].key)
    ensures IsFile(v.metadata, MarkerKey(items[k].key)) ==> SameNode(u.metadata, v.metadata, MarkerKey(items[k].key))
    decreases n - i
  {
    hide VisitEntry, MarkerKey, AreApart;
    if i < n {
      PassedOther(u, items[i], PerfectRun(items)[i], items[k], digest);
      TailKeeps(VisitEntry(u, items[i], PerfectRun(items)[i], digest).w, items, i + 1, n, v, k, digest);
    }
  }

  lemma {:induction false} DirsThrough(u: World, items: seq<Item>, i: nat, n: nat, v: World, digest: seq<Byte> -> string)
    requires Injective(digest) && Apart(items) && i <= n <= |items|
    requires Passes(u, items, i, n, PerfectRun(items), v, digest)
    requires forall j :: 0 <= j < i ==> HasDirs(u, items[j])
    ensures forall j :: 0 <= j < n ==> HasDirs(v, items[j])
    decreases n - i
  {
    hide VisitEntry, HasDirs, AreApart;
    if i < n {
      var p := PerfectRun(items)[i];
      var s := VisitEntry(u, items[i], p, digest);
      VisitFrame(u, items[i], p, digest);
      forall j | 0 <= j < i + 1 ensures HasDirs(s.w, items[j]) {
        if j < i { PassedDirs(u, items[i], p, items[j], digest); }
      }
      DirsThrough(s.w, items, i + 1, n, v, digest);
    }
  }

  lemma {:induction false} TreeThrough(u: World, items: seq<Item>, i: nat, n: nat, v: World, digest: seq<Byte> -> string)
    requires Injective(digest) && Apart(items) && i <= n <= |items|
    requires Passes(u, items, i, n, PerfectRun(items), v, digest) && IsTree(u.metadata)
    ensures IsTree(v.metadata)
    decreases n - i
  {
    hide VisitEntry, IsTree;
    if i < n {
      VisitFrame(u, items[i], PerfectRun(items)[i], digest);
      TreeThrough(VisitEntry(u, items[i], PerfectRun(items)[i], digest).w, items, i + 1, n, v, digest);
    }
  }

  // The state after the first n entries of a first undisturbed run that ends well.
  function Midway(items: seq<Item>, n: nat, digest: seq<Byte> -> string): World
    requires Apart(items) && n <= |items|
  {
    Stretch(NOTHING, items, 0, n, PerfectRun(items), digest)
  }

  lemma {:induction false} RunFromEnd(w: World, items: seq<Item>, plans: seq<Plan>, digest: seq<Byte> -> string)
    requires Apart(items)
    ensures RunFrom(w, items, |items|, plans, digest) == (Done, w)
  {
    assert items[|items|..] == [];
  }

  lemma {:induction false} ReadyEarlier(m: World, end: World, e: Item, digest: seq<Byte> -> string)
    requires e.key != [] && Ready(end, e, digest) && HasDirs(m, e)
    requires IsFile(end.output, e.key) ==> SameNode(m.output, end.output, e.key)
    requires IsFile(end.metadata, MarkerKey(e.key)) ==> SameNode(m.metadata, end.metadata, MarkerKey(e.key))
    ensures Ready(m, e, digest)
  {
    hide MarkerKey, HasDirs;
  }

  lemma {:induction false} StretchJoin(u: World, items: seq<Item>, i: nat, m: nat, n: nat, plans: seq<Plan>, digest: seq<Byte> -> string)
    requires Apart(items) && i <= m <= n <= |items| && |plans| == |items|
    ensures Stretch(Stretch(u, items, i, m, plans, digest), items, m, n, plans, digest) == Stretch(u, items, i, n, plans, digest)
    decreases m - i
  {
    hide VisitEntry;
    if i < m {
      StretchJoin(VisitEntry(u, items[i], plans[i], digest).w, items, i + 1, m, n, plans, digest);
    }
  }

  lemma {:induction false} MidwayFacts(items: seq<Item>, n: nat, digest: seq<Byte> -> string)
    requires Injective(digest) && Apart(items) && n <= |items| && EndsWell(items, [], PerfectRun(items), digest)
    ensures var m, end := Midway(items, n, digest), Midway(items, |items|, digest);
            && Passes(NOTHING, items, 0, n, PerfectRun(items), m, digest)
            && Passes(m, items, n, |items|, PerfectRun(items), end, digest)
            && IsTree(m.metadata)
            && ReadyUpTo(m, items, n, digest) && ReadyUpTo(end, items, |items|, digest)
  {
    hide VisitEntry, RunFrom, Ready, AreApart, Published, HasDirs;
    var plans, all := PerfectRun(items), |items|;
    assert plans[0..] == plans;
    DoneRunPasses(NOTHING, items, 0, n, plans, digest);
    DoneRunPasses(NOTHING, items, 0, all, plans, digest);
    var m := Midway(items, n, digest);
    DoneRunPasses(m, items, n, all, plans, digest);
    var end := Stretch(m, items, n, all, plans, digest);
    StretchJoin(NOTHING, items, 0, n, all, plans, digest);
    RunFromEnd(end, items, plans[all..], digest);
    TreeThrough(NOTHING, items, 0, n, m, digest);
    DirsThrough(NOTHING, items, 0, n, m, digest);
    forall j | 0 <= j < n ensures Ready(m, items[j], digest) {
      assert Ready(end, items[j], digest);
      TailKeeps(m, items, n, all, end, j, digest);
      ReadyEarlier(m, end, items[j], digest);
    }
  }

  lemma {:induction false} OneStretch(u: World, items: seq<Item>, k: nat, plans: seq<Plan>, digest: seq<Byte> -> string)
    requires Apart(items) && k < |items| && |plans| == |items|
    ensures Stretch(u, items, k, k + 1, plans, digest) == VisitEntry(u, items[k], plans[k], digest).w
    ensures forall v :: Passes(u, items, k, |items|, plans, v, digest) ==> VisitEntry(u, items[k], plans[k], digest).o == Done
  {
    hide VisitEntry;
    assert Stretch(VisitEntry(u, items[k], plans[k], digest).w, items, k + 1, k + 1, plans, digest)
        == VisitEntry(u, items[k], plans[k], digest).w;
  }

  // A file just fetched for the first time has left no part and no temporary file behind.
  lemma {:induction false} FetchedClean(items: seq<Item>, k: nat, digest: seq<Byte> -> string)
    requires Injective(digest) && Apart(items) && k < |items| && !items[k].directory
    requires EndsWell(items, [], PerfectRun(items), digest)
    ensures var m := Midway(items, k + 1, digest);
            PartKey(items[k].key) !in m.output && TempKey(items[k].key) !in m.metadata
  {
    hide VisitEntry, PartKey, MarkerKey, TempKey, EndsWell, ReadyUpTo, AreApart;
    var plans, f := PerfectRun(items), items[k];
    MidwayFacts(items, k, digest);
    MidwayFacts(items, k + 1, digest);
    var a := Midway(items, k, digest);
    TailKeeps(NOTHING, items, 0, k, a, k, digest);
    assert !Matching(a, f, digest);
    StretchJoin(NOTHING, items, 0, k, k + 1, plans, digest);
    OneStretch(a, items, k, plans, digest);
    VisitFrame(a, f, plans[k], digest);
  }

  // ---- A marker in the way of a directory ----

  lemma {:induction false} MarkerUnder(t: Tree<string>, f: Key, g: Key, path: Key)
    requires f != [] && g != [] && IsTree(t) && MarkerKey(g) in t && path < g && path != [] && |path| < |g|
    ensures IsDir(t, path)
  {
    assert path < MarkerKey(g);
    assert DirsAbove(t, MarkerKey(g));
  }

  /** A file below another file's marker path: no first undisturbed run ends well. */
  lemma {:induction false} MarkerClashFails(items: seq<Item>, i: nat, j: nat, digest: seq<Byte> -> string)
    requires Injective(digest) && Apart(items) && i < |items| && j < |items|
    requires !items[i].directory && !items[j].directory && MarkerKey(items[i].key) < items[j].key
    ensures !EndsWell(items, [], PerfectRun(items), digest)
  {
    if EndsWell(items, [], PerfectRun(items), digest) {
      hide PartKey, MarkerKey, TempKey, IsTree, HasDirs, EndsWell;
      var w, f, g := Midway(items, |items|, digest), items[i], items[j];
      MidwayFacts(items, |items|, digest);
      assert Ready(w, f, digest) && Ready(w, g, digest);
      MarkerUnder(w.metadata, f.key, g.key, MarkerKey(f.key));
      assert false;
    }
  }

  // ---- A visit that is told "not complete" of a published file and then dies ----

  // n operations that work, then these.
  function Then(n: nat, rest: seq<Fault>): seq<Fault> {
    if n == 0 then rest else [Works] + Then(n - 1, rest)
  }

  lemma {:induction false} Pop(w: World, x: Fault, rest: seq<Fault>)
    requires w.faults == [x] + rest
    ensures Next(w) == (x, w.(faults := rest))
  {
  }

  lemma {:induction false} PopWorks(w: World, n: nat, rest: seq<Fault>)
    requires w.faults == Then(n, rest) && n > 0
    ensures Next(w) == (Works, w.(faults := Then(n - 1, rest))) && Try(w) == (Done, w.(faults := Then(n - 1, rest)))
  {
    Pop(w, Works, Then(n - 1, rest));
  }

  // The marker cannot be read once; the other operations meet `rest`.
  function Sly(rest: seq<Fault>): Plan {
    Plan([Attempt(true, true, true, [], true)], 0, Then(2, [Fails(0)] + Then(1, rest)))
  }

  lemma {:induction false} RefetchSame(w: World, f: Item, rest: seq<Fault>, digest: seq<Byte> -> string)
    requires f.key != []
    ensures Refetch(w, f, Sly(rest), digest) == Refetch(w, f, Sly([]), digest)
  {
  }

  // An output that is there, and a marker that cannot be read.
  lemma {:induction false} UnreadRefetches(w: World, f: Item, p: Plan, rest: seq<Fault>, digest: seq<Byte> -> string)
    requires f.key != [] && w.faults == Then(1, [Fails(0)] + Then(1, rest))
    requires IsFile(w.output, f.key) && |w.output[f.key].data| == |f.content|
    ensures DownloadFile(w, f, p, digest) == Refetch(w.(faults := rest), f, p, digest)
  {
    hide MarkerKey, Refetch, Trim;
    var tail := [Fails(0)] + Then(1, rest);
    var w2, w3 := w.(faults := tail), w.(faults := Then(1, rest));
    PopWorks(w, 1, tail);
    Pop(w2, Fails(0), Then(1, rest));
    PopWorks(w3, 1, rest);
  }

  lemma {:induction false} SlyRefetches(w: World, f: Item, rest: seq<Fault>, digest: seq<Byte> -> string)
    requires f.key != [] && !f.directory && Ready(w, f, digest)
    ensures VisitEntry(w, f, Sly(rest), digest) == Refetch(w.(faults := rest), f, Sly([]), digest)
  {
    RefetchSame(w.(faults := rest), f, rest, digest);
    hide PartKey, MarkerKey, TempKey, Refetch, DownloadFile;
    var tail := [Fails(0)] + Then(1, rest);
    var w0 := w.(faults := Then(2, tail));
    PopWorks(w0, 2, tail);
    DirsOnly(w, w0, f);
    MakeDirsStep(w0, f);
    NotBlockedWithDirs(w0, f);
    var w1 := w.(faults := Then(1, tail));
    assert MakeDirs(w0, f) == Step(Done, w1, 0);
    UnreadRefetches(w1, f, Sly(rest), rest, digest);
  }

  // The process dies with the part just created.
  lemma {:induction false} DiesWithPart(w: World, f: Item, digest: seq<Byte> -> string)
    requires f.key != [] && f.content == [] && PartKey(f.key) !in w.output && w.faults == Then(2, [Dies(0)])
    ensures var s := Refetch(w, f, Sly([]), digest);
            s.o == Dead && s.w.metadata == w.metadata && s.w.output == w.output[PartKey(f.key) := File([])]
  {
    hide PartKey, Publish;
    PopWorks(w, 2, [Dies(0)]);
    var w1 := w.(faults := Then(1, [Dies(0)]));
    PopWorks(w1, 1, [Dies(0)]);
    var w2 := SetPart(w.(faults := [Dies(0)]), f, []);
    assert [Dies(0)] == [Dies(0)] + [];
    Pop(w2, Dies(0), []);
    var a := Attempt(true, true, true, [], true);
    assert OpenPart(w1, f, 0).o == Dead && OpenPart(w1, f, 0).w == w2.(faults := []);
    assert OpenStream(w1, f, a, 0) == OpenPart(w1, f, 0);
    assert Transfer(w1, f, a, 0) == OpenPart(w1, f, 0);
  }

  // An empty file fetched again by a stream that ends at once.
  lemma {:induction false} EmptyTransfer(w: World, f: Item, n: nat, rest: seq<Fault>)
    requires f.key != [] && f.content == [] && PartKey(f.key) !in w.output && w.faults == Then(n + 4, rest)
    ensures var r := Resume(w, f);
            var t := Fetch(r.w, f, Sly([]).attempts, 0, 0, r.n);
            r.o == Done && r.n == 0 && t.o == Done && t.n == 0
            && t.w == World(w.output[PartKey(f.key) := File([])], w.metadata, Then(n, rest))
  {
    hide PartKey;
    PopWorks(w, n + 4, rest);
    var w1 := w.(faults := Then(n + 3, rest));
    PopWorks(w1, n + 3, rest);
    var w2 := SetPart(w.(faults := Then(n + 2, rest)), f, []);
    PopWorks(w2, n + 2, rest);
    var w3 := w2.(faults := Then(n + 1, rest));
    PopWorks(w3, n + 1, rest);
    var a := Attempt(true, true, true, [], true);
    assert OpenPart(w1, f, 0) == Step(Done, w3, 0);
    assert OpenStream(w1, f, a, 0) == OpenPart(w1, f, 0);
    assert Copy(w3, f, [], 0) == Step(Done, w3, 0);
    assert Transfer(w1, f, a, 0) == Step(Done, w3.(faults := Then(n, rest)), 0);
  }

  lemma {:induction false} EmptyMove(w: World, f: Item, n: nat, rest: seq<Fault>)
    requires f.key != [] && IsFile(w.output, f.key) && w.output[f.key].data == []
    requires PartKey(f.key) in w.output && w.output[PartKey(f.key)] == File([]) && w.faults == Then(n + 2, rest)
    ensures MovePart(w, f) == Step(Done, World(w.output - {PartKey(f.key)}, w.metadata, Then(n, rest)), 0)
  {
    SuffixesDiffer(f.key, f.key);
    hide PartKey;
    PopWorks(w, n + 2, rest);
    var w2 := World(w.output - {f.key}, w.metadata, Then(n + 1, rest));
    PopWorks(w2, n + 1, rest);
    assert (w2.output - {PartKey(f.key)})[f.key := File([])] == w.output - {PartKey(f.key)};
  }

  lemma {:induction false} HousedMkdir(t: Tree<string>, k: Key)
    requires k != [] && Housed(t, k)
    ensures !Blocked(t, Parent(k)) && MkdirAll(t, Parent(k), |Parent(k)|) == t
  {
    var dir := Parent(k);
    forall q | q in t && q != [] && q <= dir ensures !t[q].File? { assert IsDir(t, q); }
    forall q | q in Levels(dir, |dir|) ensures q in t { assert IsDir(t, q); }
  }

  // The marker protocol of an empty output, up to dropping the old marker.
  lemma {:induction false} TempLeft(w: World, f: Item, digest: seq<Byte> -> string)
    requires f.key != [] && w.faults == Then(3, [Dies(0)])
    requires IsFile(w.output, f.key) && w.output[f.key].data == []
    requires TempKey(f.key) !in w.metadata && Housed(w.metadata, f.key)
    ensures var s := WriteCompletionMarker(w, f, digest);
            && s.o == Dead && s.w.output == w.output
            && s.w.metadata == w.metadata[TempKey(f.key) := File(digest([]) + "\n")]
  {
    hide PartKey, MarkerKey, TempKey, HasChildren, Housed, RemoveTemp;
    var stop := [Dies(0)];
    PopWorks(w, 3, stop);
    var w3 := w.(faults := Then(2, stop));
    PopWorks(w3, 2, stop);
    HousedMkdir(w.metadata, f.key);
    var w4 := w.(faults := Then(1, stop));
    var line := digest([]) + "\n";
    assert MarkerDirectory(w3, f) == Step(Done, w4, 0);
    PopWorks(w4, 1, stop);
    var w5 := World(w.output, w.metadata[TempKey(f.key) := File(line)], stop);
    assert line[..|line|] == line;
    assert WriteTemp(w4, f, line) == Step(Done, w5, 0);
    assert stop == [Dies(0)] + [];
    Pop(w5, Dies(0), []);
    assert PlaceMarker(w5, f, line) == Step(Dead, w5.(faults := []), 0);
  }

  // The process dies between writing the temporary file and dropping the old marker.
  lemma {:induction false} DiesWithTemp(w: World, f: Item, digest: seq<Byte> -> string)
    requires f.key != [] && f.content == [] && PartKey(f.key) !in w.output && w.faults == Then(9, [Dies(0)])
    requires IsFile(w.output, f.key) && w.output[f.key].data == []
    requires TempKey(f.key) !in w.metadata && Housed(w.metadata, f.key)
    ensures var s := Refetch(w, f, Sly([]), digest);
            && s.o == Dead && s.w.output == w.output
            && s.w.metadata == w.metadata[TempKey(f.key) := File(digest([]) + "\n")]
  {
    SuffixesDiffer(f.key, f.key);
    hide PartKey, MarkerKey, TempKey, Resume, Fetch, MovePart, WriteCompletionMarker, Housed;
    var stop := [Dies(0)];
    EmptyTransfer(w, f, 5, stop);
    EmptyMove(World(w.output[PartKey(f.key) := File([])], w.metadata, Then(5, stop)), f, 3, stop);
    assert w.output[PartKey(f.key) := File([])] - {PartKey(f.key)} == w.output;
    TempLeft(World(w.output, w.metadata, Then(3, stop)), f, digest);
  }

  // ---- Histories ----

  // A first run cut after entry number k, and a second that goes wrong at that entry.
  function TwoRuns(items: seq<Item>, n: nat, k: nat, rest: seq<Fault>): seq<seq<Plan>>
    requires k < n <= |items|
  {
    [PerfectRun(items)[..n], PerfectRun(items)[..k] + [Sly(rest)]]
  }

  lemma {:induction false} AfterTwo(items: seq<Item>, a: seq<Plan>, b: seq<Plan>, digest: seq<Byte> -> string)
    requires Apart(items)
    ensures After(NOTHING, items, [a, b], digest) == RunFrom(RunFrom(NOTHING, items, 0, a, digest).1, items, 0, b, digest).1
  {
    hide RunFrom;
    var w1 := RunFrom(NOTHING, items, 0, a, digest).1;
    assert [a, b][1..] == [b] && [b][1..] == [];
    assert After(w1, items, [b], digest) == After(RunFrom(w1, items, 0, b, digest).1, items, [], digest);
  }

  lemma {:induction false} StopsHere(w: World, items: seq<Item>, i: nat, digest: seq<Byte> -> string)
    requires Apart(items) && i <= |items|
    ensures RunFrom(w, items, i, [], digest).1 == w
  {
  }

  // After the second run the trees are those its last visit left.
  lemma {:induction false} SecondRun(items: seq<Item>, n: nat, k: nat, rest: seq<Fault>, digest: seq<Byte> -> string)
    requires Injective(digest) && Apart(items) && k < n <= |items| && !items[k].directory
    requires EndsWell(items, [], PerfectRun(items), digest)
    ensures var m := Midway(items, n, digest);
            After(NOTHING, items, TwoRuns(items, n, k, rest), digest)
            == Refetch(World(m.output, m.metadata, rest), items[k], Sly([]), digest).w
  {
    hide VisitEntry, RunFrom, EndsWell, Ready, Refetch, AreApart;
    var plans, f := PerfectRun(items), items[k];
    MidwayFacts(items, n, digest);
    var m := Midway(items, n, digest);
    assert plans[0..n] + [] == plans[..n];
    CutRun(NOTHING, items, 0, n, plans, [], m, digest);
    StopsHere(m, items, n, digest);
    SkipAll(m, items, 0, k, digest);
    var v := Stretch(m, items, 0, k, plans, digest);
    assert plans[0..k] == plans[..k];
    CutRun(m, items, 0, k, plans, [Sly(rest)], v, digest);
    SameMatching(m, v, f, digest);
    assert Ready(m, f, digest);
    SlyRefetches(v, f, rest, digest);
    RunFromStep(v, items, k, [Sly(rest)], digest);
    assert [Sly(rest)][1..] == [];
    StopsHere(VisitEntry(v, f, Sly(rest), digest).w, items, k + 1, digest);
    AfterTwo(items, plans[..n], plans[..k] + [Sly(rest)], digest);
  }

  // The run after them, when everything up to entry number n - 1 is in place: it skips that far.
  lemma {:induction false} ThirdRun(w: World, items: seq<Item>, n: nat, digest: seq<Byte> -> string) returns (v: World, end: World)
    requires Injective(digest) && Apart(items) && n <= |items| && ReadyUpTo(w, items, n, digest)
    requires var r := RunFrom(w, items, 0, PerfectRun(items), digest); r.0 == Done && ReadyUpTo(r.1, items, |items|, digest)
    ensures SameTree(w, v) && Passes(v, items, n, |items|, PerfectRun(items), end, digest)
    ensures ReadyUpTo(end, items, |items|, digest) && end == RunFrom(w, items, 0, PerfectRun(items), digest).1
  {
    hide VisitEntry, RunFrom, Ready, AreApart;
    var plans := PerfectRun(items);
    assert plans[0..] == plans;
    DoneRunPasses(w, items, 0, n, plans, digest);
    SkipAll(w, items, 0, n, digest);
    v := Stretch(w, items, 0, n, plans, digest);
    DoneRunPasses(v, items, n, |items|, plans, digest);
    end := Stretch(v, items, n, |items|, plans, digest);
    RunFromEnd(end, items, plans[|items|..], digest);
  }

  // What a visit to e leaves of an entry that was in place, when e's part is no part of its path.
  lemma {:induction false} ReadyBeside(w: World, u: World, e: Item, h: Item, digest: seq<Byte> -> string)
    requires e.key != [] && h.key != [] && !e.directory && e.key != h.key && Visited(w, u, e)
    requires Ready(w, h, digest) && !IsDir(w.output, e.key) && !IsDir(w.output, PartKey(e.key))
    requires h.directory || h.key != PartKey(e.key)
    ensures Ready(u, h, digest)
  {
    hide PartKey, MarkerKey, TempKey;
    forall q | q != [] && q <= DirOf(h) ensures IsDir(u.output, q) {
      assert IsDir(w.output, q);
    }
    if !h.directory {
      SuffixesDiffer(h.key, e.key);
      if MarkerKey(h.key) == MarkerKey(e.key) { MarkerInjective(h.key, e.key); }
    }
  }

  lemma {:induction false} PartInjective(a: Key, b: Key)
    requires a != [] && b != [] && PartKey(a) == PartKey(b)
    ensures a == b
  {
    SuffixedInjective(a, b, ".part");
  }

  // What surviving says of these three runs.
  lemma {:induction false} SurvivesTwo(items: seq<Item>, n: nat, k: nat, rest: seq<Fault>, digest: seq<Byte> -> string)
    requires Apart(items) && k < n <= |items| && Survives(items, digest)
    ensures EndsWell(items, [], PerfectRun(items), digest)
    ensures var w := After(NOTHING, items, TwoRuns(items, n, k, rest), digest);
            var r := RunFrom(w, items, 0, PerfectRun(items), digest);
            r.0 == Done && ReadyUpTo(r.1, items, |items|, digest)
  {
    PerfectIsUndisturbed(After(NOTHING, items, [], digest), items);
    PerfectIsUndisturbed(After(NOTHING, items, TwoRuns(items, n, k, rest), digest), items);
    hide RunFrom, After, ReadyUpTo;
    assert EndsWell(items, [], PerfectRun(items), digest);
    assert EndsWell(items, TwoRuns(items, n, k, rest), PerfectRun(items), digest);
  }

  // What stays put at f's own temporary path, and at a part path no file of the manifest has.
  lemma {:induction false} TempStays(u: World, items: seq<Item>, i: nat, n: nat, v: World, k: nat, digest: seq<Byte> -> string)
    requires Injective(digest) && Apart(items) && i <= n <= |items| && k < i && !items[k].directory
    requires Passes(u, items, i, n, PerfectRun(items), v, digest)
    ensures IsFile(u.metadata, TempKey(items[k].key)) ==> IsFile(v.metadata, TempKey(items[k].key))
    ensures TempKey(items[k].key) !in u.metadata
            && (forall j :: 0 <= j < |items| && !items[j].directory ==> !(TempKey(items[k].key) < items[j].key))
            ==> TempKey(items[k].key) !in v.metadata
    decreases n - i
  {
    hide VisitEntry, PartKey, MarkerKey, TempKey, Matching, HasDirs;
    if i < n {
      var e, f, p := items[i], items[k], PerfectRun(items)[i];
      VisitFrame(u, e, p, digest);
      SuffixesDiffer(e.key, f.key);
      if !e.directory && TempKey(f.key) == TempKey(e.key) { TempInjective(f.key, e.key); }
      if TempKey(f.key) <= Parent(e.key) { ParentBelow(e.key, TempKey(f.key)); }
      TempStays(VisitEntry(u, e, p, digest).w, items, i + 1, n, v, k, digest);
    }
  }

  lemma {:induction false} PartStays(u: World, items: seq<Item>, i: nat, n: nat, v: World, k: nat, digest: seq<Byte> -> string)
    requires Injective(digest) && Apart(items) && i <= n <= |items| && k < i && !items[k].directory
    requires Passes(u, items, i, n, PerfectRun(items), v, digest) && IsFile(u.output, PartKey(items[k].key))
    requires forall j :: 0 <= j < |items| && !items[j].directory ==> items[j].key != PartKey(items[k].key)
    ensures IsFile(v.output, PartKey(items[k].key))
    decreases n - i
  {
    hide VisitEntry, PartKey, MarkerKey, TempKey, Matching, HasDirs, MarkerTree;
    if i < n {
      var e, f, p := items[i], items[k], PerfectRun(items)[i];
      VisitFrame(u, e, p, digest);
      if !e.directory && PartKey(f.key) == PartKey(e.key) { PartInjective(f.key, e.key); }
      PartStays(VisitEntry(u, e, p, digest).w, items, i + 1, n, v, k, digest);
    }
  }

  lemma {:induction false} MarkerHoused(t: Tree<string>, k: Key)
    requires k != [] && IsTree(t) && MarkerKey(k) in t
    ensures Housed(t, k)
  {
    assert DirsAbove(t, MarkerKey(k));
    forall p | p != [] && p <= Parent(k) ensures IsDir(t, p) { Beside(k, MarkerKey(k), p); }
  }

  // After the two runs everything up to f is in place, and so is a torn-off temporary file.
  lemma {:induction false} TempLeftover(items: seq<Item>, i: nat, stop: seq<Fault>, digest: seq<Byte> -> string)
    requires Injective(digest) && Apart(items) && i < |items| && !items[i].directory && items[i].content == []
    requires EndsWell(items, [], PerfectRun(items), digest) && stop == Then(9, [Dies(0)])
    ensures var w := After(NOTHING, items, TwoRuns(items, i + 1, i, stop), digest);
            ReadyUpTo(w, items, i + 1, digest) && IsTree(w.metadata) && IsFile(w.metadata, TempKey(items[i].key))
  {
    hide EndsWell, RunFrom, VisitEntry, PartKey, MarkerKey, TempKey, Refetch, Then, After, AreApart, IsTree, HasDirs, TwoRuns, Midway;
    var f, m := items[i], Midway(items, i + 1, digest);
    MidwayFacts(items, i + 1, digest);
    FetchedClean(items, i, digest);
    assert Ready(m, f, digest);
    MarkerHoused(m.metadata, f.key);
    SecondRun(items, i + 1, i, stop, digest);
    DiesWithTemp(World(m.output, m.metadata, stop), f, digest);
    var w := After(NOTHING, items, TwoRuns(items, i + 1, i, stop), digest);
    forall h | 0 <= h < i + 1 ensures Ready(w, items[h], digest) {
      assert Ready(m, items[h], digest);
      SuffixesDiffer(items[h].key, f.key);
      DirsOnly(m, w, items[h]);
    }
    HousedAbove(m.metadata, f.key, TempKey(f.key));
    TreePut(m.metadata, TempKey(f.key), digest([]) + "\n");
  }

  /** A file below another file's temporary marker path: some history leaves the temporary file
      where that directory has to be. */
  lemma {:induction false} TempClashFails(items: seq<Item>, i: nat, j: nat, digest: seq<Byte> -> string)
    requires Injective(digest) && Apart(items) && i < |items| && j < |items| && items[i].content == []
    requires !items[i].directory && !items[j].directory && TempKey(items[i].key) < items[j].key
    ensures !Survives(items, digest)
  {
    hide Survives, EndsWell, RunFrom, VisitEntry, PartKey, MarkerKey, TempKey, Then, After, AreApart, IsTree, HasDirs, Passes, TwoRuns;
    if Survives(items, digest) {
      var f, g, stop := items[i], items[j], Then(9, [Dies(0)]);
      SurvivesTwo(items, i + 1, i, stop, digest);
      TempLeftover(items, i, stop, digest);
      var w := After(NOTHING, items, TwoRuns(items, i + 1, i, stop), digest);
      var v, end := ThirdRun(w, items, i + 1, digest);
      TreeThrough(v, items, i + 1, |items|, end, digest);
      TempStays(v, items, i + 1, |items|, end, i, digest);
      assert Ready(end, g, digest);
      MarkerUnder(end.metadata, f.key, g.key, TempKey(f.key));
      assert false;
    }
  }

  // A file put where nothing was disturbs no entry in place.
  lemma {:induction false} PutElsewhere(m: World, w: World, h: Item, q: Key, digest: seq<Byte> -> string)
    requires h.key != [] && Ready(m, h, digest) && q !in m.output
    requires w.metadata == m.metadata && w.output == m.output[q := File([])]
    ensures Ready(w, h, digest)
  {
    hide MarkerKey;
    forall p | p != [] && p <= DirOf(h) ensures IsDir(w.output, p) { assert IsDir(m.output, p); }
  }

  // After the two runs everything up to f is in place, and so is an empty part.
  lemma {:induction false} PartLeftover(items: seq<Item>, i: nat, stop: seq<Fault>, digest: seq<Byte> -> string)
    requires Injective(digest) && Apart(items) && i < |items| && !items[i].directory && items[i].content == []
    requires EndsWell(items, [], PerfectRun(items), digest) && stop == Then(2, [Dies(0)])
    ensures var w := After(NOTHING, items, TwoRuns(items, i + 1, i, stop), digest);
            ReadyUpTo(w, items, i + 1, digest) && IsFile(w.output, PartKey(items[i].key))
  {
    hide EndsWell, RunFrom, VisitEntry, PartKey, MarkerKey, TempKey, Refetch, Then, After, AreApart, IsTree, HasDirs, TwoRuns, Midway;
    var f, m := items[i], Midway(items, i + 1, digest);
    MidwayFacts(items, i + 1, digest);
    FetchedClean(items, i, digest);
    SecondRun(items, i + 1, i, stop, digest);
    DiesWithPart(World(m.output, m.metadata, stop), f, digest);
    var w := After(NOTHING, items, TwoRuns(items, i + 1, i, stop), digest);
    forall h | 0 <= h < i + 1 ensures Ready(w, items[h], digest) {
      assert Ready(m, items[h], digest);
      PutElsewhere(m, w, items[h], PartKey(f.key), digest);
    }
  }

  lemma {:induction false} DirThere(w: World, e: Item, q: Key)
    requires e.key != [] && HasDirs(w, e) && q != [] && q <= DirOf(e)
    ensures IsDir(w.output, q)
  {
  }

  lemma {:induction false} NoFileThere(items: seq<Item>, i: nat, j: nat)
    requires Apart(items) && i < |items| && j < |items| && !items[i].directory && PartKey(items[i].key) <= DirOf(items[j])
    ensures forall h :: 0 <= h < |items| && !items[h].directory ==> items[h].key != PartKey(items[i].key)
  {
    hide PartKey;
    var part := PartKey(items[i].key);
    forall h | 0 <= h < |items| && !items[h].directory ensures items[h].key != part {
      DirBelow(items[j], part);
      if h != j {
        assert AreApart(items[h], items[j]);
      } else {
        OwnPaths(items[j], part);
      }
    }
  }

  /** A directory where a file's part goes: some history leaves the part there first. */
  lemma {:induction false} DirClashFails(items: seq<Item>, i: nat, j: nat, digest: seq<Byte> -> string)
    requires Injective(digest) && Apart(items) && i < |items| && j < |items| && items[i].content == []
    requires !items[i].directory && PartKey(items[i].key) <= DirOf(items[j])
    ensures !Survives(items, digest)
  {
    hide Survives, EndsWell, RunFrom, VisitEntry, PartKey, MarkerKey, TempKey, Then, After, AreApart, IsTree, Passes, TwoRuns;
    if Survives(items, digest) {
      var f, e, stop := items[i], items[j], Then(2, [Dies(0)]);
      SurvivesTwo(items, i + 1, i, stop, digest);
      NoFileThere(items, i, j);
      PartLeftover(items, i, stop, digest);
      var w := After(NOTHING, items, TwoRuns(items, i + 1, i, stop), digest);
      var v, end := ThirdRun(w, items, i + 1, digest);
      PartStays(v, items, i + 1, |items|, end, i, digest);
      assert Ready(end, e, digest);
      DirThere(end, e, PartKey(f.key));
      assert false;
    }
  }

  // ---- A file where another file's part goes ----

  /** The other file comes first: the first undisturbed run takes it for the part. */
  lemma {:induction false} EarlierFileIsTaken(items: seq<Item>, i: nat, j: nat, digest: seq<Byte> -> string)
    requires Injective(digest) && Apart(items) && j < i < |items|
    requires !items[i].directory && !items[j].directory && PartKey(items[i].key) == items[j].key
    ensures !EndsWell(items, [], PerfectRun(items), digest)
  {
    hide EndsWell, RunFrom, VisitEntry, PartKey, MarkerKey, TempKey, AreApart, IsTree, HasDirs, Passes, Midway;
    if EndsWell(items, [], PerfectRun(items), digest) {
      var m := Midway(items, i + 1, digest);
      MidwayFacts(items, i + 1, digest);
      assert Ready(m, items[j], digest);
      FetchedClean(items, i, digest);
      assert false;
    }
  }

  lemma {:induction false} SamePart(w: World, f: Item)
    requires f.key != [] && IsFile(w.output, PartKey(f.key))
    ensures SetPart(w, f, PartData(w, f)) == w
  {
    assert w.output[PartKey(f.key) := File(PartData(w, f))] == w.output;
  }

  // The other file's output, as long as f should be, is taken for the whole part.
  lemma {:induction false} TakesForPart(w: World, f: Item, other: seq<Byte>, digest: seq<Byte> -> string)
    requires f.key != [] && Injective(digest) && w.faults == [] && |other| == |f.content| > 0
    requires !IsDir(w.output, f.key) && IsFile(w.output, PartKey(f.key)) && w.output[PartKey(f.key)].data == other
    requires MarkerOk(w.metadata, f.key, digest(f.content))
    ensures var s := Refetch(w, f, Sly([]), digest);
            && IsFile(s.w.output, f.key) && s.w.output[f.key].data == other && Matching(s.w, f, digest)
            && FileTouched(w, s.w, f)
  {
    RefetchFrame(w, f, Sly([]), digest);
    hide PartKey, MarkerKey, TempKey, FileTouched, MarkerOk, MovePart, WriteCompletionMarker;
    var n, a := |other|, Attempt(true, true, true, [], true);
    SamePart(w, f);
    assert Resume(w, f) == Step(Done, w, n);
    assert OpenStream(w, f, a, n) == OpenPart(w, f, n) == Step(Done, w, n);
    assert Copy(w, f, [], n) == Step(Done, w, n);
    assert Transfer(w, f, a, n) == Step(Done, w, n);
    assert Fetch(w, f, Sly([]).attempts, 0, 0, n) == Step(Done, w, n);
    MovePartStep(w, f);
    var m := MovePart(w, f);
    WriteMarkerStep(m.w, f, digest);
    WriteMarkerFrame(m.w, f, digest);
    MarkerReadsBack(digest(other));
  }

  lemma {:induction false} TouchedIsVisited(w: World, u: World, f: Item)
    requires f.key != [] && !f.directory && FileTouched(w, u, f)
    ensures Visited(w, u, f)
  {
    hide PartKey, MarkerTree;
    forall q | q != f.key && q != PartKey(f.key) ensures SameNode(w.output, u.output, q) {
      SameElsewhere(w.output, u.output, {f.key, PartKey(f.key)}, q);
    }
  }

  lemma {:induction false} DistinctKeys(items: seq<Item>, h: nat, i: nat, j: nat)
    requires Apart(items) && h < i < j < |items|
    ensures items[h].key != items[i].key && items[h].key != items[j].key
  {
    assert AreApart(items[h], items[i]) && AreApart(items[h], items[j]);
  }

  lemma {:induction false} PublishedMarkerOk(w: World, f: Item, digest: seq<Byte> -> string)
    requires f.key != [] && Published(w, f, digest) && IsTree(w.metadata) && TempKey(f.key) !in w.metadata
    ensures MarkerOk(w.metadata, f.key, digest(f.content))
  {
    hide PartKey, TempKey;
    MarkerHoused(w.metadata, f.key);
    HousedMkdir(w.metadata, f.key);
  }

  // After a whole first run, and a second in which f's marker could not be read once.
  lemma {:induction false} WrongOutput(items: seq<Item>, i: nat, j: nat, digest: seq<Byte> -> string)
    requires Injective(digest) && Apart(items) && i < j < |items| && EndsWell(items, [], PerfectRun(items), digest)
    requires !items[i].directory && !items[j].directory && PartKey(items[i].key) == items[j].key
    requires |items[i].content| == |items[j].content| > 0
    requires forall h :: 0 <= h < |items| && !items[h].directory ==> !(TempKey(items[i].key) < items[h].key)
    ensures var w := After(NOTHING, items, TwoRuns(items, |items|, i, []), digest);
            && ReadyUpTo(w, items, i, digest) && Matching(w, items[i], digest)
            && IsFile(w.output, items[i].key) && w.output[items[i].key].data == items[j].content
  {
    hide EndsWell, RunFrom, VisitEntry, PartKey, MarkerKey, TempKey, Refetch, After, AreApart, IsTree, HasDirs, Passes, TwoRuns, Midway, Matching;
    var f, g, all := items[i], items[j], |items|;
    var m, end := Midway(items, i + 1, digest), Midway(items, all, digest);
    MidwayFacts(items, i + 1, digest);
    MidwayFacts(items, all, digest);
    FetchedClean(items, i, digest);
    TempStays(m, items, i + 1, all, end, i, digest);
    assert Ready(end, f, digest) && Ready(end, g, digest);
    PublishedMarkerOk(end, f, digest);
    SecondRun(items, all, i, [], digest);
    var w0 := World(end.output, end.metadata, []);
    TakesForPart(w0, f, g.content, digest);
    var w := After(NOTHING, items, TwoRuns(items, all, i, []), digest);
    TouchedIsVisited(w0, w, f);
    forall h | 0 <= h < i ensures Ready(w, items[h], digest) {
      assert Ready(end, items[h], digest);
      SameMatching(end, w0, items[h], digest);
      DistinctKeys(items, h, i, j);
      ReadyBeside(w0, w, f, items[h], digest);
    }
  }

  /** The other file comes later: once its output is there, a marker that cannot be read makes the
      worker take it for the part, and publish it. */
  lemma {:induction false} LaterFileIsTaken(items: seq<Item>, i: nat, j: nat, digest: seq<Byte> -> string)
    requires Injective(digest) && Apart(items) && i < j < |items|
    requires !items[i].directory && !items[j].directory && PartKey(items[i].key) == items[j].key
    requires |items[i].content| == |items[j].content| > 0 && items[i].content != items[j].content
    requires forall h :: 0 <= h < |items| && !items[h].directory ==> !(TempKey(items[i].key) < items[h].key)
    ensures !Survives(items, digest)
  {
    hide Survives, EndsWell, RunFrom, VisitEntry, PartKey, MarkerKey, TempKey, After, AreApart, IsTree, HasDirs, TwoRuns, Matching;
    if Survives(items, digest) {
      var f, all, plans := items[i], |items|, PerfectRun(items);
      SurvivesTwo(items, all, i, [], digest);
      WrongOutput(items, i, j, digest);
      var w := After(NOTHING, items, TwoRuns(items, all, i, []), digest);
      var v, end := ThirdRun(w, items, i, digest);
      SameMatching(w, v, f, digest);
      OneStretch(v, items, i, plans, digest);
      VisitFrame(v, f, plans[i], digest);
      var u := VisitEntry(v, f, plans[i], digest).w;
      assert Ready(end, f, digest);
      TailKeeps(u, items, i + 1, all, end, i, digest);
      assert false;
    }
  }

  // ---- Exactly which manifests survive ----

  predicate SamePaths(a: seq<Item>, b: seq<Item>) {
    |a| == |b| && forall i :: 0 <= i < |a| ==> a[i].key == b[i].key && a[i].directory == b[i].directory
  }

  function Filled(items: seq<Item>, i: nat): (r: seq<Item>)
    ensures |r| == |items|
  {
    seq(|items|, h requires 0 <= h < |items| => items[h].(content := if h == i then [2] else [1]))
  }

  function Emptied(items: seq<Item>): (r: seq<Item>)
    ensures |r| == |items|
  {
    seq(|items|, h requires 0 <= h < |items| => items[h].(content := []))
  }

  lemma {:induction false} SamePathsApart(a: seq<Item>, b: seq<Item>)
    requires Apart(a) && SamePaths(a, b)
    ensures Apart(b) && (NoClash(a) <==> NoClash(b))
  {
    hide PartKey, MarkerKey, TempKey;
    forall i, j | 0 <= i < |b| && 0 <= j < |b| && i != j ensures AreApart(b[i], b[j]) {
      assert AreApart(a[i], a[j]);
    }
    assert forall i, j :: 0 <= i < |a| && 0 <= j < |a| ==> (Clash(a[i], a[j]) <==> Clash(b[i], b[j]));
  }

  lemma {:induction false} OneFails(bad: seq<Item>, digest: seq<Byte> -> string)
    requires Apart(bad) && !EndsWell(bad, [], PerfectRun(bad), digest)
    ensures !Survives(bad, digest)
  {
    PerfectIsUndisturbed(After(NOTHING, bad, [], digest), bad);
  }

  lemma {:induction false} FileClashFails(items: seq<Item>, i: nat, j: nat, digest: seq<Byte> -> string)
    requires Injective(digest) && Apart(items) && i < |items| && j < |items|
    requires !items[i].directory && !items[j].directory && PartKey(items[i].key) == items[j].key
    requires forall h :: 0 <= h < |items| && !items[h].directory ==> !(TempKey(items[i].key) < items[h].key)
    ensures Apart(Filled(items, i)) && !Survives(Filled(items, i), digest)
  {
    hide PartKey, MarkerKey, TempKey, Survives, AreApart;
    var full := Filled(items, i);
    SamePathsApart(items, full);
    SuffixesDiffer(items[i].key, items[i].key);
    if j < i {
      EarlierFileIsTaken(full, i, j, digest);
      OneFails(full, digest);
    } else {
      assert full[i].content == [2] && full[j].content == [1];
      LaterFileIsTaken(full, i, j, digest);
    }
  }

  lemma {:induction false} BelowOrEqual(e: Item, q: Key)
    requires e.key != [] && q <= e.key && !(q <= DirOf(e))
    ensures !e.directory && q == e.key
  {
    Beside(e.key, e.key, q);
  }

  lemma {:induction false} ClashFails(items: seq<Item>, i: nat, j: nat, digest: seq<Byte> -> string) returns (bad: seq<Item>)
    requires Injective(digest) && Apart(items) && i < |items| && j < |items| && Clash(items[i], items[j])
    ensures SamePaths(items, bad) && Apart(bad) && !Survives(bad, digest)
  {
    hide PartKey, MarkerKey, TempKey, Survives, AreApart;
    var f, e := items[i], items[j];
    bad := Emptied(items);
    SamePathsApart(items, bad);
    if !e.directory && MarkerKey(f.key) < e.key {
      MarkerClashFails(bad, i, j, digest);
      OneFails(bad, digest);
    } else if exists h :: 0 <= h < |items| && !items[h].directory && TempKey(f.key) < items[h].key {
      var h :| 0 <= h < |items| && !items[h].directory && TempKey(f.key) < items[h].key;
      TempClashFails(bad, i, h, digest);
    } else if PartKey(f.key) <= DirOf(e) {
      DirClashFails(bad, i, j, digest);
    } else {
      BelowOrEqual(e, PartKey(f.key));
      FileClashFails(items, i, j, digest);
      bad := Filled(items, i);
    }
  }

  /** Exactly the manifests without clashes are safe: whatever the files contain, and whatever
      runs over them failed, crashed or were cut before, an undisturbed one publishes every entry if and
      only if no file's part is on another entry's path and no file lies below another file's
      marker or temporary marker. */
  lemma {:induction false} PublishesIff(items: seq<Item>, digest: seq<Byte> -> string)
    requires Injective(digest) && Apart(items)
    ensures (forall filled: seq<Item> :: SamePaths(items, filled) && Apart(filled) ==> Survives(filled, digest))
            <==> NoClash(items)
  {
    hide Survives, Clash;
    if NoClash(items) {
      forall filled: seq<Item> | SamePaths(items, filled) && Apart(filled) ensures Survives(filled, digest) {
        SamePathsApart(items, filled);
        NoClashSurvives(filled, digest);
      }
    } else {
      var i, j :| 0 <= i < |items| && 0 <= j < |items| && Clash(items[i], items[j]);
      var bad := ClashFails(items, i, j, digest);
    }
  }

  // ---- Manifests the worker accepts ----

  // The manifest's entries with the contents their remote files have.
  function ItemsOf(es: seq<Entry>, contents: seq<seq<Byte>>): (items: seq<Item>)
    requires |contents| == |es|
    ensures |items| == |es|
    ensures forall i :: 0 <= i < |es| ==> items[i] == Item(KeyOf(es[i]), es[i].directory, contents[i])
  {
    seq(|es|, i requires 0 <= i < |es| => Item(KeyOf(es[i]), es[i].directory, contents[i]))
  }

  lemma {:induction false} KeyNotEmpty(es: seq<Entry>, i: nat)
    requires Usable(es) && i < |es|
    ensures KeyOf(es[i]) != []
  {
  }

  /** What the manifest's validation accepts has different paths and no file above another entry. */
  lemma {:induction false} AcceptedIsApart(es: seq<Entry>, contents: seq<seq<Byte>>)
    requires TakeAll(map[], es).Some? && |contents| == |es|
    ensures Apart(ItemsOf(es, contents))
  {
    hide TakeAll, KeyOf, Reserved;
    AcceptedIff(es);
    var items := ItemsOf(es, contents);
    forall i | 0 <= i < |items| ensures items[i].key != [] { KeyNotEmpty(es, i); }
    forall i, j | 0 <= i < |items| && 0 <= j < |items| && i != j ensures AreApart(items[i], items[j]) {
      if i < j {
        assert Compatible(es[i], es[j]);
      } else {
        assert Compatible(es[j], es[i]);
      }
    }
  }

  /** The accepted manifests whose undisturbed runs always publish them whole are exactly those
      without clashes. */
  lemma {:induction false} ManifestPublishesIff(es: seq<Entry>, digest: seq<Byte> -> string)
    requires Injective(digest) && TakeAll(map[], es).Some?
    ensures var blank := seq(|es|, _ => []);
            && Apart(ItemsOf(es, blank))
            && ((forall filled: seq<Item> :: SamePaths(ItemsOf(es, blank), filled) && Apart(filled) ==> Survives(filled, digest))
                <==> NoClash(ItemsOf(es, blank)))
  {
    hide TakeAll, Survives, Clash, AreApart;
    var blank: seq<seq<Byte>> := seq(|es|, _ => []);
    AcceptedIsApart(es, blank);
    PublishesIff(ItemsOf(es, blank), digest);
  }

  // ---- Three manifests that are accepted and go wrong ----

  lemma {:induction false} AcceptedPair(a: Entry, b: Entry)
    requires a.local != [] && b.local != [] && !Reserved(a.local) && !Reserved(b.local) && Compatible(a, b)
    ensures TakeAll(map[], [a, b]).Some?
  {
    hide TakeAll, KeyOf, Reserved, Compatible;
    AcceptedIff([a, b]);
  }

  lemma {:induction false} LowerTwo(a: string, b: string)
    ensures FoldAll([a]) == [Lower(a)] && FoldAll([a, b]) == [Lower(a), Lower(b)]
  {
  }

  lemma {:induction false} Names()
    ensures Lower("B.part") == "b.part" && Lower("b") == "b" && Lower("a") == "a" && Lower("a.part") == "a.part"
    ensures Lower("a.complete") == "a.complete" && Lower(OWNER_MARKER) == OWNER_MARKER
  {
  }

  lemma {:induction false} Derived(name: string)
    ensures PartKey([name]) == [name + ".part"] && MarkerKey([name]) == [name + ".complete"]
    ensures |TempKey([name])| == 1
  {
    assert [name][..0] == [];
  }

  lemma {:induction false} Unrelated(a: string, b: Key)
    requires b != [] && b[0] != a
    ensures !([a] <= b) && !(b <= [a])
  {
  }

  lemma {:induction false} PartNames(x: Entry, y: Entry, u: Entry, v: Entry)
    requires x == Entry(["b"], false) && y == Entry(["B.part"], false)
    requires u == Entry(["a"], false) && v == Entry(["a.part"], false)
    ensures KeyOf(x) == ["b"] && KeyOf(y) == ["b.part"] && !Reserved(x.local) && !Reserved(y.local)
    ensures KeyOf(u) == ["a"] && KeyOf(v) == ["a.part"] && !Reserved(u.local) && !Reserved(v.local)
  {
    hide FoldAll, Lower;
    Names();
    LowerTwo("b", "");
    LowerTwo("B.part", "");
    LowerTwo("a", "");
    LowerTwo("a.part", "");
  }

  // Two files, one with the name of the other's part.
  lemma {:induction false} PartBeside(x: Entry, y: Entry, name: string)
    requires KeyOf(x) == [name] && KeyOf(y) == [name + ".part"]
    ensures PartKey(KeyOf(x)) == KeyOf(y) && Compatible(x, y) && Compatible(y, x)
  {
    hide FoldAll, KeyOf;
    Derived(name);
    assert |name| != |name + ".part"|;
    Unrelated(name, KeyOf(y));
  }

  lemma {:induction false} SortedPair(a: string, b: string)
    requires a != "" && b != "" && a[0] < b[0]
    ensures Sorted([Entry([a], false), Entry([b], false)])
  {
  }

  /** "B.part" sorts before "b" and is the part of "b": whatever the files contain, no first
      undisturbed run leaves both. */
  lemma {:induction false} EarlierPartExample(contents: seq<seq<Byte>>, digest: seq<Byte> -> string)
    requires Injective(digest) && |contents| == 2
    ensures var es := [Entry(["B.part"], false), Entry(["b"], false)];
            && TakeAll(map[], es).Some? && Sorted(es) && Apart(ItemsOf(es, contents))
            && !EndsWell(ItemsOf(es, contents), [], PerfectRun(ItemsOf(es, contents)), digest)
  {
    hide FoldAll, Lower, TakeAll, EndsWell, KeyOf, PartKey, AreApart, Compatible, Reserved;
    var es := [Entry(["B.part"], false), Entry(["b"], false)];
    SortedPair("B.part", "b");
    PartNames(es[1], es[0], Entry(["a"], false), Entry(["a.part"], false));
    assert "b" + ".part" == "b.part";
    PartBeside(es[1], es[0], "b");
    AcceptedPair(es[0], es[1]);
    AcceptedIsApart(es, contents);
    EarlierFileIsTaken(ItemsOf(es, contents), 1, 0, digest);
  }

  lemma {:induction false} FlatKeys(items: seq<Item>, i: nat)
    requires i < |items| && forall h :: 0 <= h < |items| ==> |items[h].key| == 1
    ensures forall h :: 0 <= h < |items| ==> !(TempKey(items[i].key) < items[h].key)
  {
    hide TempKey;
  }

  /** "a" and "a.part": both are published at first, but one marker that cannot be read makes the
      worker publish the bytes of "a.part" as "a" for good. */
  lemma {:induction false} LaterPartExample(digest: seq<Byte> -> string)
    requires Injective(digest)
    ensures var es := [Entry(["a"], false), Entry(["a.part"], false)];
            && TakeAll(map[], es).Some?
            && Apart(ItemsOf(es, [[2], [1]])) && !Survives(ItemsOf(es, [[2], [1]]), digest)
  {
    hide FoldAll, Lower, TakeAll, Survives, KeyOf, PartKey, TempKey, AreApart, Compatible, Reserved;
    var es := [Entry(["a"], false), Entry(["a.part"], false)];
    PartNames(Entry(["b"], false), Entry(["B.part"], false), es[0], es[1]);
    assert "a" + ".part" == "a.part";
    PartBeside(es[0], es[1], "a");
    AcceptedPair(es[0], es[1]);
    AcceptedIsApart(es, [[2], [1]]);
    var items := ItemsOf(es, [[2], [1]]);
    FlatKeys(items, 0);
    LaterFileIsTaken(items, 0, 1, digest);
  }

  lemma {:induction false} MarkerNames(x: Entry, y: Entry)
    requires x == Entry(["a"], false) && y == Entry(["a.complete", "b"], false)
    ensures KeyOf(x) == ["a"] && KeyOf(y) == ["a.complete", "b"]
    ensures !Reserved(x.local) && !Reserved(y.local)
  {
    hide FoldAll, Lower;
    Names();
    LowerTwo("a", "");
    LowerTwo("a.complete", "b");
  }

  // A file and one below the directory that has the name of its marker.
  lemma {:induction false} MarkerAbove(x: Entry, y: Entry, name: string, rest: string)
    requires KeyOf(x) == [name] && KeyOf(y) == [name + ".complete", rest]
    ensures MarkerKey(KeyOf(x)) < KeyOf(y) && Compatible(x, y)
  {
    hide FoldAll, KeyOf;
    Derived(name);
    assert |name| != |name + ".complete"|;
    Unrelated(name, KeyOf(y));
  }

  /** "a" and "a.complete/b": one marker's place is the other's directory, so no first undisturbed
      run ends well. */
  lemma {:induction false} MarkerExample(contents: seq<seq<Byte>>, digest: seq<Byte> -> string)
    requires Injective(digest) && |contents| == 2
    ensures var es := [Entry(["a"], false), Entry(["a.complete", "b"], false)];
            && TakeAll(map[], es).Some? && Apart(ItemsOf(es, contents))
            && !EndsWell(ItemsOf(es, contents), [], PerfectRun(ItemsOf(es, contents)), digest)
  {
    hide FoldAll, Lower, TakeAll, EndsWell, KeyOf, PartKey, MarkerKey, TempKey, AreApart, Compatible, Reserved;
    var es := [Entry(["a"], false), Entry(["a.complete", "b"], false)];
    MarkerNames(es[0], es[1]);
    assert "a" + ".complete" == "a.complete";
    MarkerAbove(es[0], es[1], "a", "b");
    AcceptedPair(es[0], es[1]);
    AcceptedIsApart(es, contents);
    MarkerClashFails(ItemsOf(es, contents), 0, 1, digest);
  }
}
