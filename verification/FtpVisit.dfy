/** What one visit to a manifest entry keeps: which paths it touches, that the marker
    tree stays a tree, and that the entry's own four paths stay recoverable. */
module FtpVisit {
  import opened Options
  import opened Files
  import opened FtpManifest
  import opened FtpTree
  import opened Trees
  import opened FtpPublish

  // ---- Frames ----

  ghost predicate OnlyPart(w: World, u: World, f: Item)
    requires f.key != []
  {
    u.metadata == w.metadata && u.output - {PartKey(f.key)} == w.output - {PartKey(f.key)}
  }

  // ---- Transfers ----

  // The part is a beginning of the remote file, at least as long as what is counted.
  ghost predicate Holding(w: World, f: Item, n: nat)
    requires f.key != []
  {
    !IsDir(w.output, PartKey(f.key)) && PartData(w, f) <= f.content && n <= |PartData(w, f)|
  }

  lemma {:induction false} SetPartHolds(w: World, f: Item, data: seq<Byte>)
    requires f.key != []
    ensures OnlyPart(w, SetPart(w, f, data), f) && PartData(SetPart(w, f, data), f) == data
    ensures IsFile(SetPart(w, f, data).output, PartKey(f.key))
  {
    var part := PartKey(f.key);
    assert w.output[part := File(data)] - {part} == w.output - {part};
  }

  lemma {:induction false} OpenPartStep(w: World, f: Item, at: nat)
    requires f.key != []
    ensures var s := OpenPart(w, f, at);
            && OnlyPart(w, s.w, f) && s.n == at
            && (IsDir(w.output, PartKey(f.key)) ==> s.o != Done && IsDir(s.w.output, PartKey(f.key)))
            && (Holding(w, f, at) ==> Holding(s.w, f, at))
            && (s.o == Done ==> IsFile(s.w.output, PartKey(f.key)))
            && (AllWork(w.faults) ==> AllWork(s.w.faults) && s.o != Dead)
            && (AllWork(w.faults) && Holding(w, f, at) ==> s.o == Done)
  {
    hide PartKey;
    var w1 := Try(w).1;
    SetPartHolds(w1, f, PartData(w1, f));
  }

  lemma {:induction false} OpenStreamStep(w: World, f: Item, a: Attempt, at: nat)
    requires f.key != []
    ensures var s := OpenStream(w, f, a, at);
            && OnlyPart(w, s.w, f)
            && (IsDir(w.output, PartKey(f.key)) ==> s.o != Done && IsDir(s.w.output, PartKey(f.key)))
            && (Holding(w, f, at) ==> Holding(s.w, f, s.n))
            && (s.o == Done ==> IsFile(s.w.output, PartKey(f.key)))
            && (AllWork(w.faults) ==> AllWork(s.w.faults) && s.o != Dead)
            && (AllWork(w.faults) && Holding(w, f, at) ==>
                  (s.o == Done <==> Opens(a, at)) && s.n == if !a.dials then at else if Opens(a, at) then From(a, at) else 0)
  {
    hide PartKey, OpenPart;
    OpenPartStep(w, f, at);
    OpenPartStep(w, f, 0);
    if at > 0 {
      var w1 := Try(w).1;
      SetPartHolds(w1, f, []);
      OpenPartStep(SetPart(w1, f, []), f, 0);
    }
  }

  lemma {:induction false} WriteChunkStep(w: World, f: Item, received: nat, n: nat)
    requires f.key != [] && received + n <= |f.content| && IsFile(w.output, PartKey(f.key))
    ensures var s := WriteChunk(w, f, received, n);
            && OnlyPart(w, s.w, f) && IsFile(s.w.output, PartKey(f.key))
            && (Holding(w, f, received) ==> Holding(s.w, f, s.n))
            && (s.o == Done ==> s.n == received + n)
            && (AllWork(w.faults) ==> AllWork(s.w.faults) && s.o == Done)
  {
    hide PartKey;
    var (flt, w1) := Next(w);
    var got := Reached(flt, n);
    SetPartHolds(w1, f, Overlay(PartData(w1, f), received, f.content[received..received + got]));
    if Holding(w, f, received) {
      PrefixGrows(PartData(w1, f), received, got, f.content);
    }
  }

  lemma {:induction false} CopySteps(w: World, f: Item, chunks: seq<nat>, received: nat)
    requires f.key != [] && IsFile(w.output, PartKey(f.key))
    ensures var s := Copy(w, f, chunks, received);
            && OnlyPart(w, s.w, f)
            && (Holding(w, f, received) ==> Holding(s.w, f, s.n))
            && IsFile(s.w.output, PartKey(f.key))
            && (AllWork(w.faults) ==> AllWork(s.w.faults) && s.o == Done)
            && (AllWork(w.faults) && received <= |f.content| ==>
                  s.n == if received + Total(chunks) >= |f.content| then |f.content| else received + Total(chunks))
    decreases chunks
  {
    hide PartKey, WriteChunk, Holding, AllWork;
    if chunks != [] {
      var n := ReadSize(f, received, chunks[0]);
      if n == 0 {
        CopySteps(w, f, chunks[1..], received);
      } else {
        WriteChunkStep(w, f, received, n);
        var s := WriteChunk(w, f, received, n);
        if s.o == Done {
          CopySteps(s.w, f, chunks[1..], s.n);
        }
      }
    }
  }

  lemma {:induction false} TransferStep(w: World, f: Item, a: Attempt, at: nat)
    requires f.key != []
    ensures var s := Transfer(w, f, a, at);
            && OnlyPart(w, s.w, f)
            && (IsDir(w.output, PartKey(f.key)) ==> s.o != Done && IsDir(s.w.output, PartKey(f.key)))
            && (Holding(w, f, at) ==> Holding(s.w, f, s.n))
            && (s.o == Done ==> IsFile(s.w.output, PartKey(f.key)) && a.confirms)
            && (AllWork(w.faults) ==> AllWork(s.w.faults) && s.o != Dead)
            && (AllWork(w.faults) && Holding(w, f, at) ==>
                  s.n == Received(a, at, |f.content|) && (s.o == Done <==> Opens(a, at) && a.confirms))
  {
    hide PartKey, OpenStream, Copy;
    OpenStreamStep(w, f, a, at);
    var s := OpenStream(w, f, a, at);
    if s.o == Done {
      CopySteps(s.w, f, a.chunks, s.n);
    }
  }

  lemma {:induction false} FetchSteps(w: World, f: Item, attempts: seq<Attempt>, maxRetries: int, failures: nat, at: nat)
    requires f.key != []
    ensures var s := Fetch(w, f, attempts, maxRetries, failures, at);
            && OnlyPart(w, s.w, f)
            && (IsDir(w.output, PartKey(f.key)) ==> s.o != Done && IsDir(s.w.output, PartKey(f.key)))
            && (Holding(w, f, at) ==> Holding(s.w, f, s.n))
            && (s.o == Done ==> IsFile(s.w.output, PartKey(f.key)))
            && (AllWork(w.faults) ==> AllWork(s.w.faults))
            && (AllWork(w.faults) && Holding(w, f, at) ==>
                  (s.o == Done && s.n == |f.content| <==> Recovers(attempts, maxRetries, failures, at, |f.content|)))
    decreases attempts
  {
    hide PartKey, Transfer, Holding, AllWork, Received, Opens;
    if attempts != [] {
      TransferStep(w, f, attempts[0], at);
      var t := Transfer(w, f, attempts[0], at);
      var failed := (if t.n > at then 0 else failures) + 1;
      if t.o == Error && failed <= maxRetries {
        FetchSteps(t.w, f, attempts[1..], maxRetries, failed, t.n);
      }
    }
  }

  ghost predicate PartOk(w: World, f: Item)
    requires f.key != []
  {
    !IsDir(w.output, PartKey(f.key)) && (PartData(w, f) <= f.content || |PartData(w, f)| > |f.content|)
  }

  lemma {:induction false} ResumeStep(w: World, f: Item)
    requires f.key != []
    ensures var s := Resume(w, f);
            && OnlyPart(w, s.w, f)
            && (IsDir(w.output, PartKey(f.key)) ==> IsDir(s.w.output, PartKey(f.key)))
            && (PartOk(w, f) ==> PartOk(s.w, f) && (s.o == Done ==> Holding(s.w, f, s.n)))
            && (AllWork(w.faults) ==> s.o == Done && AllWork(s.w.faults) && s.n == Resumed(w, f))
            && (s.o == Done ==> |PartData(s.w, f)| == s.n)
  {
    hide PartKey;
    SetPartHolds(Try(Try(w).1).1, f, []);
  }

  // ---- The marker tree ----

  // Only the entry's marker and temporary file differ.
  ghost predicate Edited(t: Tree<string>, u: Tree<string>, k: Key)
    requires k != []
  {
    u - {MarkerKey(k), TempKey(k)} == t - {MarkerKey(k), TempKey(k)}
  }

  // The path of a file beside the entry's own.
  lemma {:induction false} Beside(k: Key, m: Key, p: Key)
    requires k != [] && |m| == |k| && Parent(m) == Parent(k)
    ensures p < m <==> p <= Parent(k)
    ensures p <= Parent(k) ==> p != m
  {
    assert m == Parent(k) + [m[|m| - 1]];
  }

  lemma {:induction false} EditedElsewhere(t: Tree<string>, u: Tree<string>, k: Key, q: Key)
    requires k != [] && Edited(t, u, k) && q != MarkerKey(k) && q != TempKey(k)
    ensures SameNode(t, u, q)
  {
    SameElsewhere(t, u, {MarkerKey(k), TempKey(k)}, q);
  }

  lemma {:induction false} EditedParents(t: Tree<string>, u: Tree<string>, k: Key)
    requires k != [] && Edited(t, u, k)
    ensures Blocked(t, Parent(k)) <==> Blocked(u, Parent(k))
    ensures forall p :: p <= Parent(k) ==> SameNode(t, u, p)
  {
    hide MarkerKey, TempKey;
    forall p | p <= Parent(k) ensures SameNode(t, u, p) {
      Beside(k, MarkerKey(k), p);
      Beside(k, TempKey(k), p);
      EditedElsewhere(t, u, k, p);
    }
    if Blocked(t, Parent(k)) {
      var q :| q in t && q != [] && q <= Parent(k) && t[q].File?;
      assert SameNode(t, u, q);
    }
    if Blocked(u, Parent(k)) {
      var q :| q in u && q != [] && q <= Parent(k) && u[q].File?;
      assert SameNode(t, u, q);
    }
  }

  // The four single changes, on a marker tree in which the entry's directory exists.
  lemma {:induction false} Edits(t: Tree<string>, k: Key, x: string)
    requires k != []
    ensures Edited(t, t - {TempKey(k)}, k) && Edited(t, t - {MarkerKey(k)}, k)
    ensures Edited(t, t[TempKey(k) := File(x)], k) && Edited(t, t[MarkerKey(k) := File(x)], k)
  {
    hide MarkerKey, TempKey;
    var m, n := MarkerKey(k), TempKey(k);
    assert (t - {n}) - {m, n} == t - {m, n} && (t - {m}) - {m, n} == t - {m, n};
    assert t[n := File(x)] - {m, n} == t - {m, n} && t[m := File(x)] - {m, n} == t - {m, n};
  }

  // The directory of the entry's marker exists.
  ghost predicate Housed(t: Tree<string>, k: Key)
    requires k != []
  {
    forall p :: p != [] && p <= Parent(k) ==> IsDir(t, p)
  }

  lemma {:induction false} HousedAbove(t: Tree<string>, k: Key, m: Key)
    requires k != [] && |m| == |k| && Parent(m) == Parent(k) && Housed(t, k)
    ensures DirsAbove(t, m)
  {
    forall p | p != [] && p < m ensures IsDir(t, p) { Beside(k, m, p); }
  }

  // ---- What stays recoverable ----

  ghost predicate MarkerOk(t: Tree<string>, k: Key, want: string)
    requires k != []
  {
    && !IsDir(t, MarkerKey(k)) && !IsDir(t, TempKey(k)) && !Blocked(t, Parent(k))
    && (IsFile(t, MarkerKey(k)) ==> Trim(t[MarkerKey(k)].data) == want)
  }

  // The entry's own paths hold nothing another entry put there, and what its own
  // visits may leave: a beginning of the remote file (or a leftover too long to be
  // one) as the part, and a marker only for the whole remote file.
  ghost predicate Recoverable(w: World, f: Item, digest: seq<Byte> -> string)
    requires f.key != []
  {
    PartOk(w, f) && !IsDir(w.output, f.key) && MarkerOk(w.metadata, f.key, digest(f.content))
  }

  ghost predicate Published(w: World, f: Item, digest: seq<Byte> -> string)
    requires f.key != []
  {
    && IsFile(w.output, f.key) && w.output[f.key].data == f.content
    && IsFile(w.metadata, MarkerKey(f.key)) && Trim(w.metadata[MarkerKey(f.key)].data) == digest(f.content)
  }

  // ---- The steps of the marker protocol ----

  lemma {:induction false} RemoveTempStep(w: World, f: Item, o: Outcome)
    requires f.key != []
    ensures var s := RemoveTemp(w, f, o);
            && s.w.output == w.output && Edited(w.metadata, s.w.metadata, f.key)
            && SameNode(w.metadata, s.w.metadata, MarkerKey(f.key))
            && (TempKey(f.key) in s.w.metadata ==> SameNode(w.metadata, s.w.metadata, TempKey(f.key)))
            && (IsTree(w.metadata) ==> IsTree(s.w.metadata))
            && (s.o == o || s.o == Dead)
            && (AllWork(w.faults) ==> s.o == o && AllWork(s.w.faults))
  {
    hide MarkerKey, TempKey, IsTree;
    SuffixesDiffer(f.key, f.key);
    Edits(w.metadata, f.key, "");
    if IsTree(w.metadata) && IsFile(w.metadata, TempKey(f.key)) {
      TreeRemove(w.metadata, TempKey(f.key));
    }
  }

  lemma {:induction false} HousedKept(t: Tree<string>, u: Tree<string>, k: Key)
    requires k != [] && Edited(t, u, k) && Housed(t, k)
    ensures Housed(u, k)
  {
    EditedParents(t, u, k);
    forall p | p != [] && p <= Parent(k) ensures IsDir(u, p) {
      assert IsDir(t, p) && SameNode(t, u, p);
    }
  }

  // Moving the temporary file to where no marker is.
  lemma {:induction false} PlacedTree(t: Tree<string>, k: Key, line: string)
    requires k != [] && IsTree(t) && MarkerKey(k) !in t && !IsDir(t, TempKey(k)) && Housed(t, k)
    ensures IsTree((t - {TempKey(k)})[MarkerKey(k) := File(line)])
  {
    var m, n := MarkerKey(k), TempKey(k);
    hide MarkerKey, TempKey, IsTree, Edited, Housed;
    var u := t - {n};
    TreeRemove(t, n);
    Edits(t, k, line);
    HousedKept(t, u, k);
    HousedAbove(u, k, m);
    TreePut(u, m, line);
  }

  lemma {:induction false} EditedSelf(t: Tree<string>, k: Key)
    requires k != []
    ensures Edited(t, t, k)
  {
  }

  lemma {:induction false} EditedChain(t: Tree<string>, u: Tree<string>, v: Tree<string>, k: Key)
    requires k != [] && Edited(t, u, k) && Edited(u, v, k)
    ensures Edited(t, v, k)
  {
  }

  lemma {:induction false} TryWorks(w: World)
    ensures AllWork(w.faults) ==> Try(w).0 == Done && AllWork(Try(w).1.faults)
    ensures Try(w).1.output == w.output && Try(w).1.metadata == w.metadata
  {
  }

  lemma {:induction false} MoveMarkerStep(w: World, f: Item, line: string)
    requires f.key != [] && MarkerKey(f.key) !in w.metadata
    ensures var s := MoveMarker(w, f, line);
            && s.w.output == w.output && Edited(w.metadata, s.w.metadata, f.key)
            && (MarkerKey(f.key) in s.w.metadata ==> s.w.metadata[MarkerKey(f.key)] == File(line))
            && (IsDir(s.w.metadata, TempKey(f.key)) ==> IsDir(w.metadata, TempKey(f.key)))
            && (IsTree(w.metadata) && Housed(w.metadata, f.key) && !IsDir(w.metadata, TempKey(f.key)) ==> IsTree(s.w.metadata))
            && (s.o == Done ==> MarkerKey(f.key) in s.w.metadata && TempKey(f.key) !in s.w.metadata)
            && (AllWork(w.faults) ==> AllWork(s.w.faults) && s.o == Done)
  {
    hide MarkerKey, TempKey, IsTree, RemoveTemp, Edited, Housed, AllWork;
    var m, n, k := MarkerKey(f.key), TempKey(f.key), f.key;
    SuffixesDiffer(k, k);
    TryWorks(w);
    var (o, w1) := Try(w);
    EditedSelf(w.metadata, k);
    RemoveTempStep(w1, f, Error);
    EditedChain(w.metadata, w1.metadata, RemoveTemp(w1, f, Error).w.metadata, k);
    Edits(w1.metadata, k, line);
    Edits(w1.metadata - {n}, k, line);
    var w2 := w1.(metadata := (w1.metadata - {n})[m := File(line)]);
    EditedChain(w.metadata, w1.metadata - {n}, w2.metadata, k);
    RemoveTempStep(w2, f, Done);
    EditedChain(w.metadata, w2.metadata, RemoveTemp(w2, f, Done).w.metadata, k);
    if IsTree(w.metadata) && Housed(w.metadata, k) && !IsDir(w.metadata, n) {
      PlacedTree(w.metadata, k, line);
    }
  }

  lemma {:induction false} PlaceMarkerStep(w: World, f: Item, line: string)
    requires f.key != []
    ensures var s := PlaceMarker(w, f, line);
            && s.w.output == w.output && Edited(w.metadata, s.w.metadata, f.key)
            && (IsDir(s.w.metadata, MarkerKey(f.key)) ==> IsDir(w.metadata, MarkerKey(f.key)))
            && (IsFile(s.w.metadata, MarkerKey(f.key)) ==>
                  s.w.metadata[MarkerKey(f.key)] == File(line) || SameNode(w.metadata, s.w.metadata, MarkerKey(f.key)))
            && (IsDir(s.w.metadata, TempKey(f.key)) ==> IsDir(w.metadata, TempKey(f.key)))
            && (IsTree(w.metadata) && Housed(w.metadata, f.key) && !IsDir(w.metadata, TempKey(f.key)) ==> IsTree(s.w.metadata))
            && (s.o == Done ==> IsFile(s.w.metadata, MarkerKey(f.key)) && s.w.metadata[MarkerKey(f.key)].data == line
                                && TempKey(f.key) !in s.w.metadata)
            && (AllWork(w.faults) ==> AllWork(s.w.faults) && s.o != Dead)
            && (AllWork(w.faults) && !IsDir(w.metadata, MarkerKey(f.key)) ==> s.o == Done)
  {
    hide MarkerKey, TempKey, IsTree, RemoveTemp, MoveMarker, HasChildren, Edited, Housed, AllWork;
    var m, n, k := MarkerKey(f.key), TempKey(f.key), f.key;
    SuffixesDiffer(k, k);
    TryWorks(w);
    var (o, w1) := Try(w);
    EditedSelf(w.metadata, k);
    RemoveTempStep(w1, f, Error);
    if o == Done && Removable(w1.metadata, m) {
      Edits(w1.metadata, k, line);
      var w2 := w1.(metadata := w1.metadata - {m});
      MoveMarkerStep(w2, f, line);
      EditedChain(w.metadata, w2.metadata, MoveMarker(w2, f, line).w.metadata, k);
      if IsTree(w.metadata) && Housed(w.metadata, k) {
        TreeRemove(w.metadata, m);
        HousedKept(w.metadata, w2.metadata, k);
      }
    }
  }

  // Only missing directories towards the entry's marker have appeared.
  ghost predicate DirsAdded(t: Tree<string>, u: Tree<string>, k: Key)
    requires k != []
  {
    forall q :: SameNode(t, u, q) || (q !in t && IsDir(u, q) && q != [] && q <= Parent(k))
  }

  lemma {:induction false} MarkerDirectoryStep(w: World, f: Item)
    requires f.key != []
    ensures var s := MarkerDirectory(w, f);
            && s.w.output == w.output && DirsAdded(w.metadata, s.w.metadata, f.key)
            && (IsTree(w.metadata) ==> IsTree(s.w.metadata))
            && (!Blocked(w.metadata, Parent(f.key)) ==> !Blocked(s.w.metadata, Parent(f.key)))
            && (s.o == Done ==> Housed(s.w.metadata, f.key))
            && (AllWork(w.faults) ==> AllWork(s.w.faults) && s.o != Dead)
            && (AllWork(w.faults) && !Blocked(w.metadata, Parent(f.key)) ==> s.o == Done)
  {
    hide IsTree;
    var dir := Parent(f.key);
    var (flt, w1) := Next(w);
    if !Blocked(w1.metadata, dir) {
      var u := MkdirAll(w1.metadata, dir, Reached(flt, |dir|));
      if IsTree(w.metadata) { TreeMkdir(w1.metadata, dir, Reached(flt, |dir|)); }
      forall q ensures SameNode(w.metadata, u, q) || (q !in w.metadata && IsDir(u, q) && q != [] && q <= dir) {}
      if flt.Works? {
        forall p | p != [] && p <= dir ensures IsDir(u, p) {
          assert p in Levels(dir, |dir|);
          assert p in w1.metadata ==> w1.metadata[p].Dir?;
        }
      }
    }
  }

  lemma {:induction false} WriteTempStep(w: World, f: Item, line: string)
    requires f.key != []
    ensures var s := WriteTemp(w, f, line);
            && s.w.output == w.output && Edited(w.metadata, s.w.metadata, f.key)
            && SameNode(w.metadata, s.w.metadata, MarkerKey(f.key))
            && (IsDir(s.w.metadata, TempKey(f.key)) ==> IsDir(w.metadata, TempKey(f.key)))
            && (IsTree(w.metadata) && Housed(w.metadata, f.key) ==> IsTree(s.w.metadata))
            && (s.o == Done ==> !IsDir(w.metadata, TempKey(f.key)))
            && (AllWork(w.faults) ==> AllWork(s.w.faults) && s.o != Dead)
            && (AllWork(w.faults) && !IsDir(w.metadata, TempKey(f.key)) ==> s.o == Done)
  {
    hide MarkerKey, TempKey, IsTree;
    SuffixesDiffer(f.key, f.key);
    var (flt, w1) := Next(w);
    var torn := line[..Reached(flt, |line|)];
    Edits(w1.metadata, f.key, torn);
    if IsTree(w.metadata) && Housed(w.metadata, f.key) && !IsDir(w.metadata, TempKey(f.key)) {
      HousedAbove(w.metadata, f.key, TempKey(f.key));
      TreePut(w.metadata, TempKey(f.key), torn);
    }
  }

  // What the whole marker protocol does to the marker tree.
  ghost predicate MarkerTree(t: Tree<string>, u: Tree<string>, k: Key)
    requires k != []
  {
    && (forall q :: q != MarkerKey(k) && q != TempKey(k) ==>
          SameNode(t, u, q) || (q !in t && IsDir(u, q) && q != [] && q <= Parent(k)))
    && (IsTree(t) ==> IsTree(u))
  }

  lemma {:induction false} AddedThenEdited(t: Tree<string>, u: Tree<string>, v: Tree<string>, k: Key)
    requires k != [] && DirsAdded(t, u, k) && Edited(u, v, k) && (IsTree(t) ==> IsTree(v))
    ensures MarkerTree(t, v, k)
  {
    hide MarkerKey, TempKey, Edited, IsTree;
    forall q | q != MarkerKey(k) && q != TempKey(k)
      ensures SameNode(t, v, q) || (q !in t && IsDir(v, q) && q != [] && q <= Parent(k))
    {
      EditedElsewhere(u, v, k, q);
      assert SameNode(t, u, q) || IsDir(u, q);
    }
  }

  lemma {:induction false} AddedElsewhere(t: Tree<string>, u: Tree<string>, k: Key, m: Key)
    requires k != [] && DirsAdded(t, u, k) && |m| == |k|
    ensures SameNode(t, u, m)
  {
  }

  lemma {:induction false} NothingAdded(t: Tree<string>, k: Key)
    requires k != []
    ensures DirsAdded(t, t, k)
  {
  }

  lemma {:induction false} WriteMarkerFrame(w: World, f: Item, digest: seq<Byte> -> string)
    requires f.key != []
    ensures var s := WriteCompletionMarker(w, f, digest);
            s.w.output == w.output && MarkerTree(w.metadata, s.w.metadata, f.key)
  {
    hide MarkerKey, TempKey, IsTree, MarkerTree, DirsAdded, Edited, Housed, MarkerDirectory, WriteTemp, PlaceMarker;
    var k, w1 := f.key, Try(w).1;
    NothingAdded(w.metadata, k);
    EditedSelf(w.metadata, k);
    AddedThenEdited(w.metadata, w.metadata, w.metadata, k);
    if Try(w).0 == Done && IsFile(w1.output, k) {
      var line := digest(w1.output[k].data) + "\n";
      MarkerDirectoryStep(w1, f);
      var m := MarkerDirectory(w1, f);
      EditedSelf(m.w.metadata, k);
      AddedThenEdited(w.metadata, m.w.metadata, m.w.metadata, k);
      if m.o == Done {
        WriteTempStep(m.w, f, line);
        var t := WriteTemp(m.w, f, line);
        AddedThenEdited(w.metadata, m.w.metadata, t.w.metadata, k);
        if t.o == Done {
          PlaceMarkerStep(t.w, f, line);
          var s := PlaceMarker(t.w, f, line);
          HousedKept(m.w.metadata, t.w.metadata, k);
          EditedChain(m.w.metadata, t.w.metadata, s.w.metadata, k);
          AddedThenEdited(w.metadata, m.w.metadata, s.w.metadata, k);
        }
      }
    }
  }

  lemma {:induction false} WriteMarkerStep(w: World, f: Item, digest: seq<Byte> -> string)
    requires f.key != [] && Injective(digest)
    ensures var s := WriteCompletionMarker(w, f, digest);
            var want := digest(f.content);
            && (s.o == Done ==>
                  && IsFile(w.output, f.key) && IsFile(s.w.metadata, MarkerKey(f.key))
                  && s.w.metadata[MarkerKey(f.key)].data == digest(w.output[f.key].data) + "\n"
                  && TempKey(f.key) !in s.w.metadata)
            && (AllWork(w.faults) ==> AllWork(s.w.faults) && s.o != Dead)
            && (MarkerOk(w.metadata, f.key, want) && IsFile(w.output, f.key) && w.output[f.key].data == f.content ==>
                  MarkerOk(s.w.metadata, f.key, want))
            && (AllWork(w.faults) && MarkerOk(w.metadata, f.key, want) && IsFile(w.output, f.key) ==> s.o == Done)
  {
    hide MarkerKey, TempKey, IsTree, DirsAdded, Edited, Housed, MarkerDirectory, WriteTemp, PlaceMarker, AllWork;
    var k, w1 := f.key, Try(w).1;
    TryWorks(w);
    if Try(w).0 == Done && IsFile(w1.output, k) {
      var line := digest(w1.output[k].data) + "\n";
      MarkerReadsBack(digest(w1.output[k].data));
      MarkerDirectoryStep(w1, f);
      var m := MarkerDirectory(w1, f);
      AddedElsewhere(w1.metadata, m.w.metadata, k, MarkerKey(k));
      AddedElsewhere(w1.metadata, m.w.metadata, k, TempKey(k));
      if m.o == Done {
        WriteTempStep(m.w, f, line);
        var t := WriteTemp(m.w, f, line);
        EditedParents(m.w.metadata, t.w.metadata, k);
        if t.o == Done {
          PlaceMarkerStep(t.w, f, line);
          EditedParents(t.w.metadata, PlaceMarker(t.w, f, line).w.metadata, k);
        }
      }
    }
  }

  // ---- Publishing, and the whole visit ----

  lemma {:induction false} FileRemovable<T>(t: Tree<T>, k: Key)
    ensures !IsDir(t, k) ==> Removable(t, k)
  {
  }

  lemma {:induction false} MovePartStep(w: World, f: Item)
    requires f.key != []
    ensures var s := MovePart(w, f);
            && s.w.metadata == w.metadata
            && s.w.output - {f.key, PartKey(f.key)} == w.output - {f.key, PartKey(f.key)}
            && (s.o == Done ==>
                  && IsFile(w.output, PartKey(f.key)) && PartKey(f.key) !in s.w.output
                  && f.key in s.w.output && s.w.output[f.key] == w.output[PartKey(f.key)])
            && (s.o != Done ==> SameNode(w.output, s.w.output, PartKey(f.key))
                                && (IsDir(s.w.output, f.key) ==> IsDir(w.output, f.key)))
            && (AllWork(w.faults) ==> AllWork(s.w.faults) && s.o != Dead)
            && (AllWork(w.faults) && !IsDir(w.output, f.key) && IsFile(w.output, PartKey(f.key)) ==> s.o == Done)
  {
    hide PartKey, Removable, AllWork, Try;
    var k, part, t := f.key, PartKey(f.key), w.output;
    SuffixesDiffer(k, k);
    TryWorks(w);
    var w2 := Try(w).1.(output := t - {k});
    TryWorks(w2);
    assert (t - {k}) - {k, part} == t - {k, part};
    FileRemovable(t, k);
    if part in t {
      assert ((t - {k}) - {part})[k := t[part]] - {k, part} == t - {k, part};
    }
  }

  // What one file's visit does to the two trees.
  ghost predicate FileTouched(w: World, u: World, f: Item)
    requires f.key != []
  {
    && u.output - {f.key, PartKey(f.key)} == w.output - {f.key, PartKey(f.key)}
    && MarkerTree(w.metadata, u.metadata, f.key)
  }

  lemma {:induction false} OnlyPartTouches(w: World, u: World, f: Item)
    requires f.key != [] && OnlyPart(w, u, f)
    ensures FileTouched(w, u, f) && SameNode(w.output, u.output, f.key)
  {
    var k, part := f.key, PartKey(f.key);
    SuffixesDiffer(k, k);
    assert u.output - {k, part} == (u.output - {part}) - {k};
    assert w.output - {k, part} == (w.output - {part}) - {k};
    SameElsewhere(w.output, u.output, {part}, k);
  }

  lemma {:induction false} PublishFrame(w: World, f: Item, digest: seq<Byte> -> string)
    requires f.key != []
    ensures var s := Publish(w, f, digest);
            && FileTouched(w, s.w, f)
            && (s.o == Done ==> PartKey(f.key) !in s.w.output)
  {
    hide PartKey, MarkerKey, TempKey, IsTree, MovePart, WriteCompletionMarker;
    MovePartStep(w, f);
    WriteMarkerFrame(MovePart(w, f).w, f, digest);
  }

  lemma {:induction false} PublishStep(w: World, f: Item, digest: seq<Byte> -> string)
    requires f.key != [] && Injective(digest)
    ensures var s := Publish(w, f, digest);
            && (s.o == Done ==> IsFile(s.w.metadata, MarkerKey(f.key)) && TempKey(f.key) !in s.w.metadata)
            && (Recoverable(w, f, digest) && IsFile(w.output, PartKey(f.key)) && PartData(w, f) == f.content ==>
                  && Recoverable(s.w, f, digest)
                  && (s.o == Done ==> Published(s.w, f, digest))
                  && (AllWork(w.faults) ==> s.o == Done))
  {
    hide PartKey, MarkerKey, TempKey, Suffixed, MovePart, WriteCompletionMarker, AllWork, Blocked;
    MovePartStep(w, f);
    var m := MovePart(w, f);
    if m.o == Done {
      WriteMarkerStep(m.w, f, digest);
      WriteMarkerFrame(m.w, f, digest);
      if Recoverable(w, f, digest) && PartData(w, f) == f.content {
        MarkerReadsBack(digest(f.content));
      }
    }
  }

  lemma {:induction false} TouchedChain(w: World, u: World, v: World, f: Item)
    requires f.key != [] && FileTouched(w, u, f) && FileTouched(u, v, f) && u.metadata == w.metadata
    ensures FileTouched(w, v, f)
  {
  }

  lemma {:induction false} PartKeepsMetadata(w: World, u: World, f: Item)
    requires f.key != [] && OnlyPart(w, u, f)
    ensures u.metadata == w.metadata
  {
  }

  /** Whatever happens, a visit that fetches touches its own file's paths only, and success
      leaves neither a part nor a temporary file; a directory in the part's place stops it. */
  lemma {:induction false} RefetchFrame(w: World, f: Item, p: Plan, digest: seq<Byte> -> string)
    requires f.key != [] && Injective(digest)
    ensures var s := Refetch(w, f, p, digest);
            && FileTouched(w, s.w, f)
            && (s.o == Done ==> PartKey(f.key) !in s.w.output && TempKey(f.key) !in s.w.metadata)
            && (IsDir(w.output, PartKey(f.key)) ==> s.o != Done)
  {
    hide PartKey, MarkerKey, TempKey, IsTree, MarkerTree, FileTouched, OnlyPart, Resume, Fetch, Publish;
    ResumeStep(w, f);
    var r := Resume(w, f);
    OnlyPartTouches(w, r.w, f);
    assert r.w.metadata == w.metadata by { PartKeepsMetadata(w, r.w, f); }
    if r.o == Done {
      FetchSteps(r.w, f, p.attempts, p.maxRetries, 0, r.n);
      var t := Fetch(r.w, f, p.attempts, p.maxRetries, 0, r.n);
      OnlyPartTouches(r.w, t.w, f);
      PartKeepsMetadata(r.w, t.w, f);
      TouchedChain(w, r.w, t.w, f);
      PublishFrame(t.w, f, digest);
      PublishStep(t.w, f, digest);
      TouchedChain(w, t.w, Publish(t.w, f, digest).w, f);
    }
  }

  lemma {:induction false} HoldingIsPartOk(w: World, u: World, f: Item, n: nat, digest: seq<Byte> -> string)
    requires f.key != [] && Recoverable(w, f, digest) && OnlyPart(w, u, f) && PartOk(u, f)
    ensures Recoverable(u, f, digest)
  {
    hide MarkerOk, PartKey;
    OnlyPartTouches(w, u, f);
  }

  lemma {:induction false} RefetchStep(w: World, f: Item, p: Plan, digest: seq<Byte> -> string)
    requires f.key != [] && Injective(digest) && Recoverable(w, f, digest)
    ensures var s := Refetch(w, f, p, digest);
            && Recoverable(s.w, f, digest)
            && (s.o == Done ==> Published(s.w, f, digest) && s.n == |f.content|)
            && (AllWork(w.faults) ==> (s.o == Done <==> Recovers(p.attempts, p.maxRetries, 0, Resumed(w, f), |f.content|)))
  {
    hide PartKey, MarkerKey, TempKey, OnlyPart, Resume, Fetch, Publish, AllWork, MarkerOk, Recovers;
    ResumeStep(w, f);
    var r := Resume(w, f);
    HoldingIsPartOk(w, r.w, f, 0, digest);
    if r.o == Done {
      FetchSteps(r.w, f, p.attempts, p.maxRetries, 0, r.n);
      var t := Fetch(r.w, f, p.attempts, p.maxRetries, 0, r.n);
      HoldingIsPartOk(r.w, t.w, f, 0, digest);
      if t.o == Done && t.n == |f.content| {
        assert PartData(t.w, f) == f.content;
        PublishStep(t.w, f, digest);
      }
    }
  }

  lemma {:induction false} MatchesStep(w: World, f: Item, digest: seq<Byte> -> string)
    requires f.key != []
    ensures var v := CompletedFileMatches(w, f, digest);
            && v.w.output == w.output && v.w.metadata == w.metadata && v.o != Error
            && (v.matches ==> v.o == Done && Matching(w, f, digest))
            && (AllWork(w.faults) ==> v.o == Done && AllWork(v.w.faults) && (v.matches <==> Matching(w, f, digest)))
  {
    hide MarkerKey, Try, Trim, AllWork, IsFile;
    var w1 := Try(w).1;
    var w2 := Try(w1).1;
    TryWorks(w);
    TryWorks(w1);
    TryWorks(w2);
  }

  lemma {:induction false} SameTrees(w: World, u: World, f: Item, digest: seq<Byte> -> string)
    requires f.key != [] && u.output == w.output && u.metadata == w.metadata
    ensures FileTouched(w, u, f) && (Recoverable(w, f, digest) <==> Recoverable(u, f, digest))
    ensures (Published(w, f, digest) <==> Published(u, f, digest)) && Resumed(w, f) == Resumed(u, f)
  {
  }

  lemma {:induction false} MatchingIsPublished(w: World, f: Item, digest: seq<Byte> -> string)
    requires f.key != [] && Injective(digest)
    ensures Published(w, f, digest) ==> Matching(w, f, digest)
    ensures Recoverable(w, f, digest) && Matching(w, f, digest) ==> Published(w, f, digest)
  {
    hide MarkerKey, PartKey;
  }

  lemma {:induction false} DownloadFrame(w: World, f: Item, p: Plan, digest: seq<Byte> -> string)
    requires f.key != [] && Injective(digest)
    ensures var s := DownloadFile(w, f, p, digest);
            && FileTouched(w, s.w, f)
            && (s.o == Done && !Matching(w, f, digest) ==>
                  PartKey(f.key) !in s.w.output && TempKey(f.key) !in s.w.metadata && !IsDir(w.output, PartKey(f.key)))
            && (AllWork(w.faults) && Matching(w, f, digest) ==> s.o == Done && s.w.output == w.output && s.w.metadata == w.metadata)
  {
    hide PartKey, MarkerKey, TempKey, FileTouched, CompletedFileMatches, Refetch, Matching, AllWork;
    MatchesStep(w, f, digest);
    var v := CompletedFileMatches(w, f, digest);
    TryWorks(v.w);
    var w1 := Try(v.w).1;
    SameTrees(w, v.w, f, digest);
    SameTrees(w, w1, f, digest);
    RefetchFrame(w1, f, p, digest);
    TouchedChain(w, w1, Refetch(w1, f, p, digest).w, f);
  }

  /** One file: every outcome, a crash at any disk operation included, leaves its paths
      recoverable; success means the output is the remote file and the marker says so; and on a
      working disk a visit succeeds exactly when that is so already, with no connection at all,
      or the connections recover from where the part stands. */
  lemma {:induction false} DownloadStep(w: World, f: Item, p: Plan, digest: seq<Byte> -> string)
    requires f.key != [] && Injective(digest) && Recoverable(w, f, digest)
    ensures var s := DownloadFile(w, f, p, digest);
            && Recoverable(s.w, f, digest)
            && (s.o == Done ==> Published(s.w, f, digest) && s.n == |f.content|)
            && (AllWork(w.faults) ==>
                  (s.o == Done <==> Published(w, f, digest)
                                    || Recovers(p.attempts, p.maxRetries, 0, Resumed(w, f), |f.content|)))
  {
    hide PartKey, MarkerKey, TempKey, CompletedFileMatches, Refetch, Matching, AllWork, Recoverable, Published, Recovers, Resumed;
    MatchesStep(w, f, digest);
    MatchingIsPublished(w, f, digest);
    var v := CompletedFileMatches(w, f, digest);
    TryWorks(v.w);
    var w1 := Try(v.w).1;
    SameTrees(w, v.w, f, digest);
    SameTrees(w, w1, f, digest);
    RefetchStep(w1, f, p, digest);
  }
}
