/** The FTP directory worker as the object it is: two trees changed in place, one disk
    operation after the other, by loops over reads, attempts and manifest entries. */
module FtpWorker {
  import opened Options
  import opened Files
  import opened FtpManifest
  import opened FtpTree
  import opened Trees
  import opened FtpVisit
  import opened FtpRuns
  import Spec = FtpPublish
  import opened FtpPublish
  import Base = FtpRoot

  lemma {:induction false} VisitIgnores(w: World, u: World, e: Item, p: Plan, digest: seq<Byte> -> string)
    requires e.key != [] && u.output == w.output && u.metadata == w.metadata
    ensures VisitEntry(w, e, p, digest) == VisitEntry(u, e, p, digest)
  {
    hide MakeDirs, DownloadFile;
    assert w.(faults := p.faults) == u.(faults := p.faults);
  }

  // Every entry brings its own faults; those left over from before do not matter.
  lemma {:induction false} FaultsIgnored(w: World, u: World, items: seq<Item>, plans: seq<Plan>, digest: seq<Byte> -> string)
    requires Apart(items) && u.output == w.output && u.metadata == w.metadata
    ensures var (o, v), (p, x) := RunAll(w, items, plans, digest), RunAll(u, items, plans, digest);
            o == p && v.output == x.output && v.metadata == x.metadata
  {
    hide VisitEntry;
    if items != [] && plans != [] {
      assert VisitEntry(w, items[0], plans[0], digest) == VisitEntry(u, items[0], plans[0], digest) by { VisitIgnores(w, u, items[0], plans[0], digest); }
    }
  }

  class DirectoryWorker {
    const digest: seq<Byte> -> string
    var root: Base.Root
    var output: Tree<seq<Byte>>
    var metadata: Tree<string>
    var faults: seq<Fault>

    ghost function Abs(): World
      reads this
    {
      World(output, metadata, faults)
    }

    constructor (digest: seq<Byte> -> string)
      ensures this.digest == digest && Abs() == World(map[], map[], []) && root == Base.NoRoot
    {
      this.digest, root, output, metadata, faults := digest, Base.NoRoot, map[], map[], [];
    }

    // Let one disk operation happen.
    method Operate() returns (f: Fault)
      modifies this`faults
      ensures (f, Abs()) == Spec.Next(old(Abs()))
    {
      f := Works;
      if faults != [] {
        f, faults := faults[0], faults[1..];
      }
    }

    method Attempted() returns (o: Outcome)
      modifies this`faults
      ensures (o, Abs()) == Spec.Try(old(Abs()))
    {
      var f := Operate();
      o := match f case Works => Done case Fails(_) => Error case Dies(_) => Dead;
    }

    method CompletedFileMatches(f: Item) returns (o: Outcome, matches: bool)
      requires f.key != []
      modifies this`faults
      ensures Spec.CompletedFileMatches(old(Abs()), f, digest) == Verdict(o, Abs(), matches)
    {
      hide MarkerKey;
      var t := Attempted();
      if t == Dead { return Dead, false; }
      if t == Error || !IsFile(output, f.key) || |output[f.key].data| != |f.content| { return Done, false; }
      t := Attempted();
      if t == Dead { return Dead, false; }
      if t == Error || !IsFile(metadata, MarkerKey(f.key)) { return Done, false; }
      t := Attempted();
      if t != Done { return if t == Dead then Dead else Done, false; }
      return Done, Trim(metadata[MarkerKey(f.key)].data) == digest(output[f.key].data);
    }

    method Resume(f: Item) returns (o: Outcome, received: nat)
      requires f.key != []
      modifies this`output, this`faults
      ensures Spec.Resume(old(Abs()), f) == Step(o, Abs(), received)
    {
      hide PartKey;
      received := 0;
      var part := PartKey(f.key);
      o := Attempted();
      if o != Done { return; }
      if IsFile(output, part) { received := |output[part].data|; }
      if received > |f.content| {
        received := 0;
        o := Attempted();
        if o != Done { return; }
        output := output[part := File([])];
        o := Attempted();
      }
    }

    method OpenPart(f: Item, at: nat) returns (o: Outcome)
      requires f.key != []
      modifies this`output, this`faults
      ensures Spec.OpenPart(old(Abs()), f, at) == Step(o, Abs(), at)
    {
      hide PartKey;
      var part := PartKey(f.key);
      o := Attempted();
      if o != Done { return; }
      if IsDir(output, part) { return Error; }
      if part !in output {
        output := output[part := File([])];
      } else {
        assert output[part := output[part]] == output;
      }
      o := Attempted();
    }

    method OpenStream(f: Item, a: Attempt, at: nat) returns (o: Outcome, received: nat)
      requires f.key != []
      modifies this`output, this`faults
      ensures Spec.OpenStream(old(Abs()), f, a, at) == Step(o, Abs(), received)
    {
      hide PartKey;
      var part := PartKey(f.key);
      received := at;
      if !a.dials { return Error, received; }
      if received > 0 && !a.restarts {
        received := 0;
        o := Attempted();
        if o != Done { return; }
        if !IsFile(output, part) { return Error, received; }
        output := output[part := File([])];
        if !a.retrieves { return Error, received; }
      } else if received == 0 && !a.retrieves {
        return Error, received;
      }
      o := OpenPart(f, received);
    }

    method WriteChunk(f: Item, received: nat, n: nat) returns (o: Outcome, now: nat)
      requires f.key != [] && received + n <= |f.content|
      modifies this`output, this`faults
      ensures Spec.WriteChunk(old(Abs()), f, received, n) == Step(o, Abs(), now)
    {
      hide PartKey;
      var part := PartKey(f.key);
      var flt := Operate();
      var written := Reached(flt, n);
      var data := if IsFile(output, part) then output[part].data else [];
      output := output[part := File(Overlay(data, received, f.content[received..received + written]))];
      now := received + written;
      o := match flt case Works => Done case Fails(_) => Error case Dies(_) => Dead;
    }

    /** One transfer: open the stream, copy its reads, insist on the confirmed end. */
    method Transfer(f: Item, a: Attempt, at: nat) returns (o: Outcome, received: nat)
      requires f.key != []
      modifies this`output, this`faults
      ensures Spec.Transfer(old(Abs()), f, a, at) == Step(o, Abs(), received)
    {
      hide PartKey, Spec.OpenStream, Spec.WriteChunk;
      o, received := OpenStream(f, a, at);
      if o != Done { return; }
      var i := 0;
      ghost var start, from := Abs(), received;
      assert a.chunks[0..] == a.chunks;
      while i < |a.chunks|
        invariant i <= |a.chunks|
        invariant Spec.Copy(Abs(), f, a.chunks[i..], received) == Spec.Copy(start, f, a.chunks, from)
      {
        var n := ReadSize(f, received, a.chunks[i]);
        assert a.chunks[i..][0] == a.chunks[i] && a.chunks[i..][1..] == a.chunks[i + 1..];
        if n > 0 {
          o, received := WriteChunk(f, received, n);
          if o != Done { return; }
        }
        i := i + 1;
      }
      if !a.confirms { return Error, received; }
      o := Attempted();
    }

    /** The retry loop. It ends because a run has finitely many connections before it is cancelled. */
    method Fetch(f: Item, attempts: seq<Attempt>, maxRetries: int, at: nat) returns (o: Outcome, received: nat)
      requires f.key != []
      modifies this`output, this`faults
      ensures Spec.Fetch(old(Abs()), f, attempts, maxRetries, 0, at) == Step(o, Abs(), received)
      ensures AllWork(old(faults)) && Holding(old(Abs()), f, at) ==>
                (o == Done && received == |f.content| <==> Recovers(attempts, maxRetries, 0, at, |f.content|))
    {
      hide Spec.Transfer, AllWork, Holding, Recovers, PartKey;
      FetchSteps(Abs(), f, attempts, maxRetries, 0, at);
      received := at;
      var i, failures: nat := 0, 0;
      assert attempts[0..] == attempts;
      while i < |attempts|
        invariant i <= |attempts|
        invariant Spec.Fetch(Abs(), f, attempts[i..], maxRetries, failures, received)
               == Spec.Fetch(old(Abs()), f, attempts, maxRetries, 0, at)
      {
        var start := received;
        assert attempts[i..][0] == attempts[i] && attempts[i..][1..] == attempts[i + 1..];
        o, received := Transfer(f, attempts[i], received);
        if o != Error { return; }
        if received > start { failures := 0; }
        failures := failures + 1;
        if failures > maxRetries { return; }
        i := i + 1;
      }
      o := Error;
    }

    method RemoveTemp(f: Item, result: Outcome) returns (o: Outcome)
      requires f.key != []
      modifies this`metadata, this`faults
      ensures Spec.RemoveTemp(old(Abs()), f, result) == Step(o, Abs(), 0)
    {
      hide TempKey;
      var cleaned := Attempted();
      if cleaned == Dead { return Dead; }
      if cleaned == Done && IsFile(metadata, TempKey(f.key)) {
        metadata := metadata - {TempKey(f.key)};
      }
      o := result;
    }

    method MarkerDirectory(f: Item) returns (o: Outcome)
      requires f.key != []
      modifies this`metadata, this`faults
      ensures Spec.MarkerDirectory(old(Abs()), f) == Step(o, Abs(), 0)
    {
      var dir := Parent(f.key);
      var flt := Operate();
      if Blocked(metadata, dir) { return if flt.Dies? then Dead else Error; }
      metadata := MkdirAll(metadata, dir, Reached(flt, |dir|));
      o := match flt case Works => Done case Fails(_) => Error case Dies(_) => Dead;
    }

    /** Vouch for the output: the new marker is written beside the old one and moved in its place. */
    method WriteCompletionMarker(f: Item) returns (o: Outcome)
      requires f.key != []
      modifies this`metadata, this`faults
      ensures Spec.WriteCompletionMarker(old(Abs()), f, digest) == Step(o, Abs(), 0)
    {
      hide MarkerKey, TempKey, Spec.MarkerDirectory, Spec.RemoveTemp, HasChildren;
      var marker, temp := MarkerKey(f.key), TempKey(f.key);
      o := Attempted();
      if o != Done { return; }
      if !IsFile(output, f.key) { return Error; }
      var line := digest(output[f.key].data) + "\n";
      o := MarkerDirectory(f);
      if o != Done { return; }
      var flt := Operate();
      if IsDir(metadata, temp) { return if flt.Dies? then Dead else Error; }
      metadata := metadata[temp := File(line[..Reached(flt, |line|)])];
      if !flt.Works? { return if flt.Dies? then Dead else Error; }
      o := Attempted();
      if o == Dead { return; }
      if o == Error || !Removable(metadata, marker) {
        o := RemoveTemp(f, Error);
        return;
      }
      metadata := metadata - {marker};
      o := Attempted();
      if o == Dead { return; }
      if o == Error {
        o := RemoveTemp(f, Error);
        return;
      }
      metadata := (metadata - {temp})[marker := File(line)];
      o := RemoveTemp(f, Done);
    }

    method MovePart(f: Item) returns (o: Outcome)
      requires f.key != []
      modifies this`output, this`faults
      ensures Spec.MovePart(old(Abs()), f) == Step(o, Abs(), 0)
    {
      hide PartKey, HasChildren;
      var part := PartKey(f.key);
      o := Attempted();
      if o != Done { return; }
      if !Removable(output, f.key) { return Error; }
      output := output - {f.key};
      o := Attempted();
      if o != Done { return; }
      if !IsFile(output, part) { return Error; }
      var node := output[part];
      output := (output - {part})[f.key := node];
    }

    /** downloadDirectoryFile. */
    method DownloadDirectoryFile(f: Item, p: Plan) returns (o: Outcome, received: nat)
      requires f.key != []
      modifies this`output, this`metadata, this`faults
      ensures Spec.DownloadFile(old(Abs()), f, p, digest) == Step(o, Abs(), received)
    {
      hide Spec.CompletedFileMatches, Spec.Resume, Spec.Fetch, Spec.MovePart, Spec.WriteCompletionMarker;
      var matches;
      received := 0;
      o, matches := CompletedFileMatches(f);
      if o != Done { return; }
      o := Attempted();
      if o != Done { return; }
      if matches { return Done, |f.content|; }
      o, received := Resume(f);
      if o != Done { return; }
      o, received := Fetch(f, p.attempts, p.maxRetries, received);
      if o != Done { return; }
      if received != |f.content| { return Error, received; }
      o := MovePart(f);
      if o == Done {
        o := WriteCompletionMarker(f);
      }
    }

    method MakeDirs(e: Item) returns (o: Outcome)
      requires e.key != []
      modifies this`output, this`faults
      ensures Spec.MakeDirs(old(Abs()), e) == Step(o, Abs(), 0)
    {
      var dir := DirOf(e);
      var flt := Operate();
      if Blocked(output, dir) { return if flt.Dies? then Dead else Error; }
      output := MkdirAll(output, dir, Reached(flt, |dir|));
      o := match flt case Works => Done case Fails(_) => Error case Dies(_) => Dead;
    }

    /** runDirectory: the loop over the manifest. Plans that run out are a crash or a cancellation
        between two entries. */
    method RunDirectory(items: seq<Item>, plans: seq<Plan>) returns (o: Outcome)
      requires forall i :: 0 <= i < |items| ==> items[i].key != []
      modifies this`output, this`metadata, this`faults
      ensures (o, Abs()) == Spec.RunAll(old(Abs()), items, plans, digest)
    {
      hide Spec.DownloadFile, Spec.MakeDirs;
      var i := 0;
      assert items[0..] == items && plans[0..] == plans;
      while i < |items|
        invariant i <= |items| && i <= |plans|
        invariant Spec.RunAll(Abs(), items[i..], plans[i..], digest) == Spec.RunAll(old(Abs()), items, plans, digest)
      {
        if i == |plans| { return Dead; }
        var e, p := items[i], plans[i];
        assert items[i..][0] == e && items[i..][1..] == items[i + 1..];
        assert plans[i..][0] == p && plans[i..][1..] == plans[i + 1..];
        faults := p.faults;
        o := MakeDirs(e);
        if o != Done { return; }
        if !e.directory {
          var received;
          o, received := DownloadDirectoryFile(e, p);
          if o != Done { return; }
        }
        i := i + 1;
      }
      o := Done;
    }

    // The directory is new: make it and its owner file.
    method MakeRoot(id: string) returns (o: Outcome)
      requires root.NoRoot?
      modifies this`root, this`faults
      ensures Base.MakeRoot(old(Abs()), id) == Base.Ground(o, root, Abs())
    {
      o := Attempted();
      if o != Done { return; }
      root := Base.RootDir(None);
      o := Attempted();
      if o != Done { return; }
      root := Base.RootDir(Some(""));
      var line := id + "\n";
      var flt := Operate();
      root := Base.RootDir(Some(line[..Reached(flt, |line|)]));
      if flt.Dies? { return Dead; }
      o := Attempted();
      if flt.Fails? && o == Done { o := Error; }
    }

    method CheckRoot(id: string) returns (o: Outcome)
      requires root.RootDir?
      modifies this`faults
      ensures Base.CheckRoot(root, old(Abs()), id) == Base.Ground(o, root, Abs())
    {
      hide Trim;
      o := Attempted();
      if o != Done { return; }
      if root.owner.None? { return Error; }
      o := Attempted();
      if o == Done && Trim(root.owner.value) != id { o := Error; }
    }

    /** prepareDirectoryRoot, from the task's folder to the two directories opened after it. */
    method PrepareRoot(id: string) returns (o: Outcome)
      modifies this`root, this`faults
      ensures Base.PrepareRoot(old(root), old(Abs()), id) == Base.Ground(o, root, Abs())
    {
      hide Base.MakeRoot, Base.CheckRoot;
      o := Attempted();
      if o != Done { return; }
      o := Attempted();
      if o != Done { return; }
      if root.NoRoot? { o := MakeRoot(id); } else { o := CheckRoot(id); }
      if o != Done { return; }
      o := Attempted();
      if o != Done { return; }
      o := Attempted();
    }

    /** A run of the task: the manifest is gone through only on a prepared directory. */
    method RunTask(id: string, prep: seq<Fault>, items: seq<Item>, plans: seq<Plan>, moved: bool) returns (o: Outcome)
      requires Apart(items)
      modifies this
      ensures var (p, t) := Base.RunTask(Base.Site(old(root), moved, false, old(Abs())), items, id, prep, plans, digest);
              o == p && root == t.root && output == t.world.output && metadata == t.world.metadata
    {
      hide Base.PrepareRoot, Spec.RunAll;
      ghost var before := Abs();
      faults := prep;
      o := PrepareRoot(id);
      if o != Done { return; }
      assert items[0..] == items;
      FaultsIgnored(before, Abs(), items, plans, digest);
      o := RunDirectory(items, plans);
    }
  }
}
