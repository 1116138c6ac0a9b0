/** The portable updater: verify the archive, copy its files over the installation
    one by one with backups, and put everything back when a step throws. */
module Installer {
  import opened Files
  import opened Text
  import opened Trees

  // The installation, keyed by paths as Windows resolves them.
  type Disk = Tree<seq<Byte>>

  // Files by path: what the archive was unpacked to, and the backups.
  type FileMap = map<Key, seq<Byte>>

  const MANIFEST := "release-manifest.json"

  datatype Entry = Entry(name: string, sha256: string)

  predicate IsSeparator(c: char) {
    c == '/' || c == '\\'
  }

  function Components(s: string): (r: seq<string>)
    ensures r != []
  {
    if s == "" then [""]
    else
      var rest := Components(s[1..]);
      if IsSeparator(s[0]) then [""] + rest else [[s[0]] + rest[0]] + rest[1..]
  }

  // Windows drops the dots and blanks at the end of a component.
  function Stripped(c: string): string {
    if c != "" && (c[|c| - 1] == '.' || c[|c| - 1] == ' ') then Stripped(c[..|c| - 1]) else c
  }

  function Kept(parts: seq<string>): Key {
    if parts == [] then []
    else
      var c := Stripped(parts[0]);
      (if c == "" then [] else [c]) + Kept(parts[1..])
  }

  // What a name means: separators unified, empty and "." components dropped, case folded.
  function Canonical(name: string): Key {
    Kept(Components(Lower(name)))
  }

  // Unpacked files lie below the folder they were unpacked to, and none below another.
  predicate Extracted(archive: FileMap) {
    [] !in archive && forall p, q | p in archive && q in archive :: !(p < q)
  }

  // ---- Where a copy goes ----

  // The place in a directory for a file of the directory's own name.
  function Inside(key: Key): (r: Key)
    requires key != []
    ensures r != [] && Parent(r) == key && |r| == |key| + 1 && key < r
  {
    key + [key[|key| - 1]]
  }

  // A copy onto a directory goes into it.
  function Target(disk: Disk, key: Key): Key
    requires key != []
  {
    if IsDir(disk, key) then Inside(key) else key
  }

  // The folder of the path can be made, and the copy meets no directory.
  predicate Passable(disk: Disk, key: Key)
    requires key != []
  {
    !Blocked(disk, Parent(key)) && !IsDir(disk, Target(disk, key))
  }

  // ---- The steps of the copying loop ----

  // `backedUp` holds folded names as they are written: the source's set compares strings, not files.
  datatype State = State(disk: Disk, backup: FileMap, installed: seq<string>, backedUp: set<string>)

  // What a copy that throws leaves at its destination.
  datatype Damage = Untouched | Removed | Holds(bytes: seq<Byte>)

  // Where the handling of one file throws.
  datatype Break = AtFolder(levels: nat) | AtBackup(left: Damage) | AtCopy(left: Damage)

  function Damaged(disk: Disk, at: Key, left: Damage): Disk {
    if IsDir(disk, at) then disk
    else
      match left
      case Untouched => disk
      case Removed => disk - {at}
      case Holds(bytes) => disk[at := File(bytes)]
  }

  function BadBackup(backup: FileMap, key: Key, left: Damage): FileMap {
    match left
    case Untouched => backup
    case Removed => backup - {key}
    case Holds(bytes) => backup[key := bytes]
  }

  // With the folders towards the file made.
  function Foldered(s: State, name: string): State
    requires Canonical(name) != []
  {
    var dir := Parent(Canonical(name));
    s.(disk := MkdirAll(s.disk, dir, |dir|))
  }

  // A file that is there is copied away first.
  function Backed(s: State, name: string): State {
    var key := Canonical(name);
    if IsFile(s.disk, key) then s.(backup := s.backup[key := s.disk[key].data], backedUp := s.backedUp + {Lower(name)}) else s
  }

  // All that comes before the copy.
  function Recorded(s: State, name: string): State
    requires Canonical(name) != []
  {
    Backed(Foldered(s, name), name).(installed := s.installed + [name])
  }

  function Installed(s: State, name: string, archive: FileMap): State
    requires Canonical(name) != [] && Canonical(name) in archive
  {
    var r, key := Recorded(s, name), Canonical(name);
    r.(disk := r.disk[Target(r.disk, key) := File(archive[key])])
  }

  function Broken(s: State, name: string, how: Break): State
    requires Canonical(name) != []
  {
    var key := Canonical(name);
    if Blocked(s.disk, Parent(key)) then s
    else
      match how
      case AtFolder(levels) => s.(disk := MkdirAll(s.disk, Parent(key), levels))
      case AtBackup(left) =>
        var f := Foldered(s, name);
        if IsFile(f.disk, key) then f.(backup := BadBackup(f.backup, key, left)) else f
      case AtCopy(left) =>
        var r := Recorded(s, name);
        r.(disk := Damaged(r.disk, Target(r.disk, key), left))
  }

  predicate InArchive(names: seq<string>, archive: FileMap) {
    forall i :: 0 <= i < |names| ==> Canonical(names[i]) != [] && Canonical(names[i]) in archive
  }

  function After(s: State, names: seq<string>, archive: FileMap): State
    requires InArchive(names, archive)
    decreases |names|
  {
    if names == [] then s
    else Installed(After(s, names[..|names| - 1], archive), names[|names| - 1], archive)
  }

  function Start(disk: Disk): State {
    State(disk, map[], [], {})
  }

  // The state in which handling the file number `stop` throws.
  function Failed(disk: Disk, names: seq<string>, archive: FileMap, stop: nat, how: Break): State
    requires stop < |names| && InArchive(names, archive)
  {
    Broken(After(Start(disk), names[..stop], archive), names[stop], how)
  }

  // ---- The catch block ----

  function UndoOne(disk: Disk, s: State, name: string): Disk
    requires Canonical(name) != []
  {
    var key := Canonical(name);
    if Lower(name) in s.backedUp && key in s.backup then
      if IsDir(disk, Target(disk, key)) then disk else disk[Target(disk, key) := File(s.backup[key])]
    else if IsFile(disk, key) then disk - {key}
    else disk
  }

  predicate Proper(names: seq<string>) {
    forall i :: 0 <= i < |names| ==> Canonical(names[i]) != []
  }

  // The catch block's loop over the first n installed names.
  function Undo(s: State, n: nat): Disk
    requires n <= |s.installed| && Proper(s.installed)
  {
    if n == 0 then s.disk else UndoOne(Undo(s, n - 1), s, s.installed[n - 1])
  }

  function Rollback(s: State): Disk
    requires Proper(s.installed)
  {
    Undo(s, |s.installed|)
  }

  // ---- What is promised, and when ----

  ghost predicate Named(names: seq<string>, key: Key) {
    exists i :: 0 <= i < |names| && Canonical(names[i]) == key
  }

  ghost predicate Above(names: seq<string>, k: Key) {
    exists i :: 0 <= i < |names| && k < Canonical(names[i])
  }

  // Unchanged, or a folder that was made for one of the names.
  ghost predicate Unharmed(disk: Disk, now: Disk, names: seq<string>, k: Key) {
    SameNode(disk, now, k) || (k !in disk && IsDir(now, k) && Above(names, k))
  }

  // The installation is what it was, but for folders made on the way.
  ghost predicate Regained(disk: Disk, now: Disk, names: seq<string>) {
    forall k: Key :: Unharmed(disk, now, names, k)
  }

  // The first n names can be copied.
  predicate Reaches(disk: Disk, names: seq<string>, n: nat)
    requires Proper(names)
  {
    forall i :: 0 <= i < |names| && i < n ==> Passable(disk, Canonical(names[i]))
  }

  predicate Repeats(names: seq<string>, i: nat)
    requires i < |names|
  {
    exists h :: 0 <= h < i && Canonical(names[h]) == Canonical(names[i])
  }

  // As far as names can be copied, no two mean the same file and none is a directory.
  predicate Undoable(disk: Disk, names: seq<string>)
    requires Proper(names)
  {
    forall i :: 0 <= i < |names| && Reaches(disk, names, i + 1) ==>
      !IsDir(disk, Canonical(names[i])) && !Repeats(names, i)
  }

  // No two names mean the same file.
  predicate Distinct(names: seq<string>) {
    forall i :: 0 <= i < |names| ==> !Repeats(names, i)
  }

  ghost predicate Undone(disk: Disk, names: seq<string>, archive: FileMap, stop: nat, how: Break)
    requires stop < |names| && InArchive(names, archive)
  {
    Proper(Failed(disk, names, archive, stop, how).installed)
    && Regained(disk, Rollback(Failed(disk, names, archive, stop, how)), names)
  }

  // Wherever the script throws, the rollback puts the installation back.
  ghost predicate AlwaysUndone(disk: Disk, names: seq<string>, archive: FileMap)
    requires InArchive(names, archive)
  {
    forall stop: nat, how: Break :: stop < |names| && Reaches(disk, names, stop) ==> Undone(disk, names, archive, stop, how)
  }

  // ---- The state of the loop ----

  ghost predicate IsTarget(disk: Disk, names: seq<string>, k: Key)
    requires Proper(names)
  {
    exists i :: 0 <= i < |names| && Target(disk, Canonical(names[i])) == k
  }

  predicate HoldsAt(disk: Disk, k: Key, bytes: seq<Byte>) {
    IsFile(disk, k) && disk[k].data == bytes
  }

  // Every listed file that was there is backed up, and no directory.
  ghost predicate BackedRight(s: State, disk: Disk, names: seq<string>) {
    && (forall i :: 0 <= i < |names| && IsFile(disk, Canonical(names[i])) ==> Lower(names[i]) in s.backedUp)
    && (forall i :: 0 <= i < |names| && Lower(names[i]) in s.backedUp ==>
          !IsDir(disk, Canonical(names[i])) && Canonical(names[i]) in s.backup)
    && (forall raw :: raw in s.backedUp ==> exists i :: 0 <= i < |names| && Lower(names[i]) == raw)
  }

  ghost predicate Progressed(s: State, disk: Disk, names: seq<string>, archive: FileMap)
    requires InArchive(names, archive)
  {
    && s.installed == names && Reaches(disk, names, |names|)
    && (forall k: Key :: IsTarget(disk, names, k) || Unharmed(disk, s.disk, names, k))
    && (forall i :: 0 <= i < |names| ==>
          HoldsAt(s.disk, Target(disk, Canonical(names[i])), archive[Canonical(names[i])]))
    && BackedRight(s, disk, names)
  }

  // Names equal ignoring case mean the same file.
  lemma {:induction false} SameRaw(a: string, b: string)
    ensures Lower(a) == Lower(b) ==> Canonical(a) == Canonical(b)
  {
    hide Lower, Kept, Components;
  }

  // Different files of the archive have different targets.
  lemma {:induction false} TargetsDiffer(disk: Disk, archive: FileMap, a: Key, b: Key)
    requires Extracted(archive) && a in archive && b in archive
    ensures Target(disk, a) == Target(disk, b) ==> a == b
    ensures !(Target(disk, a) < b) && !(Target(disk, a) == Inside(b) && a != b)
    ensures Target(disk, a) == b ==> a == b && !IsDir(disk, a)
  {
    if Inside(a) == Inside(b) { assert Parent(Inside(a)) == Parent(Inside(b)); }
  }

  // Above a file of the archive, the loop has made folders at most.
  lemma {:induction false} ViewAbove(s: State, disk: Disk, names: seq<string>, archive: FileMap, key: Key, q: Key)
    requires Extracted(archive) && InArchive(names, archive) && Progressed(s, disk, names, archive)
    requires key in archive && q < key
    ensures IsFile(s.disk, q) <==> IsFile(disk, q)
  {
    hide Canonical, BackedRight, Extracted, Reaches;
    if IsTarget(disk, names, q) {
      var i :| 0 <= i < |names| && Target(disk, Canonical(names[i])) == q;
      TargetsDiffer(disk, archive, Canonical(names[i]), key);
    }
  }

  lemma {:induction false} NoneAbove(names: seq<string>, archive: FileMap, key: Key)
    requires Extracted(archive) && InArchive(names, archive) && key in archive
    ensures !Above(names, key) && (key != [] ==> !Above(names, Inside(key)))
  {
    hide Canonical;
  }

  lemma {:induction false} ViewAt(s: State, disk: Disk, names: seq<string>, archive: FileMap, key: Key)
    requires Extracted(archive) && InArchive(names, archive) && Progressed(s, disk, names, archive) && key in archive && key != []
    ensures IsDir(s.disk, key) <==> IsDir(disk, key)
    ensures IsFile(disk, key) ==> IsFile(s.disk, key)
    ensures IsTarget(disk, names, key) || SameNode(disk, s.disk, key)
  {
    hide Canonical, BackedRight, Extracted, Reaches;
    NoneAbove(names, archive, key);
    if IsTarget(disk, names, key) {
      var i :| 0 <= i < |names| && Target(disk, Canonical(names[i])) == key;
      TargetsDiffer(disk, archive, Canonical(names[i]), key);
    }
  }

  lemma {:induction false} ViewInside(s: State, disk: Disk, names: seq<string>, archive: FileMap, key: Key)
    requires Extracted(archive) && InArchive(names, archive) && Progressed(s, disk, names, archive) && key in archive && key != []
    ensures IsDir(s.disk, Inside(key)) <==> IsDir(disk, Inside(key))
  {
    hide Canonical, BackedRight, Extracted, Blocked;
    NoneAbove(names, archive, key);
    if IsTarget(disk, names, Inside(key)) {
      var i :| 0 <= i < |names| && Target(disk, Canonical(names[i])) == Inside(key);
      TargetsDiffer(disk, archive, Canonical(names[i]), key);
      assert Passable(disk, Canonical(names[i]));
    }
  }

  lemma {:induction false} BlockedSame(d: Disk, e: Disk, key: Key)
    requires key != [] && forall q :: q < key ==> (IsFile(d, q) <==> IsFile(e, q))
    ensures Blocked(d, Parent(key)) <==> Blocked(e, Parent(key))
  {
    if Blocked(d, Parent(key)) {
      var q :| q in d && q != [] && q <= Parent(key) && d[q].File?;
      assert q < key && IsFile(e, q);
    }
    if Blocked(e, Parent(key)) {
      var q :| q in e && q != [] && q <= Parent(key) && e[q].File?;
      assert q < key && IsFile(d, q);
    }
  }

  // For a file of the archive, the loop has changed nothing that decides where its copy goes.
  lemma {:induction false} SameView(s: State, disk: Disk, names: seq<string>, archive: FileMap, key: Key)
    requires Extracted(archive) && InArchive(names, archive) && Progressed(s, disk, names, archive) && key in archive && key != []
    ensures Blocked(s.disk, Parent(key)) <==> Blocked(disk, Parent(key))
    ensures Target(s.disk, key) == Target(disk, key) && (Passable(s.disk, key) <==> Passable(disk, key))
  {
    hide Progressed, InArchive, Extracted, Blocked;
    ViewAt(s, disk, names, archive, key);
    ViewInside(s, disk, names, archive, key);
    forall q | q < key ensures IsFile(s.disk, q) <==> IsFile(disk, q) {
      ViewAbove(s, disk, names, archive, key, q);
    }
    BlockedSame(s.disk, disk, key);
  }

  // Making the folders of a path touches nothing at or below it.
  lemma {:induction false} FolderedAt(s: State, name: string, k: Key)
    requires Canonical(name) != []
    ensures !(k <= Parent(Canonical(name))) ==> SameNode(s.disk, Foldered(s, name).disk, k)
    ensures k in s.disk ==> SameNode(s.disk, Foldered(s, name).disk, k)
    ensures IsDir(Foldered(s, name).disk, k) ==> IsDir(s.disk, k) || (k !in s.disk && k < Canonical(name))
    ensures k in Foldered(s, name).disk ==> k in s.disk || IsDir(Foldered(s, name).disk, k)
    ensures Foldered(s, name) == s.(disk := Foldered(s, name).disk)
  {
    hide Canonical;
  }

  lemma {:induction false} ReachesMore(disk: Disk, names: seq<string>, name: string)
    requires Proper(names) && Reaches(disk, names, |names|) && Canonical(name) != [] && Passable(disk, Canonical(name))
    ensures Proper(names + [name]) && Reaches(disk, names + [name], |names| + 1)
  {
    hide Canonical, Passable;
  }

  lemma {:induction false} ProgressStart(disk: Disk, archive: FileMap)
    ensures Progressed(Start(disk), disk, [], archive)
  {
  }

  // A copy of another name, or of the same file again, keeps what a name was given.
  lemma {:induction false} HeldStep(s: State, disk: Disk, archive: FileMap, first: string, name: string)
    requires Extracted(archive) && Canonical(first) in archive && Canonical(name) in archive
    requires Canonical(first) != [] && Canonical(name) != []
    requires HoldsAt(s.disk, Target(disk, Canonical(first)), archive[Canonical(first)])
    requires Target(Foldered(s, name).disk, Canonical(name)) == Target(disk, Canonical(name))
    ensures HoldsAt(Installed(s, name, archive).disk, Target(disk, Canonical(first)), archive[Canonical(first)])
  {
    hide Canonical, Foldered, Extracted;
    TargetsDiffer(disk, archive, Canonical(first), Canonical(name));
    FolderedAt(s, name, Target(disk, Canonical(first)));
  }

  lemma {:induction false} TargetMore(disk: Disk, names: seq<string>, name: string, k: Key)
    requires Proper(names) && Canonical(name) != []
    ensures Proper(names + [name])
    ensures IsTarget(disk, names + [name], k) <==> IsTarget(disk, names, k) || Target(disk, Canonical(name)) == k
  {
    hide Canonical, Target;
    var more := names + [name];
    assert forall i :: 0 <= i < |names| ==> more[i] == names[i];
    assert more[|names|] == name;
  }

  lemma {:induction false} AboveMore(names: seq<string>, name: string, k: Key)
    ensures Above(names + [name], k) <==> Above(names, k) || k < Canonical(name)
  {
    hide Canonical;
    var more := names + [name];
    assert forall i :: 0 <= i < |names| ==> more[i] == names[i];
    assert more[|names|] == name;
  }

  lemma {:induction false} UnharmedStep(s: State, disk: Disk, names: seq<string>, archive: FileMap, name: string, k: Key)
    requires InArchive(names, archive) && Canonical(name) != [] && Canonical(name) in archive
    requires IsTarget(disk, names, k) || Unharmed(disk, s.disk, names, k)
    requires Target(Foldered(s, name).disk, Canonical(name)) == Target(disk, Canonical(name))
    ensures Proper(names + [name])
    ensures IsTarget(disk, names + [name], k) || Unharmed(disk, Installed(s, name, archive).disk, names + [name], k)
  {
    hide Canonical, Foldered;
    FolderedAt(s, name, k);
    TargetMore(disk, names, name, k);
    AboveMore(names, name, k);
  }

  lemma {:induction false} BackedOnly(s: State, t: State, disk: Disk, names: seq<string>)
    requires BackedRight(s, disk, names) && t.backup == s.backup && t.backedUp == s.backedUp
    ensures BackedRight(t, disk, names)
  {
    hide Canonical, Lower;
  }

  lemma {:induction false} BackedAdd(s: State, t: State, disk: Disk, names: seq<string>, name: string, there: bool, data: seq<Byte>)
    requires BackedRight(s, disk, names)
    requires t.backup == if there then s.backup[Canonical(name) := data] else s.backup
    requires t.backedUp == if there then s.backedUp + {Lower(name)} else s.backedUp
    requires (IsFile(disk, Canonical(name)) ==> there) && (there ==> !IsDir(disk, Canonical(name)))
    ensures BackedRight(t, disk, names + [name])
  {
    hide Canonical, Lower;
    var more := names + [name];
    forall i | 0 <= i < |more| && Lower(more[i]) in t.backedUp
      ensures !IsDir(disk, Canonical(more[i])) && Canonical(more[i]) in t.backup
    {
      SameRaw(more[i], name);
      if Lower(more[i]) in s.backedUp {
        var h :| 0 <= h < |names| && Lower(names[h]) == Lower(more[i]);
        SameRaw(more[i], names[h]);
      }
    }
    forall raw | raw in t.backedUp ensures exists i :: 0 <= i < |more| && Lower(more[i]) == raw {
      if raw in s.backedUp {
        var h :| 0 <= h < |names| && Lower(names[h]) == raw;
        assert more[h] == names[h];
      } else {
        assert more[|names|] == name;
      }
    }
  }

  lemma {:induction false} BackedStep(s: State, disk: Disk, names: seq<string>, name: string)
    requires BackedRight(s, disk, names) && Canonical(name) != []
    requires IsDir(s.disk, Canonical(name)) <==> IsDir(disk, Canonical(name))
    requires IsFile(disk, Canonical(name)) ==> IsFile(s.disk, Canonical(name))
    ensures BackedRight(Recorded(s, name), disk, names + [name])
  {
    hide Canonical, Lower, Foldered, BackedRight;
    var f, key := Foldered(s, name), Canonical(name);
    FolderedAt(s, name, key);
    var there := IsFile(f.disk, key);
    BackedAdd(s, Recorded(s, name), disk, names, name, there, if there then f.disk[key].data else []);
  }

  // One more name.
  lemma {:induction false} InstalledStep(s: State, disk: Disk, names: seq<string>, archive: FileMap, name: string)
    requires Extracted(archive) && InArchive(names, archive) && Progressed(s, disk, names, archive)
    requires Canonical(name) != [] && Canonical(name) in archive && Passable(disk, Canonical(name))
    ensures InArchive(names + [name], archive) && Progressed(Installed(s, name, archive), disk, names + [name], archive)
  {
    hide Canonical, Passable, BackedRight, Reaches, Extracted, Foldered;
    var key, more := Canonical(name), names + [name];
    var t, f := Installed(s, name, archive), Foldered(s, name);
    ReachesMore(disk, names, name);
    SameView(s, disk, names, archive, key);
    ViewAt(s, disk, names, archive, key);
    BackedStep(s, disk, names, name);
    BackedOnly(Recorded(s, name), t, disk, more);
    FolderedAt(s, name, key);
    assert Target(f.disk, key) == Target(disk, key);
    forall k: Key ensures IsTarget(disk, more, k) || Unharmed(disk, t.disk, more, k) {
      UnharmedStep(s, disk, names, archive, name, k);
    }
    forall i | 0 <= i < |more| ensures HoldsAt(t.disk, Target(disk, Canonical(more[i])), archive[Canonical(more[i])]) {
      if i < |names| { HeldStep(s, disk, archive, names[i], name); }
    }
  }

  lemma {:induction false} AfterProgress(disk: Disk, names: seq<string>, archive: FileMap)
    requires Extracted(archive) && InArchive(names, archive) && Reaches(disk, names, |names|)
    ensures Progressed(After(Start(disk), names, archive), disk, names, archive)
    decreases |names|
  {
    hide Canonical, Progressed, Passable, Extracted, Installed;
    if names == [] {
      ProgressStart(disk, archive);
    } else {
      var n := |names| - 1;
      assert Passable(disk, Canonical(names[n]));
      AfterProgress(disk, names[..n], archive);
      assert names[..n] + [names[n]] == names;
      InstalledStep(After(Start(disk), names[..n], archive), disk, names[..n], archive, names[n]);
    }
  }

  // ---- The rollback ----

  // Nothing that is backed up lies at a directory.
  ghost predicate Steady(f: State)
    requires Proper(f.installed)
  {
    forall i :: 0 <= i < |f.installed| && Lower(f.installed[i]) in f.backedUp ==>
      !IsDir(f.disk, Canonical(f.installed[i])) && Canonical(f.installed[i]) in f.backup
  }

  lemma {:induction false} NamedMore(names: seq<string>, n: nat, k: Key)
    requires n < |names|
    ensures Named(names[..n + 1], k) <==> Named(names[..n], k) || Canonical(names[n]) == k
  {
    hide Canonical;
    assert forall i :: 0 <= i < n ==> names[..n + 1][i] == names[..n][i] == names[i];
    assert names[..n + 1][n] == names[n];
  }

  // The rollback writes at the names themselves, and makes no directory.
  lemma {:induction false} UndoElsewhere(f: State, n: nat, k: Key)
    requires n <= |f.installed| && Proper(f.installed) && Steady(f)
    ensures IsDir(Undo(f, n), k) <==> IsDir(f.disk, k)
    ensures !Named(f.installed[..n], k) ==> SameNode(f.disk, Undo(f, n), k)
    decreases n
  {
    hide Canonical, Lower;
    if n > 0 {
      var key := Canonical(f.installed[n - 1]);
      UndoElsewhere(f, n - 1, k);
      UndoElsewhere(f, n - 1, key);
      NamedMore(f.installed, n - 1, k);
    }
  }

  // A file all of whose names are backed up ends as its backup.
  lemma {:induction false} UndoBacked(f: State, n: nat, key: Key)
    requires n <= |f.installed| && Proper(f.installed) && Steady(f) && Named(f.installed[..n], key)
    requires forall i :: 0 <= i < n && Canonical(f.installed[i]) == key ==> Lower(f.installed[i]) in f.backedUp
    ensures key in f.backup && HoldsAt(Undo(f, n), key, f.backup[key])
    decreases n
  {
    hide Canonical, Lower;
    NamedMore(f.installed, n - 1, key);
    UndoElsewhere(f, n - 1, key);
    var last := Canonical(f.installed[n - 1]);
    UndoElsewhere(f, n - 1, last);
    if last != key {
      UndoBacked(f, n - 1, key);
    }
  }

  // What the rollback will find at one name: the old file backed up, none, or a directory.
  predicate Reverts(f: State, disk: Disk, name: string) {
    var key := Canonical(name);
    if IsDir(disk, key) then IsDir(f.disk, key) && Lower(name) !in f.backedUp
    else
      && !IsDir(f.disk, key) && (Lower(name) in f.backedUp <==> IsFile(disk, key))
      && (IsFile(disk, key) ==> key in f.backup && f.backup[key] == disk[key].data)
  }

  ghost predicate Revertible(f: State, disk: Disk, names: seq<string>) {
    && Proper(f.installed)
    && (forall k: Key :: !Named(f.installed, k) ==> Unharmed(disk, f.disk, names, k))
    && (forall i :: 0 <= i < |f.installed| ==> Reverts(f, disk, f.installed[i]))
  }

  lemma {:induction false} UndoReverts(f: State, disk: Disk, names: seq<string>, n: nat, k: Key)
    requires n <= |f.installed| && Revertible(f, disk, names)
    ensures Named(f.installed[..n], k) ==> SameNode(disk, Undo(f, n), k)
    ensures !Named(f.installed[..n], k) ==> SameNode(f.disk, Undo(f, n), k)
    decreases n
  {
    hide Canonical, Lower, Unharmed;
    if n > 0 {
      var key := Canonical(f.installed[n - 1]);
      UndoReverts(f, disk, names, n - 1, k);
      UndoReverts(f, disk, names, n - 1, key);
      NamedMore(f.installed, n - 1, k);
      assert Reverts(f, disk, f.installed[n - 1]);
    }
  }

  lemma {:induction false} RevertibleIsRegained(f: State, disk: Disk, names: seq<string>)
    requires Revertible(f, disk, names)
    ensures Regained(disk, Rollback(f), names)
  {
    hide Canonical, Lower, Undo, Reverts;
    assert f.installed[..|f.installed|] == f.installed;
    forall k: Key ensures Unharmed(disk, Rollback(f), names, k) {
      UndoReverts(f, disk, names, |f.installed|, k);
      if !Named(f.installed, k) { assert Unharmed(disk, f.disk, names, k); }
    }
  }

  ghost predicate AllRevert(f: State, disk: Disk) {
    forall i :: 0 <= i < |f.installed| ==> Reverts(f, disk, f.installed[i])
  }

  lemma {:induction false} FreshRaw(s: State, disk: Disk, names: seq<string>, name: string)
    requires BackedRight(s, disk, names) && !Named(names, Canonical(name))
    ensures Lower(name) !in s.backedUp
  {
    hide Canonical, Lower;
    if Lower(name) in s.backedUp {
      var i :| 0 <= i < |names| && Lower(names[i]) == Lower(name);
      SameRaw(names[i], name);
    }
  }

  // Neither at nor above a new file of the archive has anything changed.
  lemma {:induction false} FreshAt(s: State, disk: Disk, names: seq<string>, archive: FileMap, key: Key)
    requires Extracted(archive) && InArchive(names, archive) && Progressed(s, disk, names, archive)
    requires key in archive && key != [] && !Named(names, key)
    ensures SameNode(disk, s.disk, key)
  {
    hide Canonical, Progressed, Extracted;
    ViewAt(s, disk, names, archive, key);
    if IsTarget(disk, names, key) {
      var i :| 0 <= i < |names| && Target(disk, Canonical(names[i])) == key;
      TargetsDiffer(disk, archive, Canonical(names[i]), key);
    }
  }

  // Recording a name that was not recorded before, whatever happens to its own file.
  lemma {:induction false} RevertsAdd(s: State, t: State, disk: Disk, name: string, there: bool, data: seq<Byte>)
    requires AllRevert(s, disk) && !Named(s.installed, Canonical(name)) && Lower(name) !in s.backedUp
    requires t.backup == if there then s.backup[Canonical(name) := data] else s.backup
    requires t.backedUp == if there then s.backedUp + {Lower(name)} else s.backedUp
    requires t.installed == s.installed + [name]
    requires there == IsFile(disk, Canonical(name)) && (there ==> disk[Canonical(name)].data == data)
    requires forall i :: 0 <= i < |t.installed| ==> (IsDir(t.disk, Canonical(t.installed[i])) <==> IsDir(disk, Canonical(t.installed[i])))
    ensures AllRevert(t, disk)
  {
    hide Canonical, Lower;
    forall i | 0 <= i < |t.installed| ensures Reverts(t, disk, t.installed[i]) {
      if i < |s.installed| {
        assert t.installed[i] == s.installed[i] && Reverts(s, disk, s.installed[i]);
        SameRaw(s.installed[i], name);
      }
    }
  }

  lemma {:induction false} ProgressNames(s: State, disk: Disk, names: seq<string>, archive: FileMap)
    requires InArchive(names, archive) && Progressed(s, disk, names, archive)
    ensures s.installed == names && BackedRight(s, disk, names)
  {
  }

  lemma {:induction false} RecordReverts(s: State, t: State, disk: Disk, names: seq<string>, archive: FileMap, name: string)
    requires Extracted(archive) && InArchive(names, archive) && Progressed(s, disk, names, archive) && AllRevert(s, disk)
    requires Canonical(name) in archive && Canonical(name) != [] && !Named(names, Canonical(name))
    requires t == Recorded(s, name).(disk := t.disk)
    requires forall i :: 0 <= i < |t.installed| ==> (IsDir(t.disk, Canonical(t.installed[i])) <==> IsDir(disk, Canonical(t.installed[i])))
    ensures AllRevert(t, disk)
  {
    hide Canonical, Lower, Foldered, Extracted, AllRevert, Progressed;
    var f, key := Foldered(s, name), Canonical(name);
    ProgressNames(s, disk, names, archive);
    FreshRaw(s, disk, names, name);
    FreshAt(s, disk, names, archive, key);
    FolderedAt(s, name, key);
    var there := IsFile(f.disk, key);
    RevertsAdd(s, t, disk, name, there, if there then f.disk[key].data else []);
  }

  lemma {:induction false} DirsSame(s: State, disk: Disk, names: seq<string>, archive: FileMap)
    requires Extracted(archive) && InArchive(names, archive) && Progressed(s, disk, names, archive)
    ensures forall i :: 0 <= i < |names| ==> (IsDir(s.disk, Canonical(names[i])) <==> IsDir(disk, Canonical(names[i])))
  {
    hide Canonical, Progressed, Extracted;
    forall i | 0 <= i < |names| ensures IsDir(s.disk, Canonical(names[i])) <==> IsDir(disk, Canonical(names[i])) {
      ViewAt(s, disk, names, archive, Canonical(names[i]));
    }
  }

  lemma {:induction false} PrefixDistinct(names: seq<string>, n: nat)
    requires n < |names| && Distinct(names)
    ensures Distinct(names[..n]) && !Named(names[..n], Canonical(names[n]))
  {
    hide Canonical;
    assert forall i :: 0 <= i < n ==> names[..n][i] == names[i];
    assert !Repeats(names, n);
    forall i | 0 <= i < n ensures !Repeats(names[..n], i) {
      assert !Repeats(names, i);
    }
  }

  lemma {:induction false} AfterReverts(disk: Disk, names: seq<string>, archive: FileMap)
    requires Extracted(archive) && InArchive(names, archive) && Reaches(disk, names, |names|) && Distinct(names)
    ensures AllRevert(After(Start(disk), names, archive), disk)
    decreases |names|
  {
    hide Canonical, Lower, Progressed, Passable, Extracted, Reverts, Recorded;
    if names != [] {
      var n := |names| - 1;
      var s, t := After(Start(disk), names[..n], archive), After(Start(disk), names, archive);
      PrefixDistinct(names, n);
      AfterReverts(disk, names[..n], archive);
      AfterProgress(disk, names[..n], archive);
      AfterProgress(disk, names, archive);
      assert t.installed == names by { ProgressNames(t, disk, names, archive); }
      DirsSame(t, disk, names, archive);
      RecordReverts(s, t, disk, names[..n], archive, names[n]);
    }
  }

  // Up to the name at hand, nothing stands in the way of the rollback.
  lemma {:induction false} UndoableHere(disk: Disk, names: seq<string>, stop: nat)
    requires Proper(names) && stop < |names| && Reaches(disk, names, stop) && Undoable(disk, names)
    ensures Distinct(names[..stop]) && Reaches(disk, names[..stop], stop)
    ensures forall i :: 0 <= i < stop ==> !IsDir(disk, Canonical(names[i]))
    ensures !Named(names[..stop], Canonical(names[stop]))
    ensures Passable(disk, Canonical(names[stop])) ==> !IsDir(disk, Canonical(names[stop]))
  {
    hide Canonical, Passable;
    var pre := names[..stop];
    assert forall i :: 0 <= i < stop ==> pre[i] == names[i];
    forall i | 0 <= i < stop ensures !Repeats(names, i) && !IsDir(disk, Canonical(names[i])) && !Repeats(pre, i) {
      assert Reaches(disk, names, i + 1);
    }
    if Passable(disk, Canonical(names[stop])) {
      assert Reaches(disk, names, stop + 1);
    }
    assert Passable(disk, Canonical(names[stop])) ==> !Repeats(names, stop);
  }

  lemma {:induction false} UnharmedMore(disk: Disk, now: Disk, names: seq<string>, n: nat, k: Key)
    requires n <= |names| && Unharmed(disk, now, names[..n], k)
    ensures Unharmed(disk, now, names, k)
  {
    hide Canonical;
    assert forall i :: 0 <= i < n ==> names[..n][i] == names[i];
  }

  // What is known before name number n is handled.
  ghost predicate Undecided(s: State, disk: Disk, names: seq<string>, archive: FileMap, n: nat)
    requires InArchive(names, archive) && n <= |names|
  {
    && s.installed == names[..n] && Progressed(s, disk, names[..n], archive) && AllRevert(s, disk)
    && forall k: Key :: !Named(names[..n], k) ==> Unharmed(disk, s.disk, names, k)
  }

  lemma {:induction false} LoopReverts(disk: Disk, names: seq<string>, archive: FileMap, n: nat)
    requires Extracted(archive) && InArchive(names, archive) && n <= |names|
    requires Reaches(disk, names[..n], n) && Distinct(names[..n])
    requires forall i :: 0 <= i < n ==> !IsDir(disk, Canonical(names[i]))
    ensures Undecided(After(Start(disk), names[..n], archive), disk, names, archive, n)
  {
    hide Canonical, Lower, Passable, Extracted, Reverts, Unharmed, BackedRight, After;
    var pre := names[..n];
    var s := After(Start(disk), pre, archive);
    AfterProgress(disk, pre, archive);
    AfterReverts(disk, pre, archive);
    assert forall i :: 0 <= i < n ==> pre[i] == names[i] && Target(disk, Canonical(pre[i])) == Canonical(pre[i]);
    forall k: Key | !Named(pre, k) ensures Unharmed(disk, s.disk, names, k) {
      UnharmedMore(disk, s.disk, names, n, k);
    }
  }

  // Folders towards the next name, or none.
  lemma {:induction false} FoldersUnharmed(s: State, d: Disk, disk: Disk, names: seq<string>, archive: FileMap, n: nat)
    requires Extracted(archive) && InArchive(names, archive) && n < |names| && Undecided(s, disk, names, archive, n)
    requires forall k: Key :: SameNode(s.disk, d, k) || (k !in s.disk && IsDir(d, k) && k < Canonical(names[n]))
    ensures forall k: Key :: !Named(names[..n], k) ==> Unharmed(disk, d, names, k)
    ensures forall i :: 0 <= i <= n ==> (IsDir(d, Canonical(names[i])) <==> IsDir(s.disk, Canonical(names[i])))
    ensures forall i :: 0 <= i < n ==> (IsDir(d, Canonical(names[i])) <==> IsDir(disk, Canonical(names[i])))
  {
    hide Canonical, Lower, AllRevert, Progressed;
    forall i | 0 <= i <= n ensures IsDir(d, Canonical(names[i])) <==> IsDir(s.disk, Canonical(names[i])) {
      assert !(Canonical(names[i]) < Canonical(names[n]));
    }
    DirsSame(s, disk, names[..n], archive);
    assert forall i :: 0 <= i < n ==> names[..n][i] == names[i];
    forall k: Key | !Named(names[..n], k) ensures Unharmed(disk, d, names, k) {
      assert Unharmed(disk, s.disk, names, k);
    }
  }

  lemma {:induction false} SameReverts(s: State, t: State, disk: Disk)
    requires AllRevert(s, disk) && t.installed == s.installed && t.backedUp == s.backedUp
    requires forall i :: 0 <= i < |s.installed| ==>
               var key := Canonical(s.installed[i]);
               (IsDir(t.disk, key) <==> IsDir(s.disk, key)) && (key in s.backup ==> key in t.backup && t.backup[key] == s.backup[key])
    ensures AllRevert(t, disk)
  {
    hide Canonical, Lower;
    forall i | 0 <= i < |t.installed| ensures Reverts(t, disk, t.installed[i]) {
      assert Reverts(s, disk, s.installed[i]);
    }
  }

  lemma {:induction false} RevertsAll(t: State, disk: Disk)
    requires AllRevert(t, disk)
    ensures forall i :: 0 <= i < |t.installed| ==> Reverts(t, disk, t.installed[i])
  {
  }

  lemma {:induction false} FolderReverts(s: State, disk: Disk, names: seq<string>, archive: FileMap, n: nat, levels: nat)
    requires Extracted(archive) && InArchive(names, archive) && n < |names| && Undecided(s, disk, names, archive, n)
    ensures Revertible(s.(disk := MkdirAll(s.disk, Parent(Canonical(names[n])), levels)), disk, names)
  {
    hide Canonical, Lower, Progressed, Unharmed, Reverts, AllRevert, Extracted;
    var t := s.(disk := MkdirAll(s.disk, Parent(Canonical(names[n])), levels));
    FoldersUnharmed(s, t.disk, disk, names, archive, n);
    assert forall i :: 0 <= i < n ==> names[..n][i] == names[i];
    SameReverts(s, t, disk);
    RevertsAll(t, disk);
  }

  lemma {:induction false} BackupReverts(s: State, disk: Disk, names: seq<string>, archive: FileMap, n: nat, left: Damage)
    requires Extracted(archive) && InArchive(names, archive) && n < |names| && Undecided(s, disk, names, archive, n)
    requires !Named(names[..n], Canonical(names[n]))
    ensures Revertible(Foldered(s, names[n]), disk, names)
    ensures Revertible(Foldered(s, names[n]).(backup := BadBackup(s.backup, Canonical(names[n]), left)), disk, names)
  {
    hide Canonical, Lower, Progressed, Unharmed, Reverts, AllRevert, Extracted;
    var f, key := Foldered(s, names[n]), Canonical(names[n]);
    var t := f.(backup := BadBackup(s.backup, key, left));
    FoldersUnharmed(s, f.disk, disk, names, archive, n);
    assert forall i :: 0 <= i < n ==> names[..n][i] == names[i] && Canonical(names[i]) != key;
    SameReverts(s, f, disk);
    SameReverts(s, t, disk);
    RevertsAll(f, disk);
    RevertsAll(t, disk);
  }

  lemma {:induction false} UnharmedSame(disk: Disk, d: Disk, e: Disk, names: seq<string>, k: Key)
    requires Unharmed(disk, d, names, k) && SameNode(d, e, k)
    ensures Unharmed(disk, e, names, k)
  {
  }

  // A copy that throws, at a name that is a directory only where no copy can go.
  lemma {:induction false} DamageAt(s: State, disk: Disk, names: seq<string>, archive: FileMap, name: string, left: Damage)
    requires Extracted(archive) && InArchive(names, archive) && Progressed(s, disk, names, archive)
    requires Canonical(name) in archive && Canonical(name) != [] && !Blocked(disk, Parent(Canonical(name)))
    requires Passable(disk, Canonical(name)) ==> !IsDir(disk, Canonical(name))
    ensures var r := Recorded(s, name);
            var d := Damaged(r.disk, Target(r.disk, Canonical(name)), left);
            && (IsDir(d, Canonical(name)) <==> IsDir(disk, Canonical(name)))
            && forall k :: k != Canonical(name) ==> SameNode(Foldered(s, name).disk, d, k)
  {
    hide Canonical, Lower, Progressed, Extracted, Blocked;
    var key := Canonical(name);
    ViewAt(s, disk, names, archive, key);
    ViewInside(s, disk, names, archive, key);
    FolderedAt(s, name, key);
    FolderedAt(s, name, Inside(key));
    hide Foldered;
  }

  lemma {:induction false} CopyDirs(names: seq<string>, n: nat, more: seq<string>, disk: Disk, d: Disk, e: Disk)
    requires n < |names| && more == names[..n + 1] && forall k :: k != Canonical(names[n]) ==> SameNode(d, e, k)
    requires IsDir(e, Canonical(names[n])) <==> IsDir(disk, Canonical(names[n]))
    requires forall i :: 0 <= i < n ==> (IsDir(d, Canonical(names[i])) <==> IsDir(disk, Canonical(names[i])))
    ensures forall i :: 0 <= i < |more| ==> (IsDir(e, Canonical(more[i])) <==> IsDir(disk, Canonical(more[i])))
  {
    hide Canonical;
    forall i | 0 <= i < |more| ensures IsDir(e, Canonical(more[i])) <==> IsDir(disk, Canonical(more[i])) {
      assert more[i] == names[i];
      if Canonical(names[i]) != Canonical(names[n]) {
        assert SameNode(d, e, Canonical(names[i]));
      }
    }
  }

  lemma {:induction false} CopyReverts(s: State, disk: Disk, names: seq<string>, archive: FileMap, n: nat, left: Damage)
    requires Extracted(archive) && InArchive(names, archive) && n < |names| && Undecided(s, disk, names, archive, n)
    requires !Named(names[..n], Canonical(names[n])) && !Blocked(disk, Parent(Canonical(names[n])))
    requires Passable(disk, Canonical(names[n])) ==> !IsDir(disk, Canonical(names[n]))
    ensures var r := Recorded(s, names[n]);
            Revertible(r.(disk := Damaged(r.disk, Target(r.disk, Canonical(names[n])), left)), disk, names)
  {
    hide Canonical, Lower, Progressed, Unharmed, Reverts, AllRevert, Extracted, Damaged, Target, Passable, Blocked;
    var name, pre := names[n], names[..n];
    var f, r := Foldered(s, name), Recorded(s, name);
    var t := r.(disk := Damaged(r.disk, Target(r.disk, Canonical(name)), left));
    FoldersUnharmed(s, f.disk, disk, names, archive, n);
    DamageAt(s, disk, pre, archive, name, left);
    hide Foldered;
    assert t.installed == names[..n + 1];
    CopyDirs(names, n, t.installed, disk, f.disk, t.disk);
    RecordReverts(s, t, disk, pre, archive, name);
    RevertsAll(t, disk);
    forall k: Key | !Named(t.installed, k) ensures Unharmed(disk, t.disk, names, k) {
      NamedMore(names, n, k);
      UnharmedSame(disk, f.disk, t.disk, names, k);
    }
  }

  lemma {:induction false} SettledReverts(s: State, disk: Disk, names: seq<string>, archive: FileMap, n: nat)
    requires InArchive(names, archive) && n < |names| && Undecided(s, disk, names, archive, n)
    ensures Revertible(s, disk, names)
  {
    hide Canonical, Lower, Progressed, Unharmed, Reverts;
    assert forall i :: 0 <= i < n ==> names[..n][i] == names[i];
  }

  lemma {:induction false} BrokenReverts(s: State, disk: Disk, names: seq<string>, archive: FileMap, n: nat, how: Break)
    requires Extracted(archive) && InArchive(names, archive) && n < |names| && Undecided(s, disk, names, archive, n)
    requires !Named(names[..n], Canonical(names[n]))
    requires Passable(disk, Canonical(names[n])) ==> !IsDir(disk, Canonical(names[n]))
    ensures Revertible(Broken(s, names[n], how), disk, names)
  {
    hide Canonical, Lower, Passable, Extracted, Revertible, Recorded, Foldered, BadBackup, Damaged, Target, Progressed;
    SettledReverts(s, disk, names, archive, n);
    SameView(s, disk, names[..n], archive, Canonical(names[n]));
    if !Blocked(s.disk, Parent(Canonical(names[n]))) {
      match how
      case AtFolder(levels) => FolderReverts(s, disk, names, archive, n, levels);
      case AtBackup(left) =>
        BackupReverts(s, disk, names, archive, n, left);
        assert Foldered(s, names[n]).backup == s.backup by { FolderedAt(s, names[n], []); }
      case AtCopy(left) => CopyReverts(s, disk, names, archive, n, left);
    }
  }

  lemma {:induction false} FailedReverts(disk: Disk, names: seq<string>, archive: FileMap, stop: nat, how: Break)
    requires Extracted(archive) && InArchive(names, archive) && stop < |names| && Reaches(disk, names, stop) && Undoable(disk, names)
    ensures Revertible(Failed(disk, names, archive, stop, how), disk, names)
  {
    hide Canonical, Passable, Extracted, After, Undoable, Revertible, Broken, Undecided;
    UndoableHere(disk, names, stop);
    LoopReverts(disk, names, archive, stop);
    BrokenReverts(After(Start(disk), names[..stop], archive), disk, names, archive, stop, how);
  }

  /** All or nothing: on an installation where, as far as names can be copied, they mean different
      files and no directory, a throw at any step of any of them, with the copy at hand left in any
      state, followed by the rollback, leaves everything as it was but for folders made on the way. */
  lemma {:induction false} FailureRestores(disk: Disk, names: seq<string>, archive: FileMap, stop: nat, how: Break)
    requires Extracted(archive) && InArchive(names, archive) && Undoable(disk, names)
    requires stop < |names| && Reaches(disk, names, stop)
    ensures Undone(disk, names, archive, stop, how)
  {
    hide Canonical, Failed, Rollback, Regained, Undoable, Extracted;
    FailedReverts(disk, names, archive, stop, how);
    RevertibleIsRegained(Failed(disk, names, archive, stop, how), disk, names);
  }

  // ---- What is not undone ----

  lemma {:induction false} ProgressSteady(s: State, t: State, disk: Disk, names: seq<string>)
    requires Proper(names) && BackedRight(s, disk, names) && t.backedUp <= s.backedUp && t.installed == names
    requires forall i :: 0 <= i < |names| && Lower(names[i]) in t.backedUp ==> Canonical(names[i]) in t.backup
    requires forall i :: 0 <= i < |names| ==> (IsDir(t.disk, Canonical(names[i])) <==> IsDir(disk, Canonical(names[i])))
    ensures Steady(t)
  {
    hide Canonical, Lower;
  }

  lemma {:induction false} PrefixReaches(disk: Disk, names: seq<string>, i: nat)
    requires Proper(names) && i < |names| && Reaches(disk, names, i + 1)
    ensures Proper(names[..i]) && Reaches(disk, names[..i], i) && Passable(disk, Canonical(names[i]))
  {
    hide Canonical, Passable;
    assert forall h :: 0 <= h < i ==> names[..i][h] == names[h];
  }

  lemma {:induction false} BackupsThere(s: State, disk: Disk, names: seq<string>)
    requires BackedRight(s, disk, names)
    ensures forall i :: 0 <= i < |names| && Lower(names[i]) in s.backedUp ==> Canonical(names[i]) in s.backup
  {
    hide Canonical, Lower;
  }

  lemma {:induction false} DirsIntoStep(s: State, disk: Disk, names: seq<string>, archive: FileMap, name: string, left: seq<Byte>, other: string)
    requires Extracted(archive) && InArchive(names, archive) && Progressed(s, disk, names, archive)
    requires Canonical(name) in archive && Canonical(name) != [] && Canonical(other) in archive && Canonical(other) != []
    ensures var d := Foldered(s, name).disk[Inside(Canonical(name)) := File(left)];
            IsDir(d, Canonical(other)) <==> IsDir(disk, Canonical(other))
  {
    hide Canonical, Progressed;
    ViewAt(s, disk, names, archive, Canonical(other));
    FolderedAt(s, name, Canonical(other));
  }

  lemma {:induction false} NotInside(names: seq<string>, archive: FileMap, key: Key)
    requires Extracted(archive) && key in archive && key != [] && InArchive(names, archive)
    ensures !Named(names, Inside(key))
  {
    hide Canonical;
  }

  // A copy into a directory that throws half-way: nothing of it is undone.
  lemma {:induction false} DirectoryStays(disk: Disk, names: seq<string>, archive: FileMap, i: nat, left: seq<Byte>)
    requires Extracted(archive) && InArchive(names, archive) && i < |names| && Reaches(disk, names, i + 1)
    requires IsDir(disk, Canonical(names[i]))
    ensures var f := Failed(disk, names, archive, i, AtCopy(Holds(left)));
            Proper(f.installed) && HoldsAt(Rollback(f), Inside(Canonical(names[i])), left)
  {
    hide Canonical, Lower, Extracted, After, Reaches, BackedRight, Undo, Steady;
    var pre, name, key := names[..i], names[i], Canonical(names[i]);
    var s := After(Start(disk), pre, archive);
    PrefixReaches(disk, names, i);
    AfterProgress(disk, pre, archive);
    ProgressNames(s, disk, pre, archive);
    ViewAt(s, disk, pre, archive, key);
    SameView(s, disk, pre, archive, key);
    BackedStep(s, disk, pre, name);
    var f, r, more := Failed(disk, names, archive, i, AtCopy(Holds(left))), Recorded(s, name), pre + [name];
    FolderedAt(s, name, key);
    FolderedAt(s, name, Inside(key));
    hide Foldered, Progressed;
    assert f == r.(disk := r.disk[Inside(key) := File(left)]);
    forall h | 0 <= h < |more| ensures IsDir(f.disk, Canonical(more[h])) <==> IsDir(disk, Canonical(more[h])) {
      DirsIntoStep(s, disk, pre, archive, name, left, more[h]);
    }
    BackupsThere(r, disk, more);
    ProgressSteady(r, f, disk, more);
    UndoElsewhere(f, |more|, Inside(key));
    assert f.installed[..|more|] == more;
    NotInside(more, archive, key);
  }

  // The file of the last installed name is put back from its backup.
  lemma {:induction false} LastUndone(f: State, name: string)
    requires Proper(f.installed) && Steady(f) && f.installed != [] && f.installed[|f.installed| - 1] == name
    requires Lower(name) in f.backedUp
    ensures IsFile(Rollback(f), Canonical(name))
  {
    hide Canonical, Lower;
    var n := |f.installed| - 1;
    UndoElsewhere(f, n, Canonical(name));
    assert Rollback(f) == UndoOne(Undo(f, n), f, name);
  }

  // Where the two names of a file meet, its first copy is taken for the old file.
  lemma {:induction false} RepeatState(disk: Disk, names: seq<string>, archive: FileMap, i: nat, j: nat)
    requires Extracted(archive) && InArchive(names, archive) && i < j < |names| && Reaches(disk, names, j + 1)
    requires Canonical(names[i]) == Canonical(names[j]) && !IsDir(disk, Canonical(names[j]))
    ensures var s := After(Start(disk), names[..j], archive);
            && Progressed(s, disk, names[..j], archive) && IsFile(s.disk, Canonical(names[j]))
            && !Blocked(s.disk, Parent(Canonical(names[j]))) && Target(s.disk, Canonical(names[j])) == Canonical(names[j])
  {
    hide Canonical, Lower, Extracted, After, Reaches, BackedRight;
    PrefixReaches(disk, names, j);
    AfterProgress(disk, names[..j], archive);
    SameView(After(Start(disk), names[..j], archive), disk, names[..j], archive, Canonical(names[j]));
    assert names[..j][i] == names[i];
  }

  lemma {:induction false} NotAbove(archive: FileMap, a: Key, b: Key)
    requires Extracted(archive) && a in archive && b in archive
    ensures !(a < b)
  {
  }

  // Recording one more name never backs up what lies at a directory.
  lemma {:induction false} RecordedSteady(s: State, disk: Disk, names: seq<string>, archive: FileMap, name: string)
    requires Extracted(archive) && InArchive(names, archive) && Progressed(s, disk, names, archive)
    requires Canonical(name) != [] && Canonical(name) in archive
    ensures Recorded(s, name).installed == names + [name] && Proper(names + [name]) && Steady(Recorded(s, name))
    ensures !IsDir(disk, Canonical(name)) ==> !IsDir(Recorded(s, name).disk, Canonical(name))
    ensures BackedRight(Recorded(s, name), disk, names + [name])
  {
    hide Canonical, Lower, Extracted, BackedRight, Steady;
    var t, more, key := Recorded(s, name), names + [name], Canonical(name);
    ProgressNames(s, disk, names, archive);
    ViewAt(s, disk, names, archive, key);
    BackedStep(s, disk, names, name);
    forall h | 0 <= h < |more| ensures IsDir(t.disk, Canonical(more[h])) <==> IsDir(disk, Canonical(more[h])) {
      ViewAt(s, disk, names, archive, Canonical(more[h]));
      NotAbove(archive, Canonical(more[h]), key);
      FolderedAt(s, name, Canonical(more[h]));
    }
    assert more[|names|] == name;
    hide Foldered, Progressed;
    BackupsThere(t, disk, more);
    ProgressSteady(t, t, disk, more);
  }

  // A file that was not there: a throw at its second copy leaves it.
  lemma {:induction false} NewFileStays(disk: Disk, names: seq<string>, archive: FileMap, i: nat, j: nat)
    requires Extracted(archive) && InArchive(names, archive) && i < j < |names| && Reaches(disk, names, j + 1)
    requires Canonical(names[i]) == Canonical(names[j]) && Canonical(names[j]) !in disk
    ensures var f := Failed(disk, names, archive, j, AtCopy(Untouched));
            Proper(f.installed) && IsFile(Rollback(f), Canonical(names[j]))
  {
    hide Canonical, Lower, Extracted, After, Reaches, BackedRight, Undo, Rollback, Steady, Passable;
    var pre, name, key := names[..j], names[j], Canonical(names[j]);
    var s := After(Start(disk), pre, archive);
    RepeatState(disk, names, archive, i, j);
    ProgressNames(s, disk, pre, archive);
    FolderedAt(s, name, key);
    RecordedSteady(s, disk, pre, archive, name);
    var f := Failed(disk, names, archive, j, AtCopy(Untouched));
    assert f == Recorded(s, name);
    hide Foldered, Progressed;
    LastUndone(f, name);
  }

  lemma {:induction false} BackedNames(s: State, disk: Disk, names: seq<string>)
    requires BackedRight(s, disk, names)
    ensures forall i :: 0 <= i < |names| && IsFile(disk, Canonical(names[i])) ==> Lower(names[i]) in s.backedUp
  {
    hide Canonical, Lower;
  }

  // A file that was there: a throw at its second backup leaves it as broken as the backup.
  lemma {:induction false} BadBackupStays(disk: Disk, names: seq<string>, archive: FileMap, i: nat, j: nat, left: seq<Byte>)
    requires Extracted(archive) && InArchive(names, archive) && i < j < |names| && Reaches(disk, names, j + 1)
    requires Canonical(names[i]) == Canonical(names[j]) && IsFile(disk, Canonical(names[j]))
    ensures var f := Failed(disk, names, archive, j, AtBackup(Holds(left)));
            Proper(f.installed) && HoldsAt(Rollback(f), Canonical(names[j]), left)
  {
    hide Canonical, Lower, Extracted, After, Reaches, Undo, Passable, BackedRight;
    var pre, name, key := names[..j], names[j], Canonical(names[j]);
    var s := After(Start(disk), pre, archive);
    RepeatState(disk, names, archive, i, j);
    ProgressNames(s, disk, pre, archive);
    var f := Failed(disk, names, archive, j, AtBackup(Holds(left)));
    FolderedAt(s, name, key);
    assert f == Foldered(s, name).(backup := s.backup[key := left]);
    forall h | 0 <= h < |pre| ensures IsDir(f.disk, Canonical(pre[h])) <==> IsDir(disk, Canonical(pre[h])) {
      ViewAt(s, disk, pre, archive, Canonical(pre[h]));
      NotAbove(archive, Canonical(pre[h]), key);
      FolderedAt(s, name, Canonical(pre[h]));
    }
    hide Foldered, Progressed;
    BackupsThere(s, disk, pre);
    ProgressSteady(s, f, disk, pre);
    assert f.installed[..|pre|] == pre && pre[i] == names[i];
    BackedNames(s, disk, pre);
    UndoBacked(f, |pre|, key);
  }

  // Bytes that are not those of a file.
  function Other(disk: Disk, k: Key): (r: seq<Byte>)
    ensures !HoldsAt(disk, k, r)
  {
    if IsFile(disk, k) && disk[k].data == [] then [0] else []
  }

  lemma {:induction false} HarmedAt(disk: Disk, now: Disk, names: seq<string>, k: Key)
    requires IsFile(now, k) && !HoldsAt(disk, k, now[k].data)
    ensures !Regained(disk, now, names)
  {
    hide Canonical;
    assert !Unharmed(disk, now, names, k);
  }

  /** Two names for one file that can be copied: some throw is not undone. */
  lemma {:induction false} RepeatIsNotUndone(disk: Disk, names: seq<string>, archive: FileMap, i: nat, j: nat) returns (how: Break)
    requires Extracted(archive) && InArchive(names, archive) && i < j < |names| && Reaches(disk, names, j + 1)
    requires Canonical(names[i]) == Canonical(names[j]) && !IsDir(disk, Canonical(names[j]))
    ensures !Undone(disk, names, archive, j, how)
  {
    hide Canonical, Extracted, Failed, Rollback, Reaches, Regained;
    var key := Canonical(names[j]);
    if key in disk {
      how := AtBackup(Holds(Other(disk, key)));
      BadBackupStays(disk, names, archive, i, j, Other(disk, key));
    } else {
      how := AtCopy(Untouched);
      NewFileStays(disk, names, archive, i, j);
    }
    HarmedAt(disk, Rollback(Failed(disk, names, archive, j, how)), names, key);
  }

  /** A name that is a directory of the installation, into which a copy can go: a throw half-way
      is not undone. */
  lemma {:induction false} DirectoryIsNotUndone(disk: Disk, names: seq<string>, archive: FileMap, i: nat)
    requires Extracted(archive) && InArchive(names, archive) && i < |names| && Reaches(disk, names, i + 1)
    requires IsDir(disk, Canonical(names[i]))
    ensures !Undone(disk, names, archive, i, AtCopy(Holds(Other(disk, Inside(Canonical(names[i]))))))
  {
    hide Canonical, Extracted, Failed, Rollback, Reaches, Regained;
    var k := Inside(Canonical(names[i]));
    var f := Failed(disk, names, archive, i, AtCopy(Holds(Other(disk, k))));
    DirectoryStays(disk, names, archive, i, Other(disk, k));
    HarmedAt(disk, Rollback(f), names, k);
  }

  /** The guarantee is exactly as wide as the condition: on any installation, every throw is undone
      if and only if, as far as names can be copied, no two mean the same file and none is a
      directory. */
  lemma {:induction false} RestoresIff(disk: Disk, names: seq<string>, archive: FileMap)
    requires Extracted(archive) && InArchive(names, archive)
    ensures AlwaysUndone(disk, names, archive) <==> Undoable(disk, names)
  {
    hide Canonical, Undone, Extracted, Passable;
    if Undoable(disk, names) {
      forall stop: nat, how: Break | stop < |names| && Reaches(disk, names, stop) ensures Undone(disk, names, archive, stop, how) {
        FailureRestores(disk, names, archive, stop, how);
      }
    } else {
      var i :| 0 <= i < |names| && Reaches(disk, names, i + 1) && (IsDir(disk, Canonical(names[i])) || Repeats(names, i));
      assert Reaches(disk, names, i);
      if IsDir(disk, Canonical(names[i])) {
        DirectoryIsNotUndone(disk, names, archive, i);
      } else {
        var h :| 0 <= h < i && Canonical(names[h]) == Canonical(names[i]);
        var how := RepeatIsNotUndone(disk, names, archive, h, i);
      }
    }
  }

  /** Where every name can be copied: if and only if the names mean different files and none is a
      directory of the installation. */
  lemma {:induction false} CopyableRestoresIff(disk: Disk, names: seq<string>, archive: FileMap)
    requires Extracted(archive) && InArchive(names, archive) && Reaches(disk, names, |names|)
    ensures AlwaysUndone(disk, names, archive) <==>
            Distinct(names) && forall i :: 0 <= i < |names| ==> !IsDir(disk, Canonical(names[i]))
  {
    hide Canonical, AlwaysUndone, Extracted, Passable, Repeats;
    RestoresIff(disk, names, archive);
    if Undoable(disk, names) {
      forall i | 0 <= i < |names| ensures !IsDir(disk, Canonical(names[i])) && !Repeats(names, i) {
        assert Reaches(disk, names, i + 1);
      }
    }
  }

  lemma {:induction false} LowerBin()
    ensures Lower("bin/x") == "bin/x" && Lower("bin\\x") == "bin\\x"
  {
  }

  lemma {:induction false} Prepend(c: char, rest: string)
    ensures Components([c] + rest) ==
              if IsSeparator(c) then [""] + Components(rest)
              else [[c] + Components(rest)[0]] + Components(rest)[1..]
  {
    assert ([c] + rest)[1..] == rest;
  }

  lemma {:induction false} ComponentsX(c: char)
    requires IsSeparator(c)
    ensures Components(['n', c, 'x']) == ["n", "x"]
  {
    assert Components("") == [""];
    hide Components;
    Prepend('x', "");
    Prepend(c, ['x']);
    Prepend('n', [c, 'x']);
    assert ['x'] + "" == ['x'] && [c] + ['x'] == [c, 'x'] && ['n'] + [c, 'x'] == ['n', c, 'x'];
    assert Components(['x']) == ["x"];
    assert ["", "x"][1..] == ["x"] && ['n'] + "" == "n";
  }

  lemma {:induction false} ComponentsBin(c: char)
    requires IsSeparator(c)
    ensures Components(['b', 'i', 'n', c, 'x']) == ["bin", "x"]
  {
    hide Components;
    ComponentsX(c);
    Prepend('i', ['n', c, 'x']);
    Prepend('b', ['i', 'n', c, 'x']);
    assert ['i'] + ['n', c, 'x'] == ['i', 'n', c, 'x'] && ['b'] + ['i', 'n', c, 'x'] == ['b', 'i', 'n', c, 'x'];
    assert ["n", "x"][1..] == ["in", "x"][1..] == ["x"];
    assert ['i'] + "n" == "in" && ['b'] + "in" == "bin";
  }

  lemma {:induction false} KeptBin()
    ensures Kept(["bin", "x"]) == ["bin", "x"]
  {
    assert Stripped("bin") == "bin" && Stripped("x") == "x";
    assert ["bin", "x"][1..] == ["x"] && ["x"][1..] == [];
    assert Kept(["x"]) == ["x"];
  }

  lemma {:induction false} CanonicalBin()
    ensures Canonical("bin/x") == ["bin", "x"] && Canonical("bin\\x") == ["bin", "x"]
  {
    LowerBin();
    hide Lower, Components, Kept;
    ComponentsBin('/');
    ComponentsBin('\\');
    KeptBin();
    assert "bin/x" == ['b', 'i', 'n', '/', 'x'] && "bin\\x" == ['b', 'i', 'n', '\\', 'x'];
  }

  predicate Occurs(s: string, t: string, i: nat) {
    i + |t| <= |s| && s[i..i + |t|] == t
  }

  predicate Contains(s: string, t: string) {
    exists i :: 0 <= i <= |s| && Occurs(s, t, i)
  }

  // A rooted path, on Windows: a leading separator or a drive letter.
  predicate Rooted(name: string) {
    (|name| > 0 && (name[0] == '/' || name[0] == '\\')) || (|name| > 1 && name[1] == ':')
  }


  // ---- Success ----

  /** Success: every target holds the archive's bytes, and nothing else has changed but for folders
      made on the way. */
  lemma {:induction false} SuccessInstalls(disk: Disk, names: seq<string>, archive: FileMap)
    requires Extracted(archive) && InArchive(names, archive) && Reaches(disk, names, |names|)
    ensures var d := After(Start(disk), names, archive).disk;
            && (forall i :: 0 <= i < |names| ==>
                  HoldsAt(d, Target(disk, Canonical(names[i])), archive[Canonical(names[i])]))
            && (forall k: Key :: IsTarget(disk, names, k) || Unharmed(disk, d, names, k))
  {
    hide Canonical, After, Passable;
    AfterProgress(disk, names, archive);
  }

  /** Success puts a file at every listed name if and only if none is a directory. */
  lemma {:induction false} SuccessIsWholeIff(disk: Disk, names: seq<string>, archive: FileMap)
    requires Extracted(archive) && InArchive(names, archive) && Reaches(disk, names, |names|)
    ensures (forall i :: 0 <= i < |names| ==>
               HoldsAt(After(Start(disk), names, archive).disk, Canonical(names[i]), archive[Canonical(names[i])]))
            <==> forall i :: 0 <= i < |names| ==> !IsDir(disk, Canonical(names[i]))
  {
    hide Canonical, After, Passable, Extracted;
    SuccessInstalls(disk, names, archive);
    AfterProgress(disk, names, archive);
    DirsSame(After(Start(disk), names, archive), disk, names, archive);
  }

  lemma {:induction false} FolderMade(s: State, name: string, p: Key)
    requires Canonical(name) != [] && p != [] && p < Canonical(name) && !Blocked(s.disk, Parent(Canonical(name)))
    ensures IsDir(Foldered(s, name).disk, p)
  {
    hide Canonical;
    var dir := Parent(Canonical(name));
    assert p <= dir;
    assert p in Levels(dir, |dir|);
    assert p in s.disk ==> s.disk[p].Dir?;
  }

  // The copy of one more name leaves directories above whatever is there.
  lemma {:induction false} InstalledTree(s: State, name: string, archive: FileMap)
    requires IsTree(s.disk) && Canonical(name) != [] && Canonical(name) in archive && Passable(s.disk, Canonical(name))
    requires Target(Foldered(s, name).disk, Canonical(name)) == Target(s.disk, Canonical(name))
    requires !IsDir(Foldered(s, name).disk, Target(s.disk, Canonical(name)))
    ensures IsTree(Installed(s, name, archive).disk)
  {
    var key, f := Canonical(name), Foldered(s, name);
    hide Canonical, IsTree;
    TreeMkdir(s.disk, Parent(key), |Parent(key)|);
    forall p | p != [] && p < Target(s.disk, key) ensures IsDir(f.disk, p) {
      if p == key { FolderedAt(s, name, key); } else { FolderMade(s, name, p); }
    }
    TreePut(f.disk, Target(s.disk, key), archive[key]);
  }

  /** The installation stays a file system: nothing ever lies below a file. */
  lemma {:induction false} AfterIsTree(disk: Disk, names: seq<string>, archive: FileMap)
    requires Extracted(archive) && InArchive(names, archive) && Reaches(disk, names, |names|) && IsTree(disk)
    ensures IsTree(After(Start(disk), names, archive).disk)
    decreases |names|
  {
    if names != [] {
      hide Canonical, Extracted, IsTree, Progressed;
      var n := |names| - 1;
      var s, name := After(Start(disk), names[..n], archive), names[n];
      PrefixReaches(disk, names, n);
      AfterIsTree(disk, names[..n], archive);
      AfterProgress(disk, names[..n], archive);
      SameView(s, disk, names[..n], archive, Canonical(name));
      FolderedAt(s, name, Canonical(name));
      FolderedAt(s, name, Inside(Canonical(name)));
      hide Foldered;
      InstalledTree(s, name, archive);
    }
  }

  // ---- Two installations that are not put back ----

  lemma {:induction false} OneComponent(s: string)
    requires forall i :: 0 <= i < |s| ==> !IsSeparator(s[i])
    ensures Components(s) == [s]
  {
    if s != "" {
      OneComponent(s[1..]);
      assert [s[0]] + s[1..] == s;
    }
  }

  // A name without separators that ends in neither a dot nor a blank.
  lemma {:induction false} PlainName(name: string)
    requires name != "" && forall i :: 0 <= i < |name| ==> !IsSeparator(Lower(name)[i])
    requires Lower(name)[|name| - 1] != '.' && Lower(name)[|name| - 1] != ' '
    ensures Canonical(name) == [Lower(name)]
  {
    var low := Lower(name);
    OneComponent(low);
    hide Lower, Components;
    assert Stripped(low) == low && Kept([low][1..]) == [];
  }

  lemma {:induction false} PassableOpen(disk: Disk, key: Key)
    requires key != [] && Passable(disk, key)
    ensures !Blocked(disk, Parent(key))
  {
  }

  // What was copied into a directory stays when a later copy throws.
  lemma {:induction false} CopiedIntoStays(disk: Disk, names: seq<string>, archive: FileMap, i: nat, stop: nat)
    requires Extracted(archive) && InArchive(names, archive) && i < stop < |names| && Reaches(disk, names, stop + 1)
    requires IsDir(disk, Canonical(names[i]))
    ensures var f := Failed(disk, names, archive, stop, AtCopy(Untouched));
            Proper(f.installed) && HoldsAt(Rollback(f), Inside(Canonical(names[i])), archive[Canonical(names[i])])
  {
    hide Canonical, Lower, Extracted, After, Reaches, BackedRight, Undo, Steady, Passable;
    var pre, name, key := names[..stop], names[stop], Canonical(names[i]);
    var s := After(Start(disk), pre, archive);
    PrefixReaches(disk, names, stop);
    AfterProgress(disk, pre, archive);
    assert pre[i] == names[i];
    assert HoldsAt(s.disk, Inside(key), archive[key]);
    SameView(s, disk, pre, archive, Canonical(name));
    assert !Blocked(disk, Parent(Canonical(name))) by { PassableOpen(disk, Canonical(name)); }
    RecordedSteady(s, disk, pre, archive, name);
    FolderedAt(s, name, Inside(key));
    var f, more := Failed(disk, names, archive, stop, AtCopy(Untouched)), pre + [name];
    assert f == Recorded(s, name);
    hide Foldered, Progressed;
    UndoElsewhere(f, |more|, Inside(key));
    assert f.installed[..|more|] == more;
    NotInside(more, archive, key);
  }

  /** Two spellings of one file, which differ as strings: the script checks neither of them. */
  lemma {:induction false} SpellingsMeetIn(archive: FileMap)
    requires Extracted(archive) && ["bin", "x"] in archive
    ensures var names := ["bin/x", "bin\\x"];
            && Lower(names[0]) != Lower(names[1])
            && (forall i :: 0 <= i < 2 ==> !Rooted(names[i]) && !Contains(names[i], ".."))
            && InArchive(names, archive) && Reaches(map[], names, 2)
            && !Undone(map[], names, archive, 1, AtCopy(Untouched))
  {
    var a, b := "bin/x", "bin\\x";
    LowerBin();
    CanonicalBin();
    hide Canonical, Rollback, Failed, Lower, Extracted, Regained;
    assert a[3] != b[3];
    assert forall t: string, i: nat :: t == "bin/x" || t == "bin\\x" ==> !Occurs(t, "..", i) by {
      forall t: string, i: nat | t == "bin/x" || t == "bin\\x" ensures !Occurs(t, "..", i) {
        if i + 2 <= |t| { assert t[i..i + 2][0] == t[i] && t[i] != '.'; }
      }
    }
    var names := [a, b];
    NewFileStays(map[], names, archive, 0, 1);
    HarmedAt(map[], Rollback(Failed(map[], names, archive, 1, AtCopy(Untouched))), names, ["bin", "x"]);
  }

  lemma {:induction false} ManifestName()
    ensures Canonical("a") == ["a"] && |Canonical(MANIFEST)| == 1 && Canonical(MANIFEST) != ["a"]
  {
    hide Canonical;
    assert Lower("a") == "a" && forall i :: 0 <= i < |MANIFEST| ==> !IsSeparator(MANIFEST[i]) && Lower(MANIFEST)[i] == MANIFEST[i];
    PlainName("a");
    PlainName(MANIFEST);
  }

  /** A listed file where the installation has a directory: it is copied into the directory, over
      what was there, and stays when the manifest's copy throws. */
  lemma {:induction false} DirectoryExample(archive: FileMap, before: seq<Byte>)
    requires Extracted(archive) && ["a"] in archive && Canonical(MANIFEST) in archive && archive[["a"]] != before
    ensures var disk, names := map[["a"] := Dir, ["a", "a"] := File(before)], ["a", MANIFEST];
            && IsTree(disk) && InArchive(names, archive) && Distinct(names) && Reaches(disk, names, 2)
            && !Undone(disk, names, archive, 1, AtCopy(Untouched))
  {
    var disk: Disk, names := map[["a"] := Dir, ["a", "a"] := File(before)], ["a", MANIFEST];
    ManifestName();
    hide Canonical, Rollback, Failed, Lower, Extracted, Regained;
    forall q, p | q in disk && p != [] && p < q ensures IsDir(disk, p) {
      assert p == q[..|p|] == ["a"];
    }
    assert IsTree(disk);
    assert Inside(["a"]) == ["a", "a"] && Parent(["a"]) == [] && Parent(Canonical(MANIFEST)) == [];
    CopiedIntoStays(disk, names, archive, 0, 1);
    HarmedAt(disk, Rollback(Failed(disk, names, archive, 1, AtCopy(Untouched))), names, ["a", "a"]);
  }

  // ---- The script ----

  // What the first loop demands of a manifest entry.
  predicate Accepted(e: Entry, archive: FileMap, hash: seq<Byte> -> string) {
    && !Rooted(e.name) && !Contains(e.name, "..")
    && Canonical(e.name) in archive
    && Lower(hash(archive[Canonical(e.name)])) == Lower(e.sha256)
  }

  lemma {:induction false} TwoDots(name: string)
    ensures Contains(name, "..") <==> exists i :: 0 <= i < |name| - 1 && name[i] == '.' == name[i + 1]
  {
    if Contains(name, "..") {
      var i :| 0 <= i <= |name| && Occurs(name, "..", i);
      assert name[i] == name[i..i + 2][0] && name[i + 1] == name[i..i + 2][1];
    }
    if exists i :: 0 <= i < |name| - 1 && name[i] == '.' == name[i + 1] {
      var i :| 0 <= i < |name| - 1 && name[i] == '.' == name[i + 1];
      assert name[i..i + 2] == "..";
      assert Occurs(name, "..", i);
    }
  }

  /** An entry is accepted exactly when its name begins neither with a separator nor with a drive and
      has no two dots in a row, the archive has the file, and its hash is the one listed, whatever the
      case of its digits. */
  lemma {:induction false} AcceptedIff(e: Entry, archive: FileMap, hash: seq<Byte> -> string)
    ensures Accepted(e, archive, hash) <==>
            && (e.name != "" ==> e.name[0] !in "/\\") && (|e.name| > 1 ==> e.name[1] != ':')
            && (forall i :: 0 <= i < |e.name| - 1 && e.name[i] == '.' ==> e.name[i + 1] != '.')
            && Canonical(e.name) in archive
            && var listed, found := e.sha256, hash(archive[Canonical(e.name)]);
               |listed| == |found| && forall i :: 0 <= i < |listed| ==> SameLetter(listed[i], found[i])
  {
    hide Canonical, Contains, Lower;
    TwoDots(e.name);
    if Canonical(e.name) in archive { FoldedSameIff(e.sha256, hash(archive[Canonical(e.name)])); }
  }

  function Names(entries: seq<Entry>): (names: seq<string>)
    ensures |names| == |entries| + 1
  {
    seq(|entries| + 1, i requires 0 <= i <= |entries| => if i < |entries| then entries[i].name else MANIFEST)
  }

  // What the first loop and the look for the manifest establish.
  predicate Verified(entries: seq<Entry>, archive: FileMap, hash: seq<Byte> -> string) {
    Canonical(MANIFEST) in archive && forall i :: 0 <= i < |entries| ==> Accepted(entries[i], archive, hash)
  }

  lemma {:induction false} NamesProper(entries: seq<Entry>, archive: FileMap, hash: seq<Byte> -> string)
    requires Extracted(archive) && Verified(entries, archive, hash)
    ensures InArchive(Names(entries), archive)
  {
    hide Canonical, Lower, Contains, Rooted;
  }

  // Making the folders does not change whether the copy can go where it goes.
  lemma {:induction false} PassableAfter(s: State, name: string)
    requires Canonical(name) != [] && !Blocked(s.disk, Parent(Canonical(name)))
    ensures Target(Foldered(s, name).disk, Canonical(name)) == Target(s.disk, Canonical(name))
    ensures Passable(s.disk, Canonical(name)) <==>
              !IsDir(Foldered(s, name).disk, Target(Foldered(s, name).disk, Canonical(name)))
  {
    hide Canonical, Blocked;
    FolderedAt(s, name, Canonical(name));
    FolderedAt(s, name, Inside(Canonical(name)));
  }

  // Whether the next name can be copied was settled before the first.
  lemma {:induction false} PassableNow(disk: Disk, names: seq<string>, archive: FileMap, i: nat)
    requires Extracted(archive) && InArchive(names, archive) && i < |names| && Reaches(disk, names, i)
    ensures Passable(After(Start(disk), names[..i], archive).disk, Canonical(names[i])) <==> Passable(disk, Canonical(names[i]))
  {
    hide Canonical, Passable, Extracted, Progressed;
    assert forall h :: 0 <= h < i ==> names[..i][h] == names[h];
    AfterProgress(disk, names[..i], archive);
    SameView(After(Start(disk), names[..i], archive), disk, names[..i], archive, Canonical(names[i]));
  }

  lemma {:induction false} HashesHold(disk: Disk, now: Disk, entries: seq<Entry>, archive: FileMap, hash: seq<Byte> -> string)
    requires Extracted(archive) && Verified(entries, archive, hash) && InArchive(Names(entries), archive)
    requires forall i :: 0 <= i <= |entries| ==>
               var key := Canonical(Names(entries)[i]); HoldsAt(now, Target(disk, key), archive[key])
    ensures forall i :: 0 <= i < |entries| && !IsDir(disk, Canonical(entries[i].name)) ==>
              var key := Canonical(entries[i].name); IsFile(now, key) && Lower(hash(now[key].data)) == Lower(entries[i].sha256)
  {
    hide Canonical, Lower, Contains, Rooted, Extracted;
    forall i | 0 <= i < |entries| && !IsDir(disk, Canonical(entries[i].name))
      ensures var key := Canonical(entries[i].name); IsFile(now, key) && Lower(hash(now[key].data)) == Lower(entries[i].sha256)
    {
      assert Names(entries)[i] == entries[i].name && Accepted(entries[i], archive, hash);
    }
  }

  lemma {:induction false} FailedProper(disk: Disk, names: seq<string>, archive: FileMap, i: nat, how: Break)
    requires Extracted(archive) && InArchive(names, archive) && i < |names| && Reaches(disk, names, i)
    ensures Proper(Failed(disk, names, archive, i, how).installed)
  {
    hide Canonical, Passable, Extracted, After, Foldered, Blocked, BackedRight;
    assert forall h :: 0 <= h < i ==> names[..i][h] == names[h];
    AfterProgress(disk, names[..i], archive);
    FolderedAt(After(Start(disk), names[..i], archive), names[i], []);
  }

  class Updater {
    var disk: Disk
    var backup: FileMap
    var installed: seq<string>
    var backedUp: set<string>

    constructor (disk: Disk)
      ensures Abs() == Start(disk)
    {
      this.disk, backup, installed, backedUp := disk, map[], [], {};
    }

    ghost function Abs(): State
      reads this
    {
      State(disk, backup, installed, backedUp)
    }

    // The first loop: nothing is touched before every entry has been checked.
    method Check(entries: seq<Entry>, archive: FileMap, hash: seq<Byte> -> string) returns (ok: bool)
      ensures ok <==> forall i :: 0 <= i < |entries| ==> Accepted(entries[i], archive, hash)
    {
      var i := 0;
      while i < |entries|
        invariant i <= |entries|
        invariant forall k :: 0 <= k < i ==> Accepted(entries[k], archive, hash)
      {
        if !Accepted(entries[i], archive, hash) { return false; }
        i := i + 1;
      }
      return true;
    }

    // One file. `how` says where it throws, if it does; where no folder can be made, or the copy
    // meets a directory, it throws in any case.
    method CopyFile(name: string, archive: FileMap, throws: bool, how: Break) returns (ok: bool)
      requires Canonical(name) != [] && Canonical(name) in archive
      modifies this
      ensures ok <==> !throws && Passable(old(disk), Canonical(name))
      ensures Abs() == if ok then Installed(old(Abs()), name, archive)
                       else Broken(old(Abs()), name, if throws then how else AtCopy(Untouched))
    {
      hide Lower, Canonical, Blocked;
      var key := Canonical(name);
      var dir := Parent(key);
      ghost var s := Abs();
      if Blocked(disk, dir) { return false; }
      if throws && how.AtFolder? {
        disk := MkdirAll(disk, dir, how.levels);
        return false;
      }
      FolderedAt(s, name, key);
      FolderedAt(s, name, Inside(key));
      PassableAfter(s, name);
      disk := MkdirAll(disk, dir, |dir|);
      if IsFile(disk, key) {
        if throws && how.AtBackup? {
          backup := BadBackup(backup, key, how.left);
          return false;
        }
        backup := backup[key := disk[key].data];
        backedUp := backedUp + {Lower(name)};
      }
      if throws && how.AtBackup? { return false; }
      installed := installed + [name];
      var target := Target(disk, key);
      if throws {
        disk := Damaged(disk, target, how.left);
        return false;
      }
      if IsDir(disk, target) { return false; }
      disk := disk[target := File(archive[key])];
      return true;
    }

    method CatchBlock()
      requires Proper(installed)
      modifies this`disk
      ensures disk == Rollback(old(Abs()))
    {
      hide Lower, Canonical;
      var i := 0;
      while i < |installed|
        invariant i <= |installed|
        invariant disk == Undo(old(Abs()), i)
      {
        var key := Canonical(installed[i]);
        if Lower(installed[i]) in backedUp && key in backup {
          var target := Target(disk, key);
          if !IsDir(disk, target) {
            disk := disk[target := File(backup[key])];
          }
        } else if IsFile(disk, key) {
          disk := disk - {key};
        }
        i := i + 1;
      }
    }

    /** The whole update on a fresh updater: handling file number `stop` throws, the
        manifest being the last file; a larger number throws nowhere by itself. Success puts
        the archive's bytes at every listed name, or into the directory of that name, and
        changes nothing else but for folders made on the way. Failure leaves the installation as
        it was, but for such folders, where no name that can be copied repeats another or is a
        directory. */
    method Update(entries: seq<Entry>, archive: FileMap, hash: seq<Byte> -> string, stop: nat, how: Break)
      returns (ok: bool)
      requires Extracted(archive) && Abs() == Start(disk)
      modifies this
      ensures ok ==> Verified(entries, archive, hash)
      ensures Verified(entries, archive, hash) ==>
                InArchive(Names(entries), archive) && (ok <==> stop > |entries| && Reaches(old(disk), Names(entries), |entries| + 1))
      ensures ok ==> forall i :: 0 <= i <= |entries| ==>
                var key := Canonical(Names(entries)[i]); HoldsAt(disk, Target(old(disk), key), archive[key])
      ensures ok ==> forall i :: 0 <= i < |entries| && !IsDir(old(disk), Canonical(entries[i].name)) ==>
                var key := Canonical(entries[i].name); IsFile(disk, key) && Lower(hash(disk[key].data)) == Lower(entries[i].sha256)
      ensures ok ==> forall k: Key :: IsTarget(old(disk), Names(entries), k) || Unharmed(old(disk), disk, Names(entries), k)
      ensures !Verified(entries, archive, hash) ==> disk == old(disk)
      ensures Verified(entries, archive, hash) && !ok && Undoable(old(disk), Names(entries)) ==>
                Regained(old(disk), disk, Names(entries))
    {
      hide Installed, Broken, Undo, Unharmed, Contains, Rooted, Lower, Canonical, Rollback, Passable, Target, Extracted, Undoable,
           IsTarget, Regained, Progressed, Blocked;
      if Canonical(MANIFEST) !in archive { return false; }
      var fine := Check(entries, archive, hash);
      if !fine { return false; }
      var names := Names(entries);
      ghost var before := disk;
      NamesProper(entries, archive, hash);
      var i := 0;
      while i < |names|
        invariant i <= |names| && stop >= i && Reaches(before, names, i)
        invariant Abs() == After(Start(before), names[..i], archive)
      {
        assert names[..i + 1][..i] == names[..i];
        ghost var s := Abs();
        PassableNow(before, names, archive, i);
        var copied := CopyFile(names[i], archive, i == stop, how);
        if !copied {
          ghost var what := if i == stop then how else AtCopy(Untouched);
          assert Abs() == Failed(before, names, archive, i, what);
          assert Proper(installed) by { FailedProper(before, names, archive, i, what); }
          CatchBlock();
          if Undoable(before, names) { FailureRestores(before, names, archive, i, what); }
          return false;
        }
        i := i + 1;
      }
      assert names[..i] == names;
      SuccessInstalls(before, names, archive);
      HashesHold(before, disk, entries, archive, hash);
      return true;
    }
  }
}
