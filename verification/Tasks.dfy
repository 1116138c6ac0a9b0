/** Tasks, their output files, and the reservation of FTP directory outputs. */
module Tasks {
  import opened Text

  datatype TaskId = TaskId(text: string)

  datatype Status = Waiting | Running | Seeding | Paused | Completed | Failed | Canceled

  // Clean absolute paths, one string a component.
  type Path = seq<string>

  // `config` stands for the stage fields the scheduler copies and compares but never reads.
  datatype Stage = Stage(
    status: Status, received: int, speed: int, progress: real, error: string,
    fileSize: int, state: map<string, string>, config: string)

  datatype Task = Task(
    id: TaskId, packId: string, title: string, url: string, status: Status, path: Path,
    fileSize: int, received: int, speed: int, progress: real, detail: string,
    createdAt: int, error: string, usesSlot: bool, stage: Stage)

  const OUTPUT_NAME_KEY := "directoryOutputName"

  function Lookup(m: map<string, string>, key: string): string {
    if key in m then m[key] else ""
  }

  predicate IsFtpDirectory(t: Task) {
    t.packId == "ftp" && Lookup(t.stage.state, "directory") == "true"
  }

  function OutputName(t: Task): string {
    if IsFtpDirectory(t) && Lookup(t.stage.state, OUTPUT_NAME_KEY) != ""
    then Lookup(t.stage.state, OUTPUT_NAME_KEY)
    else t.title
  }

  function OutputFile(t: Task): Path {
    t.path + [OutputName(t)]
  }

  function Fold(p: Path): (r: Path)
    ensures |r| == |p|
  {
    seq(|p|, i requires 0 <= i < |p| => Lower(p[i]))
  }

  // What a later Prepare or OutputFile can see of a task.
  function OutputKey(t: Task): (Path, string, bool) {
    (t.path, OutputName(t), IsFtpDirectory(t))
  }

  // ---- The file system as the reservation code observes it ----

  // `Owned` is a real directory whose marker file names its task; `Foreign` is any other
  // existing entry; `Unreadable` is an entry whose inspection fails.
  datatype Probe = Absent | Owned(owner: TaskId) | Foreign | Unreadable

  // Keyed by folded path; a missing key is an absent path.
  type FileSystem = map<Path, Probe>

  function Inspect(fs: FileSystem, p: Path): Probe {
    if Fold(p) in fs then fs[Fold(p)] else Absent
  }

  predicate VerifyOwner(fs: FileSystem, p: Path, id: TaskId) {
    Inspect(fs, p) == Absent || Inspect(fs, p) == Owned(id)
  }

  // Joining one of these names to a directory does not lead to a proper child of it.
  predicate Escapes(name: string) {
    name == "" || name == "." || name == ".."
  }

  datatype Prepared = Accepted(task: Task) | Rejected(reason: string)

  function Relocate(t: Task): Task {
    t.(status := Paused, received := 0, progress := 0.0, speed := 0, error := "",
       stage := t.stage.(state := t.stage.state[OUTPUT_NAME_KEY := "ftp-" + t.id.text],
                         status := Paused, received := 0, progress := 0.0, speed := 0, error := ""))
  }

  /** Chooses the output of an FTP directory task: its own one when nobody else has it,
      otherwise a name made from the task's identifier. */
  function Prepare(t: Task, reserved: set<Path>, fs: FileSystem): Prepared {
    if !IsFtpDirectory(t) then Accepted(t)
    else if Escapes(OutputName(t)) then Rejected("escapes task directory")
    else
      var output := OutputFile(t);
      var taken := Fold(output) in reserved;
      if Inspect(fs, output) == Absent && !taken then Accepted(t)
      else if Inspect(fs, output) == Unreadable then Rejected("inspection failed")
      else if !taken && VerifyOwner(fs, output, t.id) then Accepted(t)
      else if Lookup(t.stage.state, OUTPUT_NAME_KEY) != "" then Rejected("output not owned")
      else
        var alternate := t.path + ["ftp-" + t.id.text];
        if Fold(alternate) in reserved then Rejected("output already reserved")
        else if Inspect(fs, alternate) == Unreadable then Rejected("inspection failed")
        else if !VerifyOwner(fs, alternate, t.id) then Rejected("output already occupied")
        else Accepted(Relocate(t))
  }

  /** The linear scan of the reserved paths decides membership ignoring case. */
  method OutputPathReserved(output: Path, reservedPaths: seq<Path>) returns (reserved: bool)
    ensures reserved <==> exists i :: 0 <= i < |reservedPaths| && Fold(reservedPaths[i]) == Fold(output)
  {
    for i := 0 to |reservedPaths|
      invariant forall k :: 0 <= k < i ==> Fold(reservedPaths[k]) != Fold(output)
    {
      if Fold(output) == Fold(reservedPaths[i]) {
        return true;
      }
    }
    return false;
  }

  /** An accepted FTP directory task never takes a reserved output, keeps its identity and
      its directory, and its output is absent or already its own. */
  lemma {:induction false} PrepareIsExclusive(t: Task, reserved: set<Path>, fs: FileSystem)
    requires IsFtpDirectory(t) && Prepare(t, reserved, fs).Accepted?
    ensures var p := Prepare(t, reserved, fs).task;
            && IsFtpDirectory(p)
            && p.id == t.id && p.path == t.path && p.usesSlot == t.usesSlot
            && Fold(OutputFile(p)) !in reserved
            && VerifyOwner(fs, OutputFile(p), t.id)
  {
    var p := Prepare(t, reserved, fs).task;
    if p != t {
      assert p == Relocate(t);
      assert OutputName(p) == "ftp-" + t.id.text;
    }
  }

  /** Preparing an already prepared task again changes nothing, as long as its output stayed
      its own and nobody else reserved it: relocation is durable. */
  lemma {:induction false} PrepareIsStable(t: Task, reserved: set<Path>, fs: FileSystem, later: set<Path>, laterFs: FileSystem)
    requires Prepare(t, reserved, fs).Accepted?
    requires Fold(OutputFile(Prepare(t, reserved, fs).task)) !in later
    requires VerifyOwner(laterFs, OutputFile(Prepare(t, reserved, fs).task), t.id)
    ensures Prepare(Prepare(t, reserved, fs).task, later, laterFs) == Accepted(Prepare(t, reserved, fs).task)
  {
    var p := Prepare(t, reserved, fs).task;
    if IsFtpDirectory(t) {
      PrepareIsExclusive(t, reserved, fs);
      assert p != t ==> OutputName(p) == "ftp-" + t.id.text;
      assert !Escapes("ftp-" + t.id.text) by { assert ("ftp-" + t.id.text)[0] == 'f'; }
    }
  }
}
