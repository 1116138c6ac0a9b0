/** What an operation makes of one task, field by field. */
module TaskChanges {
  import opened Options
  import opened Tasks

  predicate InStatus(u: Task, st: Status) {
    u.status == st && u.stage.status == st
  }

  predicate AtStandstill(u: Task) {
    u.speed == 0 && u.stage.speed == 0
  }

  predicate SameSpeed(t: Task, u: Task) {
    u.speed == t.speed && u.stage.speed == t.stage.speed
  }

  predicate SameError(t: Task, u: Task) {
    u.error == t.error && u.stage.error == t.stage.error
  }

  predicate SameIdentity(t: Task, u: Task) {
    u.id == t.id && u.packId == t.packId && u.createdAt == t.createdAt
  }

  // What is downloaded, to where, and how far it has come.
  predicate SameContent(t: Task, u: Task) {
    && u.title == t.title && u.url == t.url && u.path == t.path && u.usesSlot == t.usesSlot
    && u.fileSize == t.fileSize && u.received == t.received && u.progress == t.progress && u.detail == t.detail
    && u.stage.fileSize == t.stage.fileSize && u.stage.received == t.stage.received && u.stage.progress == t.stage.progress
    && u.stage.state == t.stage.state && u.stage.config == t.stage.config
  }

  predicate SameWork(t: Task, u: Task) {
    SameIdentity(t, u) && SameContent(t, u)
  }

  // Only the status is new.
  predicate IsPut(t: Task, u: Task, st: Status) {
    InStatus(u, st) && SameSpeed(t, u) && SameError(t, u) && SameWork(t, u)
  }

  // Paused, at speed 0.
  predicate IsPaused(t: Task, u: Task) {
    InStatus(u, Paused) && AtStandstill(u) && SameError(t, u) && SameWork(t, u)
  }

  // Failed for want of a registered worker. The stage keeps its own status and error.
  predicate IsUnregistered(t: Task, u: Task) {
    && u.status == Failed && u.stage.status == t.stage.status
    && u.error == "worker not registered" && u.stage.error == t.stage.error
    && SameSpeed(t, u) && SameWork(t, u)
  }

  // Failed with this error.
  predicate IsBroken(t: Task, u: Task, error: string) {
    InStatus(u, Failed) && u.error == error && u.stage.error == error && SameSpeed(t, u) && SameWork(t, u)
  }

  // Completed, at speed 0 and 100 percent.
  predicate IsCompleted(t: Task, u: Task) {
    && InStatus(u, Completed) && AtStandstill(u) && u.progress == 100.0 && u.stage.progress == 100.0
    && SameError(t, u) && SameIdentity(t, u)
    && SameContent(t, u.(progress := t.progress, stage := u.stage.(progress := t.stage.progress)))
  }

  // The edit's content under the original's identity, at speed 0, without error, paused or waiting.
  predicate IsEdited(original: Task, edit: Task, u: Task, resume: bool) {
    && SameIdentity(original, u) && SameContent(edit, u) && AtStandstill(u) && u.error == "" && u.stage.error == ""
    && InStatus(u, if resume then Waiting else Paused)
  }

  // Back at the beginning, with the sizes, the slot use and the stage state the reset gave.
  predicate IsRewound(t: Task, reset: Task, u: Task) {
    && SameIdentity(t, u) && InStatus(u, Waiting) && AtStandstill(u) && u.error == "" && u.stage.error == ""
    && u.received == 0 && u.stage.received == 0 && u.progress == 0.0 && u.stage.progress == 0.0 && u.detail == ""
    && u.title == t.title && u.url == t.url && u.path == t.path && u.stage.config == t.stage.config
    && u.fileSize == reset.fileSize && u.stage.fileSize == reset.stage.fileSize
    && u.usesSlot == reset.usesSlot && u.stage.state == reset.stage.state
  }

  // Moved to the output named after it, paused at the beginning, without error.
  ghost predicate IsRelocated(t: Task, u: Task) {
    && SameIdentity(t, u) && InStatus(u, Paused) && AtStandstill(u) && u.error == "" && u.stage.error == ""
    && u.received == 0 && u.stage.received == 0 && u.progress == 0.0 && u.stage.progress == 0.0
    && u.title == t.title && u.url == t.url && u.path == t.path && u.usesSlot == t.usesSlot
    && u.fileSize == t.fileSize && u.detail == t.detail && u.stage.fileSize == t.stage.fileSize
    && u.stage.config == t.stage.config
    && OUTPUT_NAME_KEY in u.stage.state && u.stage.state[OUTPUT_NAME_KEY] == "ftp-" + t.id.text
    && (forall key :: key != OUTPUT_NAME_KEY ==>
          && (key in u.stage.state <==> key in t.stage.state)
          && (key in t.stage.state ==> u.stage.state[key] == t.stage.state[key]))
  }

  /** Preparing an FTP directory task's output leaves it as it is or relocates it; other tasks it
      leaves alone. */
  lemma {:induction false} PrepareEffect(t: Task, reserved: set<Path>, fs: FileSystem)
    ensures var p := Prepare(t, reserved, fs);
            && (!IsFtpDirectory(t) ==> p == Accepted(t))
            && (p.Accepted? ==> p.task == t || (IsFtpDirectory(t) && IsRelocated(t, p.task)))
  {
    hide Fold, Escapes, OutputFile, VerifyOwner;
  }
}
