# Ghost Downloader: verified model

A Dafny model of the parts of the downloader whose correctness is hardest to see
from the code: the task scheduler, the resumable multi-part HTTP download, the
BitTorrent resume storage, FTP directory downloads, and four smaller components.
`dafny verify dfyconfig.toml` checks all of it.

## How it is organised

| files | component |
|---|---|
| `Options`, `Sets`, `Text`, `Files`, `Trees` | shared vocabulary: optional values, sizes of sets, ASCII case folding, files as byte sequences whose holes read as zeros, directory trees |
| `Tasks` | the task record and the reservation of FTP directory outputs |
| `SchedulerState`, `SchedulerClass` | each locked stretch of the scheduler as a function on its state, and the scheduler object whose methods compute those functions in place |
| `SchedulerInvariant`, `SchedulerSteps`, `SchedulerCalm` | what every state satisfies, and that each stretch keeps it |
| `TaskChanges`, `SchedulerEffects` | what each operation does, task by task and field by field, told apart from how it is computed |
| `SchedulerMachine`, `SchedulerTheorems`, `SchedulerQueue`, `SchedulerOutputs` | all interleavings of public calls, multi-step operations, reports and worker exits; the theorems about whole runs |
| `Events` | the bounded event channel |
| `HttpParts`, `HttpDownload`, `HttpProgress`, `HttpSmallFiles`, `HttpTorn`, `HttpRetry` | splitting a file into parts, the `.ghd` record, interleaved part writers with crashes and restarts, that they get somewhere, small files, half-written records, the retry loop |
| `BtStorage` | the piece-addressed byte space over many files |
| `FtpNames`, `FtpManifest` | safe local names, the path manifest and its second validation |
| `FtpTree`, `FtpPublish`, `FtpWorker` | the names beside a file, what the worker does at each manifest entry on the two trees all entries share, and the worker object that does it in place |
| `FtpVisit`, `FtpRuns`, `FtpClash` | what one visit keeps, whole histories of runs over a manifest, and exactly which manifests they always publish whole |
| `FtpRoot` | the output directory with its owner file, new starts of the program, and exactly which tasks are published in the end |
| `RateLimiter` | the token bucket, in exact reals |
| `Installer` | the portable updater with its rollback |
| `Dedupe` | choosing a free title |

State the program updates in place is a class (`Scheduler`, `EventChannel`,
`PartDownload`, `TorrentStorage`, `PathChecker`, `DirectoryWorker`, `Limiter`,
`Updater`); its methods are proved against functions or predicates on values, and
the theorems are about those.

The environment is explicit. Step labels of the scheduler and download machines
carry every outside decision (what a worker reports, where a write stops, whether a
record is written). The disk and the network of `DirectoryWorker` are scripts of
faults and connections. HTTP servers follow sections 14.4 and 15.3.7 of RFC 9110 in
that a partial response carries the content from the offset it announces, cut short
or too long. FTP servers send the remote file from the requested offset on
(section 5 of RFC 3659), cut short, and may refuse the restart.

## Assumptions

- Identifiers given to `Add` and `Load` are new; added tasks are not already Running
  or Seeding; a worker reports only while it is inside `Run`, and reports no status,
  Running or Seeding.
- `Redownload` and `EditTask` do not begin on a startable waiting task (see below for
  why this is exactly what is needed).
- For the shared-file theorems of the HTTP download, the file has at least two bytes a
  part (see below). There, writing the `.ghd` record is one step; a crash in the middle
  of it is the subject of `HttpTorn` (see below).
- Different contents of directory files have different digests, and a digest has no blanks.
- An FTP directory task's output directory is missing at first; it and the tree of
  completion markers are separate, and nothing but the task writes to them; the name the
  task may be moved to is free; the remote files do not change. A task's identifier has
  no blanks.
- The folder an update is unpacked to is a file system: no file lies below another.
- Files are compared and keyed by paths folded to lower case; only ASCII letters fold.

## Where the code falls short of a promise

Each of these is a lemma giving the failing case and the exact condition.

- The worker of an FTP directory keeps the part of a file beside its output, under a name
  another entry may have, and its marker under a name that may be another entry's
  directory. Unless a run was stranded (next item), an accepted manifest is always
  published whole if and only if no file's ".part" path is another entry's path or a
  directory above it, and no file lies below another file's ".complete" or
  ".complete.tmp" path (`TaskPublishesIff`, `AcceptedPublishesIff`). A run counts as
  undisturbed when its disk works and, for each file it has to fetch, some connection
  brings the rest before more than the allowed retries fail in a row. With "B.part" and "b"
  the first undisturbed run already loses one of the two (`EarlierPartExample`); with "a"
  and "a.part" one marker that cannot be read makes the worker publish the bytes of
  "a.part" as "a" for good (`LaterPartExample`); with "a" and "a.complete/b" no first
  undisturbed run succeeds (`MarkerExample`).
- A run that makes the output directory and stops before the task's identifier is in the
  owner file strands the task: every later run of the process refuses the directory
  (`StrandedExample`). An undisturbed run of a task without clashes publishes all of it if
  and only if the task still loads and its directory is missing or has its own owner file
  (`PublishesIffOpen`); within one process, if and only if the first run that made the
  directory did not stop there (`ProcessPublishesIff`). The next start of the program moves
  the task to another directory (`RestartFrees`); stranded there too, it is refused, and
  the program no longer starts (`SecondStrandingStops`).
- A task whose output `Add` refuses is kept as Failed and saved. While the refusal holds,
  the next `Load` stops at it, and the program does not start (internal/app/app.go:104).
  Loading a saved list completes if and only if every FTP directory task on it has a place:
  its saved output or, if it was not moved before, the one named after it, apart from the
  places before it, and absent or its own (`RefusedAddStopsLoad`, `SaveThenLoadIff`).
- A `Redownload` or an `EditTask` begun on a waiting task that has no `running` entry
  and whose pack is registered, on a scheduler that is not stopping, can meet a worker
  for that task started between its locked sections; the status then disagrees with
  the entry (`RedownloadIsSafeIff`, `EditIsSafeIff`).
- Where every listed file can be copied, the installer undoes every failure, but for folders
  it made, if and only if the manifest's names, together with the manifest's own, mean
  different files and none is a directory of the installation (`CopyableRestoresIff`;
  `RestoresIff` without the proviso). Its record of what it backed up goes by the names as
  written, so "bin/x" and "bin\x" pass its checks and are not undone (`SpellingsMeetIn`). A
  file whose name is a directory is copied into that directory, without a backup
  (`DirectoryExample`), and success then leaves no file at the name (`SuccessIsWholeIff` of
  `Installer`).
- A file with fewer than two bytes a part gets a first part that ends at byte 0, the
  value that also stands for an unknown size; a download can then report success
  with that byte missing from the file (`ZeroEndIff`, `SuccessIsWholeIff` of
  `HttpSmallFiles`).
- The `.ghd` record is written in place and told to be torn only by its size. After a crash
  in the middle of it, success always means the whole file if and only if the cut is not
  between two parts (`TornIsSafeIff`); otherwise the next run fetches the parts it finds
  named and reports success without the rest (`CutRecordSucceeds`).

Two more need inputs the program can hardly produce:

- `EditTask` notices any number of calls of `PauseAll` during its callback that is below
  2^64 (`PausesAreNoticed`); only a multiple of 2^64 goes unnoticed, since the counter
  wraps (`EditNoticesIff`, `WrappedPausesGoUnnoticed`).
- A limiter made with a negative rate keeps a negative allowance when a positive rate is
  set later (`InRangeIff`). The settings are made non-negative first
  (internal/app/app.go:74), so only a rate in KiB that overflows 64 bits when
  multiplied by 1024 is negative.

## Model

| member | source | states |
|---|---|---|
| Tasks.PrepareIsExclusive | internal/core/model.go:74-119 | an accepted FTP directory task keeps its identity and directory, its output is not reserved ignoring case, and it is absent or already the task's own |
| Tasks.PrepareIsStable | internal/core/model.go:74-119 | preparing a prepared task again, with its output still its own and unreserved, changes nothing |
| TaskChanges.PrepareEffect | internal/core/model.go:74-119 | an accepted FTP directory task is as it was, or it is at its beginning, paused, and its output is the one named after it, and no other field differs; other tasks are accepted as they are |
| Tasks.OutputPathReserved | internal/core/model.go:121-129 | the scan answers true exactly when some reserved path equals the output ignoring case |
| SchedulerInvariant.OneWorkerPerTask | internal/core/scheduler.go:480-503 | in a sound state two goroutines of one task that have not returned are the same goroutine |
| SchedulerInvariant.ScheduledAll | internal/core/scheduler.go:531-538 | a scheduling pass over any list keeps the invariant, keeps every entry, leaves tasks that have an entry alone, and changes no setting, order or limit |
| SchedulerInvariant.EnforcedAll | internal/core/scheduler.go:505-529 | from any sound state, however far over the limit, enforcing restores the slot bound; it only pauses tasks and cancels their entries |
| SchedulerSteps.LoadKeeps | internal/core/scheduler.go:51-86 | loading keeps the invariant, also when it stops at a refused output |
| SchedulerSteps.ReportKeeps | internal/core/scheduler.go:553-596 | a report keeps the invariant, through a slot given back or taken up in mid-run |
| SchedulerSteps.ExitKeeps | internal/core/scheduler.go:609-642 | a worker's return, whatever its outcome, keeps the invariant (that its slot is handed on is StepConserves) |
| SchedulerMachine.StepKeeps | internal/core/scheduler.go:92-642 | every locked stretch, interleaved in any way the locks allow, keeps the machine's invariant |
| SchedulerMachine.ReachableStates | internal/core/scheduler.go:92-642 | in every reachable state a task is Running or Seeding exactly when it has an uncancelled entry, entries of removed tasks are cancelled, no identifier has two workers inside Run, and uncancelled slot entries number at most maxRunning |
| SchedulerMachine.CleanupIsExclusive | internal/core/scheduler.go:248-289 | while Redownload deletes a task's files every goroutine of that task has returned |
| SchedulerTheorems.EditIsAtomic | internal/core/scheduler.go:340-437 | an edit that takes effect does so at its commit: the task it replaces is the one the callback saw, PauseAll ran a multiple of 2^64 times in between, and there is no live worker; the task then has the edit's title, URL, path, sizes, progress, slot use, stage state and configuration under its own ID, PackID and CreatedAt, and all other tasks and entries are as they were; a refused edit changes nothing |
| SchedulerTheorems.EditNoticesIff | internal/core/scheduler.go:395-403 | the commit goes ahead exactly when the scheduler is not stopping, the task is there unchanged, and PauseAll ran a multiple of 2^64 times |
| SchedulerTheorems.PausesAreNoticed | internal/core/scheduler.go:395-403 | between 1 and 2^64 - 1 calls of PauseAll during an edit make its commit refuse |
| SchedulerTheorems.WrappedPausesGoUnnoticed | internal/core/scheduler.go:198-203 | 2^64 calls of PauseAll during an edit of a paused task leave its commit applicable |
| SchedulerTheorems.StoppingStep | internal/core/scheduler.go:439-503 | once stopping, no step clears it and none starts a worker |
| SchedulerTheorems.StopIsFinal | internal/core/scheduler.go:439-478 | at StopAll's save, whatever ran in between, every worker has returned and every saved task that was present at its start is neither Running, Seeding nor Waiting |
| SchedulerTheorems.RedownloadIsSafeIff | internal/core/scheduler.go:248-319 | some continuation breaks the invariant exactly when Redownload begins on a startable waiting task |
| SchedulerTheorems.EditIsSafeIff | internal/core/scheduler.go:340-437 | the same for EditTask |
| SchedulerEffects.StepDoes | internal/core/scheduler.go:51-677 | every step of the machine does what its operation is for: between the old state and the new one holds the relation that the rows below describe, which names each task, each entry, each goroutine and every other part of the state |
| SchedulerEffects.AttemptEffect | internal/core/scheduler.go:480-503 | a start attempt starts the task with a new goroutine and an entry for it exactly when the scheduler is not stopping, the task is neither active nor completed, has no entry and a slot if it uses one, and its pack is registered; it fails the task where only the pack is missing; else it changes nothing |
| SchedulerEffects.PassEffect | internal/core/scheduler.go:531-548 | a pass starts tasks in line or fails them for want of a registered worker, changes nothing else, and leaves nobody waiting whom a free slot would serve |
| SchedulerEffects.EnforceEffect | internal/core/scheduler.go:505-529 | within the limit nothing changes; over it the first maxRunning slot holders in list order go on, each later one is paused at speed 0 with its entry cancelled, and nothing else changes |
| SchedulerEffects.ToggleEffect | internal/core/scheduler.go:137-176 | an active task with an entry is paused at speed 0 and its entry, for the same goroutine, cancelled; a waiting one is paused; a completed or unknown one is left alone; any other goes in line and is started, failed for want of a registered worker, or left waiting; nothing else changes |
| SchedulerEffects.StartAllEffect | internal/core/scheduler.go:178-196 | every paused or waiting task is put in line, all others are left alone, and a pass follows |
| SchedulerEffects.PauseAllEffect | internal/core/scheduler.go:198-223 | every entry is cancelled, every task that has one or waits is paused at speed 0, all others are left alone, and the counter goes on, from 2^64 - 1 to 0 |
| SchedulerEffects.StopEffect | internal/core/scheduler.go:442-461 | stopping is set, every entry is cancelled, every active or waiting task is paused at speed 0, and nothing else changes |
| SchedulerEffects.SetMaxEffect | internal/core/scheduler.go:92-103 | the limit becomes the number given, or 1 where that is not positive; then the limit check and a pass |
| SchedulerEffects.AddEffect | internal/core/scheduler.go:105-127 | the task goes to the end of the list as the preparation of its output left it, failed with the reason where that was refused, waiting where it was to wait and was moved; unless it is paused or refused an attempt to start it is made; nothing else changes |
| SchedulerEffects.RemoveEffect | internal/core/scheduler.go:225-246 | the task and its first place in the list go, an entry of it stays and is cancelled, and a pass follows |
| SchedulerEffects.SaveEffect | internal/core/scheduler.go:470-478 | saving writes exactly the tasks of the list, in its order, and nothing without a store or after a failed load |
| SchedulerEffects.LoadEffect | internal/core/scheduler.go:51-86 | nothing without a store; a failed read is noted; else the stored tasks are put on the list one by one, active ones paused at speed 0, each prepared against the outputs before it, up to the first that is refused |
| SchedulerEffects.RedownloadBeginEffect | internal/core/scheduler.go:248-264 | the entry is cancelled and its task put on pause; without an entry nothing changes |
| SchedulerEffects.RedownloadEffect | internal/core/scheduler.go:291-319 | the task waits at its beginning, nothing received, no error, with the sizes, slot use and stage state the reset gave it, and a pass follows; nothing changes when stopping or when the task is gone |
| SchedulerEffects.EditBeginEffect | internal/core/scheduler.go:348-367 | the entry is cancelled and its task paused at speed 0; without an entry nothing changes |
| SchedulerEffects.EditEffect | internal/core/scheduler.go:391-437 | where the commit applies, the edit takes the task's place under its identity and an attempt to start it is made if it is to go on; after a failed edit the task goes back in line if it is to go on; nothing else changes |
| SchedulerEffects.EditedContent | internal/core/scheduler.go:414-430 | after a stored edit the task has the edit's content under its own identity, stands still, and is paused, or, if it was to go on, waiting, started with a live entry, or failed for want of a registered worker; every other task and entry is as it was |
| SchedulerEffects.ReportEffect | internal/core/scheduler.go:553-596 | received bytes, speed and progress go into the task and its stage; size, detail, status, slot use and stage state where the report has them, the status only into an active task; a slot given up sets off a pass, one taken up the limit check |
| SchedulerEffects.ExitEffect | internal/core/scheduler.go:609-642 | the goroutine is finished and its entry gone; the task is Completed at 100 percent, or Failed with the error, or, if it was active when cancelled, Paused, in both status fields; and a pass follows |
| SchedulerEffects.BeginRunEffect | internal/core/scheduler.go:597-609 | the goroutine is inside Run, or finished at once with its entry left behind when its task is gone |
| SchedulerQueue.StepConserves | internal/core/scheduler.go:480-548 | every step but Load keeps: while not stopping, a waiting task without an entry uses a slot and all slots are taken |
| SchedulerQueue.RunConserves | internal/core/scheduler.go:92-642 | the same over whole runs without a load whose edits keep slot use |
| SchedulerQueue.ConservesFromFirstPass | internal/core/scheduler.go:51-642 | over any run, loads included: once a step passes over the whole line, or clears it, the scheduler is work-conserving from there on, until the next load |
| SchedulerQueue.FirstComeFirstServed | internal/core/scheduler.go:531-538 | a pass that starts a slot user has started every startable slot user before it in the list |
| SchedulerQueue.PassExplained | internal/core/scheduler.go:480-538 | a pass leaves each goroutine and entry as it was and changes a task only by starting it (a new goroutine, a new entry, Running) or by failing it because its pack is not registered, and only waiting tasks without an entry |
| SchedulerQueue.EnforceKeepsFirst | internal/core/scheduler.go:505-529 | over the limit, the first maxRunning slot holders in list order are left as they are and every later one is paused and its entry cancelled |
| SchedulerOutputs.GrantedOutputsDiffer | internal/core/scheduler.go:105-135 | in every reachable state two FTP directory tasks that were granted outputs have outputs that differ ignoring case |
| SchedulerOutputs.ReloadMovesNothing | internal/core/scheduler.go:63-80 | loading a list whose FTP directory outputs are apart and each absent or owned accepts all of it and relocates nothing |
| SchedulerOutputs.SaveThenLoad | internal/core/scheduler.go:51-86 | a good state whose FTP directory tasks were all granted outputs they own is loaded again whole after a save, with every output kept |
| SchedulerOutputs.SaveThenLoadIff | internal/core/scheduler.go:51-86 | for any good state, loading what it saves completes exactly when there are places for all tasks: the saved output of each, or for an FTP directory task not moved before the one named after it, apart ignoring case from the places before it and absent or its own |
| SchedulerOutputs.LoadFollowsPlacement | internal/core/scheduler.go:51-86 | such places are the outputs of the tasks after the load |
| SchedulerOutputs.RefusedAddStopsLoad | internal/core/scheduler.go:66-127 | a task whose output Add refuses is kept as Failed and saved, and while the refusal holds the next load stops at it |
| SchedulerClass.Scheduler.Schedule | internal/core/scheduler.go:480-503 | one start attempt, in place: the whole new state is ScheduleOne of the old, which has the effect of AttemptEffect |
| SchedulerClass.Scheduler.ScheduleAllWaiting | internal/core/scheduler.go:531-538 | the loop over the order computes ScheduleWaiting and has the effect of PassEffect |
| SchedulerClass.Scheduler.EnforceMaxRunning | internal/core/scheduler.go:505-529 | the loop with its kept counter computes Enforce and has the effect of EnforceEffect |
| SchedulerClass.Scheduler.RunningSlotCount | internal/core/scheduler.go:540-548 | the loop over the entries counts exactly the entries of known tasks that use a slot, cancelled ones included |
| SchedulerClass.Scheduler.Add | internal/core/scheduler.go:105-127 | in place: the whole new state after adding a task, relocated or failed outputs included, and the effect of AddEffect; the invariant is kept |
| SchedulerClass.Scheduler.LoadStored | internal/core/scheduler.go:51-86 | in place: the whole new state after a load, a read error or a refused output included, and the effect of LoadEffect; the invariant is kept |
| SchedulerClass.Scheduler.TogglePause | internal/core/scheduler.go:137-176 | in place: every branch with its whole new state and the effect of ToggleEffect; the answer is an error exactly for an unknown task; the invariant is kept |
| SchedulerClass.Scheduler.StartAll | internal/core/scheduler.go:178-196 | the loop over the order and the pass after it compute StartEvery and have the effect of StartAllEffect; the invariant is kept |
| SchedulerClass.Scheduler.PauseAll | internal/core/scheduler.go:198-223 | the loops over entries and tasks compute PauseEvery, the wrapping counter included, and have the effect of PauseAllEffect; the invariant is kept |
| SchedulerClass.Scheduler.Remove | internal/core/scheduler.go:225-246 | in place: the effect of RemoveEffect; the invariant is kept |
| SchedulerClass.Scheduler.StopBegin | internal/core/scheduler.go:442-461 | in place: the first locked section of StopAll, with the effect of StopEffect; the invariant is kept |
| SchedulerClass.Scheduler.ReportProgress | internal/core/scheduler.go:553-596 | in place: the whole effect of a report (ReportEffect); the invariant is kept |
| SchedulerClass.Scheduler.WorkerReturned | internal/core/scheduler.go:611-642 | in place: the whole effect of a worker's return (ExitEffect), which leaves a failed task Failed with its error and a completed one Completed; the invariant is kept |
| Events.ActAllKeeps | internal/core/scheduler.go:657-677 | under any timing of consumer and sender: at most 16 queued, received plus queued is a subsequence of what was emitted ending with the newest, nothing after the close |
| Events.Delivery | internal/core/scheduler.go:474-477 | the same from the empty channel, closed once or twice |
| Events.EmitKeeps | internal/core/scheduler.go:657-677 | an emit keeps the invariant and its own event is the newest queued, however much is consumed between its attempts |
| Events.EmitEffect | internal/core/scheduler.go:657-677 | with room the event joins the queue and nothing else changes; a full channel loses exactly one event, the oldest of those the consumer has not taken by then, or none when it has taken all; what was received stays received |
| HttpParts.GenerateTiles | internal/download/http/worker.go:380-403 | the parts of a known size follow each other from byte 0 to the last byte, none of them downloaded |
| HttpParts.TilesCover | internal/download/http/worker.go:393-402 | every byte of the file lies in exactly one part |
| HttpParts.ZeroEndIff | internal/download/http/worker.go:390-398 | some part ends at byte 0 exactly when the file has fewer than two bytes a part |
| HttpParts.PartSizes | internal/download/http/worker.go:380-403 | as many parts as asked for (8 when none are) but no more than bytes, all equally long but the last, which takes the remainder; one part without an end for an unknown size or a server without ranges |
| HttpParts.GenerateParts | internal/download/http/worker.go:380-403 | the loop computes Generate, unknown and non-range sizes included |
| HttpParts.RecordRoundTrip | internal/download/http/worker.go:405-430 | restoring what was recorded gives the same parts for all 64-bit values, negative ones included, and nothing for an empty list |
| HttpParts.RecordBack | internal/download/http/worker.go:405-430 | re-recording what was restored gives the same bytes for every length that is a multiple of 24 |
| HttpParts.RecordLayout | internal/download/http/worker.go:421-430 | the record has 24 bytes a part, in order: start, progress and end, each 64 bits in two's complement with the low byte first |
| HttpParts.WriteRecord | internal/download/http/worker.go:421-430 | the loop filling the buffer computes the encoding |
| HttpParts.RestoreParts | internal/download/http/worker.go:405-419 | the loop over the record computes Restore, missing, odd-sized and empty records included |
| HttpDownload.StepKeeps | internal/download/http/worker.go:156-350 | every step of the interleaved part writers, the recorder, cancellation, crash and restart keeps the invariant |
| HttpDownload.ProgressIsTrue | internal/download/http/worker.go:156-219 | after any run Start <= Progress <= End+1 and the file holds the content on every [Start, Progress), for the live parts and the saved record |
| HttpDownload.SuccessIsComplete | internal/download/http/worker.go:111-142 | a step that ends in success leaves the whole content at the front of the file, received equal to its length and no record; a file no longer than the content is then equal to it |
| HttpDownload.SuccessfulRunIsComplete | internal/download/http/worker.go:111-219 | from any file, with no record: a run that ends in success, whatever crashes and restarts it went through, has the whole content in the file and received equal to its length |
| HttpDownload.RecordIsRestored | internal/download/http/worker.go:405-430 | what any run has recorded fits the 24-byte format, and the next start restores exactly those parts from the bytes |
| HttpDownload.LengthStays | internal/download/http/worker.go:289-330 | one step leaves a file no longer than the content so, and preallocation gives it exactly that length |
| HttpDownload.LengthStaysOverRun | internal/download/http/worker.go:289-330 | the same over whole runs |
| HttpDownload.WritesStayInPart | internal/download/http/worker.go:295-319 | a write, even one that fails half-way, changes nothing outside its own part |
| HttpProgress.ReadIsCounted | internal/download/http/worker.go:289-331 | n bytes read from a body: those the part still misses are written at its place and nowhere else, its progress and the total grow by as many, every other part is as it was, and the part is done exactly when its last byte was among them |
| HttpProgress.RestartResumes | internal/download/http/worker.go:42-142 | what was recorded when the process ended is where the next start goes on: the same parts with the same progress, over the same file, counted as received |
| HttpProgress.RestartCanFinish | internal/download/http/worker.go:42-219 | from every reachable state, whatever was cancelled, lost or failed before, some run of the next start succeeds, and its responses carry exactly as many bytes as the record does not say are there |
| HttpSmallFiles.SuccessIsWholeIff | internal/download/http/worker.go:296-332 | for every size above 0: each success from a file no longer than the content leaves exactly the content, exactly when the size is at least two bytes a part |
| HttpSmallFiles.SmallFilesCutShort | internal/download/http/worker.go:296-332 | for every smaller content whose first byte is not 0, some run reports success with a file that differs from it |
| HttpTorn.TornRestores | internal/download/http/worker.go:405-430 | the first m bytes of a record restore nothing when m is 0 or no multiple of 24, and else the first m / 24 parts |
| HttpTorn.TornIsSafeIff | internal/download/http/worker.go:42-142 | after a crash that leaves m bytes of the record of live parts, every later success is the whole content, counted once, exactly when m is 0, no multiple of 24, or the whole record |
| HttpTorn.CutRecordSucceeds | internal/download/http/worker.go:42-142 | a record cut between two parts: a later run reports success with only the bytes before the cut counted, and the file from there on as the crash left it |
| HttpRetry.BudgetFalls | internal/download/http/worker.go:221-233 | each failed attempt that is retried lowers the budget, with or without progress |
| HttpRetry.RequestsBounded | internal/download/http/worker.go:156-219 | no sequence of outcomes leads to more than bytes * MaxRetries + 1 requests |
| HttpRetry.BoundIsTight | internal/download/http/worker.go:156-219 | some sequence of outcomes needs that many |
| HttpRetry.PartDownload.CopyPart | internal/download/http/worker.go:267-331 | an accepted response moves the part on by exactly the bytes of its reads before the first that tears, breaks or cancels, as far as the part goes, over content that is then in the file, and nothing outside it changes; the answer is complete exactly when the part is, else cancelled exactly when a cancellation stopped it; any other response changes nothing and fails, or is a cancellation |
| HttpRetry.PartDownload.Run | internal/download/http/worker.go:156-219 | the retry loop, under write errors and cancellation too, ends with the answer, the progress and the number of requests that the replies determine (Downloaded: failures count in a row, from 1 again after progress), so never more requests than the bound, and answers complete exactly when the part is |
| HttpRetry.BroughtIs | internal/download/http/worker.go:289-330 | what a response brings are the bytes of all its reads up to the first that tears, breaks or cancels |
| HttpRetry.ServedCompletes | internal/download/http/worker.go:156-233 | a reply that brings all that is missing, reached within the retries, completes the part, with no request after it |
| HttpRetry.GainingCompletes | internal/download/http/worker.go:208-233 | however many connections break, as long as each brings something, one retry is enough to reach the reply that completes the part |
| HttpRetry.FruitlessIff | internal/download/http/worker.go:208-233 | replies in a row that bring nothing are made up for exactly as long as they are no more than the retries left |
| BtStorage.EntryAtPlaces | internal/download/bt/resume_storage.go:225-236 | the lookup gives the one file holding the byte and what is left of it, a gap no file reaches into, or the end; zero-length files never |
| BtStorage.GapEndsAtFile | internal/download/bt/resume_storage.go:225-236 | where a reported gap ends, a file begins |
| BtStorage.ReadCells | internal/download/bt/resume_storage.go:150-189 | a read is the flat byte view, stopping only where a file is missing or short or the layout ends |
| BtStorage.WriteEffect | internal/download/bt/resume_storage.go:191-223 | a write stores its byte at every file position of its extent and changes nothing else but holes that become zeros |
| BtStorage.WriteSplit | internal/download/bt/resume_storage.go:191-223 | writing b1 ++ b2 is writing b1 and then b2, on disk and in the count |
| BtStorage.ReadAfterWrite | internal/download/bt/resume_storage.go:150-223 | a read after a write gives the written bytes in files and zeros in gaps |
| BtStorage.OtherExtentsKeep | internal/download/bt/resume_storage.go:191-223 | a write keeps what could be read of every disjoint extent |
| BtStorage.PiecesKeepApart | internal/download/bt/resume_storage.go:103-123 | a write to one piece keeps what could be read of any other |
| BtStorage.CheckMeansReadable | internal/download/bt/resume_storage.go:238-255 | for an extent inside the layout the interval test succeeds exactly when a read returns the full length |
| BtStorage.TorrentStorage.Locate | internal/download/bt/resume_storage.go:225-236 | the scan computes the lookup |
| BtStorage.TorrentStorage.ReadAt | internal/download/bt/resume_storage.go:150-189 | the loop fills the front of the buffer with the flat read, leaves the rest alone, and reports EOF exactly when short |
| BtStorage.TorrentStorage.WriteAt | internal/download/bt/resume_storage.go:191-223 | the loop performs the flat write and reports a short write exactly when some data is left |
| BtStorage.TorrentStorage.CheckExtent | internal/download/bt/resume_storage.go:238-255 | the scan decides the interval test |
| BtStorage.TorrentStorage.PieceReadAt | internal/download/bt/resume_storage.go:103-116 | a piece read is clipped to the piece; negative and too large offsets are refused |
| BtStorage.TorrentStorage.PieceWriteAt | internal/download/bt/resume_storage.go:118-123 | a write that would leave the piece writes nothing |
| BtStorage.TorrentStorage.Completion | internal/download/bt/resume_storage.go:125-137 | complete exactly when the index says so and the piece can be read back whole; a stale entry is cleared |
| FtpNames.SplitJoin | internal/download/ftp/ftp.go:208-224 | splitting joined slash-free components gives them back |
| FtpNames.JoinSplit | internal/download/ftp/ftp.go:208-224 | joining the components of a path gives the path |
| FtpNames.SafeFileNameIsSafe | internal/download/ftp/ftp.go:235-252 | the result has no separators, control characters, trailing dots or blanks, and is no device name |
| FtpNames.SafeFileNameFixes | internal/download/ftp/ftp.go:235-252 | a name is unchanged exactly when it is safe, so the function is idempotent |
| FtpNames.SafeFileNameKeeps | internal/download/ftp/ftp.go:235-252 | the result is the name with each unsafe character replaced by '_' and without its trailing dots and blanks, behind a '_' where that would name a device, and "download" where nothing is left |
| FtpNames.DeviceIff | internal/download/ftp/ftp.go:246-250 | the device names are con, prn, aux, nul, com1 to com9 and lpt1 to lpt9, in any case, whatever follows the first dot |
| FtpNames.AncestorIsBefore | internal/download/ftp/ftp.go:196 | a directory's path sorts before every path below it |
| FtpManifest.KeysAreFaithful | internal/download/ftp/ftp.go:215 | lower-cased joined paths are equal exactly when the folded components are |
| FtpManifest.AcceptedIff | internal/download/ftp/ftp.go:207-225 | a list is accepted from an empty map exactly when each path is usable and each entry is compatible with all that follow |
| FtpManifest.ListingIsSeparate | internal/download/ftp/ftp.go:136-198 | local paths of an accepted listing differ ignoring case and no file is an ancestor of another entry |
| FtpManifest.RevalidateIsTake | internal/download/ftp/ftp.go:350-358 | on safe paths the worker's validation is the listing's own test |
| FtpManifest.ValidatedIff | internal/download/ftp/ftp.go:350-358 | the worker accepts a manifest, whatever its strings, exactly when all components of its paths are safe names, none begins with the owner file's name, and each path is compatible with all that follow it |
| FtpManifest.SecondPassAccepts | internal/download/ftp/ftp.go:350-358 | the worker accepts every entry of an accepted listing, sorted by path, unchanged |
| FtpManifest.PathChecker.SafeRelativePath | internal/download/ftp/ftp.go:207-225 | the loop over the components returns the safe path and grows the map by it and its ancestors, or refuses |
| FtpManifest.PathChecker.Validate | internal/download/ftp/ftp.go:350-358 | the loop accepts exactly the manifests of ValidatedIff |
| FtpPublish.MarkerReadsBack | internal/download/ftp/ftp.go:513-518 | the marker line, read back and trimmed, is the digest that was written |
| FtpPublish.GainsRecover | internal/download/ftp/ftp.go:468-491 | any number of broken connections is made up for by one retry, as long as each brings something |
| FtpPublish.DialsRecoverIff | internal/download/ftp/ftp.go:468-491 | connections that cannot be dialled are made up for exactly up to maxRetries in a row |
| FtpPublish.PrefixGrows | internal/download/ftp/ftp.go:642-667 | remote bytes written anywhere inside a beginning of the remote file leave a beginning of it |
| FtpVisit.TransferStep | internal/download/ftp/ftp.go:583-690 | one transfer, whatever the connection and the disk do, a refused restart and a failed truncation included, touches the part alone, and a part that was a beginning of the remote file, at least as long as what is counted, stays one; on a working disk it counts exactly the bytes the connection brought and succeeds exactly when it was opened and its end confirmed |
| FtpVisit.FetchSteps | internal/download/ftp/ftp.go:468-497 | the retry loop touches the part alone and keeps it a beginning of the remote file; on a working disk it ends with the whole file exactly when the connections recover: one brings the rest and is confirmed, and before it never more than maxRetries fail in a row, counted from 1 again after one that brought bytes |
| FtpVisit.MatchingIsPublished | internal/download/ftp/ftp.go:508-519 | on recoverable paths the test for skipping a file holds exactly when its output is the remote file and its marker says so |
| FtpVisit.WriteMarkerStep | internal/download/ftp/ftp.go:521-538 | at every crash point the marker is absent, the old one or true of the output; success leaves it in place and no temporary file |
| FtpVisit.WriteMarkerFrame | internal/download/ftp/ftp.go:521-538 | the marker protocol leaves the outputs alone, and of the marker tree changes only the marker, its temporary file and missing directories above them |
| FtpVisit.PublishStep | internal/download/ftp/ftp.go:498-505 | from a whole part, success leaves the remote file as output with a true marker, and a failure or crash at any operation leaves the paths recoverable |
| FtpVisit.DownloadFrame | internal/download/ftp/ftp.go:440-506 | whatever happens, a visit touches its own output, part, marker and temporary marker only; success with a fetch leaves neither part nor temporary file |
| FtpVisit.DownloadStep | internal/download/ftp/ftp.go:440-506 | every outcome, a crash at any disk operation included, leaves recoverable paths; success means published; on a working disk the visit succeeds exactly when the file is published already or the connections recover from where its part stands |
| FtpRuns.VisitSound | internal/download/ftp/ftp.go:350-397 | without clashes, a visit to one entry keeps every other entry recoverable, and published if it was |
| FtpRuns.HistorySound | internal/download/ftp/ftp.go:350-397 | without clashes, every history of failed, crashed and cut runs leaves every entry recoverable |
| FtpRuns.NoClashSurvives | internal/download/ftp/ftp.go:350-397 | without clashes, after any history of runs over the manifest, an undisturbed one (working disk, and for each file connections that recover from where its part stands then) succeeds and leaves every directory made and every file published (the preparation before it is in FtpRoot) |
| FtpClash.EarlierFileIsTaken | internal/download/ftp/ftp.go:450-456 | an earlier entry at a file's part path: no first undisturbed run ends with both published |
| FtpClash.LaterFileIsTaken | internal/download/ftp/ftp.go:450-519 | a later entry of the same length at a file's part path: after one unread marker no undisturbed run repairs the file |
| FtpClash.DirClashFails | internal/download/ftp/ftp.go:365-378 | an entry that needs a directory at an empty file's part path: some history makes an undisturbed run fail |
| FtpClash.MarkerClashFails | internal/download/ftp/ftp.go:521-526 | a file below another file's marker path: no first undisturbed run succeeds |
| FtpClash.TempClashFails | internal/download/ftp/ftp.go:521-533 | a file below an empty file's temporary marker path: some history makes an undisturbed run fail |
| FtpClash.PublishesIff | internal/download/ftp/ftp.go:350-397 | an undisturbed run over the manifest publishes every entry, whatever the files contain and whatever runs over it came before, if and only if no part path is on another entry and no file lies below another file's marker or temporary marker |
| FtpClash.AcceptedIsApart | internal/download/ftp/ftp.go:207-225 | entries the validation accepts have different folded paths and none lies below a file |
| FtpClash.ManifestPublishesIff | internal/download/ftp/ftp.go:350-397 | the same if-and-only-if for every manifest the validation accepts |
| FtpClash.EarlierPartExample | internal/download/ftp/ftp.go:450-456 | the accepted listing "B.part", "b", in its sorted order: no first undisturbed run leaves both |
| FtpClash.LaterPartExample | internal/download/ftp/ftp.go:450-519 | the accepted listing "a", "a.part", with different bytes: it is not always published whole |
| FtpClash.MarkerExample | internal/download/ftp/ftp.go:521-526 | the accepted listing "a", "a.complete/b": no first undisturbed run ends well |
| FtpRoot.FirstPreparation | internal/download/ftp/ftp.go:400-415 | the first preparation of the directory leaves none, an owned one or a stranded one, according to which of its operations stops it and how much of the owner file was written |
| FtpRoot.LaterPreparation | internal/download/ftp/ftp.go:419-437 | a later preparation changes nothing and succeeds only on the task's own directory |
| FtpRoot.WorkingPreparation | internal/download/ftp/ftp.go:400-438 | where every operation works, the preparation succeeds exactly when the directory is missing or has the task's own owner file |
| FtpRoot.OwnerIsApart | internal/download/ftp/ftp.go:207-225 | no accepted entry and no part of one begins with the name of the owner file |
| FtpRoot.PublishesIffOpen | internal/download/ftp/ftp.go:330-438 | without clashes, after any history of runs, preparations included, crashes and new starts, an undisturbed run publishes every entry exactly when the task still loads and its directory is missing or its own |
| FtpRoot.ProcessPublishesIff | internal/download/ftp/ftp.go:330-438 | within one process, exactly when the first run that made the directory did not stop before the identifier was in the owner file |
| FtpRoot.StrandedExample | internal/download/ftp/ftp.go:403-436 | the owner file cannot be created once: no later run of the process publishes anything |
| FtpRoot.RestartIsPrepare | internal/core/model.go:74-119 | what a new start does to the directory in these histories is what the reservation of the task's output does |
| FtpRoot.RestartFrees | internal/core/model.go:74-119 | a new start moves a stranded task, and the next undisturbed run publishes every entry |
| FtpRoot.SecondStrandingStops | internal/core/model.go:93-95 | a task stranded in the directory it was moved to is refused for good |
| FtpRoot.TaskPublishesIff | internal/download/ftp/ftp.go:330-538 | after any history without a stranding run an undisturbed run publishes every entry, whatever the files contain, if and only if no part path is on another entry and no file lies below another file's marker or temporary marker |
| FtpRoot.AcceptedPublishesIff | internal/download/ftp/ftp.go:330-538 | the same for every manifest the validation accepts |
| FtpWorker.DirectoryWorker.CompletedFileMatches | internal/download/ftp/ftp.go:508-519 | the three disk operations in place compute the skip test, and use up as many operations |
| FtpWorker.DirectoryWorker.Transfer | internal/download/ftp/ftp.go:583-690 | opening, the loop over the reads and closing compute the transfer on the part |
| FtpWorker.DirectoryWorker.Fetch | internal/download/ftp/ftp.go:468-491 | the retry loop with its failure counter computes the fetch; on a working disk it ends with the whole file exactly when the connections recover |
| FtpWorker.DirectoryWorker.WriteCompletionMarker | internal/download/ftp/ftp.go:521-538 | the marker protocol in place, one operation after the other, computes its effect at every place it can stop |
| FtpWorker.DirectoryWorker.DownloadDirectoryFile | internal/download/ftp/ftp.go:440-506 | the whole visit in place computes the visit the theorems are about |
| FtpWorker.DirectoryWorker.RunDirectory | internal/download/ftp/ftp.go:350-397 | the loop over the manifest computes the run the theorems are about |
| FtpWorker.DirectoryWorker.PrepareRoot | internal/download/ftp/ftp.go:400-438 | the preparation in place, one operation after the other, computes the one the theorems are about |
| FtpWorker.DirectoryWorker.RunTask | internal/download/ftp/ftp.go:330-397 | preparation and loop in place compute a run of the task |
| RateLimiter.InRangeIff | internal/ratelimit/limiter.go:16-39 | through every run the allowance of a limited bucket lies between 0 and the rate, exactly when the first rate is not negative |
| RateLimiter.ChargedBound | internal/ratelimit/limiter.go:47-101 | bytes charged never exceed what was in the bucket plus the integral of the rate, under any rate changes |
| RateLimiter.ChargedSinceCreation | internal/ratelimit/limiter.go:16-101 | from creation on they never exceed the first rate plus the integral |
| RateLimiter.WindowBound | internal/ratelimit/limiter.go:47-101 | in any window at constant rate R they never exceed R + R * length |
| RateLimiter.WindowBoundIsTight | internal/ratelimit/limiter.go:47-101 | that many can be charged |
| RateLimiter.GrantedAfter | internal/ratelimit/limiter.go:53-80 | a refused request is granted d seconds later exactly when it is within the rate and d covers the deficit; the computed pause does |
| RateLimiter.RateChangeKeepsCredit | internal/ratelimit/limiter.go:24-39 | the credit earned up to a rate change is kept, up to the new rate: between two limits a request passes at once exactly when it would have passed before and is within the new rate; without a limit everything passes, and a limit set after that starts with nothing |
| RateLimiter.RefillTwice | internal/ratelimit/limiter.go:83-101 | refilling in two goes is refilling in one |
| RateLimiter.Limiter.RefillLocked | internal/ratelimit/limiter.go:83-101 | the in-place refill computes Refill |
| RateLimiter.Limiter.ChangeRate | internal/ratelimit/limiter.go:24-39 | the in-place rate change computes SetRate, whose effect is RateChangeKeepsCredit |
| RateLimiter.Limiter.Wait | internal/ratelimit/limiter.go:47-81 | undisturbed, a served call charges its bytes once, a cancelled one nothing; a request within the rate needs one sleep at most, one above it is never served |
| RateLimiter.WaitLimited | internal/download/ftp/ftp.go:692-708 | a read charged in pieces is served, and takes the time its bytes need at the rate |
| Installer.FailureRestores | scripts/update-portable.ps1:41-72 | on an installation where, as far as names can be copied, they mean different files and no directory, a throw at any step of any of them, with its copy half done, then the rollback, leaves everything as it was but for folders made on the way |
| Installer.RestoresIff | scripts/update-portable.ps1:41-72 | on any installation every failure is undone exactly when, as far as names can be copied, no two mean the same file and none is a directory |
| Installer.CopyableRestoresIff | scripts/update-portable.ps1:41-72 | where all names can be copied: exactly when they mean different files (separators alike, empty and "." components dropped, trailing dots and blanks dropped, letter case ignored) and none is a directory of the installation |
| Installer.RepeatIsNotUndone | scripts/update-portable.ps1:46-72 | two names for one file that can be copied: some throw is not undone |
| Installer.DirectoryIsNotUndone | scripts/update-portable.ps1:46-72 | a name that is a directory into which a copy can go: a throw half-way is not undone |
| Installer.DirectoryExample | scripts/update-portable.ps1:46-72 | a listed file "a", a directory "a" with a file "a" in it: that file is overwritten and not put back when the manifest's copy throws |
| Installer.SpellingsMeetIn | scripts/update-portable.ps1:33-72 | "bin/x" and "bin\x" pass the script's own tests and are such names |
| Installer.SuccessInstalls | scripts/update-portable.ps1:41-61 | success puts the archive's bytes at every listed name, or inside the directory of that name, and changes nothing else but for folders made on the way |
| Installer.SuccessIsWholeIff | scripts/update-portable.ps1:41-61 | success leaves the archive's file at every listed name exactly when none is a directory of the installation |
| Installer.AfterIsTree | scripts/update-portable.ps1:41-61 | the copies leave a file system: nothing comes to lie below a file |
| Installer.AcceptedIff | scripts/update-portable.ps1:31-39 | an entry is accepted exactly when its name begins neither with a separator nor with a drive and has no two dots in a row, the archive has the file, and its hash is the listed one ignoring case |
| Installer.Updater.CopyFile | scripts/update-portable.ps1:41-53 | the effect of one iteration, for every place it can throw; it throws by itself where a file blocks the folder or the copy meets a directory |
| Installer.Updater.CatchBlock | scripts/update-portable.ps1:62-72 | the loop in the catch block computes the rollback |
| Installer.Updater.Update | scripts/update-portable.ps1:26-72 | the script succeeds exactly when the archive is verified, every name can be copied and nothing throws; then listed files have the listed hashes, directories hold the copies, and all else is as it was but for folders; an unverified archive changes nothing; a failure, where no name repeats another or is a directory, leaves only folders behind |
| Dedupe.KeysDiffer | internal/download/http/dedupe.go:35-45 | no two candidates fold to the same path |
| Dedupe.Pigeonhole | internal/download/http/dedupe.go:19-27 | if the first n candidates are taken, at least n names are |
| Dedupe.ExtensionKept | internal/download/http/dedupe.go:35-45 | every candidate has the title's extension |
| Dedupe.CandidateShape | internal/download/http/dedupe.go:35-45 | the k-th candidate after the title is the title's base, or "download" where that is empty, then k in decimal in parentheses, then the title's extension |
| Dedupe.ExtIsFromLastDot | internal/download/http/dedupe.go:36 | the extension runs from the last dot of the last path element and is empty exactly when there is none |
| Dedupe.DeduplicateTitle | internal/download/http/dedupe.go:12-33 | the search ends on any finite set of tasks and files, within a stated number of candidates, at the first one that no task has ignoring case and at whose path and record path nothing is |

## Left out

- Event emission inside `Scheduler`: the channel is verified by itself in `Events`; the class methods do not carry it, and snapshots' order and content are not modelled.
- The scheduler's locks as objects: mutual exclusion is what makes a locked stretch one step, and `editMu`, `editSerialMu` and waiting for a worker are modelled by which steps are enabled.
- Goroutines sharing one HTTP download are interleaved as steps on values; only a single part's loop is a class.
- SchedulerQueue.StepConserves: Load is excluded, since the code schedules nothing after a load; an edit must not take away the slot use of a task that has an entry.
- SchedulerSteps.ExitKeeps: states the invariant alone; that the slot is handed on is part of StepConserves.
- SchedulerOutputs.GrantedOutputsDiffer: edits and reset tasks are taken to leave path, title and output name alone, and worker reports the state entries "directory" and "directoryOutputName".
- The difference between a nil and an empty state map, which `reflect.DeepEqual` sees when an edit is compared.
- HTTP without range support or with an unknown size: nothing is claimed about the content there.
- Whether the `.ghd` file is gone after success: the recording goroutine can race with its removal.
- BitTorrent: opening a torrent and trimming its files, synchronising, I/O errors other than a missing or short file, and the library's own bookkeeping.
- FTP files of unknown size, single-file FTP downloads, links, the directory walk itself, the size total and the limit on entries.
- FtpWorker.DirectoryWorker.Fetch: the retry loop ends because a run has finitely many connections before it is cancelled; a refused restart lowers the received count, so no bound on the connections is stated.
- Files that are in an FTP task's directories before its first run, their removal by Redownload, the sizes file systems give directories (counted as 0), and a power failure that loses writes the process had completed.
- HttpDownload.StepKeeps: a record write torn by a crash is not among its steps; HttpTorn adds it for the parts of a live download, not for the last record of a finished one.
- The zero value of `Limiter`, which nothing constructs; float rounding and the truncation of pauses to nanoseconds; other goroutines during one call of `Wait` (they are covered by the theorems about event sequences).
- Failures of the installer's own rollback copies, the removal of folders it made (it has none), and names that reach one file through short (8.3) names, alternate streams or links.
- Path cleaning in `Dedupe` and `Tasks`: a path is a directory and a name; symbolic links and absolute-path resolution are not modelled. Lookup errors other than absence count as presence.
- Case folding and upper-casing outside ASCII.
- Progress percentages, speeds, log and detail texts; sockets, TLS, proxies, JSON, SQLite and credential storage; the user interface, browser bridge, plugin host and update checker.
