# Verification of distbuild's concurrent core

This project models the concurrent core of distbuild, a distributed build system: the artifact and file
caches, the tar stream that copies artifacts between workers, the scheduler, the happens-before machine,
the client's upload barrier and the worker. It proves what they promise in every interleaving of their
calls. `dafny verify dfyconfig.toml` checks all of it.

## How it is organised

Two kinds of model stand side by side.

*Classes* (`ArtifactCache`, `KeyLocker`, `FileCache`, `ArtifactTransfer`, `TarStream`, `Scheduler`, `Worker`)
follow the methods of the source, loop by loop and field by field, as one goroutine runs them, and are
proved against specification functions.

*Machines* (`CacheMachine`, `PutMachine`, `SchedulerMachine`, `HappensBefore`, `UploadBarrier`,
`WorkerMachine`) let any number of goroutines interleave. One step is one access to shared state, so a
`Stat` and the table check after it, or a channel push and the map store after it, are separate steps. Each
machine has one inductive invariant; the theorems are about all states of all finite runs, or about all steps
from states that satisfy the invariant.

| files | subject |
|---|---|
| `Basics`, `Runs`, `ArtifactCell` | values; runs that grow; the critical sections on one identifier, shared by class and machine; the abstract entry |
| `ArtifactCache` | the cache's methods, with the errors their callers see |
| `CacheMachine`, `CacheProofs`, `CacheTheorems` | any number of `Get`, `Create`, `Remove`, `commit`, `abort`, `unlock` |
| `CacheOutcomes` | which step decides the outcome of a call, and that every call ends |
| `KeyLocker`, `FileCache` | the per-key lock; uploads and downloads of files |
| `PutMachine`, `PutProofs`, `PutTheorems` | any number of uploads, downloads and removals, on top of the cache machine |
| `PutRefusals`, `PutWitness`, `PutProgress` | what a refused upload has done; a run in which it has lost the old entry; why no upload is stuck |
| `PutAnswers`, `PutEnds` | what the answer of an upload means; that every upload ends |
| `TarStream`, `TarPaths` | `Send` and `Receive`; names that stay below the receiving directory, and names that do not |
| `ArtifactTransfer`, `ArtifactRuns` | `Download` from a remote handler, alone and in the midst of other calls |
| `SchedulerLog`, `Scheduler` | the history of calls and what follows from it; the scheduler class |
| `SchedulerMachine`, `SchedulerProofs`, `SchedulerTheorems` | builders and heartbeats interleaved: order, records, picks |
| `SchedulerCalls`, `SchedulerSlots` | what each call says to the scheduler, and that it ends; how many jobs a heartbeat is given |
| `SchedulerHolders`, `SchedulerProgress` | holders that lag behind completions; full queues and who can empty them |
| `HappensBefore`, `HappensTheorems`, `HappensEntry`, `HappensOverflow` | counter and channel of one key, for interleaved calls and for one at a time; a run in which the counter wraps around |
| `UploadBarrier` | the fan-out of `Build` |
| `Worker` | result cache, pending results, `downloadArtifacts`, `executeJob`, `runJob` |
| `WorkerMachine`, `WorkerProofs`, `WorkerSessions`, `WorkerTheorems` | rounds of concurrent jobs on the cache machine |
| `WorkerReports`, `WorkerEnds` | what a job reports, and why; that every job ends |
| `WorkerLocks`, `WorkerWitness` | the locks that survive a job; a run in which some do |

## Results worth knowing

- `writeLock` looks at the directory before it looks at the tables, and renames happen outside the mutex.
  That is safe: the tables cannot change between the two looks, so every answer is the one the abstract entry
  dictates at the moment of `Stat` (`WriteAnswersLinearize`), and no rename meets a target (`CommitPublishes`).
- The `goto start` of `handlePut`, marked as one-shot in the source, is one-shot (`RetryIsOneShot`). With
  uploads the only writers, a refused upload has lost the entry it met exactly if it has retried
  (`RefusalLosesEntryIff`), and that happens: `RefusedAfterRetry` is such a run.
- `Finished` is closed before the holder of the artifact is recorded, under another mutex. So a job can be
  finished while `LocateArtifact` knows no holder (`FinishedWithoutHolder`), exactly as long as all its
  completions have yet to be recorded (`LastFourHolders`). The coordinator panics on that answer
  (pkg/dist/build_service.go:104-113).
- A builder blocked on a full queue keeps `jobsMu`. It is blocked exactly if the queue was full when it
  entered and nothing was picked since (`PushEnabledIff`, `BuildersBlockIff`), and the calls that have started
  can free it exactly if one of them is a heartbeat that has nothing left to report and is not over (`FreedIff`):
  it waits for its first job, still tries for more, or has its last holder to record. A heartbeat reports its
  finished jobs before it picks, and needs that mutex for it. `ReportAndPushDeadlock` is a run in which nothing moves any more.
- The happens-before machine relies on a 32-bit counter. `ClosesIff` gives the exact surplus of `Happen`s
  (2^32) at which it closes a channel that nobody waits on; `ClosesUnwaited` is a run that gets there.
- Apart from filling and deleting directories, every call of the cache, every upload, every job and every call of
  the scheduler is over after a number of its own steps that is fixed when it starts, whatever the others do
  (`CallEnds`, `UploadEnds`, `JobEnds`, `BuilderHeard`, `ReportsHeard`); the progress theorems say who can take
  the next step, and `StuckIff` when nobody can.
- `Receive` joins the names of a stream to its directory without looking at them. `StaysInsideIff` says
  exactly which names leave everything outside of the directory alone; `LeadsOut` is a stream that does not.
  It opens files without truncating them: `ReplayedFile` says what a file holds that a stream names twice.
  Streams made by `Send` always stay inside.
- An upload goroutine that fails sends two messages. After an early return from the receiving loop some
  goroutine stays blocked exactly if more uploads have failed than messages were received (`SendersLeftIff`);
  `SenderLeft` is a run in which one does.
- The panic of `executeJob` on a missing dependency is unreachable under the coordinator's discipline
  (`NeverPanics`), and `Worker.ExecuteJob` states exactly when it is taken without it.
- When a command fails, `executeJob` returns without releasing the read locks on the dependencies.
  `LocksSurviveIff` says that a job keeps all of them if a command failed and none otherwise,
  `FailureKeepsReaders` that they are never released, and `FailureLeavesReader` is a run with such a lock.
- `downloadArtifacts` defers its report with the list as it is at the start, so downloaded artifacts are never
  announced: `Worker.DownloadArtifacts` leaves `addedArtifacts` as it was.
- pkg/artifact/README.md:40 shows `cache.Commit(ctx, id)`. There is no such method; `Create` returns `commit`
  and `abort` as functions, and the model follows the code.

## Discipline assumed

Each successful `Create` is followed by exactly one commit or abort, and each `unlock` is called once
(pkg/artifact/README.md:11-14). `KeyLocker.Unlock` is called by the holder. `Before` does not run concurrently
with itself on one key. Nothing is called after `Stop`. File-system calls fail only because of what exists or
does not; copying a body, the network and commands may fail at any time. Identifiers are opaque, and different
identifiers have different paths. In the worker's machine nobody removes artifacts, no context is cancelled,
heartbeats succeed, a download writes into its own directory only, as every stream made by `Send` makes it do,
and every dependency of an assigned job is among its artifacts or committed already.

## Model

| member | source | states |
|---|---|---|
| ArtifactCache.Cache.ReadLock | pkg/artifact/cache.go:60-70 | refused exactly under a write lock; counts the reader otherwise |
| ArtifactCache.Cache.ReadUnlock | pkg/artifact/cache.go:72-80 | one reader less, and no zero entry is left in the table |
| ArtifactCache.Cache.WriteLock | pkg/artifact/cache.go:82-102 | a directory answers `Exists` whatever the locks; otherwise a writer goes before readers, and only a free entry is locked |
| ArtifactCache.Cache.WriteUnlock | pkg/artifact/cache.go:104-109 | the write lock of this identifier, and no other, is gone |
| ArtifactCache.Cache.Remove | pkg/artifact/cache.go:138-145 | refused exactly by a creator or by readers; on success the entry is gone, on error nothing changed |
| ArtifactCache.Cache.Create | pkg/artifact/cache.go:147-156 | `Exists` exactly if the entry is there, whatever the locks; of an absent one, refused exactly by a creator or by readers; on success the caller owns an empty directory and the write lock |
| ArtifactCache.Cache.Commit | pkg/artifact/cache.go:163-166 | always succeeds, publishes exactly what was filled and frees the entry |
| ArtifactCache.Cache.Abort | pkg/artifact/cache.go:158-161 | leaves no trace of the entry |
| ArtifactCache.Cache.Get | pkg/artifact/cache.go:171-190 | succeeds exactly on an entry that is there, `WriteLocked` exactly while it is being created, `NotFound` otherwise; a failed call leaves no lock behind |
| ArtifactCache.Cache.Unlock | pkg/artifact/cache.go:186-188 | gives back one read lock |
| CacheProofs.StepInv | pkg/artifact/cache.go:60-190 | every step of any session keeps the invariant on mutex, tables, directories and program points |
| CacheTheorems.RunInv | pkg/artifact/cache.go:60-190 | the invariant holds in every state of every run |
| CacheTheorems.ReadersXorWriter | pkg/artifact/cache.go:60-109 | the read count is the number of open readers; at most one writer, and never both |
| CacheTheorems.CommitPublishes | pkg/artifact/cache.go:147-169 | between `Create` and its own commit the destination is absent, so the rename publishes the filled directory |
| CacheTheorems.CreateStartsEmpty | pkg/artifact/cache.go:147-156 | an admitted `Create` starts from an empty directory |
| CacheTheorems.TmpHasOwner | pkg/artifact/cache.go:147-169 | `tmp/<id>` exists only while a session holds the write lock |
| CacheTheorems.ReaderSnapshot | pkg/artifact/cache.go:171-190 | from a successful `Get` to its unlock the contents neither change nor disappear, whatever others do |
| CacheTheorems.RefinesEntries | pkg/artifact/cache.go:60-190 | every step is a move of the abstract entry: a readers-writer lock, and contents that change under its write side |
| CacheTheorems.WriteAnswersLinearize | pkg/artifact/cache.go:82-102 | the answer of `Create` and `Remove` is the one the entry dictates at the moment of `Stat` |
| CacheTheorems.WriteAnswers | pkg/artifact/cache.go:82-102 | the same in terms of directory and holders: a `Create` whose `Stat` met a directory ends with `Exists` whatever the locks; otherwise a writer goes before the readers |
| CacheTheorems.ReadAnswers | pkg/artifact/cache.go:60-70 | `Get` fails exactly on a write lock at its first step or an absent directory at its second |
| CacheTheorems.SoloCreate | pkg/artifact/cache.go:147-156 | the machine's `Create`, run alone, gives the answer and the entry of the class method |
| CacheTheorems.SoloGet | pkg/artifact/cache.go:171-190 | the machine's `Get`, run alone, gives the answer and the entry of the class method |
| CacheTheorems.NeverStuck | pkg/artifact/cache.go:60-190 | an unfinished session, or the holder of the mutex it waits for, can always move |
| CacheOutcomes.OutcomeIff | pkg/artifact/cache.go:60-190 | in every run, a call that is over has an outcome exactly if one of its own steps has decided it: a commit, an abort, a write lock taken to remove, an unlock, or what it met of locks and directories |
| CacheOutcomes.OwnerMayChoose | pkg/artifact/cache.go:147-190 | whoever `Create` lets in may fill, commit or abort, and an abort takes the directory apart path by path; a reader may unlock whenever the mutex is free |
| CacheOutcomes.CallEnds | pkg/artifact/cache.go:60-190 | a call takes seven steps at most, apart from filling and from deleting single paths, and after seven it is over |
| KeyLocker.Locker.Lock | pkg/concurrency/key_lock.go:17-27 | afterwards this key is held, and the other keys are as they were |
| KeyLocker.Locker.Unlock | pkg/concurrency/key_lock.go:29-39 | frees this key only; on an unknown key it returns with the mutex still held |
| FileCache.WriteBody | pkg/filecache/handler.go:124-150 | stores the whole body, or nothing after a failed copy |
| FileCache.Admit | pkg/filecache/handler.go:107-122 | the retry loop ends after at most one retry and is refused exactly by a lock |
| FileCache.PutLocked | pkg/filecache/handler.go:103-153 | the result in terms of the old entry: refused without a change, or stored, or failed with no entry left |
| FileCache.HandlePut | pkg/filecache/handler.go:103-153 | stored, or broken off, exactly if the entry was free and by whether the copy was complete; refused exactly by a creator or by readers, and then without a change; the key lock is given back |
| FileCache.HandleGet | pkg/filecache/handler.go:67-101 | answers the contents of the one file of a present entry, whoever else reads it, and an error otherwise; leaves every entry as it was |
| FileCache.GetWhileReading | pkg/filecache/handler.go:67-101 | a download while others read answers what a download alone does |
| FileCache.PutThenGet | pkg/filecache/handler.go:67-153 | a download after a successful upload answers the uploaded body |
| PutProofs.NextInv | pkg/filecache/handler.go:67-153 | every step of uploads, downloads and removals keeps key locks, sessions and contents consistent |
| PutTheorems.RetryIsOneShot | pkg/filecache/handler.go:122 | the retry is taken at most once per upload, in every run |
| PutTheorems.ImpossibleResults | pkg/filecache/handler.go:110-150 | no upload ends because its entry exists, is missing, or cannot be renamed into place |
| PutTheorems.WhyRefused | pkg/filecache/handler.go:107-140 | a refused upload met a reader or a remover of its own identifier at that moment, and no other upload |
| PutRefusals.OnlyDownloadsRefuse | pkg/filecache/handler.go:103-153 | in every run in which uploads are the only writers, an upload stores its body, fails to copy it, or meets a download's read lock |
| PutTheorems.RefusalAfterRetryLosesEntry | pkg/filecache/handler.go:112-122 | when an upload is refused after its retry, its entry is absent |
| PutRefusals.RefusedUntouched | pkg/filecache/handler.go:107-140 | no step of an upload that is refused without a retry changes its entry |
| PutRefusals.RefusalLosesEntryIff | pkg/filecache/handler.go:107-140 | a refused upload has changed the entry it met exactly if it has retried, and then its own removal has emptied it |
| PutWitness.RefusedAfterRetry | pkg/filecache/handler.go:112-140 | a run in which an upload removes the entry, meets a download and leaves nothing |
| PutTheorems.ReadersSeeOneBody | pkg/filecache/filecache.go:64-104 | a reader sees the complete body of one single upload, or what was there at the start |
| PutTheorems.KeyExcludes | pkg/concurrency/key_lock.go:17-39 | two uploads of one identifier are never both past the key lock |
| PutTheorems.ReleaseNeverBlocks | pkg/concurrency/key_lock.go:29-39 | releasing a key neither blocks nor takes the early return |
| PutProgress.UploadProgress | pkg/filecache/handler.go:103-153 | in every run an unfinished upload can step, or the upload that holds its key can, or the holder of the cache's mutex can; a free slot can be taken at once |
| PutAnswers.AnswerIff | pkg/filecache/handler.go:103-153 | in every run, an upload answers `Stored` exactly if a step of it has published its whole body where nothing was, an internal error exactly if its copy broke off, and an error of the cache exactly if the cache has given it that error |
| PutAnswers.NothingAppears | pkg/filecache/handler.go:126-145 | no step of an upload that does not answer `Stored` has made anything visible |
| PutEnds.CopyMayEnd | pkg/filecache/handler.go:124-150 | while it copies, an upload may write any more of the body, may break off, and may close exactly if all is written |
| PutEnds.UploadEnds | pkg/filecache/handler.go:103-153 | an upload takes 22 steps at most, retry included, apart from writing its body and deleting single paths, and after 22 it is over |
| TarStream.Send | pkg/tarstream/stream.go:11-63 | each read at its own moment, the entries list every path of a directory that holds still once, faithfully, and after its parent |
| TarStream.Walk | pkg/tarstream/stream.go:14-56 | the same for the part below one directory, in any order of siblings |
| TarStream.Receive | pkg/tarstream/stream.go:66-100 | in any file system and for any names: succeeds exactly if the stream ends well and every entry, its name joined to the directory, can be replayed |
| TarStream.ReceivableIff | pkg/tarstream/stream.go:69-99 | which sequences of entries can be replayed from nothing: a condition on the entries alone |
| TarStream.ReplayedFile | pkg/tarstream/stream.go:84-97 | a file that a stream names several times has the mode of the first entry, and each byte of the last entry that is long enough |
| TarPaths.ReceivedIff | pkg/tarstream/stream.go:66-100 | into an empty directory a stream that stays inside is received exactly if its entries are admissible |
| TarPaths.JoinClean | pkg/tarstream/stream.go:77 | joining a clean name appends it |
| TarPaths.JoinReduces | pkg/tarstream/stream.go:77 | empty components and dots change nothing, double dots undo the clean component before them, and nothing at the root |
| TarPaths.ReplayInside | pkg/tarstream/stream.go:66-100 | a stream that stays inside changes nothing outside of its directory, and the directory as its own replay says |
| TarPaths.StaysInsideIff | pkg/tarstream/stream.go:77-97 | an entry leaves everything outside alone, in every file system, exactly if its joined name leads below the directory, to it, or to one above it |
| TarPaths.LeadsOut | pkg/tarstream/stream.go:77-97 | a stream with double dots that creates a file in another directory |
| TarStream.RoundTrip | pkg/tarstream/stream.go:11-100 | replaying a listing of a directory rebuilds paths, kinds, modes and contents |
| TarPaths.SendThenReceive | pkg/tarstream/stream.go:11-100 | sending and receiving into an empty directory of any file system never fails, yields an equal directory and touches nothing else |
| ArtifactTransfer.Serve | pkg/artifact/handler.go:44-66 | 500 while the artifact is being created, 404 if it is absent, otherwise a whole stream that lists it; the read lock is given back |
| ArtifactTransfer.Download | pkg/artifact/client.go:16-51 | if no name leads out: succeeds exactly for a receivable answer and a free absent entry, and on failure nothing changed; in any case locks are balanced |
| ArtifactTransfer.Transfer | pkg/artifact/client.go:16-51 | with nobody else at work, a completed transfer leaves the remote directory in the local cache |
| ArtifactRuns.SendDuring | pkg/artifact/handler.go:44-60 | whatever others do, the stream lists the directory that `Get` found |
| ArtifactRuns.ReceiveDuring | pkg/tarstream/stream.go:69-99 | whatever others do, the entries received one by one make the directory of their replay |
| ArtifactRuns.TransferDuring | pkg/artifact/client.go:36-48 | whatever others do, the commit publishes the tree that the sender found at its read lock |
| ArtifactRuns.FailureInvisible | pkg/artifact/client.go:36-44 | no step of a download that gives up changes a visible entry |
| ArtifactRuns.FailureLeavesNothing | pkg/artifact/client.go:41-44 | its entry is absent throughout, and without lock or directory when it is over |
| SchedulerLog.FirstResultIsFirst | pkg/scheduler/scheduler.go:108-111 | the result of a job is that of its first completion |
| SchedulerLog.EnqueuedOnce | pkg/scheduler/scheduler.go:134-146 | an identifier enters the queue once at most |
| SchedulerLog.EnqueuedIff | pkg/scheduler/scheduler.go:134-146 | it enters exactly if its first mention is a scheduling, so never after an early completion |
| SchedulerLog.SlideKeepsLastFour | pkg/scheduler/scheduler.go:116-121 | testing for the length five suffices to keep the last four |
| Scheduler.PendingJob.Finish | pkg/scheduler/scheduler.go:108-111 | only the first completion sets the result and closes the channel |
| Scheduler.Scheduler.ScheduleJob | pkg/scheduler/scheduler.go:130-152 | a known job keeps its record, a new one is queued last |
| Scheduler.Scheduler.PickJob | pkg/scheduler/scheduler.go:154-165 | the oldest queued record, or nil if cancelled |
| Scheduler.Scheduler.TryPickJob | pkg/scheduler/scheduler.go:167-183 | the oldest queued record; nil with true on a cancelled context, nil with false only on an empty queue |
| Scheduler.Scheduler.OnJobComplete | pkg/scheduler/scheduler.go:85-126 | reports whether the job was known, finishes its record, and keeps all others |
| Scheduler.Scheduler.LocateArtifact | pkg/scheduler/scheduler.go:65-83 | with calls one after the other: names one of the last four completing workers, exactly if there is one |
| SchedulerProofs.MoveInv | pkg/scheduler/scheduler.go:65-183 | every step keeps mutex, map, records, queue, holders and answers in line with the history |
| SchedulerTheorems.FirstInFirstOut | pkg/scheduler/queue.go:7-19 | picked, queued and about to be pushed jobs are the first schedulings, in order, each once, within the capacity |
| SchedulerTheorems.PickedOnce | pkg/dist/heartbeat_service.go:52-71 | each picked record is in the list of exactly one heartbeat, once; nothing else is in the lists, and their lengths add up to the number of picks |
| SchedulerSlots.SlotsFilled | pkg/dist/heartbeat_service.go:52-71 | in every run a heartbeat with n slots is given n jobs at most, and one at least; it is over with fewer only after it has found the queue empty four times for each slot left open |
| SchedulerCalls.ReportsHeard | pkg/dist/heartbeat_service.go:31-71 | a heartbeat makes all its reports, in order and each once, to the records and to the holders, before it looks for jobs; it ends after a number of steps that its reports and slots fix |
| SchedulerCalls.BuilderHeard | pkg/scheduler/scheduler.go:130-152 | a `ScheduleJob` is logged exactly once and is over after three steps |
| SchedulerTheorems.OneRecordPerJob | pkg/scheduler/scheduler.go:85-152 | one record per job for the whole run; its result is the first completion's and never changes |
| SchedulerTheorems.PickedIsFound | pkg/scheduler/scheduler.go:85-150 | a record picked before it was stored is still the one its completion finds and `ScheduleJob` returns |
| SchedulerProgress.PushEnabledIff | pkg/scheduler/scheduler.go:134-149 | a builder can push exactly if there was room when it entered or something was picked since |
| SchedulerProgress.BuildersBlockIff | pkg/scheduler/scheduler.go:134-149 | in a run a builder blocks exactly if some new job enters with the queue full |
| SchedulerProgress.HolderBlockedIff | pkg/scheduler/scheduler.go:134-149 | calls that wait for the mutex are stuck behind its holder exactly if it entered with the queue full and nothing was picked since |
| SchedulerProgress.FreedIff | pkg/dist/heartbeat_service.go:31-71 | the started calls can free a blocked builder exactly if one of them is a heartbeat with nothing left to report that is not over |
| SchedulerProgress.StuckIff | pkg/dist/heartbeat_service.go:31-71 | when no started call can move, in terms of a blocked holder of the mutex |
| SchedulerProgress.ReportAndPushDeadlock | pkg/dist/heartbeat_service.go:31-52 | a run in which a full queue and the report of a job that was picked block each other |
| SchedulerHolders.LastFourHolders | pkg/scheduler/scheduler.go:102-123 | the holders are the last four recorded; all completions are recorded but those between the two mutexes, so a finished job has no holder exactly while all its completions are there |
| SchedulerHolders.HoldersCatchUp | pkg/scheduler/scheduler.go:114-123 | once none is there, the recorded holders are the completing workers, each as often |
| SchedulerHolders.FinishedWithoutHolder | pkg/scheduler/scheduler.go:108-123 | a run in which a picked job is finished and has no holder |
| HappensBefore.Int32Adds | pkg/concurrency/hb.go:55-63 | wrapping at each atomic addition or once at the end is the same |
| HappensBefore.Int32Exact | pkg/concurrency/hb.go:55-63 | for which surpluses the counter reads `nothing` or `waiting` |
| HappensBefore.StepInv | pkg/concurrency/hb.go:28-67 | every step keeps counter, channel and the pending closer in line |
| HappensTheorems.ReturnsAfterEvents | pkg/concurrency/hb.go:51-67 | the k-th return of `Before` comes after at least k events |
| HappensTheorems.NoDoubleClose | pkg/concurrency/hb.go:55-57 | a closer closes the open channel the waiter is on, and there is no other closer |
| HappensTheorems.NoLostWakeUp | pkg/concurrency/hb.go:51-67 | a waiter whose count has been raised can go on, or its closer can |
| HappensTheorems.BlocksOnlyAhead | pkg/concurrency/hb.go:60-66 | `Before` blocks only ahead of the counted events or of its pending closer |
| HappensTheorems.RefinesSemaphore | pkg/concurrency/hb.go:51-67 | every step is a silent step, a release after an event, or an acquisition of a permit that is there |
| HappensTheorems.ReturnsAtOnce | pkg/concurrency/hb.go:60-67 | from every reachable state, a `Before` that an event waits for returns with its first step |
| HappensTheorems.WaitsAndWakes | pkg/concurrency/hb.go:51-67 | otherwise it blocks, the next `Happen` wakes it, and it leaves a new open channel |
| HappensTheorems.ClosesIff | pkg/concurrency/hb.go:55-57 | an addition leads to a close exactly if a waiter needs waking or the surplus reaches 2^32 |
| HappensOverflow.ClosesUnwaited | pkg/concurrency/hb.go:55-57 | a run of 2^32 events without a `Before` after which the channel of the next waiter is closed |
| HappensEntry.Entry.Happen | pkg/concurrency/hb.go:51-58 | closes the channel of the `Before` that waits for this event; at a surplus of 2^32 it closes a channel in vain, or panics if a `Before` has still to return |
| HappensEntry.Entry.StartBefore | pkg/concurrency/hb.go:60-63 | has to wait exactly if there is no event to use up |
| HappensEntry.Entry.FinishBefore | pkg/concurrency/hb.go:64-65 | returns once its event has happened, and leaves an open channel |
| UploadBarrier.StepInv | pkg/client/build.go:66-120 | every step keeps the traffic of the channel in line with the goroutines |
| UploadBarrier.SignalMeansUploaded | pkg/client/build.go:94-120 | the build is signalled only if every missing file has been uploaded |
| UploadBarrier.FailureMeansError | pkg/client/build.go:107-111 | giving up while collecting means that an upload failed |
| UploadBarrier.FailedMeansMissing | pkg/client/build.go:66-111 | in every state, a build that has been given up has a file that is not uploaded |
| UploadBarrier.SignalledIff | pkg/client/build.go:66-120 | when nothing moves any more, the build has been signalled exactly if every file was launched and uploaded, and given up otherwise |
| UploadBarrier.GivenUpAt | pkg/client/build.go:67-93 | any file may turn out to be missing or irregular, and the build is given up there |
| UploadBarrier.ReceivesNeverDeadlock | pkg/client/build.go:107-111 | the receives never wait for a message that nobody will send |
| UploadBarrier.StepsUseUpWork | pkg/client/build.go:66-120 | every step uses up work, so the fan-out ends |
| UploadBarrier.CollectErrors | pkg/client/build.go:107-111 | the loop stops at the first error and otherwise receives one nil per file |
| UploadBarrier.SendersLeftIff | pkg/client/build.go:94-111 | after a failure, exactly when goroutines stay blocked on the full channel |
| UploadBarrier.SenderLeft | pkg/client/build.go:94-111 | a run of two failing uploads after which a goroutine is blocked and nothing moves |
| Worker.RunCommands | pkg/worker/execute.go:56-81 | stops at the first failing command, reports its code, and the outputs of those before it; without a failure the code of the last command |
| Worker.StdoutJoins | pkg/worker/execute.go:56-81 | outputs are joined in the order of the commands |
| Worker.ExecuteJob | pkg/worker/execute.go:16-93 | exactly when it panics, succeeds or fails, and what happens to the entry and to the read locks in each case |
| Worker.DownloadArtifacts | pkg/worker/download.go:47-81 | if no answer leads out: succeeds exactly if each artifact is present or can be downloaded; in any case reports no artifact |
| Worker.CanFetchIff | pkg/worker/download.go:47-81 | a present artifact is accepted whoever reads it; an absent one exactly if nobody makes or reads it and the answer can be received |
| Worker.Worker.RunJob | pkg/worker/worker.go:145-193 | one result with the job's identifier is reported; a cached one is what the cache holds, and unless an answer leads out: exactly when it panics or succeeds, exactly the successes are cached, and a cached result stands for a present artifact |
| WorkerProofs.NextInv | pkg/worker/worker.go:103-193 | every step of heartbeats, jobs and guests keeps the worker's invariant |
| WorkerTheorems.NeverPanics | pkg/worker/execute.go:46-54 | the panic on a missing dependency is unreachable in every run |
| WorkerEnds.PanicIff | pkg/worker/execute.go:46-54 | in any state, the step that panics is the one whose dependency is missing or locked for writing |
| WorkerTheorems.CommittedStays | pkg/worker/download.go:47-81 | a committed artifact is never write-locked again and never changes |
| WorkerTheorems.ResultCacheAgrees | pkg/worker/worker.go:160-192 | a cached result has its key's identifier, no error, and a committed artifact |
| WorkerTheorems.SuccessAtMostOnce | pkg/worker/worker.go:160-192 | an identifier is executed to success at most once per run |
| WorkerTheorems.ResultsStay | pkg/worker/worker.go:160-192 | a stored result never changes |
| WorkerTheorems.HeartbeatsConserve | pkg/worker/worker.go:106-158 | each heartbeat's results are a permutation of the identifiers assigned by the previous answer |
| WorkerTheorems.HistoryStays | pkg/worker/state.go:31-64 | no report and no assignment is lost or changed later |
| WorkerReports.ExitDecides | pkg/worker/worker.go:179-192 | in every run, a job whose commands have ended reports their exit code, without an error exactly if they succeeded, and then this result is the one in the result cache |
| WorkerReports.HitDecides | pkg/worker/worker.go:160-164 | a job that found a cached result reports exactly that |
| WorkerReports.RefusalDecides | pkg/worker/worker.go:168-192 | any other job was refused by the network or by the artifact cache, and reports an error |
| WorkerReports.HeartbeatsTell | pkg/worker/worker.go:106-158 | the results in a heartbeat are the ones its jobs are reported with |
| WorkerTheorems.LocksAfterReport | pkg/worker/execute.go:56-92 | a job that has reported holds no write lock, and as read locks exactly those it has kept |
| WorkerLocks.LocksSurviveIff | pkg/worker/execute.go:56-92 | it has kept one on each dependency if a command failed, and none otherwise |
| WorkerWitness.FailureLeavesReader | pkg/worker/execute.go:63-77 | a run in which a failed job leaves its dependency locked for reading |
| WorkerTheorems.FailureKeepsReaders | pkg/worker/execute.go:63-77 | those read locks are never released, and the dependency can no longer be removed |
| WorkerTheorems.RoundProgress | pkg/worker/worker.go:128-141 | a job that has not reported can move, or the holder of the cache's mutex can |
| WorkerEnds.WorldMayAnswer | pkg/worker/worker.go:145-193 | at each point of `runJob` the network, the commands and the copy may end either way, and the artifacts left may be fetched in any order |
| WorkerEnds.JobEnds | pkg/worker/worker.go:145-193 | a job takes eleven steps for each artifact, four for each dependency and thirteen more at most, apart from filling and deleting, and then it has reported |

## Left out

- HTTP, JSON, logging, metrics, status streams and mocks: plumbing.
- The coordinator beyond the order of calls in a heartbeat and the removals of source files.
- The rest of `NewCache` and `Range` (pkg/artifact/cache.go:30-58, 111-136): the model starts from an empty `tmp` and any `c`.
- `convertErr` (pkg/filecache/filecache.go:22-35): it renames the four errors one for one, so the model uses one set of names.
- The followers of `singleflight` in `handleGet`: only the leader writes a body, and only the leader is modelled.
- Failure of `os.Create` in `filecache.Write`, and a close or commit that fails and is then aborted: outside the discipline.
- The byte format of tar, symbolic links, special files, directory modes and the umask: the stream is a sequence of entries.
- TarStream.Send: does not fix the lexical order of siblings; any order of reading a directory is allowed, which covers it.
- The maps of the happens-before machine: keys share nothing but the mutex of `create`, so one key is modelled.
- ArtifactTransfer.Transfer: does not model interleaving within one transfer; `ArtifactRuns` does.
- ArtifactTransfer.Download: does not say what a stream whose names lead out does to the rest of the file system; `TarStream.Receive` does.
- Worker.DownloadArtifacts: says nothing of the directories once an answer leads out of its own, since `Download` does not.
- Cancelled contexts in heartbeats, which give up the records taken so far, and `LocateArtifact` among other calls: the machine of the scheduler does without them, its class has both calls.
- Worker.Worker.RunJob: does not model other goroutines, which `WorkerMachine` does, nor what becomes of a job whose answers lead out.
- The result map and the pending results as objects of their own: their methods are one assignment each, and `pull` is part of the machine's heartbeat; what callers get from them is in `ResultsStay` and `HeartbeatsConserve`.
- The file cache inside the worker's machine: fetching and linking source files is one arbitrary answer.
- `downloadFiles` (pkg/worker/download.go:15-45): the same loop as `downloadArtifacts`, over the file cache.
- Command execution, standard error output and shared source directories: a command is an arbitrary outcome.
- Cancelled contexts in `addArtifacts` and `addJobResult`, which drop their argument.
- The planned local queues of the scheduler, which the source does not implement.
