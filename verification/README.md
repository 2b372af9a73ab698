# Long-running operations: a verified model

This project models, in Dafny, the long-running-operation framework of the
virtualization panel and the crash and retry protocols built on it, and proves
what they promise.

- **The shared world** (`Records`, `Leases`, `Claims`, `Jobs`, `Workers`,
  `Worlds`, `WorldProofs`, `WorldTheorems`, `WorldNodes`,
  `WorldScenarios`). The database rows of jobs, claims and the worker's lease are
  the fields of one class; every transaction is a method proved equal to a
  function on the tables, and against what it does to the columns. `Worlds` is
  the machine over those functions: 25 kinds of events, among them the death of
  a process, a commit whose answer is lost, a client's retry, a takeover and the
  clock.
  `WorldProofs` has one lemma an event; `WorldTheorems` and `WorldNodes` hold for
  every run from an empty database; `WorldScenarios` is one run through a crash.
- **Reconcile order** (`Listings`): many reconciles and VM-changing jobs over
  that machine.
- **Recovery scheduler and control threads** (`Recovery`), **job slots**
  (`Slots`).
- **The lock of the connection pool** (`ReadWriteLocks`, `LockMonitor`,
  `LockOrders`): each stretch between two `wait()` calls is one step; the monitor
  keeps who sleeps and who is notified; `LockOrders` tells from outside who is
  granted what, and that writers take turns.
- **Chunked upload** (`UploadTargets`, `UploadTrails`, `Uploads`), **live
  clone** (`LiveClones`), **VM delete** (`BackingChains`, `DeletePasses`,
  `DeleteVms`). Each call to libvirt, the file system or the database may work,
  fail before or after its effect, or be the last of its process, before or
  after its effect.
- **Ownership and reconcile** (`Ownership`, `OwnershipRuns`, `Reconciles`),
  **quota** (`Usages`, `Quotas`), the latter against a worker that records clones between
  any two reads of the check.

- **Shared** (`Wrappers`, `Faults`, `Sets`): options and results, how a call may
  end, cardinalities.

`dafny verify dfyconfig.toml` checks the whole project.

Assumptions: the clock does not run back; a job's UUID and a process's identity
are not used again; the advisory-lock hash is injective; on one node the lock
file lets one worker run at a time, and a holder is seen as gone only once it
is; a block ends before its claims' life does; a retry of a chunk sends the same bytes, and committed bytes are durable;
nobody outside the panel makes a volume at a name a job holds the claim on, or
changes the volumes and files a job made. That an upload's requests run one at
a time, and a job's recovery never beside its thread, is not assumed: see
`UploadRequestsTakeTurns` and `RecoveryRunsAlone`.

## What is not as documented

Each of these is a lemma with a concrete case, beside the exact condition
under which the property holds.

- *A retried upload may keep a file that is not its own.* The part file is
  deleted because the name is taken; the process dies before it fails the job;
  the retry finds no part file and a file of that name, and succeeds
  (`RetryTakesForeignImage`, and `ForeignImageSucceeds` as a whole history). An
  upload that succeeded has its own image, and so every byte the client sent,
  exactly when in no step of its history the complete part file went while
  another's file had the name (`SuccessIsOursIff`, `Upload.Serve`); a completion
  does that exactly when finalization finds another's image and the removal
  takes effect (`DeletedForItsNameIff`). Where no other file ever has the name,
  a success always has the client's bytes (the `alone` clause of `Upload.Serve`).
- *"After copy_started, a completed result can only be of this job's backup"*
  (`instances/jobs.py:582-583`) does not hold for a backup begun outside the
  panel: recovery then defines a clone of empty, or of deleted, volumes
  (`OtherBackupDefinesTheClone`, `OtherBackupDefinesDeletedDisks`). Whatever is
  backed up outside from some moment on, recovery defines only a whole clone
  exactly when the copies are whole by then, or the intent keeps it from
  defining any (`DefinesWholeIff`). With no backup outside it always does
  (`AloneDefinesWhole`, `LiveClone.Live`).
- *A chain that passes through a file in no pool is cut short*: `backing_path`
  answers None there, and a listed file below it is deleted
  (`HiddenFileGoes`). `ChainsWholeIff` has the exact condition.
- *A clone may count more as a VM than its job was charged*: the source is not
  held between plan and admission, and an owner other than the one who clones
  may resize it there (`SourceGrowsBeforeAdmission`, `CloneNeverGrowsIff`).
- *"No need to signal anyone of this change"* (`vrtManager/rwlock.py:174-178`,
  where a timed-out upgrader gets its reads back) is right about writers and
  wrong about readers, as is the silent departure of a timed-out writer: the
  last writer that gives up may leave a reader asleep that could read, and that
  nobody wakes (`TimedWriterStrandsReader`). `WakeupLostExactly` says of every
  event when it does. The repository makes no timed calls.

## Model

| member | source | states |
|---|---|---|
| `Leases.Acquire` | operations/models.py:98-109 | the lease row afterwards, and true exactly when the caller now holds it |
| `Leases.Renew` | operations/models.py:112-113 | only the holder's heartbeat moves; false and nothing written for anyone else |
| `WorldNodes.LeasePassesFromDeadOrSilent` | operations/models.py:98-113 | in every run the lease passes only to a running worker that acquires it, from a process that ended or was silent for 120 s |
| `Claims.Check` | operations/claims.py:99-112 | a refusal names a live conflicting claim of a holder still there; else no such claim is left and the rows deleted are the lapsed ones and those of dead holders |
| `Claims.BlockedIff` | operations/claims.py:99-112 | refused exactly for a row on a wanted resource, either side exclusive, that is a job's or is unexpired and of a process that runs |
| `Claims.ClearedAre` | operations/claims.py:100-111 | otherwise exactly the expired rows on wanted resources go, and those of dead processes that either side has exclusive |
| `Claims.Admit` | operations/claims.py:115-123 | refused, with nothing written, exactly when `BlockedIff` says, in the columns of the rows; else one row a resource, the other rows but the swept ones unchanged |
| `Claims.EnterHold` | operations/claims.py:152-170 | keys held are reused, an upgrade is refused, only new keys are admitted |
| `Claims.ExitHold` | operations/claims.py:171-174 | the keys the block added and its own rows go, no others |
| `Claims.HoldIsBracket` | operations/claims.py:152-174 | a block leaves its thread's keys and every other live claim as they were |
| `Claims.Adopt` | operations/claims.py:177-183 | the job thread holds exactly the claims of its job |
| `Claims.AdoptedClaimsAreReused` | operations/claims.py:176-187 | code inside the job that takes its claims admits nothing: a job is never Busy with itself |
| `Jobs.LookUp` | operations/jobs.py:145-154 | a live key finds its job or a conflict; an expired one is renamed and counts as absent |
| `Jobs.AdmitJob` | operations/claims.py:126-139 | a copy of the last day first, with the job when kind and parameters are the same and a conflict else; then Busy with everything rolled back; else job, as asked, and claims together |
| `Jobs.Insert` | operations/claims.py:131-139 | the same refusal; else the job's row has what was asked, column by column, and its claims are its plan |
| `Jobs.RecordIntent` | operations/jobs.py:124-135 | committed only while the lease is held and the job is the worker's own |
| `Jobs.Finish` | operations/jobs.py:237-258 | takes effect only on an active job (of the worker that holds the lease, where one asks); its claims go with it unless it ends uncertain |
| `Jobs.Cancel` | operations/jobs.py:191-216 | a queued job ends with its claims; a running one is asked to stop; an ended or uncancellable one is refused unchanged |
| `Jobs.Resolve` | operations/jobs.py:261-283 | only an uncertain job ends, succeeded or failed, with its claims |
| `Workers.Start` | operations/worker.py:245-258 | a job starts only if still queued, under the lease |
| `Workers.TakeOver` | operations/worker.py:434-450 | the job changes hands only from the worker that was read; another node's ends uncertain in the same transaction |
| `Workers.Limit` | operations/worker.py:287-293 | a job over its limit is asked to stop, under the lease |
| `Workers.Housekeeping` | operations/worker.py:379-387 | deletes only ended, old jobs without claims, and lapsed transient claims |
| `WorldProofs.StepKeepsSound` | operations/worker.py:233-520 | every event keeps every invariant of claims, jobs, threads and inspections |
| `WorldProofs.RunsAreSound` | operations/worker.py:233-520 | so does every interleaving of any length |
| `WorldTheorems.LiveClaimsAgree` | operations/claims.py:73-139 | in every reachable world two live claims on one resource are both shared |
| `WorldTheorems.JobsHoldTheirPlans` | operations/claims.py:126-139 | a job's claim rows are exactly the plan it was submitted with until it ended, and none from then on |
| `WorldTheorems.BlocksExclude` | operations/claims.py:152-174 | two blocks inside their claims' life share a resource only when both share it |
| `WorldTheorems.SoundBlockExcludesJob` | operations/claims.py:99-139 | a block and a job that keeps its claims share a resource only when both share it |
| `WorldTheorems.StatesFollowEdges` | operations/jobs.py:191-283 | every event moves a job along the edge of its kind, to the outcome the event names; an ended row changes no more but its key; uncertain is left only by a resolution |
| `WorldTheorems.RunsAndEndsOnce` | operations/worker.py:233-258 | run starts at most once and finish takes effect at most once over all workers, restarts and takeovers |
| `WorldTheorems.RequestJobsAreLeftAlone` | operations/worker.py:410-415 | a request-run job is never claimed, inspected or recovered by a worker |
| `WorldTheorems.WorkersWriteFenced` | operations/models.py:121-128 | whatever a worker commits, it commits holding the lease, to one job that is then its own |
| `WorldTheorems.OtherHostsJobsEndUncertain` | operations/worker.py:434-450 | a worker changes another node's orphan only to end it uncertain, in the event that takes it over |
| `WorldTheorems.UntouchedStaysUntouched` | operations/worker.py:477-480 | a job failed as stopped before it changed anything recorded no intent, and never will, though an old thread still runs |
| `WorldTheorems.AfterIntentThreadsFailNothing` | operations/worker.py:349-377 | from its committed intent on, a job's own thread never ends it failed |
| `WorldTheorems.DeletedStaysDeleted` | operations/worker.py:379-386 | no job comes back once housekeeping deleted it |
| `WorldTheorems.OneJobPerKey` | operations/jobs.py:145-188 | within a key's 24 hours at most one job is made with it, under any interleaving of its copies |
| `WorldTheorems.LateCopiesFindTheJob` | operations/jobs.py:157-188 | a copy that decides after its job's admission gets that job when it asks for the same kind and parameters, a conflict otherwise, never Busy or the plan's error, and changes nothing |
| `WorldTheorems.RetentionSparesTheWindow` | operations/worker.py:379-386 | what housekeeping deletes has an expired key, has ended and holds no claim |
| `WorldScenarios.CrashedJobIsRecovered` | operations/worker.py:410-520 | a run in which a worker dies after its job's intent, and the next one of its node takes the job over and ends it |
| `WorldNodes.RecoveryRunsAlone` | operations/worker.py:434-520 | while an inspection owns a job no thread of any process may act on it |
| `WorldNodes.UploadRequestsTakeTurns` | storages/upload.py:422-424 | an upload's chunk requests and its ending run one at a time |
| `WorldNodes.RunsKeepNodes` | operations/worker.py:233-520 | over every run: one worker a node, threads and inspections only of workers that run, a running job on the node of its thread |
| `Listings.OlderListingNeverUndoesNewer` | computes/utils.py:174-228 | of one compute, listings are committed in the order libvirt was read, and after a job's change only listings read after it |
| `Listings.WritersKeepReconcilesOut` | instances/jobs.py:1011-1016 | while a job may change a compute's rows no reconcile of it is inside its block |
| `Listings.JobsKeepReconcilesOut` | instances/jobs.py:253-256 | while a reconcile is inside its block no job that adds a VM to the compute, or that has it exclusive, keeps its claims |
| `Listings.AddersHoldRows` | instances/jobs.py:253-256 | a job that adds a VM, or has the compute exclusive, holds the compute's rows |
| `Listings.SharersLetReconcilesIn` | computes/utils.py:174-184 | jobs that share the compute and add no VM to it do not keep a reconcile out |
| `Slots.Manager.Reap` | operations/worker.py:215-225 | ended jobs give their slots back, the limits stay kept |
| `Slots.Manager.CountHosts` | operations/worker.py:240 | each host's count is the number of running jobs that name it |
| `Slots.Manager.ClaimQueued` | operations/worker.py:233-258 | never more than C jobs, nor max(1, C div 2) of a host; whatever others commit between two candidates, a pass through the list leaves queued only jobs of a host at its limit |
| `Slots.Manager.Consider` | operations/worker.py:241-258 | a candidate is left only for a full host, a job no longer queued or a lost lease |
| `Slots.Manager.StartOne` | operations/worker.py:247-258 | the one row written is a queued job's, started for this worker under its lease |
| `Slots.AddKeepsLimits` | operations/worker.py:239-257 | a job of hosts with room keeps both limits and frees nobody held back |
| `Slots.HeldBackIff` | operations/worker.py:239-246 | held back exactly by a host whose jobs here have half the slots |
| `Recovery.Controls.RunControl` | operations/worker.py:260-279 | a task starts exactly when its hosts are free and a thread stays for housekeeping; at most one task a host |
| `Recovery.Controls.Ended` | operations/worker.py:270-277 | the end of a task frees its hosts and no others |
| `Recovery.Scheduler.Due` | operations/worker.py:421-427 | no job is inspected twice at once; a due job is left only for a busy host or the last thread |
| `Recovery.Scheduler.Inspect` | operations/worker.py:469-520 | the tables after each finding, other jobs' untouched |
| `Recovery.InspectedIs` | operations/worker.py:466-525 | for each finding, in seconds, when the job is tried again, given up, or done, and which streaks end |
| `Recovery.InspectionsMoveOn` | operations/worker.py:469-520 | an inspection ends the job here, or leaves it to a strictly later time |
| `Recovery.StreaksEnd` | operations/worker.py:484-495 | for every tick timing, the eleventh failure in a row at the latest ends the job uncertain |
| `Recovery.TenFailuresMayPass` | operations/worker.py:40-50 | the bound is tight: on the dot, ten failures leave the job scheduled |
| `ReadWriteLocks.ReadWriteLock.TryRead` | vrtManager/rwlock.py:81-107 | one pass of the read loop: granted, asleep or timed out, and the fields after it |
| `ReadWriteLocks.ReadWriteLock.AcquireRead` | vrtManager/rwlock.py:62-107 | a writer's read adds to its write depth, a reader's to its own; else a pass |
| `ReadWriteLocks.ReadWriteLock.TryWrite` | vrtManager/rwlock.py:146-192 | one pass of the write loop; a timeout gives an upgrader its reads back |
| `ReadWriteLocks.ReadWriteLock.AcquireWrite` | vrtManager/rwlock.py:109-192 | a second upgrader is refused; an upgrader's reads are kept aside; others queue |
| `ReadWriteLocks.ReadWriteLock.Release` | vrtManager/rwlock.py:194-223 | one level is released; all are notified when the lock becomes free |
| `LockMonitor.RunsAreSafe` | vrtManager/rwlock.py:62-223 | every run keeps exclusion, the queue, and depth == acquires minus releases |
| `LockMonitor.HoldersExclude` | vrtManager/rwlock.py:62-223 | a writer excludes all readers and other writers, from outside counts alone |
| `LockMonitor.UpgradeIsUnbroken` | vrtManager/rwlock.py:122-165 | no other thread writes between an upgrader's read lock and its write lock |
| `LockMonitor.UntimedRunsKeepWakeups` | vrtManager/rwlock.py:81-223 | without timeouts, a sleeper that nobody notified has a false guard |
| `LockMonitor.FreeLockMovesOn` | vrtManager/rwlock.py:81-223 | when the lock is free and some thread sleeps, a notified one can go on |
| `LockMonitor.WakeupLostExactly` | vrtManager/rwlock.py:81-223 | of all calls, releases and wakes, timed or not, exactly which loses a wake-up |
| `LockMonitor.TimeoutLosesWakeup` | vrtManager/rwlock.py:166-192 | a sleeper's timeout loses one exactly when it is the last writer that kept a reader out |
| `LockMonitor.TimedWriterStrandsReader` | vrtManager/rwlock.py:166-192 | a run in which a timed-out writer leaves a reader asleep on a free lock |
| `LockOrders.ReadGrantedIff` | vrtManager/rwlock.py:76-107 | a read is granted unless another thread writes; to a thread without a read, only while nobody waits to write |
| `LockOrders.WriteGrantedIff` | vrtManager/rwlock.py:126-165 | a write is granted when no other thread holds anything, and to a newcomer only while nobody waits to write; a second upgrader is denied |
| `LockOrders.WakeGrantedIff` | vrtManager/rwlock.py:81-192 | which sleeper is granted its wish when it wakes |
| `LockOrders.ReleaseFrees` | vrtManager/rwlock.py:194-223 | one level goes back; all are notified exactly when nobody but a waiting upgrader holds anything |
| `LockOrders.QueueIsLine` | vrtManager/rwlock.py:142-192 | over any run the queue is the waiting writers in the order they came |
| `LockOrders.WritersTakeTurns` | vrtManager/rwlock.py:142-165 | a thread that held nothing becomes the writer only when no waiting writer came before it |
| `UploadTargets.FinalizationNeverReplaces` | storages/upload.py:126-183 | however it ends, another's file is not replaced and nothing but the part file's bytes is placed |
| `UploadTargets.LocalCallByCall` | storages/upload.py:126-164 | the outcome of every ending of link, renameat2 and unlink |
| `UploadTargets.SshCallByCall` | storages/upload.py:166-183 | the outcome of every ending of the rename and the look at both names |
| `UploadTargets.FinalizationMayBeRepeated` | storages/upload.py:126-183 | killed anywhere, another attempt leaves the bytes of the first, and succeeds when nothing fails |
| `UploadTargets.DeletedForItsNameIff` | storages/upload.py:438-452 | a completion deletes the part file for its name exactly when finalization ends at another's image and the removal takes effect; otherwise a part file that is gone is the image |
| `UploadTargets.CompletionUndisturbed` | storages/upload.py:438-452 | with no failure: a free name gets the part file, another's keeps its file, and a missing part file fails the upload unless the image is there |
| `UploadTargets.CompletionBreaks` | storages/upload.py:438-452 | a step that raises or dies is the answer, and the job goes on |
| `UploadTrails.PassKeepsSound` | storages/upload.py:438-566 | no write, commit, completion, end or interference, whatever fails, breaks what an upload keeps between two steps |
| `UploadTrails.WalkKeepsSound` | storages/upload.py:438-566 | so every history keeps it, from the upload's creation on |
| `UploadTrails.SuccessIsOursIff` | storages/upload.py:438-452 | over any history: an upload that succeeded has its own image, and what the client sent, exactly when no step took the complete part file while another's file had the name |
| `UploadTrails.ForeignImageSucceeds` | storages/upload.py:438-452 | a five-state history whose success is the other file |
| `UploadTargets.RetryTakesForeignImage` | storages/upload.py:438-452 | the case in which it does not |
| `Uploads.Upload.Complete` | storages/upload.py:438-452 | the outcome of every combination of failing and dying steps |
| `Uploads.Upload.EndUnfinished` | storages/upload.py:455-464 | the part file goes before the job ends, at every death |
| `Uploads.Upload.Write` | storages/upload.py:314-337 | a write, failed or not, keeps the bytes before its offset |
| `Uploads.Upload.Commit` | storages/upload.py:556-557 | the committed count grows by the chunk just written |
| `Uploads.Upload.WriteChunk` | storages/upload.py:524-566 | which chunk is taken, repeated, refused or ends the upload, before and after all is in; accepted means committed, for the last one succeeded; idle only after an hour |
| `Uploads.Upload.End` | storages/upload.py:467-500 | ends with the compute gone only if it is; undisturbed, an upload whose chunks are all in succeeds with the client's bytes, any other is cancelled or idle with nothing left |
| `Uploads.Upload.Serve` | storages/upload.py:467-566 | for any requests, duplicates, failures and deaths: committed chunks begin the part file; success leaves all chunks in order, of the declared size, exactly when the history has no such deletion, and always where no other file ever has the name; no part file outlives a failure; once all is in it is never cancelled or idle; the compute counts as gone only if a request found it so; undisturbed, a cancel ends it |
| `Uploads.Upload.SendAll` | storages/upload.py:503-566 | undisturbed, the chunks in order make the image |
| `UploadTrails.JoinedGrows` | storages/upload.py:542-557 | what is committed begins what is committed later |
| `LiveClones.HappensKeepsCovered` | instances/jobs.py:557-637 | nothing that happens beside the job leaves its intent short of what it did |
| `LiveClones.DefinesWholeIff` | instances/jobs.py:703-733 | whatever is backed up outside from now on, recovery defines only a clone of whole copies, exactly when they are whole now or the intent keeps it from defining one |
| `LiveClones.AloneDefinesWhole` | instances/jobs.py:703-733 | with no backup outside, recovery defines only a clone of whole copies, after any events |
| `LiveClones.OutsideBackupIsTaken` | instances/jobs.py:706-720 | from any state in which the copy was started, an outside backup's result is read as the job's |
| `LiveClones.OtherBackupDefinesTheClone` | instances/jobs.py:580-584 | with a backup from outside it defines a clone of empty volumes |
| `LiveClones.OtherBackupDefinesDeletedDisks` | instances/jobs.py:706-733 | or one of volumes an earlier recovery deleted |
| `LiveClones.LiveClone.CreateCopy` | instances/jobs.py:573-578 | planned before, listed after: at every death the volume is none, pending or listed |
| `LiveClones.LiveClone.DeleteCreated` | instances/jobs.py:493-500 | whatever volume has a listed path is deleted, and none of another has one; without an error none of the job's is left |
| `LiveClones.LiveClone.BeginBackup` | instances/jobs.py:591-612 | an error is recorded as the copy's only when the job's backup does not run |
| `LiveClones.LiveClone.AwaitBackup` | instances/jobs.py:620-637 | succeeded only with the clone defined, cancelled only with nothing left; undisturbed, what follows each result |
| `LiveClones.LiveClone.Run` | instances/jobs.py:557-637 | the same over the whole run; undisturbed, the clone is made of whole copies |
| `LiveClones.LiveClone.LiveOutcome` | instances/jobs.py:703-733 | undisturbed, case by case on intent and host: no copy, the job's own backup, another's, and what libvirt kept; disturbed, what each verdict leaves |
| `LiveClones.LiveClone.Reconcile` | instances/jobs.py:651-702 | undisturbed, the whole recovery table on intent and host: VM gone, clone defined, volume half made, own or another's backup, no result, failure, success |
| `LiveClones.LiveClone.Live` | instances/jobs.py:557-733 | killed at any point and recovered any number of times: failed or cancelled only with nothing left, succeeded only with the clone defined, its copies whole where the success read was its own backup's, others' volumes as others left them; undisturbed it succeeds, or is cancelled as asked |
| `BackingChains.WalkCloses` | instances/jobs.py:1281-1283 | the set of kept files is closed under backing after each walk, which ends on cyclic chains |
| `BackingChains.WalkIsLeast` | vrtManager/instance.py:1778-1780 | a walk adds only files that are needed |
| `BackingChains.WalkAgrees` | instances/jobs.py:1281-1283 | files deleted elsewhere do not cut a walk short |
| `DeletePasses.KeepingIsWalkOrAll` | instances/jobs.py:1280-1285 | the files kept for one that stays are its walk down the chain, or all listed ones when a read fails |
| `DeletePasses.PassKeepsChains` | instances/jobs.py:1257-1290 | wherever a pass stops, no file that remains lost a file of its chain |
| `DeletePasses.AnyPassKeepsChains` | instances/jobs.py:1257-1290 | nor after any number of restarts |
| `DeletePasses.CleanPassDeletesAll` | instances/jobs.py:1265-1289 | a pass without an error deletes every listed file |
| `DeletePasses.PassAccounted` | instances/jobs.py:1265-1289 | a pass stops exactly at the attempt that dies or loses its connection; until then every file is tried that is not kept for one that stayed, and exactly those go whose deletion took effect |
| `DeletePasses.ThroughLeaves` | instances/jobs.py:1265-1289 | after a pass that came through, each listed pooled file left failed without losing the connection, or is kept for one that stayed |
| `DeletePasses.HiddenFileGoes` | vrtManager/connection.py:922-932 | a listed file that a remaining one reaches only through no pool is deleted |
| `DeletePasses.ChainsWholeIff` | vrtManager/connection.py:922-932 | every pass, whatever fails, leaves the real chains whole exactly when the ways to listed files are seen |
| `DeleteVms.SortedIsOrdered` | vrtManager/instance.py:1781-1790 | sorted by how many files each needs, an overlay precedes the files it needs |
| `DeleteVms.CloseUsed` | vrtManager/instance.py:1777-1780 | a kept file keeps the files below it, and no others |
| `DeleteVms.Split` | vrtManager/instance.py:1758-1792 | a partition of the VM's files in which nothing that stays grows from a file that goes |
| `DeleteVms.Plan` | instances/jobs.py:1320-1328 | what the split lists makes a delete job whose chains every pass keeps whole |
| `DeleteVms.DeleteJob.Removed` | instances/jobs.py:1257-1290 | the loop is that pass, by the attempts it made |
| `DeleteVms.DeleteJob.KeepBelow` | instances/jobs.py:1280-1285 | the walk of a file that stays, all listed files when its chain cannot be read |
| `DeleteVms.DeleteJob.Run` | instances/jobs.py:1320-1340 | no file goes before the domain is undefined; done exactly when no attempt died or lost its connection; where nothing fails every listed file goes |
| `DeleteVms.DeleteJob.Reconcile` | instances/jobs.py:1342-1345 | a domain still defined kept every file; else the pass runs again, and the job succeeds exactly when it came through |
| `DeleteVms.DeleteJob.Live` | instances/jobs.py:1257-1345 | run and any number of recoveries: chains stay whole, failed means nothing was deleted; where nothing fails, it succeeds with every listed file gone |
| `Ownership.MergedBears` | computes/utils.py:67-81 | merged marks are the union, right by right |
| `Ownership.MovedConserves` | computes/utils.py:67-95 | moving a record's marks conserves every mark |
| `Ownership.BuriedConserves` | computes/utils.py:98-108 | so does a burial, which keeps one tombstone a VM and none beside a record |
| `Ownership.ForgottenConserves` | computes/utils.py:84-95 | so does forget |
| `Ownership.ListedConserves` | computes/utils.py:111-129 | so does a row's return, all other tombstones of the VM gone |
| `Ownership.ExpiredConserves` | computes/utils.py:210-214 | expiry takes only marks of tombstones past the retention |
| `Ownership.RehomedConserves` | instances/utils.py:325-360 | so does a migration to a compute that has no row of the VM |
| `Reconciles.MergeOwners` | computes/utils.py:69-77 | the loop over owners is the union of rights |
| `Reconciles.Registry.MoveOwnership` | computes/utils.py:67-81 | the target bears both records' marks |
| `Reconciles.Registry.Forget` | computes/utils.py:84-108 | one row goes, every mark stays, both invariants of tombstones hold |
| `Reconciles.Registry.ListNew` | computes/utils.py:217-225 | a copy gets no owners and leaves the tombstones; another VM gets its tombstone's marks, of users still there |
| `Reconciles.Registry.Reconcile` | computes/utils.py:187-225 | the compute's rows equal the listing and those that stay keep their marks, a copy listed anew gets none, other computes' rows stay, every mark is conserved |
| `Reconciles.Registry.Refresh` | computes/utils.py:142-228 | done, the rows equal a listing that was read; not done exactly when libvirt was silent, the claim taken or the compute gone, and then nothing changed |
| `Reconciles.Registry.RecordMigration` | instances/utils.py:325-360 | the target has the marks of the source, and its own where it had a row; no other row changes |
| `Reconciles.Registry.DeleteCompute` | computes/models.py:121-134 | no row of the compute is left and every mark is conserved |
| `Reconciles.Registry.RecordVm` | instances/jobs.py:259-267 | the VM's row is there, an owner it has keeps its rights, a new one gets all; no other row changes |
| `Reconciles.Registry.RemoveVm` | instances/jobs.py:1262 | the one row goes with its marks, and leaves no tombstone |
| `Ownership.KeptByExpiry` | computes/utils.py:210-214 | a reconcile takes exactly the marks of the tombstones it expired |
| `OwnershipRuns.SteppedKeeps` | computes/utils.py:67-225 | a reconcile, migration, record, VM delete, compute delete or user delete keeps every mark but what it expires, makes or deletes, and the rows of every compute follow |
| `OwnershipRuns.RunKeepsMarks` | computes/utils.py:67-225 | over any steps and any time, a mark of a user still there is lost exactly when an expired tombstone took it, VMs a job deleted apart, and is new only on a VM a job recorded |
| `OwnershipRuns.LostWereExpired` | computes/utils.py:210-214 | each such tombstone was in the tables, removed before the retention, when a reconcile took it |
| `OwnershipRuns.RunFollows` | computes/utils.py:187-225 | a compute's rows are the last listing committed for it with what jobs changed since |
| `Reconciles.Registry.Serve` | computes/utils.py:67-225 | any sequence of these steps on the tables is such a run, each state the outcome of its step; so its losses, its new marks and its listings are those the steps say |
| `Usages.ResizeAsksWhatItAdds` | instances/views.py:1211-1237 | the quota is asked for exactly the GiB the disks grow by |
| `Usages.GrownAt` | instances/views.py:1211-1237 | a disk grows to the GiB asked, and none shrinks |
| `Usages.ChargeIs` | instances/jobs.py:138-151 | a clone is charged what is asked or what its source has, whichever is more |
| `Usages.CloneNeverGrowsIff` | instances/jobs.py:138-151 | a clone never counts more as a VM than as a job, exactly when its source did not outgrow the charge |
| `Usages.SourceGrowsBeforeAdmission` | instances/jobs.py:531-546 | the case in which it does |
| `Usages.CoveredTotal` | instances/utils.py:120-160 | if each VM is counted once or more, no total is too small |
| `Usages.ExactTotal` | instances/utils.py:120-160 | if each is counted once, every total is exact |
| `Quotas.Account.PendingClones` | instances/utils.py:124-129 | jobs first, records after: every VM of the usage is a clone counted or a row read later |
| `Quotas.Account.ReadVms` | instances/utils.py:139-160 | every VM listed is read with no less than it has at the end, or the check is unverified |
| `Quotas.CountedIs` | instances/utils.py:155-159 | a VM counts no less than it has and than it starts with next, and as much as one of the two |
| `Quotas.FitsHasRoom` | instances/utils.py:131-168 | usage within the limits is within them for the VMs as they run and as they start next, and however pending clones come to be made |
| `Quotas.Account.Compare` | instances/utils.py:162-168 | fine exactly when no limited total is exceeded; the one named is |
| `Quotas.Account.Check` | instances/utils.py:104-169 | never under-counted whatever the worker records meanwhile; exact while nothing happens; superusers and shrinks pass; fine means room for the sizes as they run and as they start next |
| `Quotas.Account.Resize` | instances/views.py:1134-1254 | an increase that is done leaves every limited total within its limit; a shrink is never refused |
| `Quotas.Account.SubmitClone` | instances/views.py:2276-2291 | so does a clone job that is admitted; the checks after it can rely on its charge exactly when its source did not outgrow that |
| `Quotas.Account.UnmarkTemplate` | instances/views.py:2360-2385 | so does a template that becomes a VM again |

## Left out

- All libvirt, SSH and XML work: a call is one step that works, fails or is the process's last, before or after its effect.
- A libvirt call that takes effect after its caller is known to be gone.
- Permission checks, validation of names and fields, translations, audit and Logs rows, result and phase texts of jobs.
- The contents of intents in the shared world; the upload, clone and delete models have their own.
- `fsync`, SFTP pipelining and the SSH connection pool: a write is one step that keeps the bytes before its offset.
- Freezing and thawing the guest's file systems during a live clone; the clone of a shut-off VM; the copy of the UEFI variables; the resize and start after the clone is defined.
- The other job kinds: snapshots, VM creation, migration's run and its outcome table, disk moves, volume clones.
- Owners assigned by an administrator, and changes to a user's VMs by other users while that user's quota claim is held.
- Thread pools, signals, the drain at a worker's stop and the progress queries, which change no job's state.
- Claims.Check: which of several blockers is named is not fixed, as the source's order by resource only chooses a message.
- Claims.Adopt: how a thread's own earlier keys of the same resources come back at the exit is not modelled; a job thread has none.
- Slots.Manager.ClaimQueued: the concurrency is constant; that no job becomes queued again while a pass runs is what `WorldTheorems.StatesFollowEdges` proves.
- Reconciles.Registry.Step: a VM a job records has a random UUID, so no tombstone has it; on tables where one has it, the step writes nothing.
- DeleteVms.Split: pools are the same from the split to the last recovery; the paths in use elsewhere are a parameter.
- LiveClones.LiveClone.Live: a clone's copies are whole where the success that was read is of the job's own backup, which `DefinesWholeIff` shows cannot be dropped; which result that was is in the contracts of `ReadKept` and `ReadVerdict`, not in `Live`'s.
- Quotas.Account.Check: exact only while nothing happens beside it, as a clone recorded between two reads is counted twice; promised while no pending clone outgrew its charge before its admission, the condition of `Usages.CloneNeverGrowsIff`; such a clone is admitted in `SubmitClone`.
- Uploads.Upload.Serve: a file of the image's name made by others may come and go, the upload's own part file and image are changed by nobody else.
