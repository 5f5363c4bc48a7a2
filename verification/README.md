# Collapsarr, modelled and proved

A Dafny 4.11 model of the parts of Collapsarr where several pieces have to work together,
with proofs that they do:

- the **job engine**: the job queue, the scheduler's locks and de-duplication, top-up,
  Process Now, cancellation, the job history and crash recovery, as one interleaved protocol
  and, beside it, as the objects the code has;
- the **downmix engine**: target detection, source resolution, the ffmpeg command line and an
  interpreter that reads it back, default-track resolution, the validated swap and the two
  pipelines;
- the **library mirror**: catalog parsing, syncs, webhook upserts, cascading tracked
  overrides, trees and the bulk default-audio walk;
- **health reconciliation**: an edge detector over persisted rows.

`dafny verify dfyconfig.toml` checks everything.

## How it is organised

| files | what they hold |
|---|---|
| `Common`, `Decimal`, `Text` | sequences, decimal numerals and their reading back, string order |
| `Audio`, `Jobs` | audio streams and tiers, the job record |
| `Queue`, `QueueStore` | the queue's critical sections as functions and the waiting line they move; the `JobQueue` object, each method proved equal to its function |
| `History`, `HistoryStore` | the history rows and the queue page; the table written in place |
| `Recovery`, `Rehydration` | what a restart makes of the rows; `rehydrate_pending_jobs` over the live table and queue |
| `Engine` | the transition relation: threads with program counters, one step per critical section, per lock acquisition, per status read outside a lock and per history write, plus crash, aborted boot and boot |
| `EngineInvariant`, `EngineSafety` | the inductive invariant and its preservation by every step |
| `EngineLocks`, `EngineDedup`, `EngineOrphanRun` | lock ownership, one active job per path, exactly when a restart breaks it, and a concrete run in which it does |
| `EngineLimits`, `EngineRestartLimit`, `EngineRefillRun`, `EngineKinds` | the top-up limit while a process lives, exactly when a restart breaks it, and a concrete run in which it does; what kind of job top-up and Process Now make |
| `EngineHistory`, `EngineOutcome` | launches across crashes; that a job and its row end as its pipeline call reported |
| `EngineWaiting`, `EngineCallers`, `EngineProgress` | wake-ups, counters and fates; what Process Now, clear and the waits give their callers; absence of deadlock |
| `EngineRuns` | how concrete runs grow step by step |
| `Cancellation` | the kill handle, and the protocol between one worker and any number of cancels |
| `Targets`, `Remux`, `Ffmpeg`, `DefaultAudio`, `Relayout`, `CopyInputs`, `Pipelines` | the downmix engine, from stream layout to command line to new layout, and the inputs on which it falls short |
| `LibraryModel`, `LibrarySync`, `LibraryLaws`, `LibraryCatalog`, `LibraryStore` | nodes and keys, syncs as functions and their laws, what the rows show in the catalog's own terms, the tables written in place |
| `LibraryTracking`, `LibraryWalk`, `LibraryRuns`, `LibraryTree`, `LibraryBulk` | tracked resolution and cascade, subtree walks, whole runs, trees, the bulk walk |
| `Catalog` | the episode list and season numbers a sync relies on |
| `Health` | reconciliation, dismissal and what they say over whole runs |

Where the source updates an object in place, the model has a class whose methods are proved
against functions (`QueueStore` against `Queue`, `LibraryStore` against `LibrarySync`, and so
on); the laws are proved about the functions and, for the queue, along every interleaving.
A run of the protocol is a start state and a sequence of steps; `EngineOrphanRun` and
`EngineRefillRun` build two of them step by step, so the statements about every run are not empty.

## What the model assumes

- History and tracked-media recorders do not raise; if the first history write did, the job
  would stay RUNNING while the active count drops (`collapsarr/jobs/queue.py:1417-1485`).
- A history write is one atomic step that records the status the job has at that moment. The
  first row of a job may therefore be written after a worker has already claimed it, and then
  says RUNNING; a write never lands later than it reads.
- Three records outlive a crash that the code does not keep: the job ids used, the pipeline calls
  made, and the jobs top-up created. Only the first is read by a step, the choice of a fresh id.
- A fresh job id is one never used before. A row's job id names a job when it parses as a
  UUID, and the text is the canonical one the recorder writes.
- What the code reads from outside is a free choice at its step: the unlocked pre-check,
  the probe, the tracked gate, target detection inside `enqueue_file`, the
  recently-processed window, the pause flag and the settings row.
- The job-terminal hook runs `top_up`; exceptions it raises are swallowed, so a top-up may stop
  after any file.
- ffmpeg and ffprobe are an interpreter over layouts: maps select tracks in order, the blanket
  copy keeps them, and a per-track option overrides it for that track; a codec called `copy`
  copies. Whether an encoded track takes over its source's default flag when no disposition
  option names it is a parameter (`inherit`), and every result covers both answers. That ffmpeg does
  what the command says is a condition of what is said about the tracks of the new file, never of
  what is said about the swap: there it may leave anything.
- The probe lists every audio stream in container order; durations are exact reals.
- The runner fails only as "binary missing", timeout or non-zero exit; `unlink` and `rename`
  do not fail.
- The sync's dict over node keys is indexed by the upstream thing the key is made from;
  `LibraryModel.KeyInjective` is what makes the two the same.

## Promises the code does not always keep

- **One active job per path, across a restart.** A living process never breaks it. A crash can
  leave a PENDING row whose job has left the queue: `cancel` drops a pending job and only then
  deletes its row; and a cancel that overtakes the first write of a new job's row finds no row to
  delete, after which the write leaves one. If the same file was queued again meanwhile, the next
  boot rehydrates both. `EngineOrphanRun.OrphanRowDuplicates` builds a run of the first kind;
  `EngineDedup.OnePerPathIff` covers both: a run keeps the promise throughout exactly when every
  boot finds each path at most once among the rows it rehydrates, and by
  `EngineDedup.OneActiveJobPerPath` it does whenever no crash finds an orphan row.
- **The top-up limit, across a restart.** While a process lives, at most `AUTO_QUEUE_LIMIT` of the
  jobs its top-ups create wait at a time (`EngineLimits.TopUpWithinLimit`). But a claim, like a
  force-start, marks a job RUNNING in memory before the RUNNING row is written
  (`collapsarr/jobs/queue.py:1360-1369`, `collapsarr/jobs/queue.py:1417-1418`); a top-up in between counts one waiting job less and creates
  one more, and if the process dies there, the boot brings every one of them back as PENDING.
  `EngineRefillRun.RestartOverfills` builds such a run, in which no crash leaves an orphan row.
  `EngineRestartLimit.TopUpLimitIff`: a run stays within the limit throughout exactly when every
  boot finds at most `AUTO_QUEUE_LIMIT` jobs created by top-up among the rows it rehydrates; by
  `EngineRestartLimit.QuietCrashesSuffice` it does whenever no crash finds an orphan row or a
  claimed job whose row still says PENDING.
- **Nothing left to detect after a run.** With a codec setting of `copy`, which the settings accept
  (`collapsarr/settings/service.py:311-316`), an added track keeps its source's channel count, so
  the target is as missing as before (`Relayout.CopyStillMissing`, on a concrete file
  `CopyInputs.CopyLeavesItMissing`). `Relayout.ConvergesIff`: detection is empty afterwards exactly
  when no added track is configured as a copy.
- **The default-audio fix as a fixpoint, in-band.** When the resolver aims the flag at an added track
  whose codec is `copy`, that track comes out with more channels than planned, is not the match the
  preference asked for, and the next look wants the flag moved
  (`CopyInputs.CopyMovesTheDefault`). `Relayout.DefaultFixpoint`: nothing is left to change exactly
  when the track aimed at is an original or not a copy.
- **The in-band default flag, left alone.** When the resolver finds the default track already right,
  no disposition option is written, and an added track keeps the flag of a default source if it is
  copied, or if ffmpeg lets encoded tracks inherit it (`CopyInputs.KeptFlagDoubles`).
  `Relayout.InBandIff`: the result still needs no change exactly when no added track does.

## Model

| member | source | states |
|---|---|---|
| QueueStore.JobQueue.constructor | collapsarr/jobs/queue.py:526-616 | a new queue is empty, its counter at zero, up |
| QueueStore.JobQueue.Enqueue | collapsarr/jobs/queue.py:899-922 | the job joins the end of the waiting line under the counter's priority, nobody else moves, every pending priority stays below the counter |
| QueueStore.JobQueue.Cancel | collapsarr/jobs/queue.py:958-981 | succeeds exactly on a waiting job and removes it from the line; otherwise nothing changes |
| QueueStore.JobQueue.CancelRunning | collapsarr/jobs/queue.py:983-1019 | succeeds exactly on a running job, and then always has a handle to cancel |
| QueueStore.JobQueue.LeastPriority | collapsarr/jobs/queue.py:1039-1043 | the smallest pending priority, absent exactly when the line is empty |
| QueueStore.JobQueue.BumpToFront | collapsarr/jobs/queue.py:1021-1046 | succeeds exactly on a waiting job, which moves to the head with a priority one below the least; the others keep their order and everything else, even with negative priorities |
| QueueStore.JobQueue.ForceStart | collapsarr/jobs/queue.py:1048-1146 | starts exactly a waiting job of a queue that is not shut down, taking it out of the line wherever it stands |
| QueueStore.JobQueue.LowestPriorityPending | collapsarr/jobs/queue.py:1372-1384 | the linear minimum scan returns the head of the waiting line |
| QueueStore.JobQueue.ClaimNext | collapsarr/jobs/queue.py:1352-1370 | one pass of the claim loop pops exactly the head of the line, or changes nothing when paused, shut down or idle |
| QueueStore.JobQueue.Settle | collapsarr/jobs/queue.py:1454-1469 | afterwards the job is SUCCEEDED exactly when the result says success and FAILED exactly when not; no other field of it, no other job and not the line changes |
| QueueStore.JobQueue.Release | collapsarr/jobs/queue.py:1483-1485 | the active count drops by one, nothing else changes |
| QueueStore.JobQueue.SeedNextPriority | collapsarr/jobs/queue.py:1161-1178 | the counter reaches the given minimum and never drops |
| QueueStore.JobQueue.Rehydrate | collapsarr/jobs/queue.py:1180-1209 | every job given last under its id is stored as given, every other job stays, new ids join the dict order at its end and a known id keeps its place |
| QueueStore.JobQueue.HasActiveWork | collapsarr/jobs/queue.py:1234-1243 | true exactly when something is active or the line is not empty |
| QueueStore.JobQueue.Shutdown | collapsarr/jobs/queue.py:1302-1308 | the flag is set for good; only the first call may go on to join |
| Queue.WaitingIsStableSort | collapsarr/jobs/queue.py:1372-1384 | the line holds each pending job once, by priority, ties in dict order |
| Queue.LowestIsHead | collapsarr/jobs/queue.py:1381-1384 | the first minimum of a linear scan is the head of the sorted line |
| Queue.EnqueueAppends | collapsarr/jobs/queue.py:916-919 | enqueue appends to the line and keeps the queue valid |
| Queue.CancelRemoves | collapsarr/jobs/queue.py:975-981 | cancel removes exactly a waiting job from the line |
| Queue.BumpMovesToFront | collapsarr/jobs/queue.py:1035-1046 | bump moves a waiting job to the head, the rest unchanged |
| Queue.ForceStartRemoves | collapsarr/jobs/queue.py:1111-1123 | force-start removes exactly a waiting job, unless shut down |
| Queue.ClaimPopsHead | collapsarr/jobs/queue.py:1354-1369 | claim pops the head of the line, unless shut down or empty |
| History.RecordMembers | collapsarr/jobs/history.py:95-124 | after an upsert the job has exactly one row, in the place of its old one or at the end, with the job's path, kind, priority and status; every other row is as before |
| History.DeleteMembers | collapsarr/jobs/history.py:134-153 | exactly the job's row disappears, the others keep their order; true is returned exactly when there was one |
| History.QueueJobsListsActive | collapsarr/jobs/history.py:182-206 | the queue page lists every active row once, running ones first, each group by priority and then row |
| HistoryStore.JobHistory.RecordJobHistory | collapsarr/jobs/history.py:105-122 | the table is the upserted one: path, status, kind and priority taken from the job, one row per job |
| HistoryStore.JobHistory.DeleteJobHistory | collapsarr/jobs/history.py:148-153 | the table without the job's row, found exactly when it had one |
| Recovery.RestartKeepsOrder | collapsarr/jobs/rehydrate.py:113-141 | after a restart the waiting line is the rebuilt jobs in persisted (priority, row) order |
| Recovery.RestartRecovers | collapsarr/jobs/rehydrate.py:113-141 | after a restart no row is RUNNING, the counter exceeds every row's priority, every PENDING row has one live pending job with its id, path, kind and priority, and every live job has such a row |
| Recovery.RestartCarriesOn | collapsarr/jobs/rehydrate.py:113-228 | over the rows before the restart: a PENDING row with a UUID key that is a downmix, or a default-audio row while a preference is configured, stays PENDING and its live pending job has its id, path, kind and priority and the current downmix settings, or the current preference and no targets; every other PENDING row and every RUNNING row turns FAILED, and no other row changes |
| Rehydration.MaxPriorityOf | collapsarr/jobs/rehydrate.py:114-115 | the largest persisted priority |
| Rehydration.SeedCounter | collapsarr/jobs/rehydrate.py:113-115 | the counter ends above every row's priority and at the largest plus one when it was lower; with no rows it stays |
| Rehydration.MarkUnrehydratable | collapsarr/jobs/rehydrate.py:240-260 | exactly the given row turns FAILED |
| Rehydration.StopRunning | collapsarr/jobs/rehydrate.py:117-123 | exactly the RUNNING rows turn FAILED |
| Rehydration.PendingRows | collapsarr/jobs/rehydrate.py:125-128 | the pending rows by priority, ties in row order |
| Rehydration.RebuildRows | collapsarr/jobs/rehydrate.py:132-228 | exactly the pending rows that cannot carry on turn FAILED; each of the others becomes, in order, a pending job of its id, path, kind and priority with the current settings |
| Rehydration.RehydratePendingJobs | collapsarr/jobs/rehydrate.py:69-228 | over the live table and queue: each row ends as the restart should leave it, the counter is above all persisted priorities, the queue carries exactly the jobs of the rows that carry on, in order, with the current settings or preference; from an empty queue this is the recovered queue the protocol boots with |
| Rehydration.RestartListsTheLine | collapsarr/jobs/history.py:200-206 | right after a restart the queue page lists exactly the waiting line, row by row, in the order workers will claim it |
| EngineSafety.RunInv | collapsarr/jobs/queue.py:899-1485 | the invariant of queue, threads, runners, rows and pool holds in every state of every run, across crashes and restarts |
| EngineSafety.StepProgress | collapsarr/jobs/queue.py:899-1485 | every step of a living process keeps the queue valid, moves statuses only forward, changes no job's identity and lets nothing re-enter the dict |
| EngineWaiting.LineInEveryInterleaving | collapsarr/jobs/queue.py:899-1384 | in every interleaving each step moves the plain waiting line by one queue operation, and every claim takes its head |
| EngineWaiting.OneFate | collapsarr/jobs/queue.py:958-1146 | a waiting job leaves the line by exactly one of: claimed by a worker at the head, force-started, cancelled |
| EngineWaiting.FateIsFinal | collapsarr/jobs/queue.py:1111-1117 | a job that no longer waits never waits again in that process |
| EngineWaiting.NothingStartsAfterShutdown | collapsarr/jobs/queue.py:1354-1355 | once shut down, no pending job starts and the active count never grows |
| EngineWaiting.ActiveCountsRunners | collapsarr/jobs/queue.py:1360-1369 | the active count is the number of threads between claim and final cleanup, bounds the running jobs, and pool-claimed jobs never exceed the concurrency limit |
| EngineWaiting.IdleMeansFinished | collapsarr/jobs/queue.py:1211-1243 | when `wait_idle` may succeed nothing waits, nothing runs, and no thread is before the end of its cleanup, refill hook included |
| EngineWaiting.ShutdownMeansInactive | collapsarr/jobs/queue.py:1302-1313 | when the first untimed waiting `shutdown` has joined everyone, nothing is active |
| EngineWaiting.NoLostWakeUp | collapsarr/jobs/queue.py:1221-1280 | in every state of every run, a worker in an untimed wait that was not notified has no pending job and no shutdown to miss, and an un-notified `wait_idle` or `wait_no_running` waiter's condition is still unmet |
| EngineWaiting.RunningJobsCancellable | collapsarr/jobs/queue.py:1360-1367 | every RUNNING job carries a cancellation handle |
| EngineWaiting.ProcessNowAnswer | collapsarr/jobs/scheduler.py:1260-1302 | `process_now` never returns a job that is still PENDING |
| EngineWaiting.ClearedJobsGone | collapsarr/jobs/scheduler.py:1505-1516 | no job `clear_queue` snapshotted waits once its cancel was tried |
| EngineCallers.ProcessNowServesItsFile | collapsarr/jobs/scheduler.py:1260-1302 | along every run the job `process_now` answers with is for the file that call was asked for, and not PENDING |
| EngineKinds.TopUpMakesDownmixes | collapsarr/jobs/scheduler.py:1665-1681 | along every run, crashes and restarts included, every job top-up created is a downmix, also after it was rebuilt from its row |
| EngineKinds.ProcessNowMakesDownmixes | collapsarr/jobs/scheduler.py:1267-1271 | so is every job `process_now` creates |
| EngineCallers.ClearEmptiesTheLine | collapsarr/jobs/scheduler.py:1505-1516 | along every run: when `clear_queue` is through, none of the jobs that waited when it began waits, although it reads statuses and cancels one job at a time |
| EngineCallers.NothingMeansNotStarted | collapsarr/jobs/scheduler.py:1260-1302 | `process_now` answers with nothing only when no job was made or the job is still PENDING |
| EngineCallers.ForcesTheJob | collapsarr/jobs/scheduler.py:1260-1300 | a waiting job of a live queue is started on the new thread and answered with; otherwise nothing is started |
| EngineCallers.ClaimsWhenOpen | collapsarr/jobs/queue.py:1352-1370 | in every reachable state a worker at the claim section takes the head of the line exactly when the queue is not shut down, the gate is open and something waits |
| EngineCallers.ReturnsWhenMet | collapsarr/jobs/queue.py:1221-1280 | `wait_idle` returns exactly when nothing is active and nothing waits, `wait_no_running` exactly when nothing is active |
| EngineCallers.InsertsTheJob | collapsarr/jobs/queue.py:899-922 | the job inserted is new, for the file and kind asked, PENDING behind everything that waits |
| EngineCallers.QueuedRowWritten | collapsarr/jobs/queue.py:919-922 | its first row says what the job says at that moment, other rows stay |
| EngineCallers.CancelDropsTheRow | collapsarr/jobs/scheduler.py:1099-1117 | cancelling a pending job ends with exactly its row gone |
| EngineCallers.RecentIsSkipped | collapsarr/jobs/scheduler.py:907-937 | a file inside the recently-processed window leaves queue and rows as they were and yields no job |
| EngineCallers.PausedTopUpLeaves | collapsarr/jobs/scheduler.py:1638-1650 | a top-up that finds auto-queuing paused only gives its lock back |
| EngineCallers.ThenTopsUp | collapsarr/jobs/scheduler.py:1085-1097 | a finished job with the hook wired, a cancel that found its job and the end of a clear go on to a top-up, and no other step of them does |
| EngineCallers.CountsWhatWaits | collapsarr/jobs/scheduler.py:1629-1681 | a pass counts a job exactly when it reads it waiting, and one more for each job its own calls make |
| EngineCallers.FinishedWorkerReturns | collapsarr/jobs/queue.py:1483-1485 | after its job a pool worker is back at the claim section and a Process Now thread is gone, with the active count one lower |
| EngineLocks.LocksKeep | collapsarr/jobs/scheduler.py:582-585 | each scheduler lock's owner is exactly the thread inside its block, kept by every step |
| EngineLocks.DedupKeeps | collapsarr/jobs/scheduler.py:907-937 | although the duplicate check reads statuses without the queue lock, every step of a living process keeps at most one active job per path |
| EngineDedup.BootDedupIff | collapsarr/jobs/rehydrate.py:125-141 | a boot leaves one active job per path exactly when the rows it rehydrates have distinct paths |
| EngineDedup.OneActiveJobPerPath | collapsarr/jobs/scheduler.py:871-877 | at most one PENDING or RUNNING job per path, over both kinds and all threads, in every state of every run whose crashes find no row of a cancelled job |
| EngineDedup.OnePerPathIff | collapsarr/jobs/scheduler.py:1099-1117 | a run keeps one active job per path throughout exactly when each boot finds each path at most once among the rows it rehydrates |
| EngineOrphanRun.OrphanRowDuplicates | collapsarr/jobs/scheduler.py:1112-1117 | a run, for every path and concurrency limit, in which a crash between cancel and row deletion leaves two active jobs on the path after the next boot |
| EngineHistory.AtMostOneLaunch | collapsarr/jobs/queue.py:1417-1452 | over any run with any crashes and restarts, a pipeline starts at most once per job id |
| EngineHistory.LaunchAfterRunningRow | collapsarr/jobs/queue.py:1418-1452 | whenever a pipeline starts, no row of its job says PENDING |
| EngineOutcome.SettledAsReported | collapsarr/jobs/queue.py:1424-1469 | along every run, with any interleaving, crash and restart: when a worker settles its job, the status is SUCCEEDED exactly when the last pipeline call on that thread, which was for this job, reported success, else FAILED |
| EngineOutcome.RecordedAsReported | collapsarr/jobs/queue.py:1454-1473 | and the row then written says SUCCEEDED exactly when that call reported success, else FAILED, whatever the other threads did in between |
| EngineOutcome.StartRecordedAsRunning | collapsarr/jobs/queue.py:1417-1418 | the row a worker writes before the call says RUNNING |
| EngineLimits.TopUpWithinLimit | collapsarr/jobs/scheduler.py:1612-1681 | from any moment of any run until the next restart, at most AUTO_QUEUE_LIMIT of the jobs top-up created since then wait, although pending is counted once per pass from unlocked reads |
| EngineRestartLimit.TopUpLimitIff | collapsarr/jobs/scheduler.py:1629-1681 | over every run with any crashes and boots, at most AUTO_QUEUE_LIMIT jobs created by top-up wait in every state exactly when each boot finds at most that many of them among the rows it rehydrates |
| EngineRestartLimit.QuietCrashesSuffice | collapsarr/jobs/rehydrate.py:125-141 | the limit holds in every state of every run whose crashes find no row of a cancelled job and no claimed job whose row still says PENDING |
| EngineRefillRun.RestartOverfills | collapsarr/jobs/queue.py:1360-1418 | a run, for any more than AUTO_QUEUE_LIMIT files, worker set and settings, in which a crash between a claim and its RUNNING row leaves more than AUTO_QUEUE_LIMIT top-up jobs waiting after the boot, though no crash finds an orphan row |
| EngineProgress.WaitsDownOnly | collapsarr/jobs/scheduler.py:1612-1616 | a thread only ever waits on one further down the order shutdown, top-up lock, enqueue lock |
| EngineProgress.NoDeadlock | collapsarr/jobs/scheduler.py:402-417 | from any thread not at rest, a chain of at most three waits ends in a thread that can step |
| EngineProgress.NoDeadlockInAnyRun | collapsarr/jobs/queue.py:1549-1576 | the same in every state of every run: a worker's hook re-entering through `top_up` cannot deadlock |
| Cancellation.CancellationHandle.constructor | collapsarr/downmix/cancellation.py:127-130 | a new handle is not cancelled and tracks nothing |
| Cancellation.CancellationHandle.AttachLocked | collapsarr/downmix/cancellation.py:145-150 | tracks the process, or, once cancelled, hands it back to be killed |
| Cancellation.CancellationHandle.DetachLocked | collapsarr/downmix/cancellation.py:152-156 | forgets the process if it is the tracked one |
| Cancellation.CancellationHandle.CancelLocked | collapsarr/downmix/cancellation.py:166-170 | latches and hands back the tracked process to be killed |
| Cancellation.CancelReachesAll | collapsarr/downmix/cancellation.py:138-170 | in every interleaving a kill is issued, or about to be issued, for every process not yet detached when a cancel latches and every one attached later |
| Cancellation.DueCanStep | collapsarr/downmix/cancellation.py:149-170 | a kill that is due can be carried out at once, whatever the other threads do |
| Cancellation.NoWorkAfterCancel | collapsarr/downmix/cancellation.py:197-207 | a process attached after a latch is killed before its output is waited for |
| Cancellation.KilledForCause | collapsarr/downmix/cancellation.py:207-213 | nothing is killed that neither timed out nor was undetached when a cancel latched |
| Cancellation.TimeoutKills | collapsarr/downmix/cancellation.py:206-213 | in every interleaving a process that timed out is killed before the worker does anything else |
| Cancellation.ReapsTheKilled | collapsarr/downmix/cancellation.py:206-209 | what the worker reaps has timed out and been killed |
| Audio.BestMeaning | collapsarr/downmix/remux.py:339-345 | the widest stream, the lower container index among equals: nobody eligible beats it, none exists exactly when nobody is eligible |
| Audio.BestPicks | collapsarr/downmix/remux.py:339-345 | no stream of that language has more channels than the picked one, and none as many has a lower container index |
| Audio.BestUnique | collapsarr/downmix/default_audio.py:192-194 | there is never a second such position |
| Targets.ChannelsByLanguage | collapsarr/downmix/targets.py:121-128 | the dict holds exactly the channel counts of each allowed language |
| Targets.LackingTiers | collapsarr/downmix/targets.py:132-143 | for one language exactly its qualifying tiers, narrow to wide |
| Targets.QualifiesMeans | collapsarr/downmix/targets.py:101-145 | over the streams themselves: a target qualifies exactly when its tier is enabled, its language allowed, no stream of the language has exactly its channel count and some stream has more |
| Targets.DetectQualifyingTargets | collapsarr/downmix/targets.py:101-145 | exactly the enabled, allowed targets that no stream already has and some wider stream of their language could make, by language and then tier |
| Targets.DetectionUnique | collapsarr/downmix/targets.py:130-145 | that description determines the list |
| Targets.Converges | collapsarr/downmix/targets.py:135-143 | after a run that adds every pair it detected, detection under the same settings is empty |
| Targets.FinalMembers | collapsarr/downmix/targets.py:121-145 | closed form of any sequence of runs over channel counts: what was there plus whatever any of the settings asked for without copying it |
| Targets.Confluent | collapsarr/downmix/targets.py:121-145 | those channel counts depend only on the set of settings used, not on their order or repetition |
| Remux.ResolveSources | collapsarr/downmix/remux.py:322-348 | the loop gives each target its source, or the first target's error |
| Remux.SourcesMeaning | collapsarr/downmix/remux.py:337-348 | resolution succeeds exactly when every target's language is present, and each source is a widest stream of that language |
| Remux.SourcesFail | collapsarr/downmix/remux.py:340-344 | the first target without a candidate decides the error |
| Remux.BuildFails | collapsarr/downmix/remux.py:150-161 | raises exactly when there is nothing to do, when some target's language has no stream, or when the index is outside the output layout, in that order |
| Remux.DetectedSourcesWider | collapsarr/downmix/remux.py:337-348 | on detector output resolution never raises, and each source has strictly more channels than its target |
| Remux.CommandText | collapsarr/downmix/remux.py:163-197 | the typed options the interpreter reads are, argument by argument, the literal list the source appends to |
| Decimal.StrDigits | collapsarr/downmix/remux.py:181-190 | numbers in the options are written in decimal: a single digit is itself, ten times a number plus a digit is that number's text with the digit behind it, a negative one has a minus sign in front |
| Remux.BuildRemuxCommand | collapsarr/downmix/remux.py:97-197 | raises exactly on the stated errors, in order; otherwise the argument list is the literal one: fixed head, input, maps, blanket copy, per added track its codec, channels, layout, bitrate if configured and language, then every disposition flag, then the temp file |
| Ffmpeg.ParsesCommand | collapsarr/downmix/remux.py:163-197 | round trip: reading the argument list gives back the options it was built from |
| Ffmpeg.AddedCodecSays | collapsarr/downmix/remux.py:178-194 | read back from the argument list, in the settings' own fields: an added track has, by the tier of the target in its place, the stereo codec for stereo and the surround codec for 2.1 and 5.1, and the matching configured bitrate, or none when none is configured |
| Ffmpeg.OriginalTrackSays | collapsarr/downmix/remux.py:163-194 | an original track gets no codec, channel, bitrate or language option of its own, so the blanket copy applies; with an index every output track gets a flag, `default` exactly at the index |
| Ffmpeg.CommandRealizesPlan | collapsarr/downmix/remux.py:155-197 | interpreting the built command gives exactly the planned layout, for every file, plan and setting |
| Relayout.RunRealizes | collapsarr/downmix/remux.py:155-197 | re-probing the output shows the originals in order and then one track per target, made from the widest stream of its language |
| Relayout.LayoutPredicted | collapsarr/downmix/default_audio.py:155-178 | the layout the resolver predicts is the one produced: languages always, codecs the stereo or surround codec configured for the tier, channels unless that codec is a copy of something wider; with an index exactly that track is default |
| Relayout.OneDefault | collapsarr/downmix/remux.py:191-194 | with an index, exactly that output track carries the default flag |
| Relayout.ConvergesIff | collapsarr/downmix/targets.py:135-143 | detection on the produced layout is empty exactly when no added track is configured as a stream copy |
| Relayout.CopyStillMissing | collapsarr/downmix/remux.py:181-188 | a target configured as a copy of its source still qualifies after the run |
| Relayout.RunsMembers | collapsarr/downmix/targets.py:121-145 | over any sequence of probes, each the produced layout of a run on what the one before it detected: the last holds exactly the first's (language, channel count) pairs and those any run asked for without copying, whatever the codecs |
| Relayout.RunsConfluent | collapsarr/downmix/targets.py:121-145 | two such sequences from the same pairs, under the same set of settings in any order and repetition, end in the same pairs |
| CopyInputs.CopyLeavesItMissing | collapsarr/downmix/remux.py:314-319 | a concrete file and setting on which a run leaves its target as missing as before |
| Relayout.DetectedPlanBuilds | collapsarr/downmix/remux.py:150-161 | detected targets always build, without an index or with the resolver's, which is always in range |
| DefaultAudio.FindExactMatch | collapsarr/downmix/default_audio.py:181-189 | the first stream with the preferred language and channel count |
| DefaultAudio.ResolveMeaning | collapsarr/downmix/default_audio.py:89-100 | there is a winner exactly when there are two streams, and it is the exact match, else the best of the language, else the best of all |
| DefaultAudio.FinalAudioLayout | collapsarr/downmix/default_audio.py:155-178 | the originals followed by one predicted track per target, indexed after the highest original |
| DefaultAudio.OutputIndex | collapsarr/downmix/default_audio.py:140-152 | the index returned is in range of the final layout |
| DefaultAudio.ChecksAgree | collapsarr/jobs/scheduler.py:892-905 | the scheduler's check (the winner default, no other stream) and the pipeline's (the winner's index default, no other index) agree on every layout; both say "nothing to do" exactly when there are fewer than two streams or the winner is the one and only default; and the in-band resolver gives no index exactly when that holds of the final layout, and otherwise the winner of that layout |
| DefaultAudio.ResolveShape | collapsarr/downmix/default_audio.py:89-100 | the winner depends only on languages, channel counts and order, not on the container indices a later probe reports |
| Relayout.DefaultFixpoint | collapsarr/downmix/default_audio.py:140-152 | for detected targets and any codecs: after a run with the resolved index the same preference resolves to that track and finds nothing to change, exactly when the track is an original or not made by copying |
| Relayout.DispositionFixpoint | collapsarr/downmix/default_audio_pipeline.py:198-235 | whenever the disposition pipeline acts its command is accepted, and re-probing its output finds nothing to change |
| Relayout.InBandIff | collapsarr/downmix/default_audio.py:147-152 | for detected targets and any codecs: when the in-band resolver leaves the flags alone, the result still needs no change exactly when no added track is made from a default stream by copying or, if ffmpeg inherits flags, by encoding |
| Relayout.AutoSetIff | collapsarr/downmix/default_audio.py:103-152 | both cases in one: a downmix run with whatever the resolver returns settles the preference exactly when the flag lands where it was aimed |
| CopyInputs.CopyMovesTheDefault | collapsarr/downmix/default_audio.py:140-152 | a concrete file and preference on which a copied track gets the flag and the next look wants it moved back |
| CopyInputs.KeptFlagDoubles | collapsarr/downmix/default_audio.py:147-152 | a concrete file and preference on which the flags are left alone and the added track comes out as a second default |
| Pipelines.Disk.RunRemux | collapsarr/downmix/remux.py:236-298 | raises only before a temp file exists; otherwise ffmpeg is started with exactly the command built for these inputs, and a temp file is left exactly on exit code zero; the code reported is ffmpeg's |
| Pipelines.Disk.ApplyRemuxResult | collapsarr/downmix/apply.py:146-208 | replaces the original exactly when both probes report, the durations differ by at most the tolerance either way and the stream count is original plus added; any other end keeps the original and removes the temp |
| Pipelines.Disk.RunDownmixPipeline | collapsarr/downmix/pipeline.py:240-349 | for every combination of stage outcomes: no temp file stays, and the original is either untouched or replaced by a validated file, SUCCESS being exactly the second case; each outcome is characterised. The command ffmpeg is started with is returned, and whenever the new original is what that command says: the original streams are kept in order, every detected target is added as configured, without auto-set the originals keep their flags, with it exactly the track the preference wins in the final layout is flagged if that layout needs it; and what the next look finds is settled exactly as the codecs allow |
| Pipelines.Disk.RunDefaultAudioPipeline | collapsarr/downmix/default_audio_pipeline.py:179-297 | the same for the disposition pipeline, which does nothing exactly when its own check says so; whenever the new original is what the command it returns says, the streams are the same, exactly the preferred one is flagged and the next look finds nothing to do |
| Pipelines.CommandIsFaithful | collapsarr/downmix/remux.py:155-197 | an ffmpeg that does what the command says leaves the planned tracks |
| Pipelines.ToldDownmix | collapsarr/downmix/pipeline.py:240-349 | a file ffmpeg leaves by obeying the command of a downmix is as the settings and the preference ask, its other tracks included, and the next detection and the next default check find what the exact conditions say |
| Pipelines.ToldRepair | collapsarr/downmix/default_audio_pipeline.py:198-235 | a file ffmpeg leaves by obeying the command of a repair has the same streams, exactly the preferred one default, and needs nothing more |
| Pipelines.FaithfulIsValidated | collapsarr/downmix/apply.py:176-208 | the planned tracks always pass the stream-count check, so only the duration can make the swap reject them |
| Pipelines.DownmixSettles | collapsarr/downmix/pipeline.py:240-349 | after such a run the same settings find nothing to add, exactly unless a codec is set to copy |
| Pipelines.AutoSetSettles | collapsarr/downmix/pipeline.py:240-349 | after such a run that also sets the default track, the same preference finds nothing to change exactly when the flag lands |
| Pipelines.RepairSettles | collapsarr/downmix/default_audio_pipeline.py:198-235 | after such a repair the same preference finds nothing to change |
| LibraryModel.KeyInjective | collapsarr/library/models.py:58-82 | different upstream series, seasons, episodes and movies never share a node key |
| LibraryModel.KeyText | collapsarr/library/models.py:58-82 | the key spells out kind and ids: `series:7`, `season:7:1`, `episode:70`, `movie:9` |
| Catalog.KeptMembers | collapsarr/arr/catalog.py:225-244 | an episode is kept exactly when some entry of the list is an object whose `id` and `seasonNumber` are integers, with exactly those, its `episodeNumber` or 0, its `title` or the empty text, and whether `hasFile` is truthy |
| Catalog.KeptInOrder | collapsarr/arr/catalog.py:225-244 | what is kept of one list followed by another is what is kept of the first and then of the second: order stays, and each entry is read on its own |
| Catalog.ParseEpisodes | collapsarr/arr/catalog.py:207-244 | a non-list body is an error, otherwise the readable entries in order, each read field by field |
| Catalog.CollectSeasonNumbers | collapsarr/arr/catalog.py:247-263 | the listed seasons and those of the episodes, ascending, each once, so no fetched episode lacks its season |
| LibraryStore.Library.ListNodes | collapsarr/library/service.py:173-185 | the instance's rows by id, hidden ones included |
| LibraryStore.Library.ExistingByKey | collapsarr/library/service.py:300 | the dict finds exactly the instance's rows by what they stand for |
| LibraryStore.Library.UpsertNode | collapsarr/library/service.py:410-459 | creates or rewrites the one row of the reported node under the given parent and keeps the table well formed |
| LibraryStore.Library.SoftHideMissing | collapsarr/library/service.py:394-407 | hides exactly the instance's rows that were not seen |
| LibraryStore.Library.SyncSeries | collapsarr/library/service.py:303-360 | one series with its seasons and episodes: afterwards its rows say, field by field, what it says, each episode under the row of its season or else of its series |
| LibraryStore.Library.SyncSonarr | collapsarr/library/service.py:298-363 | afterwards exactly the series, seasons and episodes of the catalog are visible, and each row has the season, number, id, title and file flag the catalog last reported and hangs under the row of its season or series; as a state it equals the specification |
| LibraryStore.Library.SyncRadarr | collapsarr/library/service.py:366-391 | afterwards exactly the movies reported are visible, each with the id, title and file flag last reported; as a state it equals the specification |
| LibraryStore.Library.UpsertSeriesEpisodeNode | collapsarr/library/service.py:496-540 | the webhook upserts series, season and episode in that order, hides nothing, and returns the episode's row; the three rows say what the webhook says, the episode under that season, the season under that series |
| LibraryStore.Library.UpsertMovieNode | collapsarr/library/service.py:557-570 | the webhook upserts the movie, hides nothing and returns its row, which says what the webhook says |
| LibrarySync.SyncMirrors | collapsarr/library/service.py:298-363 | after a sync a node is visible exactly when reported, with its last report; ids, overrides and other instances are untouched; new rows are reported ones |
| LibraryCatalog.SyncShowsCatalog | collapsarr/library/service.py:298-363 | over the catalog alone: after a sync a row of the instance is visible exactly when the catalog holds that series, season or episode, and says what it last said of it |
| LibraryCatalog.SyncShowsMovies | collapsarr/library/service.py:366-391 | the same for a movie catalog |
| LibraryCatalog.ImportShows | collapsarr/library/service.py:496-540 | after an episode webhook the rows of its series, season and episode say what the webhook says and hang under each other |
| LibraryCatalog.MovieImportShows | collapsarr/library/service.py:557-570 | after a movie webhook the movie's row says what the webhook says |
| LibrarySync.ApplyAllReflects | collapsarr/library/service.py:432-459 | after a batch of upserts every reported node shows its last report |
| LibrarySync.ApplyAllExtends | collapsarr/library/service.py:432-459 | a batch adds rows and rewrites reported ones only; identities and overrides stay |
| LibraryLaws.SyncIdempotent | collapsarr/library/service.py:298-363 | syncing the same catalog twice leaves the rows of syncing it once |
| LibraryLaws.SyncKeepsParents | collapsarr/library/service.py:298-407 | a sync keeps every visible node's parent visible |
| LibraryLaws.SyncKeepsSeasons | collapsarr/library/service.py:339-353 | a sync of a fetched catalog keeps every visible episode under a season |
| LibraryLaws.CatalogOrderly | collapsarr/library/service.py:303-360 | every catalog reports parents before children; a fetched one leaves no episode without its season |
| LibraryLaws.WebhookOrderly | collapsarr/library/service.py:498-538 | so does a webhook |
| LibraryRuns.RunKeepsMirror | collapsarr/library/service.py:276-570 | in any run of fetched syncs, webhook upserts and toggles over any instances, every visible node's parent is visible and every visible episode hangs under a season |
| LibraryRuns.SourceLookupUnique | collapsarr/library/service.py:193-226 | a source-id lookup selects the one row with that key or none, never two |
| LibraryTracking.ResolveTracked | collapsarr/library/service.py:232-249 | the walk up the parents returns the nearest override, else the default, and terminates |
| LibraryTracking.NearestDecides | collapsarr/library/service.py:232-249 | the resolved value is the override of the nearest ancestor-or-self that has one, which is unique, and the default exactly when none has |
| LibraryTracking.ToggleResolves | collapsarr/library/service.py:603-626 | after a toggle every node of the subtree, hidden ones included, resolves to the new value and every node outside as before |
| LibraryTracking.NewNodesFollow | collapsarr/library/service.py:242-249 | nodes created later under the toggled node resolve to its value |
| LibraryRuns.ToggleLasts | collapsarr/library/service.py:576-626 | both survive any run of syncs and upserts until another toggle |
| LibraryWalk.WalkDone | collapsarr/library/service.py:615-619 | when the stack is empty the walk has visited exactly the nodes under its root |
| LibraryStore.Library.SetTracked | collapsarr/library/service.py:576-626 | fails exactly on an unknown id, changing nothing; otherwise the overrides of exactly the subtree are written |
| LibraryWalk.ViewResolves | collapsarr/library/service.py:645-647 | resolving over one instance's rows gives what the whole table gives |
| LibraryTree.SortIds | collapsarr/library/service.py:669-675 | a permutation in order, and stable: what ties keeps the order it had |
| Text.LexMeans | collapsarr/library/service.py:669 | the text order decides at the first place the texts differ, or by length when one begins the other |
| LibraryTree.BuildTree | collapsarr/library/service.py:632-728 | every visible series, season and episode is listed exactly once, under its parent, series by title and then id, seasons and episodes by number with ties in row order, each with its resolved tracked value |
| LibraryTree.TreeAfterAnyRun | collapsarr/library/service.py:632-728 | after any run of fetched syncs, webhook upserts and toggles the tree can be built: no integrity assertion fails and nothing visible is lost |
| LibraryWalk.LeavesUnder | collapsarr/jobs/routes.py:601-614 | the walk adds exactly the episodes and movies of the same subtree the toggle writes, each once, behind those already gathered, in depth-first order with the last child first |
| LibraryBulk.ResolveRoots | collapsarr/jobs/routes.py:576-591 | succeeds exactly when every reference names a node of its kind; otherwise the first bad one decides the error |
| LibraryBulk.CollectLeaves | collapsarr/jobs/routes.py:593-614 | the leaves of all roots' subtrees, each once, whatever the overlap, an earlier root's leaves before a later one's |
| LibraryBulk.LeafFiles | collapsarr/jobs/routes.py:616-641 | exactly the files tracked for those leaves in their own instance, each once, in the order first seen |
| Health.HealthStore.Reconcile | collapsarr/health/service.py:147-217 | rows and transitions are those of folding the results one by one, one row per key; a reported key's row shows the last result's category, severity, message and outcome and the time of the tick, and every other row is untouched |
| Health.ReconciledShows | collapsarr/health/service.py:147-217 | the same over the specification, for any rows and any results of a tick, repeated keys included |
| Health.HealthStore.Dismiss | collapsarr/health/service.py:105-130 | succeeds exactly on a failing row, stamping that row only |
| Health.HealthStore.Undismiss | collapsarr/health/service.py:133-144 | clears the stamp of that row only |
| Health.HealthStore.ListStates | collapsarr/health/service.py:72-77 | every row, by code and then instance |
| Health.HealthStore.ListFailing | collapsarr/health/service.py:80-95 | exactly the failing rows that are not dismissed, by code and then instance |
| Health.RunTracks | collapsarr/health/service.py:167-214 | over any run of ticks, dismissals and undismissals each key's transitions are exactly the edges of its own pass/fail history, its failure time the start of the current streak, its dismissal one made in that streak |
| Health.RunShowsLatest | collapsarr/health/service.py:147-217 | over any run of ticks, dismissals and undismissals a key's row shows what was last reported of it and when |
| Health.EdgesAlternate | collapsarr/health/service.py:198-210 | those transitions alternate failed and recovered, starting with failed, and end with failed exactly while the check is down |
| Health.StreakWhileDown | collapsarr/health/service.py:198-205 | there is a first failure time exactly while the check is failing |
| Health.FreshFailureShows | collapsarr/health/service.py:203-210 | a check that goes from up to down over a tick, however often it is reported in it, is listed with this failure time, whatever was dismissed before |

## Left out

- HTTP routes, authentication, sessions, the frontend, logging, notifications, Plex, the
  ffmpeg download and the HTTP clients: effects or inputs of the steps, with no property of their own here.
- SQLAlchemy, migrations and settings storage: rows are sequences or maps, settings are values read at a step.
- Timed `wait_idle` and `wait_no_running`, and the sleep between pause polls: a timeout only adds early returns, and a polling worker may tick at any time.
- The recently-processed window itself: its answer is a free choice at the step that reads it, and no cooldown is claimed, because a job turns terminal in memory before its row does.
- The media a top-up or scan walks over and the order it walks them in: any path may come next, and a walk may stop anywhere.
- Requeue, bulk requeue and the scan loop: they call the modelled triggers and add no state of the queue's.
- The monitored-file bookkeeping and the log caches with their lock: nothing modelled depends on them, and the lock is never held across another acquisition.
- Job results, errors, timestamps and the row's target, language and exit-code columns: carried along, never read by what is modelled.
- That a hard-cancelled job ends FAILED: it need not, when the cancel lands after its last subprocess; the kill itself is in `Cancellation`.
- EngineWaiting.NoLostWakeUp: is about untimed waits, and fairness of the condition variable is not modelled.
- Real processes, process groups and signals: a kill is one step.
- Probe output parsing: a probe is a list of streams.
- Extra languages a webhook or manual trigger adds to the settings: an enqueued job may carry any settings.
- Log lines and the detail texts of results.
- Timestamps, default-track columns and media joins of the tree and movie pages, and the movie list itself, which is a flat sort.
- The `sonarr_series_id` column of a node: set once when the row is created, and shown on the tree page.
- Catalog entries of movies: parsed like episodes, with fewer cases.
