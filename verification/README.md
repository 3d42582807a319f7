# KubeMapReduce in Dafny

This project models the orchestration and data path of KubeMapReduce and proves what they keep over every run
and every input. `dafny verify dfyconfig.toml` (Dafny 4.11) checks all of it.

## What is modelled

**Lease-fenced scheduler.** The tables JOBS, TASKS, TASK_ATTEMPTS, TASK_OUTPUTS and SYSTEM_CONFIG are one value
(`Dds.Db`), each SQL statement a function on it. `SchedulerSpec` says what each transaction decides and writes; the
class `Scheduler.Scheduler` performs the statements one after the other and is proved equal to it. `SchedulerRuns` is
the distributed system: any number of manager replicas, each with its own queues and heartbeat stamps, taking steps in
any order, restarting at any time, on one database clock; `SchedulerProcess` shows that every call on the class is a
sequence of these steps. `SchedulerMoves` bounds what any step may do to a row; `SchedulerInvariant` proves the inductive
invariant; `SchedulerHistory`, `Fencing`, `JobOutcomes`, `Commits`, `Phases`, `Retries`, `Leases` and `Stranded` prove the
whole-run theorems. `Quota` splits an assignment into its checks, its lock and its commit and interleaves them;
`SiteHistory` proves fencing and exactly-once commit there, and `Revival` says what it does to a dead job.
`HandOut`, `Reaper` and `RowEffects` say what a request for work, a reaper pass and the other transactions do on the plain row
fields, `LeaseHistory` which reports are accepted by what has happened in the run, and `Cleanups` how long staging can hold a
job back.
`PartitionLists` is the list of non-empty partitions a map task reports and `PartitionIndex` the rows the scheduler makes of
it. `TwoTaskJob` and `GapRun` build the concrete runs, step by step from an empty store; `FullPods` and `FullJob` build, for
every size, a run that fills the pod limit and one that carries a job to its end.

**Shuffle data path.** `Records` fixes the reference: there is exactly one stable sort of a sequence. `Heap`, `Merge`,
`Spill`, `HashPartition` and `ShufflePath` are the heap, the multi-pass merge, the spilling sorter, the hash partitioner
and their composition. `ShuffleChunks`, `PartitionWriter`, `ShuffleStore`, `ShuffleInterleaving`, `ShuffleDownload`
and `ShuffleRoundTrip` are the chunked transport; `ShufflePushes` sends all partitions of a job to one server in any order.
`ShuffleEndToEnd` puts the sort path, the transport and the assigned checksum lists together, and `ShuffleRun` shows that
these lists are what the scheduler's rows say in every run.
`WordCount` is the benchmark's combiner and reducer.

**Input.** `Lines` and `SplitReader` are the byte-range reader, `SplitErrors` its window and errors, `InputSplits` the tiling of
one object and the whole-file theorem, `GreedyLoads` and `InputBuckets` the distribution of many objects over map tasks, and
`PlanSize` the number and the size of these.

**Outbox and rate limit.** `Outbox` is the relay protocol over the event table, `OutboxRetention` when a row is claimed again and
what a purge removes; `RateLimit` the token bucket and the per-user limiter.

## Findings

Where the code does not meet what its comments promise, the model follows the code, a lemma shows the failing input,
and another says exactly when it does not fail.

- A heartbeat taken by a replica that does not own the job leaves the owner's in-memory stamp old, and the owner reclaims
  a task whose lease is still good (`Leases.RenewalElsewhereIsReaped`). Which renewals do so: `Leases.StampsStayIff`.
- After a reaper pass that returns a task to Idle, every other In-Progress task of that job keeps a Failed attempt. No reaper
  pass ever reclaims it, nobody is handed it and the job cannot complete until its worker reports, the job is cancelled or the
  replica recovers (`Stranded.SiblingStranded`, `Stranded.StrandedUntilFreed`; exact conditions `Stranded.BecomesStrandedIff`
  and `Stranded.StaysStrandedIff`).
- An attempt already marked Failed can still commit (`Stranded.RestartedAttemptCommits`, `Commits.FailedAttemptMayCommit`),
  exactly while its task is stranded with it, the job is live and the lease good (`Stranded.FailedCommitsIff`).
- A dead job comes back to life when an assignment that passed its checks before the job died commits afterwards
  (`Revival.DeadJobRevived`), and only then (`Revival.RevivedIff`, `Revival.RevivalIff`). Such a job cannot complete and no
  cleanup finishes it: it stays Running until it is cancelled or another of its tasks is used up (`Revival.RevivedRunsOn`,
  exact per step `Revival.RunsOnIff`).
- A Failed job is reopened by a reaper pass that exhausts another of its tasks (`JobOutcomes.FailedCanReopen`,
  `JobOutcomes.TerminalChangesIff`).
- The recorded partition index is the list position, so with a gap among a map task's non-empty partitions a reducer is
  assigned checksums of another partition, and one that has data can be skipped. The data stays on the server under its own
  partition, so it is lost, not misrouted (`GapRun.SkippedWithData`, `ShuffleEndToEnd.GapLosesRecord`). Checksums are matched
  in commit order and segments arrive in push order, so an order of pushes other than that of the commits is refused too
  (`ShuffleEndToEnd.SwappedPushHarms`). Exactly when every reducer gets its records: `ShuffleEndToEnd.ShuffleThroughServer`,
  with the assigned lists tied to the rows of any run by `ShuffleRun.AssignedInRun`; a gap need not do harm
  (`ShuffleEndToEnd.HarmlessGap`), and gap-free tasks pushed in commit order never do (`ShuffleEndToEnd.GapFreeHarmless`).
- A map task that fails leaves its open partition streams to an abort that ends them normally, so the server keeps the whole
  chunks sent so far as an output (`ShuffleRoundTrip.WriteAndAbort`). The reducer then never gets exactly the assigned list
  (`ShuffleDownload.PartialNeverExact`), and after a retry it is refused unless the digests coincide
  (`ShuffleDownload.RetryAfterAbort`).
- The range download stops at the first 1 MiB chunk that holds any newline, so a default 64 MiB split is cut short, and
  silently, because a window shorter than the range also skips the checksum (`InputSplits.DefaultSplitTruncated`; exact
  condition `InputSplits.ReadThroughSplits`). The comment on `getRawRange` says otherwise.
- Shuffle segments are matched to assigned checksums by position, and their number is never compared: a different order
  is refused and a repeated push is delivered twice (`ShuffleDownload.SwappedOrderRefused`, `ShuffleDownload.RepushedTwice`;
  exact condition `ShuffleDownload.DeliversAssignedIff`).
- A rate below one request per second refuses everything (`RateLimit.BelowOneRefusesAll`, exact condition
  `RateLimit.ServesIff`), and with an idle limit below a second an evicted user can be answered differently (`RateLimit.ShortIdleVisible`,
  exact condition `RateLimit.EvictionInvisibleIff`).

## Model

| member | source | states |
|---|---|---|
| `Scheduler.Scheduler.SelectIdleTask` | manager-service/internal/manager/queries.go:54-61 | the loop finds a row that no unlocked idle row precedes in (replica_index, task_id) order, and fails only if there is none |
| `Scheduler.Scheduler.TryAssign` | manager-service/internal/manager/scheduler.go:444-520 | assigns the selected row iff one exists and a pod slot is free; reports a full quota iff one exists and none is free |
| `Scheduler.Scheduler.AutoCompleteEmptyReduces` | manager-service/internal/manager/scheduler.go:399-442 | completes exactly the Idle reduce tasks without inputs, and moves the job to Cleaning iff that leaves nothing pending |
| `Scheduler.Scheduler.GetNextTask` | manager-service/internal/manager/scheduler.go:268-393 | which of the eight answers is given for every state, the exact new rows and memory, and that every other answer rolls back |
| `Scheduler.Scheduler.NextReduce` | manager-service/internal/manager/scheduler.go:343-392 | the part of GetNextTask after the map phase: skip, assign, wait or report completion, with the exact new state |
| `Scheduler.DoneIff` | manager-service/internal/manager/scheduler.go:368-392 | a job is reported completed iff, after skipping empty partitions, no task of either kind is unfinished |
| `HandOut.AnswerIff` | manager-service/internal/manager/scheduler.go:268-393 | each of the eight answers and exactly when it is given, on the task rows, the number of Running attempts and the stored limit (ten if none) |
| `HandOut.LeastMap` | manager-service/internal/manager/queries.go:54-61 | a map task is handed out iff the job is served, a slot is free and it has the least id of the replica's unlocked Idle map tasks of the job |
| `HandOut.LeastReduce` | manager-service/internal/manager/queries.go:54-61 | a reduce task is handed out iff moreover the maps are done and it has the least partition, then the least id, of the unlocked Idle ones with input |
| `FullPods.LimitReached` | manager-service/internal/manager/scheduler.go:538-569 | for every limit n a run from any empty store has exactly n Running attempts, and the next request for a free task finds no room |
| `FullJob.Completable` | manager-service/internal/manager/scheduler.go:268-1010 | for any number of tasks and any positive limit a run from any empty store commits every task and ends with the job Completed and nothing to clean up |
| `Scheduler.Scheduler.RenewLease` | manager-service/internal/manager/scheduler.go:1016-1066 | succeeds iff the fence and the lease check accept; then renews the row and stamps the heartbeat, else changes nothing |
| `Scheduler.Scheduler.CompleteTask` | manager-service/internal/manager/scheduler.go:882-1010 | the verdict in every case; on success the whole commit, including the row per output and the cleanup of a finished job; else nothing |
| `Scheduler.Scheduler.FailTask` | manager-service/internal/manager/scheduler.go:1150-1252 | the verdict in every case; on success Idle or Failed by the attempt count, and the job's move to Cleaning; else nothing |
| `RowEffects.CommitRows` | manager-service/internal/manager/scheduler.go:942-1010 | the rows and memory after a commit; the job goes to Cleaning, to be Completed, iff no other task of it is unfinished |
| `RowEffects.FailureRows` | manager-service/internal/manager/scheduler.go:1193-1252 | the rows and memory after a reported failure: Idle before the third attempt, else Failed and the job in Cleaning, to be Failed |
| `Scheduler.Scheduler.FailStaleTasks` | manager-service/internal/manager/scheduler.go:1259-1405 | one reaper pass reclaims exactly the expired held tasks, then fails the Running attempts of the jobs with retried tasks |
| `Scheduler.Scheduler.ReapRows` | manager-service/internal/manager/scheduler.go:1303-1342 | the row loop, in any order the query returns, equals the set-at-once description of the pass |
| `Reaper.ReclaimedIff` | manager-service/internal/manager/queries.go:229-243 | an unlocked running task of the replica, of either kind, is taken from its worker iff nothing was heard for lease plus tolerance; Idle before the third attempt, else Failed with its job in Cleaning |
| `Reaper.TaskAfter` | manager-service/internal/manager/scheduler.go:1303-1325 | every task row after a pass, from the rows before it |
| `Reaper.JobAfter` | manager-service/internal/manager/scheduler.go:1330-1367 | every job row after a pass, and the cleanup queued for it |
| `Reaper.AttemptAfter` | manager-service/internal/manager/scheduler.go:1317-1394 | every attempt row after a pass and its follow-up: a Running attempt fails iff its task was silent or its job retries a task |
| `Scheduler.Scheduler.CancelJob` | manager-service/internal/manager/scheduler.go:1069-1144 | fails every unfinished task and Running attempt of a job that may still move to Cleaning; a no-op on a terminal job |
| `RowEffects.CancelIff` | manager-service/internal/manager/scheduler.go:1078-1095 | a job can be cancelled iff it is Pending, Running or Cleaning |
| `RowEffects.CancelStops` | manager-service/internal/manager/scheduler.go:1069-1144 | a cancelled job has only the tasks Completed that were, the rest Failed, nothing running and its cleanup queued as Cancelled; other jobs are untouched |
| `RowEffects.CancelledRefuses` | manager-service/internal/manager/scheduler.go:1069-1144 | every report about one of its tasks is refused, whatever attempt and lease |
| `Scheduler.Scheduler.ScheduleJob` | manager-service/internal/manager/scheduler.go:694-777 | inserts all rows iff the counts match and no task id repeats or exists; otherwise writes nothing |
| `RowEffects.ScheduleRows` | manager-service/internal/manager/scheduler.go:713-751 | every requested task is an Idle row; map tasks lie on the job's replica, whatever index they asked for, and can be handed out there; reduce tasks keep their partition; an existing job row stays |
| `RowEffects.ValidIff` | manager-service/internal/manager/scheduler.go:641-680 | a request passes validation iff it has at least one task of each kind and as many of each as it says |
| `Scheduler.Scheduler.InsertRows` | manager-service/internal/manager/scheduler.go:729-751 | the insert loop fails iff some id is taken or repeated, and otherwise yields the old rows plus all new ones |
| `Scheduler.Scheduler.PopPendingCleanup` | manager-service/internal/manager/scheduler.go:1555-1575 | moves exactly min(limit, queued) entries out of the queue, unchanged; a limit of zero or less means all |
| `Scheduler.Scheduler.FinalizeJob` | manager-service/internal/manager/scheduler.go:1577-1649 | requeues when staging, the transition or the workers refuse; otherwise writes the terminal state and forgets the retries |
| `SchedulerProcess.GetNextTask` | manager-service/internal/manager/scheduler.go:268-393 | a request for work is no step, or the one enabled assignment or skip step that its answer names |
| `SchedulerProcess.RenewLease` | manager-service/internal/manager/scheduler.go:1016-1066 | an accepted renewal is one enabled step, a refused one none |
| `SchedulerProcess.CompleteTask` | manager-service/internal/manager/scheduler.go:882-1010 | an accepted commit is one enabled step, a refused one none |
| `SchedulerProcess.FailTask` | manager-service/internal/manager/scheduler.go:1150-1252 | an accepted failure report is one enabled step, a refused one none |
| `SchedulerProcess.FailStaleTasks` | manager-service/internal/manager/scheduler.go:1259-1405 | a reaper pass is one enabled reclaiming step followed by one flush step per job with retried tasks |
| `SchedulerProcess.CancelJob` | manager-service/internal/manager/scheduler.go:1069-1144 | a cancellation is one enabled step iff the job may still move to Cleaning |
| `SchedulerProcess.ScheduleJob` | manager-service/internal/manager/scheduler.go:694-777 | scheduling a job that has no tasks is one enabled step iff it is accepted |
| `SchedulerProcess.RecoverFailAttempts` | manager-service/internal/manager/scheduler.go:202-207 | the first recovery statement is a restart step, after which the replica has no Running attempt and nothing in memory |
| `SchedulerProcess.RecoverResetTasks` | manager-service/internal/manager/scheduler.go:209-214 | the second is the step that ends the recovery, after which no task of the replica is In-Progress |
| `RowEffects.RestartRows` | manager-service/internal/manager/queries.go:245-256 | the first recovery statement fails exactly the Running attempts of the replica's jobs and leaves every other row |
| `RowEffects.ResetRows` | manager-service/internal/manager/queries.go:257-262 | the second returns exactly the In-Progress tasks of the replica's jobs to Idle and leaves every other row |
| `RowEffects.DerivedIs` | manager-service/internal/manager/scheduler.go:1739-1756 | a cleanup whose end is not known ends as Completed iff every task of the job is, else as Failed |
| `RowEffects.RederiveQueues` | manager-service/internal/manager/scheduler.go:1655-1737 | a job past Running is queued again for cleanup as its tasks say, or as unknown when they cannot be read |
| `SchedulerProcess.PopPendingCleanup` | manager-service/internal/manager/scheduler.go:1555-1575 | taking a batch of cleanups is one enabled step |
| `SchedulerProcess.FinalizeJob` | manager-service/internal/manager/scheduler.go:1577-1649 | finishing a popped cleanup is one enabled step |
| `SchedulerProcess.CallsKeep` | manager-service/internal/manager/scheduler.go:202-1756 | so the invariant of all runs holds of the state any sequence of such calls leaves |
| `SchedulerMoves.AssignMapMoves` | manager-service/internal/manager/scheduler.go:305-328 | a map assignment changes rows only as the move relation allows |
| `SchedulerMoves.AssignReduceMoves` | manager-service/internal/manager/scheduler.go:343-363 | so does a reduce assignment together with the skipping of empty partitions |
| `SchedulerMoves.CompleteMoves` | manager-service/internal/manager/scheduler.go:942-985 | so does a commit |
| `SchedulerMoves.FailMoves` | manager-service/internal/manager/scheduler.go:1193-1225 | so does a reported failure |
| `SchedulerMoves.ReapMoves` | manager-service/internal/manager/scheduler.go:1303-1342 | so does a reaper pass |
| `SchedulerMoves.CancelMoves` | manager-service/internal/manager/scheduler.go:1069-1144 | so does a cancellation |
| `SchedulerMoves.ResetMoves` | manager-service/internal/manager/queries.go:257-262 | so does the recovery reset, given that no attempt of the replica is Running |
| `SchedulerInvariant.StepMoves` | manager-service/internal/manager/scheduler.go:202-1756 | every event of the system changes rows only as the move relation allows |
| `SchedulerInvariant.NewTickets` | manager-service/internal/manager/scheduler.go:1545-1553 | every cleanup that an event queues is true of its job in the state the event leaves |
| `SchedulerInvariant.StepBoot` | manager-service/internal/manager/scheduler.go:202-214 | between the two recovery statements the replica's jobs have no Running attempt, whatever else happens |
| `SchedulerInvariant.StepInv` | manager-service/internal/manager/scheduler.go:202-1756 | the invariant (rows, jobs, phase barrier, single success, outputs, queued cleanups, recovery) is inductive |
| `SchedulerInvariant.RunInv` | manager-service/internal/manager/scheduler.go:202-1756 | it holds in every state of every run |
| `SchedulerHistory.RunGrows` | manager-service/internal/manager/queries.go:148-202 | between any two states of a run: Completed, Failed and Success are absorbing, no row points back at an attempt it has left, outputs only grow |
| `Fencing.LeftForever` | manager-service/internal/manager/scheduler.go:919-940 | with atomic assignments, once a task has left an attempt, every renew, complete and fail by it is refused in every later state, whatever lease it shows |
| `Fencing.NewerAttemptFences` | manager-service/internal/manager/scheduler.go:444-520 | once a newer attempt has been created, no earlier attempt acts on the task again in the rest of the run |
| `Fencing.ReclaimFences` | manager-service/internal/manager/scheduler.go:1182-1191 | a task returned by reaper, recovery, failure or cancel refuses all its attempts so far, for ever |
| `LeaseHistory.VerdictIff` | manager-service/internal/manager/queries.go:163-170 | the three verdicts on the row fields: held by this attempt, this lease, heard of within lease plus tolerance, and for a commit or failure a live job |
| `LeaseHistory.RowsTell` | manager-service/internal/manager/scheduler.go:494-515 | in every run an attempt row exists iff an assignment created it, and holds that task and lease and the time of the last assignment or renewal |
| `LeaseHistory.HoldsIff` | manager-service/internal/manager/scheduler.go:1182-1342 | in every run a task is In-Progress with an attempt iff it was handed to it and no report, cancel, recovery or reaper pass after silence has come since |
| `LeaseHistory.AcceptedIff` | manager-service/internal/manager/scheduler.go:882-940 | in every state of every run a report is accepted iff, by the events so far, its worker still holds the task, shows the lease it was given and was heard of in time, and for a commit or failure the job is live |
| `LeaseHistory.ReportsCarryLease` | manager-service/internal/manager/queries.go:163-170 | every renew, commit or failure in a run carries the task and lease of the assignment that created its attempt |
| `SiteHistory.SiteGrows` | manager-service/internal/manager/queries.go:148-202 | the same growth of rows between any two states when the parts of assignments interleave |
| `SiteHistory.SiteLeftForever` | manager-service/internal/manager/scheduler.go:919-940 | in every interleaving an attempt that its task has left is refused for ever |
| `SiteHistory.SiteNewerFences` | manager-service/internal/manager/scheduler.go:444-520 | in every interleaving the commit of an assignment fences every earlier attempt of the task |
| `SiteHistory.SiteReclaimFences` | manager-service/internal/manager/scheduler.go:1182-1191 | in every interleaving a task that is no longer In-Progress refuses its former attempts for ever |
| `LeaseHistory.SiteReportsCarryLease` | manager-service/internal/manager/queries.go:163-170 | the same in every interleaving, for the commit that created the attempt |
| `JobOutcomes.DeadForever` | manager-service/internal/manager/scheduler.go:285-327 | with atomic transactions, a job in Cleaning or a terminal state stays dead, has a Failed task or only Completed ones, and no task of it is assigned, committed or skipped again |
| `JobOutcomes.FailedNeverCompletes` | manager-service/internal/manager/scheduler.go:1739-1756 | a job that ever has a Failed task is Completed in no state of the run |
| `JobOutcomes.CompletedForever` | manager-service/internal/manager/scheduler.go:1577-1649 | a Completed job has only Completed tasks and neither changes again |
| `JobOutcomes.QueuedCleanupsTruthful` | manager-service/internal/manager/scheduler.go:1655-1737 | every queued or running cleanup names a state that is true of its job |
| `JobOutcomes.TerminalChangesIff` | manager-service/internal/manager/scheduler.go:1326-1336 | a terminal job changes iff a reaper pass exhausts one of its tasks, and then it was Failed and becomes Cleaning |
| `JobOutcomes.FailedCanReopen` | manager-service/internal/manager/scheduler.go:1326-1336 | a run from the empty store in which a reaper pass moves a Failed job back to Cleaning |
| `JobOutcomes.ScheduleNeedsLiveJob` | manager-service/internal/manager/scheduler.go:713-751 | adding tasks to an existing job keeps the job invariant iff the job is live, or has a Failed task and is not Cancelled |
| `Cleanups.FinalizesIff` | manager-service/internal/manager/scheduler.go:1577-1649 | the finalization of a Cleaning job writes its terminal state iff staging is off, its objects are gone or ten tries were made; it is queued again iff that or the workers fail |
| `Cleanups.HeldBackAtMostTen` | manager-service/internal/manager/scheduler.go:1584-1600 | over any stretch without a restart or a finished cleanup of the job, staging holds its finalization back at most ten times |
| `Commits.StepOutputs` | manager-service/internal/manager/scheduler.go:952-965 | only the commit of a task writes its output rows, and it writes the whole list |
| `Commits.CommitForever` | manager-service/internal/manager/scheduler.go:882-1010 | after a commit: Completed for ever, that attempt the only Success for ever, the rows exactly that list, and no event touches the task again |
| `Commits.CommitOnce` | manager-service/internal/manager/scheduler.go:882-1010 | a task is committed at most once in a run |
| `Commits.CommitHappened` | manager-service/internal/manager/scheduler.go:882-1010 | an output row or a Success exists only because of that commit |
| `SiteHistory.SiteCommitForever` | manager-service/internal/manager/scheduler.go:882-1010 | in every interleaving a committed task keeps its status, its only Success and exactly its rows, and is neither handed out nor committed again |
| `SiteHistory.SiteCommitOnce` | manager-service/internal/manager/scheduler.go:882-1010 | in every interleaving a task is committed at most once |
| `Commits.FailedAttemptMayCommit` | manager-service/internal/manager/scheduler.go:1389-1389 | wherever a commit is possible, it is still possible after the follow-up statement marked the attempt Failed |
| `Stranded.StaysStrandedIff` | manager-service/internal/manager/queries.go:229-243 | an event leaves a stranded task exactly as it is, unless it is the worker's report, the job's cancellation or the replica's recovery |
| `Stranded.BecomesStrandedIff` | manager-service/internal/manager/queries.go:208-216 | a task becomes stranded iff it is In-Progress and one of the two statements that fail attempts alone hits it |
| `Stranded.StrandedUntilFreed` | manager-service/internal/manager/scheduler.go:1266-1303 | over any run, until freed a stranded task keeps its attempt, is in no replica's reaper batch, is handed to nobody and stays among its job's pending tasks |
| `Stranded.ReapStrandsSiblings` | manager-service/internal/manager/scheduler.go:1371-1394 | a reaper pass that retries a task of a job, with its follow-up, strands every In-Progress sibling it did not reclaim |
| `Stranded.SiblingStranded` | manager-service/internal/manager/scheduler.go:1371-1394 | a run from the empty store in which a task is stranded that way while its lease is good and its commit would be accepted |
| `Stranded.StatusNotFenced` | manager-service/internal/manager/scheduler.go:919-940 | marking any attempts Failed changes no verdict on a commit or failure report |
| `Stranded.FailedCommitsIff` | manager-service/internal/manager/scheduler.go:901-940 | a Failed attempt may commit iff its task is stranded with it, the job is live and the lease good |
| `Stranded.RestartedAttemptCommits` | manager-service/internal/manager/scheduler.go:202-214 | a run from the empty store in which an attempt that recovery marked Failed commits through another replica |
| `Phases.Barrier` | manager-service/internal/manager/scheduler.go:333-366 | a reduce task starts or is completed only when all map tasks of its job are Completed |
| `Phases.StableInputs` | manager-service/internal/manager/queries.go:106-115 | from then on its input list never changes |
| `Phases.RetriesSeeSameInputs` | manager-service/internal/manager/queries.go:106-115 | so every retry of a reduce task that was ever started is given the same inputs |
| `Phases.SkippedStaysEmpty` | manager-service/internal/manager/queries.go:125-139 | a reduce task that was skipped has no inputs in any later state |
| `Retries.AttemptBound` | manager-service/internal/manager/scheduler.go:1193-1207 | a task's attempts never exceed the limit plus the recoveries of its replica |
| `Retries.RankMove` | manager-service/internal/manager/scheduler.go:1317-1325 | a measure on tasks that every status change lowers, except a recovery reset |
| `Retries.PotentialPays` | manager-service/internal/manager/scheduler.go:1317-1325 | over any stretch without new tasks or recovery, the working events are paid for by the fall of the measure |
| `Retries.WorkRunsOut` | manager-service/internal/manager/scheduler.go:1193-1207 | in such a stretch at most six assign, commit, fail, skip or reclaim events happen per task |
| `Leases.RunStamps` | manager-service/internal/manager/scheduler.go:1045-1063 | while no renewal at another replica overtakes an older stamp of the owner, the owner's stamp is never older than the row, in every run |
| `Leases.StampsStayIff` | manager-service/internal/grpc/server.go:141-165 | of all events only a renewal can leave the owner's stamp behind the row, and it does iff it is taken elsewhere while the owner has an older stamp |
| `Leases.ReaperAgrees` | manager-service/internal/manager/scheduler.go:1303-1315 | then a task the reaper reclaims holds a lease the commit check rejects, except at the instant of equality |
| `Leases.DisagreeIff` | manager-service/internal/manager/queries.go:163-170 | the two checks disagree for an interval iff the stamp is older than the row |
| `Leases.RenewalElsewhereIsReaped` | manager-service/internal/grpc/server.go:141-165 | a run from the empty store: a renewal through another replica, after which the owner reclaims a task whose lease is good for 29 more seconds |
| `Quota.NeverOversubscribed` | manager-service/internal/manager/scheduler.go:538-569 | with the checks, the lock-and-read and the insert-and-commit of assignments interleaved over any number of replicas, restarts included, Running attempts never exceed the largest limit so far |
| `Quota.AssignIsThreeSteps` | manager-service/internal/manager/scheduler.go:494-515 | the three fine steps back to back do what the atomic assignment does |
| `Quota.RunIsSiteRun` | manager-service/internal/manager/scheduler.go:268-393 | every run with atomic assignments is one of the interleaved runs |
| `Quota.SiteRunOk` | manager-service/internal/manager/scheduler.go:444-520 | in every interleaving the row and recovery invariants hold, and every open assignment is of a task of a job its replica owns while that replica is up |
| `Quota.OneRunningPerTask` | manager-service/internal/manager/queries.go:35-39 | in every state of every interleaving a Running attempt is the current one of an In-Progress task, so a task has at most one |
| `Quota.LoweredLimitExceeded` | manager-service/internal/manager/scheduler.go:824-835 | lowering the limit below the number of Running attempts is always possible and leaves them all running |
| `Revival.RevivedIff` | manager-service/internal/manager/scheduler.go:316-327 | over the interleaved steps, a dead job becomes live iff the step is the commit of an assignment of one of its tasks |
| `Revival.RevivalIff` | manager-service/internal/manager/scheduler.go:285-327 | an assignment finds its job dead at commit iff a step between its checks and its commit killed it; it leaves the job live in any case |
| `Revival.KillerIs` | manager-service/internal/manager/scheduler.go:1193-1225 | that step is the last allowed failure of another task of the job, reported or found by the reaper |
| `Revival.DeadJobRevived` | manager-service/internal/manager/scheduler.go:316-327 | a run from the empty store in which a Cleaning job with a Failed task becomes Running |
| `Revival.RunsOnIff` | manager-service/internal/manager/scheduler.go:967-977 | a Running job with a Failed task is ended by a step iff it cancels the job or uses up another of its tasks |
| `Revival.RevivedRunsOn` | manager-service/internal/manager/scheduler.go:285-327 | so over any interleaving it stays Running until then, and no request for its work passes the checks |
| `PartitionLists.PositionIsPartition` | worker-service/internal/worker/map.go:198-230 | list position equals partition for every entry iff the non-empty partitions are 0..k-1 |
| `PartitionIndex.ServedIffPrefix` | manager-service/internal/manager/queries.go:106-115 | every reduce task is assigned exactly the rows of its own partition iff no map task left a gap |
| `PartitionIndex.LooksEmptyIff` | manager-service/internal/manager/queries.go:125-139 | a reduce task looks empty iff no map task reported more outputs than its index |
| `PartitionLists.MapTaskReports` | worker-service/internal/worker/map.go:198-230 | the list a map task reports is the ascending list of its non-empty partitions |
| `PartitionIndex.SkippedWrote` | manager-service/internal/manager/scheduler.go:399-442 | a reduce task skipped as empty had records in some map output iff a map task that wrote its partition left a gap |
| `PartitionIndex.MapCommitted` | manager-service/internal/manager/scheduler.go:882-1010 | a Completed map task was committed earlier in the run |
| `PartitionIndex.RunServes` | manager-service/internal/manager/scheduler.go:952-965 | in every run, after the map phase: every reduce task is assigned exactly the rows of its partition iff no map task left a gap, and a skipped one had records iff one of their writers left a gap |
| `PartitionLists.GapExample` | worker-service/internal/worker/map.go:302-309 | with two reducers a single record with key "b" leaves a gap |
| `GapRun.SkippedWithData` | manager-service/internal/manager/scheduler.go:399-442 | a run from the empty store in which the reduce task of partition 1 is skipped although a map task wrote its record, whose row goes to the task of partition 0 |
| `Records.StableSortSorts` | worker-service/internal/shuffle/merge.go:194-199 | the reference sort is a stable sort by key |
| `Records.StableSortUnique` | worker-service/internal/shuffle/merge.go:194-199 | there is only one stable sort of a sequence |
| `Records.KeyLtIs` | worker-service/internal/shuffle/merge.go:194-199 | the key order: by the first byte that differs, a prefix before what it begins |
| `Records.SortedContiguous` | worker-service/internal/worker/reduce.go:222-260 | in a sorted stream the records of a key lie together |
| `Heap.RecordHeap.Push` | worker-service/internal/shuffle/merge.go:200-205 | keeps heap order and adds exactly one item |
| `Heap.RecordHeap.Pop` | worker-service/internal/shuffle/merge.go:206-212 | removes exactly one item, one that is least by key and then stream index, and keeps heap order |
| `Merge.HeapMerge` | worker-service/internal/shuffle/merge.go:215-270 | keeps every record whatever the inputs; on sorted inputs the output is the stable sort of their concatenation |
| `Merge.MergePass` | worker-service/internal/shuffle/merge.go:100-150 | one pass: the number of spill files, and that they carry the same records, sorted and key by key in order |
| `Merge.MergeInputs` | worker-service/internal/shuffle/merge.go:68-183 | for every batch size the stable sort of the concatenation, with the exact pass, peak, spill and record counts |
| `Merge.MergeIsTheSort` | worker-service/internal/shuffle/merge.go:68-183 | hence equal to the reference sort, and the multi-pass form to the single-pass form |
| `Merge.PassesBound` | worker-service/internal/shuffle/merge.go:100-150 | the pass count p is the least with n <= b^p |
| `Spill.SpillingSorter.Add` | worker-service/internal/worker/spill.go:78-85 | adds one record, spills iff the byte budget is reached, keeps earlier files |
| `Spill.SizeIs` | worker-service/internal/worker/spill.go:78-85 | the budget counts every byte of keys and values and 32 per record |
| `Spill.SpillingSorter.SpillBuffer` | worker-service/internal/worker/spill.go:96-131 | moves the buffer to one more sorted file and loses nothing |
| `Spill.SpillingSorter.Finalize` | worker-service/internal/worker/spill.go:140-175 | a sorted permutation of every record ever added |
| `HashPartition.HashKey` | worker-service/internal/worker/map.go:302-309 | the FNV-32a loop, wrap-around included, and a partition below R |
| `HashPartition.KnownHashes` | worker-service/internal/worker/map.go:302-309 | the published hash values of four keys |
| `HashPartition.PartitionOfB` | worker-service/internal/worker/map.go:308-308 | two partitions of one key, which depend on the sign bit being cleared |
| `HashPartition.SortInPlace` | worker-service/internal/worker/map.go:218-230 | the in-place insertion sort equals the specification sort |
| `HashPartition.SortIntsAscends` | worker-service/internal/worker/map.go:218-230 | which is ascending |
| `HashPartition.SortIntsPermutes` | worker-service/internal/worker/map.go:218-230 | and a permutation |
| `ShufflePath.PartitionRecords` | worker-service/internal/worker/map.go:150-210 | one writer per non-empty partition holding exactly its records in order; partitions closed in strictly ascending order |
| `ShufflePath.MapTask` | worker-service/internal/worker/map.go:146-210 | a map task without combiner: its writers partition a sorted permutation of its records |
| `ShufflePath.ReduceInput` | worker-service/internal/worker/reduce.go:222-260 | a reducer's stream is the stable sort of the non-empty partition streams |
| `ShufflePath.Deliver` | worker-service/internal/worker/map.go:150-196 | such a stream holds each record that hashes to it with its multiplicity, sorted, each key together, and nothing else |
| `ShufflePath.Shuffle` | worker-service/internal/worker/map.go:150-196 | that for every partition, for any mapper outputs, reducer count, spill threshold and batch size |
| `PartitionWriter.ShufflePartitionWriter.Write` | worker-service/internal/worker/partition_writer.go:73-88 | what was sent plus what is buffered is what was hashed; less than a chunk waits |
| `PartitionWriter.ShufflePartitionWriter.Close` | worker-service/internal/worker/partition_writer.go:90-110 | everything written has been sent and the checksum is its digest; a second close fails and sends nothing |
| `PartitionWriter.ShufflePartitionWriter.Abort` | worker-service/internal/worker/partition_writer.go:112-118 | an aborted writer has sent exactly the whole chunks of what was written; what waits is never sent |
| `ShuffleChunks.WholeIff` | worker-service/internal/worker/partition_writer.go:73-88 | these are all that was written iff its length is a multiple of the chunk size, and nothing iff it is below one chunk |
| `ShuffleStore.ShuffleServer.Receive` | manager-service/internal/grpc/shuffle.go:77-107 | the answer to every chunk, given the pushes accepted so far |
| `ShuffleStore.ShuffleServer.Finish` | manager-service/internal/grpc/shuffle.go:47-76 | all of a push is stored or none; stored bytes, both counters and both limits stay right |
| `ShuffleStore.ShuffleServer.GetShuffleData` | manager-service/internal/grpc/shuffle.go:111-156 | NotFound for an unknown job, else the accepted blobs in order, re-chunked, each with its digest |
| `ShuffleStore.FramesHold` | manager-service/internal/grpc/shuffle.go:129-141 | re-chunking keeps the bytes and never sends an empty data frame |
| `ShuffleStore.PushAll` | manager-service/internal/grpc/shuffle.go:39-109 | a writer's frames are stored as one blob iff they fit |
| `ShuffleInterleaving.PushesAreAtomic` | manager-service/internal/grpc/shuffle.go:39-109 | under any interleaving of any number of pushes each stored blob is all that one stream sent, no stream is stored twice, limits hold |
| `ShuffleDownload.Download` | worker-service/internal/worker/reduce.go:32-147 | the receive loop equals the fold over frames, failures included |
| `ShuffleDownload.Check` | worker-service/internal/worker/reduce.go:57-74 | checksum resolution and validation of one segment |
| `ShuffleDownload.PassesIff` | worker-service/internal/worker/reduce.go:57-74 | a segment is accepted iff every checksum given for it, by the assignment or by the stream, is its digest |
| `ShuffleDownload.DownloadIffAgrees` | worker-service/internal/worker/reduce.go:91-146 | the server's stream is accepted iff every assigned checksum belongs to the segment at its position, and then yields exactly the non-empty blobs in order |
| `ShuffleDownload.SwappedOrderRefused` | worker-service/internal/worker/reduce.go:57-70 | outputs pushed in another order than assigned are refused |
| `ShuffleDownload.RepushedTwice` | manager-service/internal/grpc/shuffle.go:70-70 | a push repeated by a retried attempt is delivered twice |
| `ShuffleDownload.AssignedSegmentsMatch` | worker-service/internal/worker/reduce.go:71-89 | with a full assignment a download is accepted iff stored and assigned outputs agree position by position as far as both go |
| `ShuffleDownload.DeliversAssignedIff` | worker-service/internal/worker/reduce.go:32-147 | the reducer gets exactly the assigned list iff stored and assigned outputs agree at every position and in number |
| `ShuffleDownload.PartialNeverExact` | worker-service/internal/worker/reduce.go:53-89 | with a partial push left among a partition's outputs the reducer never gets exactly the assigned list |
| `ShuffleDownload.RetryAfterAbort` | worker-service/internal/worker/reduce.go:57-70 | after an aborted push and its retry the download is refused iff the digests differ, else both are delivered |
| `ShuffleRoundTrip.RoundTrip` | worker-service/internal/worker/partition_writer.go:73-110 | write, push, fetch and reassemble give back the non-empty payloads iff there is one and they fit the partition limit |
| `ShuffleRoundTrip.WriteAndAbort` | worker-service/internal/worker/map.go:156-160 | a failing map task's aborted stream is stored as the whole chunks of what it wrote, iff there is one and it fits |
| `ShuffleEndToEnd.ReduceFromServer` | worker-service/internal/worker/reduce.go:32-147 | for any assigned checksum list: a reducer gets its partition iff the job is known and the list agrees with the stored segments by position, and then the stable sort of it, under any inverse codec |
| `ShufflePushes.PushInOrder` | worker-service/internal/worker/map.go:198-210 | all map tasks' partitions pushed to one server in any order are all taken iff every partition and the whole job are within the limits |
| `ShufflePushes.ArrivedIs` | manager-service/internal/grpc/shuffle.go:47-76 | each partition then holds its map tasks' payloads in the order their pushes arrived |
| `ShuffleEndToEnd.ShuffleThroughServer` | worker-service/internal/worker/map.go:150-210 | for any push order and the manager's assigned lists: the pushes succeed iff everything fits, and then every reducer gets exactly its records iff each list agrees with the stored segments and no skipped partition has any |
| `ShuffleEndToEnd.RightIff` | worker-service/internal/worker/reduce.go:32-147 | reducer by reducer: it works on exactly its partition's records iff that partition is harmless |
| `ShuffleEndToEnd.GapFreeHarmless` | worker-service/internal/worker/map.go:198-210 | if no map task leaves a gap and the pushes of a partition arrive in commit order, its reducer gets its records |
| `ShuffleEndToEnd.HarmlessGap` | manager-service/internal/manager/scheduler.go:952-965 | a gap that harms neither reducer |
| `ShuffleEndToEnd.SwappedPushHarms` | worker-service/internal/worker/reduce.go:57-70 | two outputs of a partition that arrive in another order than they commit are refused |
| `ShuffleEndToEnd.GapLosesRecord` | manager-service/internal/manager/scheduler.go:952-965 | one record with key b and two reducers: reducer 1 is skipped, reducer 0 finds nothing stored, nobody gets the record |
| `ShuffleRun.OutputsAre` | manager-service/internal/manager/scheduler.go:952-965 | in every run the output table is the concatenation of the committed lists in commit order |
| `ShuffleRun.AssignedInRun` | manager-service/internal/manager/queries.go:106-115 | in every run, after the map phase: the checksums of a reduce task's rows are the assigned list of the shuffle theorem for the job's map tasks in commit order, each once, and the task is skipped iff that list is empty |
| `WordCount.RunningSum` | benchmarks/wordcount/combiner.py:11-32 | the loop equals the run-sum specification |
| `WordCount.SumRunsOfSorted` | benchmarks/wordcount/reducer.py:11-32 | on sorted input: one line per key that occurs, in key order, with the key's sum |
| `WordCount.CombinerTransparent` | worker-service/internal/worker/map.go:98-144 | for every distribution of records over map tasks and every partition the reducer prints the same with the combiner as without |
| `WordCount.CountWords` | worker-service/internal/worker/map.go:98-144 | the whole job, combiner on or off, prints what the reducer prints on any correct uncombined stream |
| `SplitReader.GetRawRange` | worker-service/internal/worker/download.go:265-314 | the download loop returns the bytes up to the end of the first chunk with a newline, or the right error |
| `SplitErrors.WindowAtNewline` | worker-service/internal/worker/download.go:265-314 | with the first newline in chunk n the download ends with that chunk, or fails if that is beyond 256 MiB |
| `SplitErrors.WindowWithout` | worker-service/internal/worker/download.go:265-314 | without a newline it fails, as too long or as having none, unless the file ends at the end of a chunk |
| `SplitReader.ReadSplit` | worker-service/internal/worker/split.go:28-106 | the reader's result for every range, checksum and file, errors included |
| `SplitErrors.BadRangeIff` | worker-service/internal/worker/split.go:28-66 | a range is refused as invalid iff it ends before it begins, and for want of a preceding byte iff it begins beyond the file |
| `SplitErrors.NoLineIff` | worker-service/internal/worker/split.go:58-80 | a split finds no line to skip to iff it begins inside the last line of a file that does not end with a newline, was read to its end and passed its checksum |
| `SplitReader.RefusedIff` | worker-service/internal/worker/split.go:49-56 | a split is refused for its checksum iff it names one, the window goes past its last byte and the digest of these bytes of the file is another |
| `SplitReader.ShortSplitChecked` | worker-service/internal/worker/split.go:49-56 | which is always so for a split of at most a chunk with a newline in its first chunk and another digest |
| `SplitReader.EmittedIs` | worker-service/internal/worker/split.go:67-103 | what is emitted, by file position: whole lines from the first that begins in the split, cut off where the window ends |
| `SplitReader.ExactIff` | worker-service/internal/worker/split.go:58-103 | a split emits exactly the lines that begin in it iff its window reaches (or, if none begins, ends where the next would) |
| `SplitReader.LongSplitTruncated` | worker-service/internal/worker/download.go:304-306 | a split longer than a chunk with a newline in its first chunk is read without error, whatever the checksum, and yields a proper prefix of its lines |
| `InputSplits.BuildInputSplits` | manager-service/internal/api/handlers.go:974-1021 | the tiling loop, or one whole-object split when the size is unknown or any checksum fails |
| `InputSplits.SplitIs` | manager-service/internal/api/handlers.go:994-1015 | split i is the i-th range of the split size, cut off at the end of the object, with the checksum of that range, and there are just enough of them |
| `InputSplits.SplitsTile` | manager-service/internal/api/handlers.go:994-1015 | the splits leave no gap and do not overlap |
| `InputSplits.OwnedTile` | worker-service/internal/worker/split.go:58-103 | for any tiling, the lines that begin in the splits are together the file |
| `InputSplits.ReadsPrefix` | worker-service/internal/worker/split.go:67-103 | a split of at least the longest record yields a prefix of its lines, all of them iff its window reaches |
| `InputSplits.SmallSplitsReach` | worker-service/internal/worker/download.go:262-314 | every window reaches when split size plus longest record fit one chunk |
| `InputSplits.ReadThroughSplits` | worker-service/internal/worker/split.go:28-106 | for any checksums: cutting and reading succeed and return the file iff every window reaches and every checksum is that of its bytes; with none computed the object is read whole |
| `InputSplits.OwnSumsMatch` | manager-service/internal/api/handlers.go:994-1015 | checksums computed from the file itself match |
| `InputSplits.ChangeDetected` | worker-service/internal/worker/split.go:49-56 | checksums computed from another object of the same size match iff the file is that object |
| `InputSplits.DefaultSplitTruncated` | manager-service/internal/api/handlers.go:988-991 | a default split with a newline in its first MiB loses records without an error |
| `GreedyLoads.AverageBound` | manager-service/internal/api/handlers.go:903-933 | m times any greedy load is at most the total plus (m-1) times the largest weight |
| `GreedyLoads.PlacementGreedy` | manager-service/internal/api/handlers.go:904-909 | picking the first of the lightest buckets is a greedy placement at every step |
| `GreedyLoads.HeavyFits` | manager-service/internal/api/handlers.go:893-933 | a weight over a third of T is placed within T by greedy whenever any placement within T exists |
| `GreedyLoads.FourThirds` | manager-service/internal/api/handlers.go:893-933 | heaviest first: 3m times any load is at most (4m-1) times the largest load of any placement |
| `InputBuckets.PickBucket` | manager-service/internal/api/handlers.go:904-909 | the first of the lightest buckets |
| `InputBuckets.OrderedUnique` | manager-service/internal/api/handlers.go:893-898 | larger first, then by key: any sort by this order gives the same list |
| `InputBuckets.LargerFirst` | manager-service/internal/api/handlers.go:893-898 | of two objects the larger is placed first, of equally large ones the one with the smaller key |
| `InputBuckets.Distribute` | manager-service/internal/api/handlers.go:900-933 | the assignment loop gives the buckets of the first-lightest placement, each in order |
| `InputBuckets.BuildPrefixBuckets` | manager-service/internal/api/handlers.go:863-946 | falls back iff there is no object or a checksum fails; else the sorted objects, the planned bucket count, that placement, no empty buckets |
| `InputBuckets.PlanComplete` | manager-service/internal/api/handlers.go:863-946 | every object is in exactly one map task, as often as it is listed, and no task is empty |
| `InputBuckets.PlanBalanced` | manager-service/internal/api/handlers.go:893-945 | the largest map task is within 4/3 - 1/(3m) of any other distribution's |
| `InputBuckets.PlanNearAverage` | manager-service/internal/api/handlers.go:903-933 | m times any map task is at most the total size plus (m-1) times the largest object |
| `PlanSize.LeastCount` | manager-service/internal/api/handlers.go:880-891 | the planned count is the least number of splits that hold the total, capped at one per object |
| `PlanSize.PlanCount` | manager-service/internal/api/handlers.go:893-945 | the plan has exactly that many tasks, or one per object with bytes and one for the others when these are fewer |
| `PlanSize.PlanWithin` | manager-service/internal/api/handlers.go:880-945 | no map task exceeds the split size by more than the largest object |
| `Outbox.StepInv` | manager-service/internal/store/outbox.go:93-368 | every step of inserts, claims, publishes, commits, rollbacks, reprocessing and purging keeps the invariant |
| `Outbox.DeliveryAccounted` | manager-service/internal/relay/relay.go:121-192 | in every run: batches disjoint, no event lost, delivered only if published, original type on every message, and the exact number of publications, rollbacks and unheard answers included |
| `Outbox.ReprocessRestores` | manager-service/internal/store/outbox.go:349-368 | a dead-lettered row is not claimable, locked or delivered, and reprocessing restores its first type and a full set of retries |
| `Outbox.NoAbortNoDuplicate` | manager-service/internal/relay/relay.go:180-191 | without rollbacks and without publish calls that fail after the broker stored the message, no event is published twice |
| `Outbox.ProcessBatch` | manager-service/internal/relay/relay.go:121-192 | one relay pass is a run of the machine; it marks, charges or dead-letters each claimed row by its answer, or changes no row |
| `OutboxRetention.DeliveredUntilPurged` | manager-service/internal/store/outbox.go:265-276 | after the commit that delivered an event its row stays, with the time of that commit, exactly until a purge with a later cutoff, in every continuation |
| `OutboxRetention.UndeliveredKept` | manager-service/internal/store/outbox.go:265-276 | an event whose delivery was not committed is never purged |
| `Outbox.ClaimsIff` | manager-service/internal/store/outbox.go:93-125 | a relay claims only waiting rows, and every waiting row unless its batch is full of smaller ids |
| `OutboxRetention.InsertWaits` | manager-service/internal/store/outbox.go:37-72 | a new event can be claimed at once |
| `OutboxRetention.FailureBacksOff` | manager-service/internal/store/outbox.go:185-239 | an event that was not delivered can be claimed again exactly once its delay has passed; its last allowed failure dead-letters it under its own type |
| `RateLimit.TokenBucketLimiter.Allow` | manager-service/internal/api/ratelimit.go:45-64 | answer and new state of one call |
| `RateLimit.AllowedStep` | manager-service/internal/api/ratelimit.go:45-64 | the count over a call sequence is the sum of these answers |
| `RateLimit.WindowBound` | manager-service/internal/api/ratelimit.go:45-64 | any stretch of calls spanning time T lets at most capacity + rate * T pass |
| `RateLimit.SteadyNeverRefused` | manager-service/internal/api/ratelimit.go:45-64 | calls at least 1/rate apart are never refused |
| `RateLimit.BurstPasses` | manager-service/internal/api/ratelimit.go:45-64 | of any number of calls at one instant exactly the whole tokens present pass |
| `RateLimit.IdleSecondFills` | manager-service/internal/api/ratelimit.go:50-57 | after a second without calls the bucket is full again |
| `RateLimit.BelowOneRefusesAll` | manager-service/internal/api/ratelimit.go:59-63 | a rate below one refuses everything |
| `RateLimit.FreshAllowsIff` | manager-service/internal/api/ratelimit.go:34-64 | a new client's first request passes, whenever it comes, iff the rate is at least one |
| `RateLimit.ServesIff` | manager-service/internal/api/ratelimit.go:45-64 | from any reachable state some future request passes iff the rate is at least one |
| `RateLimit.PerUserLimiter.Serve` | manager-service/internal/api/ratelimit.go:108-139 | a request is judged by the user's bucket or a fresh one, and refreshes lastSeen |
| `RateLimit.PerUserLimiter.Sweep` | manager-service/internal/api/ratelimit.go:92-105 | removes exactly the users idle for longer than the limit |
| `RateLimit.EvictionInvisible` | manager-service/internal/api/ratelimit.go:92-139 | with an idle limit of at least a second no sequence of requests and cleanups can tell that users are evicted |
| `RateLimit.ShortIdleVisible` | manager-service/internal/api/ratelimit.go:92-139 | with a shorter one, at any rate of at least one, some sequence tells |
| `RateLimit.EvictionInvisibleIff` | manager-service/internal/api/ratelimit.go:92-139 | eviction is invisible to every sequence iff the idle limit is at least a second or the rate is below one |

## Left out

- PostgreSQL, MinIO, Kubernetes, NATS and gRPC themselves: a transaction is one step that commits or rolls back, an object a
  byte sequence, and every answer of the outside world a parameter or a choice of the run.
- Row locks other than the advisory lock and the lock on a selected task: a transaction of the scheduler is atomic, except an
  assignment in `Quota`, `SiteHistory` and `Revival`; the rows it would skip as locked are a parameter.
- `JobOutcomes.DeadForever`: takes an assignment as one atomic transaction; `Revival.RevivedIff` says what happens otherwise.
- `SchedulerProcess.ScheduleJob`: is taken as a step only while the job has no tasks and is not past Pending;
  `JobOutcomes.ScheduleNeedsLiveJob` says what the code does without that.
- The reaper's follow-up statement is a step of its own that any replica may take for any job at any time, which allows more
  runs than the code does; `SchedulerProcess.FailStaleTasks` says for which jobs the code takes it.
- `Leases.ReaperAgrees`: takes a renewal's commit and its in-memory stamp as one step, and needs the renewals so far to be safe
  in the sense of `Leases.StampsStayIff`, which the handler does not enforce.
- `Quota.NeverOversubscribed`: the bound is the largest limit configured so far; a bound by the present limit is false.
- SHA-256, UUIDs, decimal numerals and JSON: an arbitrary digest with non-empty results, fresh names, and inverse codecs.
  Escaping, malformed lines and oversize records are not modelled.
- `Spill.SortByKey`: states a sorted permutation only, because the library sort does not promise the order of equal keys.
- `ShuffleEndToEnd.ShuffleThroughServer`: each map task pushes each partition once and whole; overlapping streams leave some such
  order (`ShuffleInterleaving.PushesAreAtomic`), and repeated or aborted pushes are treated in `ShuffleDownload`.
- A ranged read that begins past the end of an object yields no bytes, as in the repository's own storage double
  (worker-service/internal/worker/download_range_test.go:54-56); a store that reports an error there is not modelled.
- The object-storage fallback of the partition writer and of the reducer's download.
- `extractSplitLines`, `splitChecksumURI` and `taskInputSplits`: small string and list helpers beside the modelled readers.
- `Outbox.StepInv`: the back-off delay is an arbitrary non-negative number, so the exponential schedule is not stated.
- `RateLimit.PerUserLimiter.Serve`: takes the lookup and the bucket call as one step at one instant, so a request that holds a bucket
  while it is evicted is not covered.
- Floating-point rounding in the token bucket: reals are used.
- Event emission, metrics, logging, HTTP handlers, authentication, the CLI, the worker's process handling and heartbeat loop.
