/** What each scheduler transaction decides and what it writes, one replica acting on the data store.

    A rejected call rolls back, so it is described by its verdict alone. */
module SchedulerSpec {
  import opened Dds
  import opened JobTransitions

  const MAX_TASK_ATTEMPTS: nat := 3
  const DEFAULT_MAX_PODS: int := 10
  const MAX_CLEANUP_RETRIES: nat := 10
  const CLEANUP_BATCH: nat := 64

  /** Process configuration: lease length, clock-skew tolerance, and whether staging cleanup is on. */
  datatype Config = Config(leaseTtl: int, skew: int, staging: bool)

  /** A queued cleanup: the terminal state to write, or Unknown when it must still be derived. */
  datatype Ticket = Known(status: JobStatus) | Unknown

  /** The in-memory part of one manager process. */
  datatype Local = Local(
    pendingCleanup: map<JobId, Ticket>,
    cleanupRetries: map<JobId, nat>,
    inFlight: map<JobId, Ticket>,
    heartbeats: map<AttemptId, int>)

  const EMPTY_LOCAL := Local(map[], map[], map[], map[])

  datatype Verdict =
    | Ok
    | ErrTaskNotFound
    | ErrJobCancelling
    | ErrInvalidStateTransition
    | ErrStaleAttempt
    | ErrExpiredLease
    | ErrOutputMismatch

  // ---------- lease and fence ----------

  /** QueryCheckLeaseValid. */
  predicate LeaseValid(db: Db, skew: int, a: AttemptId, l: LeaseId) {
    && a in db.attempts
    && db.attempts[a].lease == l
    && db.attempts[a].lastRenewed + db.attempts[a].ttl + skew >= db.now
  }

  /** The task-row and lease checks shared by renew, complete and fail. */
  function FenceVerdict(db: Db, skew: int, t: TaskId, a: AttemptId, l: LeaseId): Verdict {
    if t !in db.tasks then ErrTaskNotFound
    else if db.tasks[t].status != InProgress then ErrInvalidStateTransition
    else if db.tasks[t].current != Some(a) then ErrStaleAttempt
    else if !LeaseValid(db, skew, a, l) then ErrExpiredLease
    else Ok
  }

  function CompleteVerdict(db: Db, skew: int, t: TaskId, a: AttemptId, l: LeaseId): Verdict {
    if t !in db.tasks || db.tasks[t].job !in db.jobs then ErrTaskNotFound
    else if db.jobs[db.tasks[t].job].status == JobCleaning then ErrJobCancelling
    else if Dead(db.jobs[db.tasks[t].job].status) then ErrInvalidStateTransition
    else FenceVerdict(db, skew, t, a, l)
  }

  function FailVerdict(db: Db, skew: int, t: TaskId, a: AttemptId, l: LeaseId): Verdict {
    if t !in db.tasks || db.tasks[t].job !in db.jobs then ErrTaskNotFound
    else if Dead(db.jobs[db.tasks[t].job].status) then ErrInvalidStateTransition
    else FenceVerdict(db, skew, t, a, l)
  }

  // ---------- in-memory helpers ----------

  /** enqueueCleanup. */
  function Enqueue(m: Local, j: JobId, k: Ticket): Local {
    m.(pendingCleanup := m.pendingCleanup[j := k],
       cleanupRetries := m.cleanupRetries[j := Retries(m, j) + 1])
  }

  function Retries(m: Local, j: JobId): nat {
    if j in m.cleanupRetries then m.cleanupRetries[j] else 0
  }

  // ---------- assignment ----------

  function MaxPods(db: Db): int {
    match db.maxPods
    case Some(n) => n
    case None => DEFAULT_MAX_PODS
  }

  /** Some pod slot is free. */
  predicate QuotaFree(db: Db) {
    |RunningAttempts(db)| < MaxPods(db)
  }

  /** The row QuerySelectIdleTask returns. */
  predicate Selected(db: Db, j: JobId, r: Replica, kind: TaskKind, locked: set<TaskId>, t: TaskId) {
    && t in IdleTasks(db, j, r, kind, locked)
    && forall u :: u in IdleTasks(db, j, r, kind, locked) ==> Before(db, t, u)
  }

  /** The checks GetNextTask makes before looking for work. */
  predicate Routable(db: Db, j: JobId, r: Replica) {
    FailedTasks(db, j) == {} && j in db.jobs && db.jobs[j].replica == r
  }

  /** tryAssignTask's two writes plus the job's move to Running. */
  function Assigned(db: Db, ttl: int, j: JobId, t: TaskId, a: AttemptId, l: LeaseId): Db {
    SetJobStatus(InsertAttempt(SetInProgress(db, t, a), a, t, l, ttl), j, JobRunning)
  }

  /** autoCompleteEmptyReducesTx: the new rows. */
  function AutoCompleted(db: Db, j: JobId): Db {
    var db1 := SetTasks(db, EmptyReduces(db, j), TaskCompleted);
    if AutoCompleteFinishes(db, j) then SetJobStatus(db1, j, JobCleaning) else db1
  }

  /** autoCompleteEmptyReducesTx: whether the job has nothing left to do. */
  predicate AutoCompleteFinishes(db: Db, j: JobId) {
    EmptyReduces(db, j) != {} && PendingTasks(SetTasks(db, EmptyReduces(db, j), TaskCompleted), j) == {}
  }

  predicate CanAssignMap(db: Db, j: JobId, r: Replica, t: TaskId, a: AttemptId, locked: set<TaskId>) {
    Routable(db, j, r) && Selected(db, j, r, MapTask, locked, t) && QuotaFree(db) && a !in db.attempts
  }

  /** No map task can be handed out and none is unfinished. */
  predicate MapPhaseOver(db: Db, j: JobId, r: Replica, locked: set<TaskId>) {
    Routable(db, j, r) && IdleTasks(db, j, r, MapTask, locked) == {} && PendingOfKind(db, j, MapTask) == {}
  }

  predicate CanAssignReduce(db: Db, j: JobId, r: Replica, t: TaskId, a: AttemptId, locked: set<TaskId>) {
    && MapPhaseOver(db, j, r, locked)
    && Selected(AutoCompleted(db, j), j, r, ReduceTask, locked, t)
    && QuotaFree(AutoCompleted(db, j))
    && a !in db.attempts
  }

  predicate CanAutoComplete(db: Db, j: JobId, r: Replica, locked: set<TaskId>) {
    MapPhaseOver(db, j, r, locked) && IdleTasks(AutoCompleted(db, j), j, r, ReduceTask, locked) == {}
  }

  // ---------- commit, renew, fail ----------

  function Completed(db: Db, t: TaskId, a: AttemptId, outs: seq<(string, string)>): Db
    requires t in db.tasks
  {
    var db1 := SetAttemptStatus(SetTaskStatus(db, t, TaskCompleted), a, AttemptSuccess);
    var db2 := db1.(outputs := db1.outputs + OutputRows(t, outs));
    if CompletesJob(db, t) then SetJobStatus(db2, db.tasks[t].job, JobCleaning) else db2
  }

  /** Completing `t` leaves its job with no pending task. */
  predicate CompletesJob(db: Db, t: TaskId)
    requires t in db.tasks
  {
    PendingTasks(db, db.tasks[t].job) <= {t}
  }

  /** The status an attempt's failure gives its task. */
  function AfterFailure(db: Db, t: TaskId): TaskStatus {
    if |AttemptsOf(db, t)| >= MAX_TASK_ATTEMPTS then TaskFailed else Idle
  }

  function FailedOne(db: Db, t: TaskId, a: AttemptId): Db
    requires t in db.tasks
  {
    var db1 := SetAttemptStatus(SetTaskStatus(db, t, AfterFailure(db, t)), a, AttemptFailed);
    if AfterFailure(db, t) == TaskFailed then SetJobStatus(db1, db.tasks[t].job, JobCleaning) else db1
  }

  // ---------- reaper ----------

  /** The time the reaper compares against: the in-memory stamp when there is one, else the row. */
  function LastHeard(db: Db, m: Local, a: AttemptId): int
    requires a in db.attempts
  {
    if a in m.heartbeats then m.heartbeats[a] else db.attempts[a].lastRenewed
  }

  predicate Expired(db: Db, m: Local, skew: int, a: AttemptId)
    requires a in db.attempts
  {
    db.now - LastHeard(db, m, a) >= db.attempts[a].ttl + skew
  }

  /** A row of QuerySelectStaleTasks. */
  predicate Held(db: Db, r: Replica, t: TaskId) {
    && t in db.tasks && db.tasks[t].status == InProgress && db.tasks[t].current.Some?
    && db.tasks[t].current.value in db.attempts
    && db.attempts[db.tasks[t].current.value].status == AttemptRunning
    && db.tasks[t].job in db.jobs && db.jobs[db.tasks[t].job].replica == r
  }

  /** The tasks one reaper pass reclaims. */
  function Stale(db: Db, m: Local, skew: int, r: Replica, locked: set<TaskId>): set<TaskId> {
    set t | t in db.tasks && t !in locked && Held(db, r, t) && Expired(db, m, skew, db.tasks[t].current.value)
  }

  /** The jobs that a pass over `stale` moves to Cleaning. */
  function ExhaustedJobs(db: Db, stale: set<TaskId>): set<JobId> {
    set t | t in stale && t in db.tasks && AfterFailure(db, t) == TaskFailed :: db.tasks[t].job
  }

  function ReapTask(db: Db, stale: set<TaskId>, t: TaskId): Task
    requires t in db.tasks
  {
    if t in stale then db.tasks[t].(status := AfterFailure(db, t), current := None) else db.tasks[t]
  }

  /** The attempts that hold the tasks of `stale`. */
  function Holders(db: Db, stale: set<TaskId>): set<AttemptId> {
    set t | t in stale && t in db.tasks && db.tasks[t].current.Some? :: db.tasks[t].current.value
  }

  function ReapAttempt(db: Db, stale: set<TaskId>, a: AttemptId): Attempt
    requires a in db.attempts
  {
    if a in Holders(db, stale) then db.attempts[a].(status := AttemptFailed) else db.attempts[a]
  }

  function ReapJob(db: Db, stale: set<TaskId>, j: JobId): Job
    requires j in db.jobs
  {
    if j in ExhaustedJobs(db, stale) then db.jobs[j].(status := JobCleaning) else db.jobs[j]
  }

  function Reaped(db: Db, stale: set<TaskId>): Db {
    db.(tasks := map t | t in db.tasks :: ReapTask(db, stale, t),
        attempts := map a | a in db.attempts :: ReapAttempt(db, stale, a),
        jobs := map j | j in db.jobs :: ReapJob(db, stale, j))
  }

  /** The reaper's cleanup queue after the pass. */
  function ReapLocal(m: Local, js: set<JobId>): Local {
    m.(pendingCleanup := map j | j in m.pendingCleanup.Keys + js :: if j in js then Known(JobFailed) else m.pendingCleanup[j],
       cleanupRetries := map j | j in m.cleanupRetries.Keys + js :: if j in js then Retries(m, j) + 1 else m.cleanupRetries[j])
  }

  // ---------- cancel ----------

  /** CancelJob goes on past the transition check. */
  predicate Cancellable(db: Db, j: JobId) {
    j in db.jobs && (db.jobs[j].status == JobCleaning || Allowed(db.jobs[j].status, JobCleaning))
  }

  function Cancelled(db: Db, j: JobId): Db {
    var db1 := SetJobStatus(db, j, JobCleaning);
    FailAttempts(BulkFail(db1, j), RunningOfJob(db1, j))
  }

  // ---------- scheduling ----------

  datatype NewTask = NewTask(id: TaskId, kind: TaskKind, replicaIndex: nat)

  /** The row QueryInsertTask writes; map tasks are normalised to the job's replica. */
  function TaskRow(j: JobId, home: Replica, n: NewTask): Task {
    Task(j, n.kind, Idle, if n.kind == MapTask then home else n.replicaIndex, None)
  }

  /** No duplicate primary key. */
  predicate FreshIds(db: Db, ns: seq<NewTask>) {
    (forall i :: 0 <= i < |ns| ==> ns[i].id !in db.tasks) && DistinctIds(ns)
  }

  predicate DistinctIds(ns: seq<NewTask>) {
    forall i, k :: 0 <= i < k < |ns| ==> ns[i].id != ns[k].id
  }

  /** The rows of TASKS that a request inserts. */
  function NewRows(j: JobId, home: Replica, ns: seq<NewTask>): map<TaskId, Task>
    requires DistinctIds(ns)
  {
    map n | n in ns :: n.id := TaskRow(j, home, n)
  }

  function WithRows(before: map<TaskId, Task>, more: map<TaskId, Task>): map<TaskId, Task> {
    map t | t in before.Keys + more.Keys :: if t in more then more[t] else before[t]
  }

  function Scheduled(db: Db, j: JobId, home: Replica, ns: seq<NewTask>): Db
    requires FreshIds(db, ns)
  {
    db.(jobs := if j in db.jobs then db.jobs else db.jobs[j := Job(JobPending, home)],
        tasks := WithRows(db.tasks, NewRows(j, home, ns)))
  }

  // ---------- cleanup ----------

  /** determineCleaningTerminalState. */
  function Derived(db: Db, j: JobId): JobStatus {
    if FailedTasks(db, j) != {} then JobFailed
    else if PendingTasks(db, j) != {} then JobFailed
    else JobCompleted
  }

  /** applyJobTransitionTx accepts. */
  predicate CanMove(db: Db, j: JobId, to: JobStatus) {
    j in db.jobs && (db.jobs[j].status == to || Allowed(db.jobs[j].status, to))
  }

  /** finalizeJob gives up before its transaction because staging objects could not be deleted. */
  predicate StagingBlocks(cfg: Config, m: Local, j: JobId, stagingOk: bool) {
    cfg.staging && Retries(m, j) < MAX_CLEANUP_RETRIES && !stagingOk
  }

  function FinalizedDb(cfg: Config, db: Db, m: Local, j: JobId, to: JobStatus, stagingOk: bool): Db {
    if StagingBlocks(cfg, m, j, stagingOk) || !CanMove(db, j, to) then db else SetJobStatus(db, j, to)
  }

  function FinalizedLocal(cfg: Config, db: Db, m: Local, j: JobId, to: JobStatus, stagingOk: bool, workersGone: bool): Local {
    if StagingBlocks(cfg, m, j, stagingOk) || !CanMove(db, j, to) || !workersGone
    then Enqueue(m, j, Known(to))
    else m.(cleanupRetries := m.cleanupRetries - {j})
  }
}
