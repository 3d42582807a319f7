/** The rows of the distributed data store and the SQL statements that read and write them.

    Identifiers are UUIDs in the source; only their equality and, for task ids, their order
    matter, so they are natural numbers here.  One function per named query. */
module Dds {
  datatype Option<+T> = None | Some(value: T)

  type JobId = nat
  type TaskId = nat
  type AttemptId = nat
  type LeaseId = nat
  type Replica = nat

  datatype JobStatus = JobPending | JobRunning | JobCleaning | JobCompleted | JobFailed | JobCancelled
  datatype TaskKind = MapTask | ReduceTask
  datatype TaskStatus = Idle | InProgress | TaskCompleted | TaskFailed
  datatype AttemptStatus = AttemptRunning | AttemptSuccess | AttemptFailed

  datatype Job = Job(status: JobStatus, replica: Replica)
  datatype Task = Task(job: JobId, kind: TaskKind, status: TaskStatus, replicaIndex: nat, current: Option<AttemptId>)
  datatype Attempt = Attempt(task: TaskId, lease: LeaseId, lastRenewed: int, ttl: int, status: AttemptStatus)
  datatype Output = Output(task: TaskId, partition: Option<nat>, uri: string, checksum: string)

  /** `outputs` is in output_id order; `now` is the database clock. */
  datatype Db = Db(
    jobs: map<JobId, Job>,
    tasks: map<TaskId, Task>,
    attempts: map<AttemptId, Attempt>,
    outputs: seq<Output>,
    maxPods: Option<int>,
    now: int)

  // ---------- SELECT ----------

  /** Rows of TASKS of one job that are not Completed (QueryCountAllPendingTasks). */
  function PendingTasks(db: Db, j: JobId): set<TaskId> {
    set t | t in db.tasks && db.tasks[t].job == j && db.tasks[t].status != TaskCompleted
  }

  /** QueryCountPendingTasksByType. */
  function PendingOfKind(db: Db, j: JobId, kind: TaskKind): set<TaskId> {
    set t | t in db.tasks && db.tasks[t].job == j && db.tasks[t].kind == kind && db.tasks[t].status != TaskCompleted
  }

  /** QueryCountFailedTasks. */
  function FailedTasks(db: Db, j: JobId): set<TaskId> {
    set t | t in db.tasks && db.tasks[t].job == j && db.tasks[t].status == TaskFailed
  }

  /** QueryCountRunningAttempts. */
  function RunningAttempts(db: Db): set<AttemptId> {
    set a | a in db.attempts && db.attempts[a].status == AttemptRunning
  }

  /** QueryCountAttemptsByTask. */
  function AttemptsOf(db: Db, t: TaskId): set<AttemptId> {
    set a | a in db.attempts && db.attempts[a].task == t
  }

  /** The rows QuerySelectIdleTask may return, given the rows other transactions hold locked. */
  function IdleTasks(db: Db, j: JobId, r: Replica, kind: TaskKind, locked: set<TaskId>): set<TaskId> {
    set t | t in db.tasks && t !in locked
      && db.tasks[t].job == j && db.tasks[t].status == Idle && db.tasks[t].kind == kind
      && (kind == ReduceTask || db.tasks[t].replicaIndex == r)
  }

  /** ORDER BY replica_index, task_id. */
  predicate Before(db: Db, t: TaskId, u: TaskId)
    requires t in db.tasks && u in db.tasks
  {
    db.tasks[t].replicaIndex < db.tasks[u].replicaIndex
    || (db.tasks[t].replicaIndex == db.tasks[u].replicaIndex && t <= u)
  }

  /** The predicate shared by QueryGetReduceTaskInputs and QueryCompleteEmptyReduceTasks. */
  predicate FeedsReduce(db: Db, o: Output, j: JobId, partition: nat) {
    && o.task in db.tasks
    && db.tasks[o.task].job == j
    && db.tasks[o.task].kind == MapTask
    && db.tasks[o.task].status == TaskCompleted
    && (o.partition == None || o.partition == Some(partition))
  }

  /** QueryGetReduceTaskInputs: the map outputs a reduce task is handed, in output_id order. */
  function ReduceInputs(db: Db, j: JobId, partition: nat): seq<Output> {
    InputsFrom(db, db.outputs, j, partition)
  }

  function InputsFrom(db: Db, rows: seq<Output>, j: JobId, partition: nat): seq<Output> {
    if rows == [] then []
    else
      var rest := InputsFrom(db, rows[..|rows| - 1], j, partition);
      if FeedsReduce(db, rows[|rows| - 1], j, partition) then rest + [rows[|rows| - 1]] else rest
  }

  /** All output rows of one task, in output_id order. */
  function OutputsOf(rows: seq<Output>, t: TaskId): seq<Output> {
    if rows == [] then []
    else
      var rest := OutputsOf(rows[..|rows| - 1], t);
      if rows[|rows| - 1].task == t then rest + [rows[|rows| - 1]] else rest
  }

  // ---------- UPDATE / INSERT ----------

  /** QueryUpdateJobStatus. */
  function SetJobStatus(db: Db, j: JobId, status: JobStatus): Db {
    if j in db.jobs then db.(jobs := db.jobs[j := db.jobs[j].(status := status)]) else db
  }

  /** QueryUpdateTaskStatus. */
  function SetTaskStatus(db: Db, t: TaskId, status: TaskStatus): Db {
    if t in db.tasks then db.(tasks := db.tasks[t := db.tasks[t].(status := status, current := None)]) else db
  }

  /** QuerySucceedAttempt and QueryFailAttempt. */
  function SetAttemptStatus(db: Db, a: AttemptId, status: AttemptStatus): Db {
    if a in db.attempts then db.(attempts := db.attempts[a := db.attempts[a].(status := status)]) else db
  }

  /** QueryUpdateTaskInProgress; the guard on Idle makes it affect no row otherwise. */
  function SetInProgress(db: Db, t: TaskId, a: AttemptId): Db {
    if t in db.tasks && db.tasks[t].status == Idle
    then db.(tasks := db.tasks[t := db.tasks[t].(status := InProgress, current := Some(a))])
    else db
  }

  /** QueryInsertAttempt. */
  function InsertAttempt(db: Db, a: AttemptId, t: TaskId, l: LeaseId, ttl: int): Db {
    db.(attempts := db.attempts[a := Attempt(t, l, db.now, ttl, AttemptRunning)])
  }

  /** QueryRenewLease. */
  function RenewRow(db: Db, a: AttemptId): Db {
    if a in db.attempts then db.(attempts := db.attempts[a := db.attempts[a].(lastRenewed := db.now)]) else db
  }

  /** The bulk INSERT into TASK_OUTPUTS: one row per reported output, indexed by list position. */
  function OutputRows(t: TaskId, outs: seq<(string, string)>): (rows: seq<Output>)
    ensures |rows| == |outs|
    ensures forall i :: 0 <= i < |outs| ==> rows[i] == Output(t, Some(i), outs[i].0, outs[i].1)
  {
    seq(|outs|, i requires 0 <= i < |outs| => Output(t, Some(i), outs[i].0, outs[i].1))
  }

  /** The Idle reduce tasks that QueryCompleteEmptyReduceTasks completes. */
  function EmptyReduces(db: Db, j: JobId): set<TaskId> {
    set t | t in db.tasks && db.tasks[t].job == j && db.tasks[t].kind == ReduceTask
      && db.tasks[t].status == Idle && NoInputs(db, j, db.tasks[t].replicaIndex)
  }

  predicate NoInputs(db: Db, j: JobId, partition: nat) {
    forall i :: 0 <= i < |db.outputs| ==> !FeedsReduce(db, db.outputs[i], j, partition)
  }

  /** Sets every task of `ts` to `status` and clears its fence pointer. */
  function SetTasks(db: Db, ts: set<TaskId>, status: TaskStatus): Db {
    db.(tasks := map t | t in db.tasks :: if t in ts then db.tasks[t].(status := status, current := None) else db.tasks[t])
  }

  /** QueryBulkFailNonCompletedTasksByJob; it leaves current_attempt_id alone. */
  function BulkFail(db: Db, j: JobId): Db {
    db.(tasks := map t | t in db.tasks ::
      if db.tasks[t].job == j && db.tasks[t].status != TaskCompleted then db.tasks[t].(status := TaskFailed) else db.tasks[t])
  }

  /** The Running attempts of one job (QuerySelectRunningAttemptIDsByJob). */
  function RunningOfJob(db: Db, j: JobId): set<AttemptId> {
    set a | a in db.attempts && db.attempts[a].status == AttemptRunning
      && db.attempts[a].task in db.tasks && db.tasks[db.attempts[a].task].job == j
  }

  /** The Running attempts of all jobs of one replica. */
  function RunningOfReplica(db: Db, r: Replica): set<AttemptId> {
    set a | a in db.attempts && db.attempts[a].status == AttemptRunning
      && db.attempts[a].task in db.tasks && db.tasks[db.attempts[a].task].job in db.jobs
      && db.jobs[db.tasks[db.attempts[a].task].job].replica == r
  }

  /** QueryFailRunningAttemptsByJob and QueryFailRunningAttemptsByReplica, given the rows they match. */
  function FailAttempts(db: Db, doomed: set<AttemptId>): Db {
    db.(attempts := map a | a in db.attempts :: if a in doomed then db.attempts[a].(status := AttemptFailed) else db.attempts[a])
  }

  /** The In-Progress tasks QueryResetTasksForReplica returns to Idle. */
  function InProgressOfReplica(db: Db, r: Replica): set<TaskId> {
    set t | t in db.tasks && db.tasks[t].status == InProgress
      && db.tasks[t].job in db.jobs && db.jobs[db.tasks[t].job].replica == r
  }
}
