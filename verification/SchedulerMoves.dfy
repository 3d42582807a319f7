/** The row changes that any event may make, stated once for all events.

    `Moves(before, after)` is what the invariants and the whole-run theorems rest on; each event
    is shown to make no other change. */
module SchedulerMoves {
  import opened Dds
  import opened JobTransitions
  import opened SchedulerSpec
  import opened SchedulerRuns

  // ---------- the state invariant over rows and jobs ----------

  predicate TaskOk(db: Db, t: TaskId)
    requires t in db.tasks
  {
    var k := db.tasks[t];
    && k.job in db.jobs
    && (k.status == InProgress ==> k.current.Some?)
    && (k.current.Some? ==> k.status == InProgress || k.status == TaskFailed)
    && (k.current.Some? ==> k.current.value in db.attempts && db.attempts[k.current.value].task == t)
  }

  /** A Running attempt is the current attempt of an In-Progress task; a Success attempt belongs to a Completed one. */
  predicate AttemptOk(db: Db, a: AttemptId)
    requires a in db.attempts
  {
    var x := db.attempts[a];
    && x.task in db.tasks
    && (x.status == AttemptRunning ==> db.tasks[x.task].status == InProgress && db.tasks[x.task].current == Some(a))
    && (x.status == AttemptSuccess ==> db.tasks[x.task].status == TaskCompleted)
  }

  ghost predicate RowsOk(db: Db) {
    && (forall t :: t in db.tasks ==> TaskOk(db, t))
    && (forall a :: a in db.attempts ==> AttemptOk(db, a))
  }

  predicate HasFailed(db: Db, j: JobId) { FailedTasks(db, j) != {} }

  predicate AllDone(db: Db, j: JobId) { PendingTasks(db, j) == {} }

  /** Every task is Completed or Failed. */
  predicate Settled(db: Db, j: JobId) { PendingTasks(db, j) == FailedTasks(db, j) }

  predicate MapsDone(db: Db, j: JobId) { PendingOfKind(db, j, MapTask) == {} }

  /** A dead job has a Failed task or nothing but Completed ones, and its terminal state tells which. */
  predicate JobOk(db: Db, j: JobId)
    requires j in db.jobs
  {
    var s := db.jobs[j].status;
    && (Dead(s) ==> HasFailed(db, j) || AllDone(db, j))
    && (s == JobCompleted ==> AllDone(db, j))
    && (s == JobFailed ==> HasFailed(db, j))
    && (s == JobCancelled ==> Settled(db, j))
  }

  ghost predicate JobsOk(db: Db) {
    forall j :: j in db.jobs ==> JobOk(db, j)
  }

  // ---------- what may happen to one row ----------

  predicate NoneRunning(db: Db, t: TaskId) {
    forall a :: a in db.attempts && db.attempts[a].task == t ==> db.attempts[a].status != AttemptRunning
  }

  /** Idle to In-Progress under a brand-new attempt. */
  predicate Starts(db: Db, db2: Db, t: TaskId) {
    && t in db.tasks && t in db2.tasks
    && db.tasks[t].status == Idle && db2.tasks[t].status == InProgress
    && db2.tasks[t].current.Some?
    && db2.tasks[t].current.value !in db.attempts
    && db2.tasks[t].current.value in db2.attempts
    && db2.attempts[db2.tasks[t].current.value].task == t
    && db2.attempts[db2.tasks[t].current.value].status == AttemptRunning
    && !HasFailed(db, db.tasks[t].job)
    && (db.tasks[t].kind == ReduceTask ==> MapsDone(db, db.tasks[t].job))
  }

  /** In-Progress to Completed by the current attempt, in a live job. */
  predicate Commits(db: Db, db2: Db, t: TaskId) {
    && t in db.tasks && t in db2.tasks
    && db.tasks[t].status == InProgress && db.tasks[t].current.Some?
    && db2.tasks[t].status == TaskCompleted && db2.tasks[t].current == None
    && db.tasks[t].current.value in db2.attempts
    && db2.attempts[db.tasks[t].current.value].status == AttemptSuccess
    && db.tasks[t].job in db.jobs && !Dead(db.jobs[db.tasks[t].job].status)
  }

  /** An Idle reduce task without input is completed once the map phase is over. */
  predicate Skips(db: Db, db2: Db, t: TaskId) {
    && t in db.tasks && t in db2.tasks
    && db.tasks[t].status == Idle && db.tasks[t].kind == ReduceTask
    && db2.tasks[t].status == TaskCompleted && db2.tasks[t].current == None
    && MapsDone(db, db.tasks[t].job) && !HasFailed(db, db.tasks[t].job)
    && NoInputs(db, db.tasks[t].job, db.tasks[t].replicaIndex)
  }

  /** In-Progress back to Idle, with no attempt left Running. */
  predicate Returns(db: Db, db2: Db, t: TaskId) {
    && t in db.tasks && t in db2.tasks
    && db.tasks[t].status == InProgress && db2.tasks[t].status == Idle && db2.tasks[t].current == None
    && NoneRunning(db2, t)
  }

  /** Anything but Completed to Failed, with no attempt left Running. */
  predicate GivesUp(db: Db, db2: Db, t: TaskId) {
    && t in db.tasks && t in db2.tasks
    && db.tasks[t].status != TaskCompleted && db2.tasks[t].status == TaskFailed
    && (db2.tasks[t].current == None || db2.tasks[t].current == db.tasks[t].current)
    && NoneRunning(db2, t)
  }

  predicate TaskMove(db: Db, db2: Db, t: TaskId)
    requires t in db.tasks
  {
    && t in db2.tasks
    && db2.tasks[t].job == db.tasks[t].job
    && db2.tasks[t].kind == db.tasks[t].kind
    && db2.tasks[t].replicaIndex == db.tasks[t].replicaIndex
    && (db2.tasks[t] == db.tasks[t] || Starts(db, db2, t) || Commits(db, db2, t) || Skips(db, db2, t)
        || Returns(db, db2, t) || GivesUp(db, db2, t))
  }

  /** A new task is Idle and belongs to a job that had none. */
  predicate TaskBirth(db: Db, db2: Db, t: TaskId)
    requires t in db2.tasks
  {
    && db2.tasks[t].status == Idle && db2.tasks[t].current == None
    && Unscheduled(db, db2.tasks[t].job)
    && db2.tasks[t].job in db2.jobs && db2.jobs[db2.tasks[t].job].status == JobPending
  }

  predicate AttemptMove(db: Db, db2: Db, a: AttemptId)
    requires a in db.attempts
  {
    && a in db2.attempts
    && db2.attempts[a].task == db.attempts[a].task
    && db2.attempts[a].lease == db.attempts[a].lease
    && db2.attempts[a].ttl == db.attempts[a].ttl
    && (|| db2.attempts[a].status == db.attempts[a].status
        || (db2.attempts[a].status == AttemptFailed && db.attempts[a].status == AttemptRunning)
        || (&& db2.attempts[a].status == AttemptSuccess
            && Commits(db, db2, db.attempts[a].task)
            && db.tasks[db.attempts[a].task].current == Some(a)))
  }

  predicate AttemptBirth(db: Db, db2: Db, a: AttemptId)
    requires a in db2.attempts
  {
    && db2.attempts[a].status == AttemptRunning
    && Starts(db, db2, db2.attempts[a].task)
    && db2.tasks[db2.attempts[a].task].current == Some(a)
  }

  predicate JobMove(db: Db, db2: Db, j: JobId)
    requires j in db.jobs
  {
    && j in db2.jobs
    && db2.jobs[j].replica == db.jobs[j].replica
    && var s, s2 := db.jobs[j].status, db2.jobs[j].status;
       || s2 == s
       || (s2 == JobRunning && !Dead(s))
       || (&& s2 == JobCleaning && (s != JobCompleted || !AllDone(db, j))
           && (HasFailed(db2, j) || AllDone(db2, j)))
       || (&& s == JobCleaning
           && (s2 == JobCompleted || s2 == JobFailed || s2 == JobCancelled)
           && (s2 == JobCompleted ==> AllDone(db2, j))
           && (s2 == JobFailed ==> HasFailed(db2, j))
           && (s2 == JobCancelled ==> Settled(db2, j)))
  }

  predicate JobBirth(db: Db, db2: Db, j: JobId)
    requires j in db2.jobs
  {
    db2.jobs[j].status == JobPending && Unscheduled(db, j)
  }

  /** Rows are only appended to TASK_OUTPUTS: one list, by one committing task, numbered from 0. */
  predicate OutputsMove(db: Db, db2: Db) {
    && db.outputs <= db2.outputs
    && forall i :: |db.outputs| <= i < |db2.outputs| ==>
         && db2.outputs[i].task == db2.outputs[|db.outputs|].task
         && db2.outputs[i].partition == Some(i - |db.outputs|)
         && Commits(db, db2, db2.outputs[i].task)
  }

  ghost predicate TasksMove(db: Db, db2: Db) {
    && (forall t :: t in db.tasks ==> TaskMove(db, db2, t))
    && (forall t :: t in db2.tasks && t !in db.tasks ==> TaskBirth(db, db2, t))
  }

  ghost predicate AttemptsMove(db: Db, db2: Db) {
    && (forall a :: a in db.attempts ==> AttemptMove(db, db2, a))
    && (forall a :: a in db2.attempts && a !in db.attempts ==> AttemptBirth(db, db2, a))
  }

  ghost predicate JobsMove(db: Db, db2: Db) {
    && (forall j :: j in db.jobs ==> JobMove(db, db2, j))
    && (forall j :: j in db2.jobs && j !in db.jobs ==> JobBirth(db, db2, j))
  }

  /** No job row disappears or changes its replica. */
  ghost predicate KeepsJobs(db: Db, db2: Db) {
    forall j :: j in db.jobs ==> j in db2.jobs && db2.jobs[j].replica == db.jobs[j].replica
  }

  /** The part of a move that does not look at job statuses. */
  ghost predicate RowsMove(db: Db, db2: Db) {
    TasksMove(db, db2) && AttemptsMove(db, db2) && KeepsJobs(db, db2)
  }

  ghost predicate Moves(db: Db, db2: Db) {
    TasksMove(db, db2) && AttemptsMove(db, db2) && JobsMove(db, db2) && OutputsMove(db, db2)
  }

  lemma MovesRows(db: Db, db2: Db)
    requires Moves(db, db2)
    ensures RowsMove(db, db2)
  {
    forall j | j in db.jobs ensures j in db2.jobs && db2.jobs[j].replica == db.jobs[j].replica { assert JobMove(db, db2, j); }
  }

  // ---------- each event makes only such moves ----------

  lemma StutterMoves(db: Db, db2: Db)
    requires db2 == db.(now := db2.now, maxPods := db2.maxPods)
    ensures Moves(db, db2)
  {
  }

  lemma RenewMoves(db: Db, a: AttemptId)
    ensures Moves(db, RenewRow(db, a))
  {
  }

  lemma AssignMapMoves(db: Db, ttl: int, j: JobId, r: Replica, t: TaskId, a: AttemptId, l: LeaseId, locked: set<TaskId>)
    requires JobsOk(db) && CanAssignMap(db, j, r, t, a, locked)
    ensures Moves(db, Assigned(db, ttl, j, t, a, l))
  {
    assert t in PendingTasks(db, j);
  }

  lemma AssignReduceMoves(db: Db, ttl: int, j: JobId, r: Replica, t: TaskId, a: AttemptId, l: LeaseId, locked: set<TaskId>)
    requires JobsOk(db) && CanAssignReduce(db, j, r, t, a, locked)
    ensures Moves(db, Assigned(AutoCompleted(db, j), ttl, j, t, a, l))
  {
    var db2 := Assigned(AutoCompleted(db, j), ttl, j, t, a, l);
    AssignReduceRows(db, ttl, j, r, t, a, l, locked);
    AssignReduceTasks(db, db2, j, t, a, Attempt(t, l, db.now, ttl, AttemptRunning));
    assert t in PendingTasks(db, j);
    assert JobOk(db, j);
  }

  lemma AssignReduceTasks(db: Db, db2: Db, j: JobId, t: TaskId, a: AttemptId, row: Attempt)
    requires t in db.tasks && db.tasks[t].job == j && db.tasks[t].status == Idle && a !in db.attempts
    requires MapsDone(db, j) && !HasFailed(db, j) && row.task == t && row.status == AttemptRunning
    requires db2.tasks == SetTasks(db, EmptyReduces(db, j), TaskCompleted).tasks[t := db.tasks[t].(status := InProgress, current := Some(a))]
    requires db2.attempts == db.attempts[a := row]
    ensures TasksMove(db, db2) && AttemptsMove(db, db2)
  {
    assert Starts(db, db2, t);
  }

  lemma AssignReduceRows(db: Db, ttl: int, j: JobId, r: Replica, t: TaskId, a: AttemptId, l: LeaseId, locked: set<TaskId>)
    requires CanAssignReduce(db, j, r, t, a, locked)
    ensures t in IdleTasks(db, j, r, ReduceTask, locked)
    ensures var db2 := Assigned(AutoCompleted(db, j), ttl, j, t, a, l);
      && db2.tasks == SetTasks(db, EmptyReduces(db, j), TaskCompleted).tasks[t := db.tasks[t].(status := InProgress, current := Some(a))]
      && db2.attempts == db.attempts[a := Attempt(t, l, db.now, ttl, AttemptRunning)]
      && db2.jobs == db.jobs[j := db.jobs[j].(status := JobRunning)]
      && db2.outputs == db.outputs
  {
  }

  lemma AutoCompleteRows(db: Db, j: JobId, r: Replica, locked: set<TaskId>)
    requires MapPhaseOver(db, j, r, locked)
    ensures RowsMove(db, AutoCompleted(db, j))
  {
  }

  lemma AutoCompleteMoves(db: Db, j: JobId, r: Replica, locked: set<TaskId>)
    requires JobsOk(db) && CanAutoComplete(db, j, r, locked)
    ensures Moves(db, AutoCompleted(db, j))
  {
    if AutoCompleteFinishes(db, j) {
      var t :| t in EmptyReduces(db, j);
      assert t in PendingTasks(db, j);
    }
  }

  lemma CompleteMoves(db: Db, skew: int, t: TaskId, a: AttemptId, l: LeaseId, outs: seq<(string, string)>)
    requires RowsOk(db) && CompleteVerdict(db, skew, t, a, l) == Ok
    ensures Moves(db, Completed(db, t, a, outs))
  {
    assert TaskOk(db, t);
    CompletedRows(db, t, a, outs);
    CompletedMoves(db, Completed(db, t, a, outs), t, a);
  }

  lemma CompletedMoves(db: Db, db2: Db, t: TaskId, a: AttemptId)
    requires t in db.tasks && db.tasks[t].status == InProgress && db.tasks[t].current == Some(a)
    requires a in db.attempts && db.attempts[a].task == t
    requires db.tasks[t].job in db.jobs && !Dead(db.jobs[db.tasks[t].job].status)
    requires db2.tasks == db.tasks[t := db.tasks[t].(status := TaskCompleted, current := None)]
    requires db2.attempts == db.attempts[a := db.attempts[a].(status := AttemptSuccess)]
    requires db2.jobs == if CompletesJob(db, t) then SetJobStatus(db, db.tasks[t].job, JobCleaning).jobs else db.jobs
    requires OutputsMove(db, db2)
    ensures Moves(db, db2)
  {
    CompleteTasks(db, db2, t, a);
    CompleteJobs(db, db2, t);
  }

  lemma CompleteJobs(db: Db, db2: Db, t: TaskId)
    requires t in db.tasks && db.tasks[t].status == InProgress
    requires db.tasks[t].job in db.jobs && !Dead(db.jobs[db.tasks[t].job].status)
    requires db2.tasks == db.tasks[t := db.tasks[t].(status := TaskCompleted, current := None)]
    requires db2.jobs == if CompletesJob(db, t) then SetJobStatus(db, db.tasks[t].job, JobCleaning).jobs else db.jobs
    ensures JobsMove(db, db2)
  {
    var j := db.tasks[t].job;
    if CompletesJob(db, t) { assert PendingTasks(db2, j) <= PendingTasks(db, j) - {t}; }
  }

  lemma CompleteTasks(db: Db, db2: Db, t: TaskId, a: AttemptId)
    requires t in db.tasks && a in db.attempts && db.attempts[a].task == t
    requires db.tasks[t].status == InProgress && db.tasks[t].current == Some(a)
    requires db.tasks[t].job in db.jobs && !Dead(db.jobs[db.tasks[t].job].status)
    requires db2.tasks == db.tasks[t := db.tasks[t].(status := TaskCompleted, current := None)]
    requires db2.attempts == db.attempts[a := db.attempts[a].(status := AttemptSuccess)]
    ensures TasksMove(db, db2) && AttemptsMove(db, db2) && Commits(db, db2, t)
  {
  }

  lemma CompletedRows(db: Db, t: TaskId, a: AttemptId, outs: seq<(string, string)>)
    requires t in db.tasks && a in db.attempts
    ensures var db2 := Completed(db, t, a, outs);
      && db2.tasks == db.tasks[t := db.tasks[t].(status := TaskCompleted, current := None)]
      && db2.attempts == db.attempts[a := db.attempts[a].(status := AttemptSuccess)]
      && db2.outputs == db.outputs + OutputRows(t, outs)
      && db2.jobs == if CompletesJob(db, t) then SetJobStatus(db, db.tasks[t].job, JobCleaning).jobs else db.jobs
  {
  }

  lemma FailMoves(db: Db, skew: int, t: TaskId, a: AttemptId, l: LeaseId)
    requires RowsOk(db) && FailVerdict(db, skew, t, a, l) == Ok
    ensures Moves(db, FailedOne(db, t, a))
  {
    var db2 := FailedOne(db, t, a);
    assert TaskOk(db, t);
    OnlyHolder(db, t, a);
    FailTasks(db, db2, t, a);
    if AfterFailure(db, t) == TaskFailed { assert t in FailedTasks(db2, db.tasks[t].job); }
  }

  /** Only the current attempt of a task can be Running. */
  lemma OnlyHolder(db: Db, t: TaskId, a: AttemptId)
    requires RowsOk(db) && t in db.tasks && db.tasks[t].current == Some(a)
    ensures forall b :: b in db.attempts && b != a && db.attempts[b].task == t ==> db.attempts[b].status != AttemptRunning
  {
    forall b | b in db.attempts && b != a && db.attempts[b].task == t ensures db.attempts[b].status != AttemptRunning {
      assert AttemptOk(db, b);
    }
  }

  lemma FailTasks(db: Db, db2: Db, t: TaskId, a: AttemptId)
    requires t in db.tasks && a in db.attempts && db.attempts[a].task == t && db.tasks[t].status == InProgress
    requires forall b :: b in db.attempts && b != a && db.attempts[b].task == t ==> db.attempts[b].status != AttemptRunning
    requires db.attempts[a].status != AttemptSuccess
    requires db2.tasks == db.tasks[t := db.tasks[t].(status := AfterFailure(db, t), current := None)]
    requires db2.attempts == db.attempts[a := db.attempts[a].(status := AttemptFailed)]
    ensures TasksMove(db, db2) && AttemptsMove(db, db2)
  {
    assert NoneRunning(db2, t);
  }

  lemma ReapMoves(db: Db, m: Local, skew: int, r: Replica, locked: set<TaskId>)
    requires RowsOk(db)
    ensures Moves(db, Reaped(db, Stale(db, m, skew, r, locked)))
  {
    var stale := Stale(db, m, skew, r, locked);
    ReapTasks(db, stale, r);
    ReapAttempts(db, stale, r);
    ReapJobs(db, stale);
  }

  lemma ReapTasks(db: Db, stale: set<TaskId>, r: Replica)
    requires RowsOk(db) && forall t :: t in stale ==> Held(db, r, t)
    ensures TasksMove(db, Reaped(db, stale))
  {
    var db2 := Reaped(db, stale);
    forall t | t in stale ensures NoneRunning(db2, t) {
      assert Held(db, r, t);
      OnlyHolder(db, t, db.tasks[t].current.value);
      assert db.tasks[t].current.value in Holders(db, stale);
    }
    assert forall t :: t in stale ==> Held(db, r, t);
  }

  lemma ReapAttempts(db: Db, stale: set<TaskId>, r: Replica)
    requires forall t :: t in stale ==> Held(db, r, t)
    ensures AttemptsMove(db, Reaped(db, stale))
  {
    forall a | a in Holders(db, stale) ensures a in db.attempts && db.attempts[a].status == AttemptRunning {
      var t :| t in stale && t in db.tasks && db.tasks[t].current == Some(a);
      assert Held(db, r, t);
    }
  }

  lemma ReapJobs(db: Db, stale: set<TaskId>)
    requires forall t :: t in stale ==> t in db.tasks && db.tasks[t].status == InProgress
    ensures JobsMove(db, Reaped(db, stale))
  {
    var db2 := Reaped(db, stale);
    forall j | j in ExhaustedJobs(db, stale)
      ensures HasFailed(db2, j) && !AllDone(db, j)
    {
      var t :| t in stale && AfterFailure(db, t) == TaskFailed && db.tasks[t].job == j;
      assert t in FailedTasks(db2, j) && t in PendingTasks(db, j);
    }
  }

  lemma FailAttemptsMoves(db: Db, doomed: set<AttemptId>)
    requires doomed <= RunningAttempts(db)
    ensures Moves(db, FailAttempts(db, doomed))
  {
  }

  lemma CancelMoves(db: Db, j: JobId)
    requires RowsOk(db) && Cancellable(db, j)
    ensures Moves(db, SchedulerSpec.Cancelled(db, j))
  {
    var db2 := SchedulerSpec.Cancelled(db, j);
    CancelRows(db, j);
    assert PendingTasks(db2, j) == FailedTasks(db2, j);
  }

  lemma CancelRows(db: Db, j: JobId)
    requires RowsOk(db) && Cancellable(db, j)
    ensures TasksMove(db, SchedulerSpec.Cancelled(db, j)) && AttemptsMove(db, SchedulerSpec.Cancelled(db, j))
  {
  }

  lemma ResetMoves(db: Db, r: Replica)
    requires RowsOk(db) && RunningOfReplica(db, r) == {}
    ensures Moves(db, SetTasks(db, InProgressOfReplica(db, r), Idle))
  {
    assert forall a :: a in db.attempts && db.attempts[a].task in InProgressOfReplica(db, r) ==> a !in RunningOfReplica(db, r);
  }

  lemma ScheduleMoves(db: Db, j: JobId, home: Replica, ns: seq<NewTask>)
    requires FreshIds(db, ns) && Unscheduled(db, j)
    ensures Moves(db, Scheduled(db, j, home, ns))
  {
  }

  /** The terminal state a cleanup may write, given what the queued ticket is known to mean. */
  predicate TicketOk(db: Db, j: JobId, k: Ticket) {
    && j in db.jobs && Dead(db.jobs[j].status)
    && (k.Known? ==> Terminal(k.status))
    && (k == Known(JobCompleted) ==> AllDone(db, j))
    && (k == Known(JobFailed) ==> HasFailed(db, j))
    && (k == Known(JobCancelled) ==> Settled(db, j))
  }

  lemma FinalizeMoves(cfg: Config, db: Db, m: Local, j: JobId, to: JobStatus, stagingOk: bool)
    requires TicketOk(db, j, Known(to))
    ensures Moves(db, FinalizedDb(cfg, db, m, j, to, stagingOk))
  {
  }
}
