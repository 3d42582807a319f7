/** What one pass of the lease reaper does to every row, told on the row fields alone. */
module Reaper {
  import opened Dds
  import opened SchedulerSpec
  import opened SchedulerMoves
  import Scheduler

  type Process = Scheduler.Scheduler

  /** The store after a pass: the reclaimed rows, then the flush of the jobs that retry a task. */
  function Pass(db: Db, m: Local, skew: int, r: Replica, locked: set<TaskId>): Db {
    var stale := Stale(db, m, skew, r, locked);
    Process.Flushed(Reaped(db, stale), Process.RetriedJobs(db, stale))
  }

  /** Task t, of either kind, runs as attempt a for a job of replica r. */
  predicate RunsAs(db: Db, r: Replica, t: TaskId, a: AttemptId) {
    && t in db.tasks && db.tasks[t].status == InProgress && db.tasks[t].current == Some(a)
    && a in db.attempts && db.attempts[a].status == AttemptRunning
    && db.tasks[t].job in db.jobs && db.jobs[db.tasks[t].job].replica == r
  }

  /** When replica r last heard of the attempt: its own stamp if it keeps one, else the row. */
  function HeardAt(db: Db, m: Local, a: AttemptId): int
    requires a in db.attempts
  {
    if a in m.heartbeats then m.heartbeats[a] else db.attempts[a].lastRenewed
  }

  /** No row lock is in the way and nothing was heard for a lease and the tolerance. */
  predicate Silent(db: Db, m: Local, skew: int, r: Replica, locked: set<TaskId>, t: TaskId) {
    && t in db.tasks && db.tasks[t].current.Some? && t !in locked
    && var a := db.tasks[t].current.value;
       RunsAs(db, r, t, a) && db.now - HeardAt(db, m, a) >= db.attempts[a].ttl + skew
  }

  /** The task has had three attempts. */
  predicate Spent(db: Db, t: TaskId) {
    |set a | a in db.attempts && db.attempts[a].task == t| >= 3
  }

  /** An unlocked running task of replica r is taken from its worker exactly when the worker was silent for the lease and
      the tolerance; it goes back to Idle, or to Failed with its job in Cleaning after the third attempt. */
  lemma ReclaimedIff(db: Db, m: Local, skew: int, r: Replica, locked: set<TaskId>, t: TaskId, a: AttemptId)
    requires RunsAs(db, r, t, a) && t !in locked
    ensures var after, late := Pass(db, m, skew, r, locked), db.now - HeardAt(db, m, a) >= db.attempts[a].ttl + skew;
      && t in after.tasks && a in after.attempts && db.tasks[t].job in after.jobs
      && (after.tasks[t].current == None <==> late)
      && (after.tasks[t].status == Idle <==> late && !Spent(db, t))
      && (after.tasks[t].status == TaskFailed <==> late && Spent(db, t))
      && (late ==> after.attempts[a].status == AttemptFailed)
      && (late && Spent(db, t) ==> after.jobs[db.tasks[t].job].status == JobCleaning)
  {
    TaskAfter(db, m, skew, r, locked, t);
    StaleIff(db, m, skew, r, locked, t);
    var stale := Stale(db, m, skew, r, locked);
    if t in stale { TakenFrom(db, stale, t, a); }
  }

  lemma StaleIff(db: Db, m: Local, skew: int, r: Replica, locked: set<TaskId>, t: TaskId)
    ensures t in Stale(db, m, skew, r, locked) <==> Silent(db, m, skew, r, locked, t)
  {
  }

  lemma SpentIff(db: Db, t: TaskId)
    ensures AfterFailure(db, t) == if Spent(db, t) then TaskFailed else Idle
  {
    assert AttemptsOf(db, t) == set a | a in db.attempts && db.attempts[a].task == t;
  }

  lemma TakenFrom(db: Db, stale: set<TaskId>, t: TaskId, a: AttemptId)
    requires t in stale && t in db.tasks && db.tasks[t].current == Some(a) && a in db.attempts && db.tasks[t].job in db.jobs
    ensures Reaped(db, stale).attempts[a].status == AttemptFailed
    ensures Spent(db, t) ==> Reaped(db, stale).jobs[db.tasks[t].job].status == JobCleaning
  {
    SpentIff(db, t);
    assert a in Holders(db, stale);
    if Spent(db, t) { assert db.tasks[t].job in ExhaustedJobs(db, stale); }
  }

  /** Every task row after the pass. */
  lemma TaskAfter(db: Db, m: Local, skew: int, r: Replica, locked: set<TaskId>, t: TaskId)
    ensures var after := Pass(db, m, skew, r, locked);
      && after.tasks.Keys == db.tasks.Keys
      && (t in db.tasks && Silent(db, m, skew, r, locked, t) ==>
            after.tasks[t] == db.tasks[t].(status := if Spent(db, t) then TaskFailed else Idle, current := None))
      && (t in db.tasks && !Silent(db, m, skew, r, locked, t) ==> after.tasks[t] == db.tasks[t])
  {
    StaleIff(db, m, skew, r, locked, t);
    SpentIff(db, t);
  }

  /** Some silent task of the job has had its third attempt. */
  ghost predicate Exhausted(db: Db, m: Local, skew: int, r: Replica, locked: set<TaskId>, j: JobId) {
    exists t :: Silent(db, m, skew, r, locked, t) && Spent(db, t) && db.tasks[t].job == j
  }

  /** Some silent task of the job goes back to Idle. */
  ghost predicate Retried(db: Db, m: Local, skew: int, r: Replica, locked: set<TaskId>, j: JobId) {
    exists t :: Silent(db, m, skew, r, locked, t) && !Spent(db, t) && db.tasks[t].job == j
  }

  lemma ExhaustedIff(db: Db, m: Local, skew: int, r: Replica, locked: set<TaskId>, j: JobId)
    ensures j in ExhaustedJobs(db, Stale(db, m, skew, r, locked)) <==> Exhausted(db, m, skew, r, locked, j)
    ensures j in Process.RetriedJobs(db, Stale(db, m, skew, r, locked)) <==> Retried(db, m, skew, r, locked, j)
  {
    forall t ensures t in Stale(db, m, skew, r, locked) <==> Silent(db, m, skew, r, locked, t) { StaleIff(db, m, skew, r, locked, t); }
    forall t ensures AfterFailure(db, t) == if Spent(db, t) then TaskFailed else Idle { SpentIff(db, t); }
  }

  /** Every job row after the pass, and the cleanup queued for it. */
  lemma JobAfter(db: Db, m: Local, skew: int, r: Replica, locked: set<TaskId>, j: JobId)
    ensures var after, queue := Pass(db, m, skew, r, locked), ReapLocal(m, ExhaustedJobs(db, Stale(db, m, skew, r, locked))).pendingCleanup;
      && after.jobs.Keys == db.jobs.Keys
      && (j in db.jobs && Exhausted(db, m, skew, r, locked, j) ==> after.jobs[j] == db.jobs[j].(status := JobCleaning))
      && (j in db.jobs && !Exhausted(db, m, skew, r, locked, j) ==> after.jobs[j] == db.jobs[j])
      && (Exhausted(db, m, skew, r, locked, j) ==> j in queue && queue[j] == Known(JobFailed))
      && (!Exhausted(db, m, skew, r, locked, j) ==> (j in queue <==> j in m.pendingCleanup) && (j in queue ==> queue[j] == m.pendingCleanup[j]))
  {
    ExhaustedIff(db, m, skew, r, locked, j);
  }

  /** A Running attempt whose own task is silent, or whose job retries a silent task. */
  ghost predicate Struck(db: Db, m: Local, skew: int, r: Replica, locked: set<TaskId>, a: AttemptId)
    requires a in db.attempts
  {
    && db.attempts[a].status == AttemptRunning && db.attempts[a].task in db.tasks
    && (Silent(db, m, skew, r, locked, db.attempts[a].task) || Retried(db, m, skew, r, locked, db.tasks[db.attempts[a].task].job))
  }

  /** Every attempt row after the pass. */
  lemma AttemptAfter(db: Db, m: Local, skew: int, r: Replica, locked: set<TaskId>, a: AttemptId)
    requires RowsOk(db)
    ensures var after := Pass(db, m, skew, r, locked);
      && after.attempts.Keys == db.attempts.Keys
      && (a in db.attempts && Struck(db, m, skew, r, locked, a) ==> after.attempts[a] == db.attempts[a].(status := AttemptFailed))
      && (a in db.attempts && !Struck(db, m, skew, r, locked, a) ==> after.attempts[a] == db.attempts[a])
  {
    var stale := Stale(db, m, skew, r, locked);
    var mid := Reaped(db, stale);
    if a in db.attempts {
      assert AttemptOk(db, a);
      HolderIff(db, m, skew, r, locked, a);
      ExhaustedIff(db, m, skew, r, locked, db.tasks[db.attempts[a].task].job);
      assert mid.tasks[db.attempts[a].task].job == db.tasks[db.attempts[a].task].job;
    }
  }

  lemma HolderIff(db: Db, m: Local, skew: int, r: Replica, locked: set<TaskId>, a: AttemptId)
    requires RowsOk(db) && a in db.attempts
    ensures a in Holders(db, Stale(db, m, skew, r, locked)) <==>
      db.attempts[a].status == AttemptRunning && Silent(db, m, skew, r, locked, db.attempts[a].task)
  {
    assert AttemptOk(db, a);
    var stale, t := Stale(db, m, skew, r, locked), db.attempts[a].task;
    StaleIff(db, m, skew, r, locked, t);
    assert TaskOk(db, t);
    forall u | u in stale && db.tasks[u].current == Some(a) ensures u == t { assert TaskOk(db, u); }
    if t in stale && db.attempts[a].status == AttemptRunning { assert db.tasks[t].current == Some(a); }
  }
}
