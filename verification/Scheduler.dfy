/** One manager process: its transactions, statement by statement, over the data store it is connected to. */
module Scheduler {
  import opened Dds
  import opened JobTransitions
  import opened SchedulerSpec

  /** What GetNextTask answers. */
  datatype Answer =
    | GotMap(t: TaskId)
    | GotReduce(t: TaskId)
    | ErrNoIdleTasks
    | ErrJobCompleted
    | ErrJobFailed
    | ErrNoSuchJob
    | ErrWrongReplica
    | ErrQuotaExceeded

  /** The answers, by the check that decides them. */
  datatype Case = FailedJob | UnknownJob | ForeignJob | MapWork | ReduceWork | NoRoom | Waiting | Done

  /** Which answer a request for work gets: map tasks first, reduce tasks only once no map task is unfinished. */
  function NextCase(db: Db, j: JobId, r: Replica, locked: set<TaskId>): Case {
    if FailedTasks(db, j) != {} then FailedJob
    else if j !in db.jobs then UnknownJob
    else if db.jobs[j].replica != r then ForeignJob
    else if IdleTasks(db, j, r, MapTask, locked) != {} then if QuotaFree(db) then MapWork else NoRoom
    else if PendingOfKind(db, j, MapTask) != {} then Waiting
    else
      var db1 := AutoCompleted(db, j);
      if IdleTasks(db1, j, r, ReduceTask, locked) != {} then if QuotaFree(db1) then ReduceWork else NoRoom
      else if PendingOfKind(db1, j, ReduceTask) != {} then Waiting
      else Done
  }

  function CaseOf(answer: Answer): Case {
    match answer
    case GotMap(_) => MapWork
    case GotReduce(_) => ReduceWork
    case ErrNoIdleTasks => Waiting
    case ErrJobCompleted => Done
    case ErrJobFailed => FailedJob
    case ErrNoSuchJob => UnknownJob
    case ErrWrongReplica => ForeignJob
    case ErrQuotaExceeded => NoRoom
  }

  /** A job is reported completed exactly when, after skipping empty partitions, no task of it is unfinished. */
  lemma DoneIff(db: Db, j: JobId, r: Replica, locked: set<TaskId>)
    requires Routable(db, j, r) && IdleTasks(db, j, r, MapTask, locked) == {}
    ensures NextCase(db, j, r, locked) == Done <==> PendingOfKind(db, j, MapTask) == {} && PendingTasks(AutoCompleted(db, j), j) == {}
  {
    var db1 := AutoCompleted(db, j);
    assert PendingTasks(db1, j) == PendingOfKind(db1, j, MapTask) + PendingOfKind(db1, j, ReduceTask);
    assert PendingOfKind(db1, j, MapTask) == PendingOfKind(db, j, MapTask);
    assert IdleTasks(db1, j, r, ReduceTask, locked) <= PendingOfKind(db1, j, ReduceTask);
  }

  /** The answers that leave something written; all others roll back. */
  predicate Writes(answer: Answer, mapPhaseOver: bool) {
    answer.GotMap? || answer.GotReduce? || answer.ErrJobCompleted? || (answer.ErrNoIdleTasks? && mapPhaseOver)
  }

  class Scheduler {
    const replicaIndex: Replica
    const cfg: Config

    // the data store
    var jobs: map<JobId, Job>
    var tasks: map<TaskId, Task>
    var attempts: map<AttemptId, Attempt>
    var outputs: seq<Output>
    var maxPods: Option<int>
    var now: int

    // this process
    var pendingCleanup: map<JobId, Ticket>
    var cleanupRetries: map<JobId, nat>
    var inFlight: map<JobId, Ticket>
    var heartbeats: map<AttemptId, int>

    constructor (r: Replica, c: Config)
      ensures replicaIndex == r && cfg == c && Memory() == EMPTY_LOCAL
      ensures View() == Db(map[], map[], map[], [], None, 0)
    {
      replicaIndex, cfg := r, c;
      jobs, tasks, attempts, outputs, maxPods, now := map[], map[], map[], [], None, 0;
      pendingCleanup, cleanupRetries, inFlight, heartbeats := map[], map[], map[], map[];
    }

    function View(): Db
      reads this
    {
      Db(jobs, tasks, attempts, outputs, maxPods, now)
    }

    function Memory(): Local
      reads this
    {
      Local(pendingCleanup, cleanupRetries, inFlight, heartbeats)
    }

    /** COMMIT. */
    method Commit(tx: Db)
      modifies this
      ensures View() == tx && Memory() == old(Memory())
    {
      jobs, tasks, attempts, outputs, maxPods, now := tx.jobs, tx.tasks, tx.attempts, tx.outputs, tx.maxPods, tx.now;
    }

    method EnqueueCleanup(j: JobId, k: Ticket)
      modifies this
      ensures View() == old(View()) && Memory() == Enqueue(old(Memory()), j, k)
    {
      pendingCleanup := pendingCleanup[j := k];
      cleanupRetries := cleanupRetries[j := (if j in cleanupRetries then cleanupRetries[j] else 0) + 1];
    }

    /** QuerySelectIdleTask: the first unlocked idle row in (replica_index, task_id) order. */
    static method SelectIdleTask(db: Db, j: JobId, r: Replica, kind: TaskKind, locked: set<TaskId>) returns (o: Option<TaskId>)
      ensures o.Some? ==> Selected(db, j, r, kind, locked, o.value)
      ensures o.None? <==> IdleTasks(db, j, r, kind, locked) == {}
    {
      var rest := IdleTasks(db, j, r, kind, locked);
      o := None;
      while rest != {}
        invariant rest <= IdleTasks(db, j, r, kind, locked)
        invariant o.None? ==> rest == IdleTasks(db, j, r, kind, locked)
        invariant o.Some? ==> o.value in IdleTasks(db, j, r, kind, locked)
        invariant o.Some? ==> forall u :: u in IdleTasks(db, j, r, kind, locked) && u !in rest ==> Before(db, o.value, u)
        decreases rest
      {
        var t :| t in rest;
        if o.None? || !Before(db, o.value, t) {
          o := Some(t);
        }
        rest := rest - {t};
      }
    }

    /** tryAssignTask: pick a row, check the quota, and write the assignment. */
    static method TryAssign(tx: Db, ttl: int, j: JobId, r: Replica, kind: TaskKind, a: AttemptId, l: LeaseId, locked: set<TaskId>)
      returns (pick: Option<TaskId>, full: bool, tx2: Db)
      ensures full <==> IdleTasks(tx, j, r, kind, locked) != {} && !QuotaFree(tx)
      ensures pick.Some? <==> IdleTasks(tx, j, r, kind, locked) != {} && QuotaFree(tx)
      ensures pick.Some? ==> Selected(tx, j, r, kind, locked, pick.value) && tx2 == Assigned(tx, ttl, j, pick.value, a, l)
    {
      full, tx2 := false, tx;
      pick := SelectIdleTask(tx, j, r, kind, locked);
      if pick.None? { return; }
      if MaxPods(tx) <= |RunningAttempts(tx)| { return None, true, tx2; }
      tx2 := SetInProgress(tx, pick.value, a);
      tx2 := InsertAttempt(tx2, a, pick.value, l, ttl);
      tx2 := SetJobStatus(tx2, j, JobRunning);
    }

    /** autoCompleteEmptyReducesTx. */
    static method AutoCompleteEmptyReduces(tx: Db, j: JobId) returns (tx2: Db, jobNowDone: bool)
      ensures tx2 == AutoCompleted(tx, j) && jobNowDone == AutoCompleteFinishes(tx, j)
    {
      var empty := EmptyReduces(tx, j);
      tx2 := SetTasks(tx, empty, TaskCompleted);
      jobNowDone := |empty| > 0 && |PendingTasks(tx2, j)| == 0;
      if jobNowDone { tx2 := SetJobStatus(tx2, j, JobCleaning); }
    }

    /** GetNextTask.  `a` and `l` are the UUIDs the call draws. */
    method GetNextTask(j: JobId, a: AttemptId, l: LeaseId, locked: set<TaskId>) returns (answer: Answer)
      requires a !in attempts
      modifies this
      ensures CaseOf(answer) == NextCase(old(View()), j, replicaIndex, locked)
      ensures answer.GotMap? ==>
        && CanAssignMap(old(View()), j, replicaIndex, answer.t, a, locked)
        && View() == Assigned(old(View()), cfg.leaseTtl, j, answer.t, a, l)
        && Memory() == old(Memory()).(heartbeats := old(heartbeats)[a := old(now)])
      ensures answer.GotReduce? ==>
        && CanAssignReduce(old(View()), j, replicaIndex, answer.t, a, locked)
        && View() == Assigned(AutoCompleted(old(View()), j), cfg.leaseTtl, j, answer.t, a, l)
        && Memory() == old(Memory()).(heartbeats := old(heartbeats)[a := old(now)])
      ensures answer.ErrJobCompleted? || (answer.ErrNoIdleTasks? && MapPhaseOver(old(View()), j, replicaIndex, locked)) ==>
        && CanAutoComplete(old(View()), j, replicaIndex, locked)
        && View() == AutoCompleted(old(View()), j)
        && Memory() == if AutoCompleteFinishes(old(View()), j) then Enqueue(old(Memory()), j, Known(JobCompleted)) else old(Memory())
      ensures !Writes(answer, MapPhaseOver(old(View()), j, replicaIndex, locked)) ==> View() == old(View()) && Memory() == old(Memory())
    {
      var tx := View();
      if |FailedTasks(tx, j)| > 0 { return ErrJobFailed; }
      if j !in tx.jobs { return ErrNoSuchJob; }
      if tx.jobs[j].replica != replicaIndex { return ErrWrongReplica; }

      var pick, full, after := TryAssign(tx, cfg.leaseTtl, j, replicaIndex, MapTask, a, l, locked);
      if full { return ErrQuotaExceeded; }
      if pick.Some? {
        CommitAssignment(after, a);
        return GotMap(pick.value);
      }
      if |PendingOfKind(tx, j, MapTask)| > 0 { return ErrNoIdleTasks; }
      answer := NextReduce(j, a, l, locked);
    }

    /** GetNextTask once the map phase is over. */
    method NextReduce(j: JobId, a: AttemptId, l: LeaseId, locked: set<TaskId>) returns (answer: Answer)
      requires a !in attempts && MapPhaseOver(View(), j, replicaIndex, locked)
      modifies this
      ensures CaseOf(answer) == NextCase(old(View()), j, replicaIndex, locked) && !answer.GotMap?
      ensures answer.GotReduce? ==>
        && CanAssignReduce(old(View()), j, replicaIndex, answer.t, a, locked)
        && View() == Assigned(AutoCompleted(old(View()), j), cfg.leaseTtl, j, answer.t, a, l)
        && Memory() == old(Memory()).(heartbeats := old(heartbeats)[a := old(now)])
      ensures answer.ErrJobCompleted? || answer.ErrNoIdleTasks? ==>
        && CanAutoComplete(old(View()), j, replicaIndex, locked)
        && View() == AutoCompleted(old(View()), j)
        && Memory() == if AutoCompleteFinishes(old(View()), j) then Enqueue(old(Memory()), j, Known(JobCompleted)) else old(Memory())
      ensures answer.ErrQuotaExceeded? ==> View() == old(View()) && Memory() == old(Memory())
    {
      var tx, jobNowDone := AutoCompleteEmptyReduces(View(), j);
      var pick, full, after := TryAssign(tx, cfg.leaseTtl, j, replicaIndex, ReduceTask, a, l, locked);
      if full { return ErrQuotaExceeded; }
      if pick.Some? {
        CommitAssignment(after, a);
        return GotReduce(pick.value);
      }
      answer := if |PendingOfKind(tx, j, ReduceTask)| > 0 then ErrNoIdleTasks else ErrJobCompleted;
      CommitSkips(tx, j, jobNowDone);
    }

    /** COMMIT of an assignment, then the first heartbeat stamp. */
    method CommitAssignment(tx: Db, a: AttemptId)
      modifies this
      ensures View() == tx && Memory() == old(Memory()).(heartbeats := old(heartbeats)[a := tx.now])
    {
      Commit(tx);
      heartbeats := heartbeats[a := now];
    }

    /** COMMIT without an assignment, then the cleanup of a job that has nothing left. */
    method CommitSkips(tx: Db, j: JobId, jobNowDone: bool)
      modifies this
      ensures View() == tx && Memory() == if jobNowDone then Enqueue(old(Memory()), j, Known(JobCompleted)) else old(Memory())
    {
      Commit(tx);
      if jobNowDone { EnqueueCleanup(j, Known(JobCompleted)); }
    }

    /** RenewLease. */
    method RenewLease(t: TaskId, a: AttemptId, l: LeaseId) returns (verdict: Verdict)
      modifies this
      ensures verdict == FenceVerdict(old(View()), cfg.skew, t, a, l)
      ensures verdict == Ok ==> View() == RenewRow(old(View()), a) && Memory() == old(Memory()).(heartbeats := old(heartbeats)[a := old(now)])
      ensures verdict != Ok ==> View() == old(View()) && Memory() == old(Memory())
    {
      var tx := View();
      if t !in tx.tasks { return ErrTaskNotFound; }
      if tx.tasks[t].status != InProgress { return ErrInvalidStateTransition; }
      if tx.tasks[t].current != Some(a) { return ErrStaleAttempt; }
      if !LeaseValid(tx, cfg.skew, a, l) { return ErrExpiredLease; }
      tx := RenewRow(tx, a);
      Commit(tx);
      heartbeats := heartbeats[a := now];
      verdict := Ok;
    }

    /** CompleteTask. */
    method CompleteTask(t: TaskId, a: AttemptId, l: LeaseId, uris: seq<string>, checksums: seq<string>) returns (verdict: Verdict)
      modifies this
      ensures verdict == if |uris| != |checksums| then ErrOutputMismatch else CompleteVerdict(old(View()), cfg.skew, t, a, l)
      ensures verdict == Ok ==>
        && View() == Completed(old(View()), t, a, Zipped(uris, checksums))
        && var m1 := old(Memory()).(heartbeats := old(heartbeats) - {a});
           Memory() == if CompletesJob(old(View()), t) then Enqueue(m1, old(tasks)[t].job, Known(JobCompleted)) else m1
      ensures verdict != Ok ==> View() == old(View()) && Memory() == old(Memory())
    {
      if |uris| != |checksums| { return ErrOutputMismatch; }
      var tx := View();
      if t !in tx.tasks || tx.tasks[t].job !in tx.jobs { return ErrTaskNotFound; }
      var j := tx.tasks[t].job;
      if tx.jobs[j].status == JobCleaning { return ErrJobCancelling; }
      if tx.jobs[j].status != JobRunning && tx.jobs[j].status != JobPending { return ErrInvalidStateTransition; }
      if tx.tasks[t].status != InProgress { return ErrInvalidStateTransition; }
      if tx.tasks[t].current != Some(a) { return ErrStaleAttempt; }
      if !LeaseValid(tx, cfg.skew, a, l) { return ErrExpiredLease; }

      tx := SetTaskStatus(tx, t, TaskCompleted);
      tx := SetAttemptStatus(tx, a, AttemptSuccess);
      var rows := [];
      for i := 0 to |uris|
        invariant rows == OutputRows(t, Zipped(uris[..i], checksums[..i]))
      {
        rows := rows + [Output(t, Some(i), uris[i], checksums[i])];
      }
      assert uris[..|uris|] == uris && checksums[..|uris|] == checksums;
      tx := tx.(outputs := tx.outputs + rows);
      var jobCompleted := |PendingTasks(tx, j)| == 0;
      assert PendingTasks(tx, j) == PendingTasks(View(), j) - {t};
      if jobCompleted { tx := SetJobStatus(tx, j, JobCleaning); }
      Commit(tx);
      heartbeats := heartbeats - {a};
      if jobCompleted { EnqueueCleanup(j, Known(JobCompleted)); }
      verdict := Ok;
    }

    /** The reported outputs, one (uri, checksum) pair per list position. */
    static function Zipped(uris: seq<string>, checksums: seq<string>): (outs: seq<(string, string)>)
      requires |uris| == |checksums|
      ensures |outs| == |uris| && forall i :: 0 <= i < |uris| ==> outs[i] == (uris[i], checksums[i])
    {
      seq(|uris|, i requires 0 <= i < |uris| => (uris[i], checksums[i]))
    }

    /** FailTask. */
    method FailTask(t: TaskId, a: AttemptId, l: LeaseId) returns (verdict: Verdict)
      modifies this
      ensures verdict == FailVerdict(old(View()), cfg.skew, t, a, l)
      ensures verdict == Ok ==>
        && View() == FailedOne(old(View()), t, a)
        && var m1 := old(Memory()).(heartbeats := old(heartbeats) - {a});
           Memory() == if AfterFailure(old(View()), t) == TaskFailed then Enqueue(m1, old(tasks)[t].job, Known(JobFailed)) else m1
      ensures verdict != Ok ==> View() == old(View()) && Memory() == old(Memory())
    {
      var tx := View();
      if t !in tx.tasks || tx.tasks[t].job !in tx.jobs { return ErrTaskNotFound; }
      var j := tx.tasks[t].job;
      if tx.jobs[j].status != JobRunning && tx.jobs[j].status != JobPending { return ErrInvalidStateTransition; }
      if tx.tasks[t].status != InProgress { return ErrInvalidStateTransition; }
      if tx.tasks[t].current != Some(a) { return ErrStaleAttempt; }
      if !LeaseValid(tx, cfg.skew, a, l) { return ErrExpiredLease; }

      var newState := Idle;
      if |AttemptsOf(tx, t)| >= MAX_TASK_ATTEMPTS { newState := TaskFailed; }
      tx := SetTaskStatus(tx, t, newState);
      tx := SetAttemptStatus(tx, a, AttemptFailed);
      if newState == TaskFailed { tx := SetJobStatus(tx, j, JobCleaning); }
      Commit(tx);
      heartbeats := heartbeats - {a};
      if newState == TaskFailed { EnqueueCleanup(j, Known(JobFailed)); }
      verdict := Ok;
    }

    /** CancelJob.  The answer is false when there is no such job; cancelling a terminal job is a no-op. */
    method CancelJob(j: JobId) returns (found: bool)
      modifies this
      ensures found <==> j in old(jobs)
      ensures Cancellable(old(View()), j) ==>
        && View() == Cancelled(old(View()), j)
        && Memory() == Enqueue(old(Memory()).(heartbeats := old(heartbeats) - RunningOfJob(old(View()), j)), j, Known(JobCancelled))
      ensures !Cancellable(old(View()), j) ==> View() == old(View()) && Memory() == old(Memory())
    {
      var tx := View();
      if j !in tx.jobs { return false; }
      found := true;
      if tx.jobs[j].status != JobCleaning {
        if !Allowed(tx.jobs[j].status, JobCleaning) { return; }
        tx := SetJobStatus(tx, j, JobCleaning);
      }
      var running := RunningOfJob(tx, j);
      tx := BulkFail(tx, j);
      tx := FailAttempts(tx, running);
      assert tx == Cancelled(View(), j);
      Commit(tx);
      heartbeats := heartbeats - running;
      EnqueueCleanup(j, Known(JobCancelled));
    }

    /** Recover, first statement, run by a process that has just started. */
    method RecoverFailAttempts()
      modifies this
      ensures View() == FailAttempts(old(View()), RunningOfReplica(old(View()), replicaIndex)) && Memory() == EMPTY_LOCAL
    {
      pendingCleanup, cleanupRetries, inFlight, heartbeats := map[], map[], map[], map[];
      Commit(FailAttempts(View(), RunningOfReplica(View(), replicaIndex)));
    }

    /** Recover, second statement. */
    method RecoverResetTasks()
      modifies this
      ensures View() == SetTasks(old(View()), InProgressOfReplica(old(View()), replicaIndex), Idle) && Memory() == old(Memory())
    {
      Commit(SetTasks(View(), InProgressOfReplica(View(), replicaIndex), Idle));
    }

    /** ScheduleJob: the counts of the request must match its tasks, and no task id may exist yet. */
    method ScheduleJob(j: JobId, home: Replica, mTasks: int, rTasks: int, ns: seq<NewTask>) returns (ok: bool)
      modifies this
      ensures ok <==> ValidRequest(mTasks, rTasks, ns) && FreshIds(old(View()), ns)
      ensures ok ==> View() == Scheduled(old(View()), j, home, ns)
      ensures !ok ==> View() == old(View())
      ensures Memory() == old(Memory())
    {
      if !ValidRequest(mTasks, rTasks, ns) { return false; }
      var tx := View();
      if j !in tx.jobs { tx := tx.(jobs := tx.jobs[j := Job(JobPending, home)]); }
      ok, tx := InsertRows(tx, j, home, ns);
      if ok { Commit(tx); }
    }

    /** One INSERT per task; the first duplicate key ends the transaction. */
    static method InsertRows(db: Db, j: JobId, home: Replica, ns: seq<NewTask>) returns (ok: bool, tx: Db)
      ensures ok <==> FreshIds(db, ns)
      ensures ok ==> tx == db.(tasks := WithRows(db.tasks, NewRows(j, home, ns)))
    {
      tx := db;
      for i := 0 to |ns|
        invariant FreshIds(db, ns[..i]) && tx == db.(tasks := WithRows(db.tasks, NewRows(j, home, ns[..i])))
      {
        InsertNext(db, j, home, ns, i);
        if ns[i].id in tx.tasks { return false, tx; }
        tx := tx.(tasks := tx.tasks[ns[i].id := TaskRow(j, home, ns[i])]);
      }
      assert ns[..|ns|] == ns;
      ok := true;
    }

    /** ValidateScheduleJobRequest, on typed tasks. */
    static predicate ValidRequest(mTasks: int, rTasks: int, ns: seq<NewTask>) {
      && mTasks >= 1 && rTasks >= 1 && |ns| == mTasks + rTasks
      && CountKind(ns, MapTask) == mTasks && CountKind(ns, ReduceTask) == rTasks
    }

    static function CountKind(ns: seq<NewTask>, kind: TaskKind): nat {
      if ns == [] then 0 else (if ns[0].kind == kind then 1 else 0) + CountKind(ns[1..], kind)
    }

    static lemma InsertNext(db: Db, j: JobId, home: Replica, ns: seq<NewTask>, i: nat)
      requires i < |ns| && FreshIds(db, ns[..i])
      ensures var rows := WithRows(db.tasks, NewRows(j, home, ns[..i]));
        if ns[i].id in rows then !FreshIds(db, ns)
        else FreshIds(db, ns[..i + 1]) && WithRows(db.tasks, NewRows(j, home, ns[..i + 1])) == rows[ns[i].id := TaskRow(j, home, ns[i])]
    {
      var added := NewRows(j, home, ns[..i]);
      NextRow(j, home, ns, i);
      OneMoreRow(db.tasks, added, ns[i].id, TaskRow(j, home, ns[i]));
      if ns[i].id !in db.tasks && ns[i].id !in added {
        assert forall k :: 0 <= k <= i ==> ns[..i + 1][k] == if k < i then ns[..i][k] else ns[i];
      }
    }

    static lemma OneMoreRow(before: map<TaskId, Task>, more: map<TaskId, Task>, t: TaskId, row: Task)
      ensures WithRows(before, more[t := row]) == WithRows(before, more)[t := row]
      ensures t in WithRows(before, more) <==> t in before || t in more
    {
    }

    /** The keys taken so far, and the map after one more insert. */
    static lemma NextRow(j: JobId, home: Replica, ns: seq<NewTask>, i: nat)
      requires i < |ns| && DistinctIds(ns[..i])
      ensures ns[i].id in NewRows(j, home, ns[..i]) <==> exists k :: 0 <= k < i && ns[k].id == ns[i].id
      ensures ns[i].id !in NewRows(j, home, ns[..i]) ==>
        && DistinctIds(ns[..i + 1])
        && NewRows(j, home, ns[..i + 1]) == NewRows(j, home, ns[..i])[ns[i].id := TaskRow(j, home, ns[i])]
    {
      assert forall k :: 0 <= k < i ==> ns[..i][k] == ns[k] && ns[k] in ns[..i];
      assert ns[..i + 1] == ns[..i] + [ns[i]];
      if ns[i].id !in NewRows(j, home, ns[..i]) { OneMoreNew(j, home, ns[..i], ns[i]); }
    }

    static lemma OneMoreNew(j: JobId, home: Replica, front: seq<NewTask>, n: NewTask)
      requires DistinctIds(front) && n.id !in NewRows(j, home, front)
      ensures DistinctIds(front + [n]) && NewRows(j, home, front + [n]) == NewRows(j, home, front)[n.id := TaskRow(j, home, n)]
    {
      var all := front + [n];
      assert forall k :: 0 <= k < |front| ==> front[k] in front && all[k] == front[k];
      assert forall x :: x in all <==> x in front || x == n;
    }

    /** FailStaleTasks: one pass of the reaper, then one statement per job that has tasks to retry. */
    method FailStaleTasks(locked: set<TaskId>) returns (recovered: nat)
      modifies this
      ensures var stale := Stale(old(View()), old(Memory()), cfg.skew, replicaIndex, locked);
        && recovered == |stale|
        && View() == Flushed(Reaped(old(View()), stale), RetriedJobs(old(View()), stale))
        && Memory() == ReapLocal(old(Memory()), ExhaustedJobs(old(View()), stale))
    {
      var db := View();
      var tx, done, failedJobs := ReapRows(db, Memory(), cfg.skew, replicaIndex, locked);
      recovered := |done|;
      Commit(tx);
      EnqueueFailed(failedJobs);
      FlushJobs(RetriedJobs(db, done));
    }

    /** The reaper's transaction: visits the held rows in whatever order the query returns them. */
    static method ReapRows(db: Db, m: Local, skew: int, r: Replica, locked: set<TaskId>)
      returns (tx: Db, done: set<TaskId>, failedJobs: set<JobId>)
      ensures done == Stale(db, m, skew, r, locked)
      ensures tx == Reaped(db, done) && failedJobs == ExhaustedJobs(db, done)
    {
      var rest := HeldTasks(db, r, locked);
      tx, done, failedJobs := db, {}, {};
      ReapNone(db);
      while rest != {}
        invariant rest <= HeldTasks(db, r, locked)
        invariant done == Stale(db, m, skew, r, locked) - rest
        invariant tx == Reaped(db, done) && failedJobs == ExhaustedJobs(db, done)
        decreases rest
      {
        var t :| t in rest;
        rest := rest - {t};
        var a := db.tasks[t].current.value;
        var heard := if a in m.heartbeats then m.heartbeats[a] else db.attempts[a].lastRenewed;
        if db.now - heard >= db.attempts[a].ttl + skew {
          ReapNext(db, done, t);
          var newState := if |AttemptsOf(db, t)| >= MAX_TASK_ATTEMPTS then TaskFailed else Idle;
          tx := SetAttemptStatus(SetTaskStatus(tx, t, newState), a, AttemptFailed);
          if newState == TaskFailed {
            tx := SetJobStatus(tx, db.tasks[t].job, JobCleaning);
            failedJobs := failedJobs + {db.tasks[t].job};
          }
          done := done + {t};
        }
      }
      assert done == Stale(db, m, skew, r, locked);
    }

    /** QuerySelectStaleTasks. */
    static function HeldTasks(db: Db, r: Replica, locked: set<TaskId>): set<TaskId> {
      set t | t in db.tasks && t !in locked && Held(db, r, t)
    }

    static lemma ReapNone(db: Db)
      ensures Reaped(db, {}) == db && ExhaustedJobs(db, {}) == {}
    {
    }

    /** The jobs of the tasks a pass returns to Idle. */
    static function RetriedJobs(db: Db, stale: set<TaskId>): set<JobId> {
      set t | t in stale && t in db.tasks && AfterFailure(db, t) == Idle :: db.tasks[t].job
    }

    /** Every Running attempt of the given jobs marked Failed. */
    static function Flushed(db: Db, js: set<JobId>): Db {
      FailAttempts(db, set a | a in RunningAttempts(db) && db.attempts[a].task in db.tasks && db.tasks[db.attempts[a].task].job in js)
    }

    /** Reclaiming one more task is the reaper's two or three statements for it. */
    static lemma ReapNext(db: Db, done: set<TaskId>, t: TaskId)
      requires t in db.tasks && t !in done && db.tasks[t].current.Some? && db.tasks[t].current.value in db.attempts
      requires db.tasks[t].job in db.jobs
      ensures var tx := SetAttemptStatus(SetTaskStatus(Reaped(db, done), t, AfterFailure(db, t)), db.tasks[t].current.value, AttemptFailed);
        Reaped(db, done + {t}) == if AfterFailure(db, t) == TaskFailed then SetJobStatus(tx, db.tasks[t].job, JobCleaning) else tx
      ensures ExhaustedJobs(db, done + {t})
        == if AfterFailure(db, t) == TaskFailed then ExhaustedJobs(db, done) + {db.tasks[t].job} else ExhaustedJobs(db, done)
    {
      MoreHolders(db, done, t);
      MoreExhausted(db, done, t);
      var a, j, failed := db.tasks[t].current.value, db.tasks[t].job, AfterFailure(db, t) == TaskFailed;
      var tx := SetAttemptStatus(SetTaskStatus(Reaped(db, done), t, AfterFailure(db, t)), a, AttemptFailed);
      var tx2 := if failed then SetJobStatus(tx, j, JobCleaning) else tx;
      assert Reaped(db, done + {t}).tasks == tx2.tasks;
      assert Reaped(db, done + {t}).attempts == tx2.attempts;
      assert Reaped(db, done + {t}).jobs == tx2.jobs;
    }

    static lemma MoreHolders(db: Db, done: set<TaskId>, t: TaskId)
      requires t in db.tasks && db.tasks[t].current.Some?
      ensures Holders(db, done + {t}) == Holders(db, done) + {db.tasks[t].current.value}
    {
    }

    static lemma MoreExhausted(db: Db, done: set<TaskId>, t: TaskId)
      requires t in db.tasks
      ensures ExhaustedJobs(db, done + {t})
        == if AfterFailure(db, t) == TaskFailed then ExhaustedJobs(db, done) + {db.tasks[t].job} else ExhaustedJobs(db, done)
    {
    }

    method EnqueueFailed(js: set<JobId>)
      modifies this
      ensures View() == old(View()) && Memory() == ReapLocal(old(Memory()), js)
    {
      var rest := js;
      while rest != {}
        invariant rest <= js && View() == old(View()) && Memory() == ReapLocal(old(Memory()), js - rest)
        decreases rest
      {
        var j :| j in rest;
        EnqueueOne(js, rest, j, old(Memory()));
        rest := rest - {j};
      }
    }

    method EnqueueOne(ghost js: set<JobId>, ghost rest: set<JobId>, j: JobId, ghost m: Local)
      requires j in rest && rest <= js && Memory() == ReapLocal(m, js - rest)
      modifies this
      ensures View() == old(View()) && Memory() == ReapLocal(m, js - (rest - {j}))
    {
      EnqueueNext(m, js - rest, j);
      assert js - (rest - {j}) == js - rest + {j};
      EnqueueCleanup(j, Known(JobFailed));
    }

    static lemma EnqueueNext(m: Local, done: set<JobId>, j: JobId)
      requires j !in done
      ensures Enqueue(ReapLocal(m, done), j, Known(JobFailed)) == ReapLocal(m, done + {j})
    {
    }

    method FlushJobs(js: set<JobId>)
      modifies this
      ensures View() == Flushed(old(View()), js) && Memory() == old(Memory())
    {
      var rest := js;
      while rest != {}
        invariant rest <= js && View() == Flushed(old(View()), js - rest) && Memory() == old(Memory())
        decreases rest
      {
        var j :| j in rest;
        rest := rest - {j};
        Commit(FailAttempts(View(), RunningOfJob(View(), j)));
      }
    }

    /** popPendingCleanup: moves up to `limit` queued cleanups out of the queue. */
    method PopPendingCleanup(limit: int) returns (popped: map<JobId, Ticket>)
      modifies this
      ensures View() == old(View())
      ensures popped.Keys <= old(pendingCleanup).Keys && forall j :: j in popped ==> popped[j] == old(pendingCleanup)[j]
      ensures Memory() == old(Memory()).(pendingCleanup := old(pendingCleanup) - popped.Keys)
      ensures |popped| == if limit <= 0 || limit > |old(pendingCleanup)| then |old(pendingCleanup)| else limit
    {
      var n := if limit <= 0 || limit > |pendingCleanup| then |pendingCleanup| else limit;
      popped, pendingCleanup := Take(pendingCleanup, n);
    }

    static method Take(queue: map<JobId, Ticket>, n: nat) returns (popped: map<JobId, Ticket>, left: map<JobId, Ticket>)
      requires n <= |queue|
      ensures popped.Keys <= queue.Keys && forall j :: j in popped ==> popped[j] == queue[j]
      ensures left == queue - popped.Keys && |popped| == n
    {
      popped, left := map[], queue;
      for count := 0 to n
        invariant |popped| == count && left == queue - popped.Keys
        invariant popped.Keys <= queue.Keys && forall j :: j in popped ==> popped[j] == queue[j]
      {
        Remaining(queue, popped.Keys);
        var j :| j in left;
        popped, left := popped[j := left[j]], left - {j};
      }
    }

    static lemma Remaining(all: map<JobId, Ticket>, taken: set<JobId>)
      requires taken <= all.Keys
      ensures |all - taken| == |all| - |taken|
    {
      assert (all - taken).Keys == all.Keys - taken;
    }

    /** finalizeJob on a popped cleanup; the two flags are what object storage and the cluster answer. */
    method FinalizeJob(j: JobId, to: JobStatus, stagingOk: bool, workersGone: bool)
      modifies this
      ensures View() == FinalizedDb(cfg, old(View()), old(Memory()), j, to, stagingOk)
      ensures Memory() == FinalizedLocal(cfg, old(View()), old(Memory()), j, to, stagingOk, workersGone)
    {
      if cfg.staging {
        var retries := if j in cleanupRetries then cleanupRetries[j] else 0;
        if retries < MAX_CLEANUP_RETRIES && !stagingOk {
          EnqueueCleanup(j, Known(to));
          return;
        }
      }
      var tx := View();
      if j !in tx.jobs || (tx.jobs[j].status != to && !Allowed(tx.jobs[j].status, to)) {
        EnqueueCleanup(j, Known(to));
        return;
      }
      tx := SetJobStatus(tx, j, to);
      Commit(tx);
      if !workersGone {
        EnqueueCleanup(j, Known(to));
        return;
      }
      cleanupRetries := cleanupRetries - {j};
    }
  }
}
