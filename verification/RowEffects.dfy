/** What the other transactions leave behind, told on the row fields: cancel, schedule, commit, failure and recovery. */
module RowEffects {
  import opened Dds
  import opened SchedulerSpec
  import opened SchedulerRuns
  import opened HandOut
  import Scheduler

  // ---------- cancel ----------

  predicate OfJob(db: Db, j: JobId, a: AttemptId) {
    a in db.attempts && db.attempts[a].task in db.tasks && db.tasks[db.attempts[a].task].job == j
  }

  /** A job can be cancelled exactly until it is terminal. */
  lemma CancelIff(w: World, r: Replica, j: JobId)
    requires r !in w.booting
    ensures Enabled(w, Cancel(r, j)) <==> j in w.db.jobs && w.db.jobs[j].status in {JobPending, JobRunning, JobCleaning}
  {
  }

  /** A cancelled job has only Completed and Failed tasks, Completed those that were; nothing of it runs and no report about it
      is accepted; its cleanup is queued as Cancelled.  Nothing of another job changes. */
  lemma CancelStops(w: World, r: Replica, j: JobId)
    requires Enabled(w, Cancel(r, j))
    ensures var after, m := StepDb(w, Cancel(r, j)), StepMem(w, Cancel(r, j), Mem(w, r));
      && after.jobs == w.db.jobs[j := w.db.jobs[j].(status := JobCleaning)]
      && after.tasks.Keys == w.db.tasks.Keys && after.attempts.Keys == w.db.attempts.Keys && after.outputs == w.db.outputs
      && (forall t :: t in after.tasks && after.tasks[t].job == j ==> CancelledRow(w.db.tasks[t], after.tasks[t]))
      && (forall t :: t in after.tasks && after.tasks[t].job != j ==> after.tasks[t] == w.db.tasks[t])
      && (forall a :: OfJob(after, j, a) ==> after.attempts[a].status != AttemptRunning)
      && (forall a :: a in m.heartbeats ==> !(OfJob(w.db, j, a) && w.db.attempts[a].status == AttemptRunning))
      && (forall a :: a in after.attempts && !OfJob(after, j, a) ==> after.attempts[a] == w.db.attempts[a])
      && j in m.pendingCleanup && m.pendingCleanup[j] == Known(JobCancelled)
  {
  }

  predicate CancelledRow(was: Task, row: Task) {
    row == was.(status := if was.status == TaskCompleted then TaskCompleted else TaskFailed)
  }

  lemma CancelledRefuses(w: World, r: Replica, j: JobId, t: TaskId, a: AttemptId, l: LeaseId)
    requires Enabled(w, Cancel(r, j)) && t in w.db.tasks && w.db.tasks[t].job == j
    ensures var after := StepDb(w, Cancel(r, j));
      && FenceVerdict(after, w.cfg.skew, t, a, l) != Ok && CompleteVerdict(after, w.cfg.skew, t, a, l) != Ok
      && FailVerdict(after, w.cfg.skew, t, a, l) != Ok
  {
  }

  // ---------- schedule ----------

  function Kinds(ns: seq<NewTask>): seq<TaskKind> {
    if ns == [] then [] else [ns[0].kind] + Kinds(ns[1..])
  }

  lemma {:induction false} KindsCounted(ns: seq<NewTask>)
    ensures Scheduler.Scheduler.CountKind(ns, MapTask) == multiset(Kinds(ns))[MapTask]
    ensures Scheduler.Scheduler.CountKind(ns, ReduceTask) == multiset(Kinds(ns))[ReduceTask]
    ensures |ns| == multiset(Kinds(ns))[MapTask] + multiset(Kinds(ns))[ReduceTask]
  {
    if ns != [] { KindsCounted(ns[1..]); }
  }

  /** A request is valid iff it has at least one task of each kind and as many of each as it says. */
  lemma ValidIff(mTasks: int, rTasks: int, ns: seq<NewTask>)
    ensures Scheduler.Scheduler.ValidRequest(mTasks, rTasks, ns) <==>
      mTasks == multiset(Kinds(ns))[MapTask] > 0 && rTasks == multiset(Kinds(ns))[ReduceTask] > 0
  {
    KindsCounted(ns);
  }

  /** Every requested task becomes an Idle row; a map task lies on the job's home replica, whatever index it asked for, where it can
      be handed out; a reduce task keeps its partition.  A job row that exists already stays. */
  lemma ScheduleRows(db: Db, j: JobId, home: Replica, ns: seq<NewTask>)
    requires FreshIds(db, ns)
    ensures var after := Scheduled(db, j, home, ns);
      && (forall i :: 0 <= i < |ns| ==> ns[i].id in after.tasks && Requested(ns[i], j, home, after.tasks[ns[i].id]))
      && (forall i :: 0 <= i < |ns| && ns[i].kind == MapTask ==> FreeMap(after, j, home, {}, ns[i].id))
      && (forall t :: t in db.tasks ==> t in after.tasks && after.tasks[t] == db.tasks[t])
      && (forall t :: t in after.tasks && t !in db.tasks ==> exists i :: 0 <= i < |ns| && ns[i].id == t)
      && j in after.jobs && after.jobs[j] == (if j in db.jobs then db.jobs[j] else Job(JobPending, home))
      && (forall k :: k != j ==> (k in after.jobs <==> k in db.jobs) && (k in db.jobs ==> after.jobs[k] == db.jobs[k]))
      && after.attempts == db.attempts && after.outputs == db.outputs
  {
    var rows := NewRows(j, home, ns);
    forall i | 0 <= i < |ns| ensures ns[i].id in rows && rows[ns[i].id] == TaskRow(j, home, ns[i]) { NewRowAt(j, home, ns, i); }
  }

  predicate Requested(n: NewTask, j: JobId, home: Replica, row: Task) {
    && row.job == j && row.kind == n.kind && row.status == Idle && row.current == None
    && row.replicaIndex == match n.kind { case MapTask => home case ReduceTask => n.replicaIndex }
  }

  lemma NewRowAt(j: JobId, home: Replica, ns: seq<NewTask>, i: nat)
    requires DistinctIds(ns) && i < |ns|
    ensures ns[i].id in NewRows(j, home, ns) && NewRows(j, home, ns)[ns[i].id] == TaskRow(j, home, ns[i])
  {
    assert ns[i] in ns;
  }

  // ---------- commit and failure ----------

  /** Task t is the last of its job that is not Completed. */
  ghost predicate LastOfJob(db: Db, t: TaskId)
    requires t in db.tasks
  {
    forall u :: u in db.tasks && u != t && db.tasks[u].job == db.tasks[t].job ==> db.tasks[u].status == TaskCompleted
  }

  /** A commit completes its task and its attempt, appends its outputs, and sends the job to Cleaning, to be Completed,
      exactly when no other task of it is unfinished. */
  lemma CommitRows(w: World, r: Replica, t: TaskId, a: AttemptId, l: LeaseId, outs: seq<(string, string)>)
    requires Enabled(w, Complete(r, t, a, l, outs))
    ensures var e := Complete(r, t, a, l, outs);
      var db, after, m := w.db, StepDb(w, e), StepMem(w, e, Mem(w, r));
      var j := db.tasks[t].job;
      && after.tasks == db.tasks[t := db.tasks[t].(status := TaskCompleted, current := None)]
      && after.attempts == db.attempts[a := db.attempts[a].(status := AttemptSuccess)]
      && after.outputs == db.outputs + OutputRows(t, outs) && a !in m.heartbeats
      && (LastOfJob(db, t) ==> after.jobs == db.jobs[j := db.jobs[j].(status := JobCleaning)] && j in m.pendingCleanup && m.pendingCleanup[j] == Known(JobCompleted))
      && (!LastOfJob(db, t) ==> after.jobs == db.jobs && m.pendingCleanup == Mem(w, r).pendingCleanup)
  {
    var db := w.db;
    if LastOfJob(db, t) {
      assert PendingTasks(db, db.tasks[t].job) <= {t};
    } else {
      var u :| u in db.tasks && u != t && db.tasks[u].job == db.tasks[t].job && db.tasks[u].status != TaskCompleted;
      assert u in PendingTasks(db, db.tasks[t].job);
    }
  }

  /** A reported failure returns the task to Idle, or after the third attempt fails it and sends the job to Cleaning, to be Failed. */
  lemma FailureRows(w: World, r: Replica, t: TaskId, a: AttemptId, l: LeaseId)
    requires Enabled(w, Fail(r, t, a, l))
    ensures var db, after, m := w.db, StepDb(w, Fail(r, t, a, l)), StepMem(w, Fail(r, t, a, l), Mem(w, r));
      var j, spent := db.tasks[t].job, |set x | x in db.attempts && db.attempts[x].task == t| >= 3;
      && after.tasks == db.tasks[t := db.tasks[t].(status := if spent then TaskFailed else Idle, current := None)]
      && after.attempts == db.attempts[a := db.attempts[a].(status := AttemptFailed)]
      && after.outputs == db.outputs && a !in m.heartbeats
      && (spent ==> after.jobs == db.jobs[j := db.jobs[j].(status := JobCleaning)] && j in m.pendingCleanup && m.pendingCleanup[j] == Known(JobFailed))
      && (!spent ==> after.jobs == db.jobs && m.pendingCleanup == Mem(w, r).pendingCleanup)
  {
    assert AttemptsOf(w.db, t) == set x | x in w.db.attempts && w.db.attempts[x].task == t;
  }

  // ---------- recovery ----------

  predicate RunsAt(db: Db, r: Replica, t: TaskId) {
    t in db.tasks && db.tasks[t].job in db.jobs && db.jobs[db.tasks[t].job].replica == r
  }

  /** The first statement fails every Running attempt of the replica's jobs and nothing else; the process starts with empty memory. */
  lemma RestartRows(w: World, r: Replica, a: AttemptId)
    ensures var after := StepDb(w, Restart(r));
      && after.jobs == w.db.jobs && after.tasks == w.db.tasks && after.outputs == w.db.outputs
      && after.attempts.Keys == w.db.attempts.Keys
      && (a in w.db.attempts && RunsAt(w.db, r, w.db.attempts[a].task) && w.db.attempts[a].status == AttemptRunning ==>
            after.attempts[a] == w.db.attempts[a].(status := AttemptFailed))
      && (a in w.db.attempts && !(RunsAt(w.db, r, w.db.attempts[a].task) && w.db.attempts[a].status == AttemptRunning) ==>
            after.attempts[a] == w.db.attempts[a])
      && Mem(Step(w, Restart(r)), r) == Local(map[], map[], map[], map[])
  {
  }

  /** The second returns every In-Progress task of the replica's jobs to Idle and changes nothing else. */
  lemma ResetRows(w: World, r: Replica, t: TaskId)
    requires Enabled(w, ResetTasks(r))
    ensures var after := StepDb(w, ResetTasks(r));
      && after.jobs == w.db.jobs && after.attempts == w.db.attempts && after.outputs == w.db.outputs && after.tasks.Keys == w.db.tasks.Keys
      && (RunsAt(w.db, r, t) && w.db.tasks[t].status == InProgress ==> after.tasks[t] == w.db.tasks[t].(status := Idle, current := None))
      && (t in w.db.tasks && !(RunsAt(w.db, r, t) && w.db.tasks[t].status == InProgress) ==> after.tasks[t] == w.db.tasks[t])
  {
  }

  /** A cleanup whose end is not known is derived from the tasks: Completed when all are, Failed otherwise. */
  lemma DerivedIs(db: Db, j: JobId)
    ensures Derived(db, j) ==
      if forall t :: t in db.tasks && db.tasks[t].job == j ==> db.tasks[t].status == TaskCompleted then JobCompleted else JobFailed
  {
    if t :| t in db.tasks && db.tasks[t].job == j && db.tasks[t].status != TaskCompleted { assert t in PendingTasks(db, j); }
  }

  /** What recovery queues for a job that is past Running, and what a later read of it settles. */
  lemma RederiveQueues(w: World, r: Replica, j: JobId, readable: bool)
    requires Enabled(w, Rederive(r, j, readable))
    ensures var m := StepMem(w, Rederive(r, j, readable), Mem(w, r));
      m.pendingCleanup == Mem(w, r).pendingCleanup[j := if readable then Known(Derived(w.db, j)) else Unknown]
      && Retries(m, j) == Retries(Mem(w, r), j) + 1 && StepDb(w, Rederive(r, j, readable)) == w.db
  {
  }
}
