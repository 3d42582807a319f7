/** What a request for work is answered, told on the rows of the job and the pod limit alone. */
module HandOut {
  import opened Dds
  import opened SchedulerSpec
  import opened Scheduler

  /** The most attempts that may run at once: the stored quota, or ten when none is stored. */
  function Limit(db: Db): int {
    if db.maxPods.Some? then db.maxPods.value else 10
  }

  function Busy(db: Db): nat {
    |set a | a in db.attempts && db.attempts[a].status == AttemptRunning|
  }

  predicate FreeMap(db: Db, j: JobId, r: Replica, locked: set<TaskId>, t: TaskId) {
    && t in db.tasks && t !in locked && db.tasks[t].job == j
    && db.tasks[t].kind == MapTask && db.tasks[t].status == Idle && db.tasks[t].replicaIndex == r
  }

  /** Output row i is input of reduce partition p of job j: a row of a completed map task, for that partition or for all. */
  predicate FedBy(db: Db, j: JobId, p: nat, i: nat) {
    && i < |db.outputs| && db.outputs[i].task in db.tasks
    && (var from := db.tasks[db.outputs[i].task]; from.job == j && from.kind == MapTask && from.status == TaskCompleted)
    && db.outputs[i].partition in {None, Some(p)}
  }

  predicate HasInput(db: Db, j: JobId, p: nat) {
    exists i :: 0 <= i < |db.outputs| && FedBy(db, j, p, i)
  }

  /** An Idle reduce task that some completed map task has written for. */
  predicate WorthReducing(db: Db, j: JobId, t: TaskId) {
    && t in db.tasks && db.tasks[t].job == j && db.tasks[t].kind == ReduceTask && db.tasks[t].status == Idle
    && HasInput(db, j, db.tasks[t].replicaIndex)
  }

  predicate Lost(db: Db, j: JobId, t: TaskId) {
    t in db.tasks && db.tasks[t].job == j && db.tasks[t].status == TaskFailed
  }

  predicate OpenMap(db: Db, j: JobId, t: TaskId) {
    t in db.tasks && db.tasks[t].job == j && db.tasks[t].kind == MapTask && db.tasks[t].status != TaskCompleted
  }

  /** A reduce task that is neither finished nor skipped for want of input. */
  predicate OpenReduce(db: Db, j: JobId, t: TaskId) {
    && t in db.tasks && db.tasks[t].job == j && db.tasks[t].kind == ReduceTask && db.tasks[t].status != TaskCompleted
    && (db.tasks[t].status == Idle ==> WorthReducing(db, j, t))
  }

  /** The request reaches the search for a task: the job has no failed task and lives on this replica. */
  ghost predicate Served(db: Db, j: JobId, r: Replica) {
    (forall t :: !Lost(db, j, t)) && j in db.jobs && db.jobs[j].replica == r
  }

  ghost predicate MapFree(db: Db, j: JobId, r: Replica, locked: set<TaskId>) { exists t :: FreeMap(db, j, r, locked, t) }

  ghost predicate MapsDone(db: Db, j: JobId) { forall t :: !OpenMap(db, j, t) }

  ghost predicate ReduceFree(db: Db, j: JobId, locked: set<TaskId>) { exists t :: t !in locked && WorthReducing(db, j, t) }

  // ---------- reading the row sets ----------

  lemma RowSets(db: Db, j: JobId, r: Replica, locked: set<TaskId>)
    ensures FailedTasks(db, j) == {} <==> forall t :: !Lost(db, j, t)
    ensures IdleTasks(db, j, r, MapTask, locked) != {} <==> MapFree(db, j, r, locked)
    ensures PendingOfKind(db, j, MapTask) == {} <==> MapsDone(db, j)
    ensures QuotaFree(db) <==> Busy(db) < Limit(db)
  {
    forall t ensures t in FailedTasks(db, j) <==> Lost(db, j, t) {}
    forall t ensures t in IdleTasks(db, j, r, MapTask, locked) <==> FreeMap(db, j, r, locked, t) {}
    forall t ensures t in PendingOfKind(db, j, MapTask) <==> OpenMap(db, j, t) {}
    assert RunningAttempts(db) == set a | a in db.attempts && db.attempts[a].status == AttemptRunning;
  }

  lemma FedIff(db: Db, j: JobId, p: nat)
    ensures NoInputs(db, j, p) <==> !HasInput(db, j, p)
  {
    forall i: nat | i < |db.outputs| ensures FeedsReduce(db, db.outputs[i], j, p) <==> FedBy(db, j, p, i) {}
  }

  /** The reduce rows left once empty partitions are skipped. */
  lemma AfterSkipping(db: Db, j: JobId, r: Replica, locked: set<TaskId>, t: TaskId)
    ensures t in IdleTasks(AutoCompleted(db, j), j, r, ReduceTask, locked) <==> t !in locked && WorthReducing(db, j, t)
    ensures t in PendingOfKind(AutoCompleted(db, j), j, ReduceTask) <==> OpenReduce(db, j, t)
    ensures AutoCompleted(db, j).tasks.Keys == db.tasks.Keys
    ensures t in db.tasks ==> AutoCompleted(db, j).tasks[t].replicaIndex == db.tasks[t].replicaIndex
  {
    if t in db.tasks { FedIff(db, j, db.tasks[t].replicaIndex); }
  }

  lemma SameRoom(db: Db, j: JobId)
    ensures QuotaFree(AutoCompleted(db, j)) <==> QuotaFree(db)
  {
    assert RunningAttempts(AutoCompleted(db, j)) == RunningAttempts(db);
  }

  lemma ReduceSets(db: Db, j: JobId, r: Replica, locked: set<TaskId>)
    ensures IdleTasks(AutoCompleted(db, j), j, r, ReduceTask, locked) != {} <==> ReduceFree(db, j, locked)
    ensures PendingOfKind(AutoCompleted(db, j), j, ReduceTask) == {} <==> forall t :: !OpenReduce(db, j, t)
  {
    forall t
      ensures t in IdleTasks(AutoCompleted(db, j), j, r, ReduceTask, locked) <==> t !in locked && WorthReducing(db, j, t)
      ensures t in PendingOfKind(AutoCompleted(db, j), j, ReduceTask) <==> OpenReduce(db, j, t)
    {
      AfterSkipping(db, j, r, locked, t);
    }
  }

  // ---------- the answer ----------

  /** Each of the eight answers, and exactly when it is given. */
  lemma AnswerIff(db: Db, j: JobId, r: Replica, locked: set<TaskId>)
    ensures var answer := NextCase(db, j, r, locked);
      var maps := Served(db, j, r) && MapFree(db, j, r, locked);
      var reduces := Served(db, j, r) && MapsDone(db, j) && ReduceFree(db, j, locked);
      && (answer == FailedJob <==> exists t :: Lost(db, j, t))
      && (answer == UnknownJob <==> j !in db.jobs && forall t :: !Lost(db, j, t))
      && (answer == ForeignJob <==> j in db.jobs && db.jobs[j].replica != r && forall t :: !Lost(db, j, t))
      && (answer == MapWork <==> maps && Busy(db) < Limit(db))
      && (answer == ReduceWork <==> reduces && Busy(db) < Limit(db))
      && (answer == NoRoom <==> (maps || reduces) && Busy(db) >= Limit(db))
      && (answer == Waiting <==> Served(db, j, r) && !maps && !reduces && (!MapsDone(db, j) || exists t :: OpenReduce(db, j, t)))
      && (answer == Done <==> Served(db, j, r) && MapsDone(db, j) && forall t :: !OpenReduce(db, j, t))
  {
    RowSets(db, j, r, locked);
    ReduceSets(db, j, r, locked);
    SameRoom(db, j);
    FreeIsOpen(db, j, r, locked);
  }

  /** What can be handed out is unfinished. */
  lemma FreeIsOpen(db: Db, j: JobId, r: Replica, locked: set<TaskId>)
    ensures MapFree(db, j, r, locked) ==> !MapsDone(db, j)
    ensures ReduceFree(db, j, locked) ==> exists t :: OpenReduce(db, j, t)
  {
    if t :| FreeMap(db, j, r, locked, t) { assert OpenMap(db, j, t); }
    if t :| t !in locked && WorthReducing(db, j, t) { assert OpenReduce(db, j, t); }
  }

  // ---------- which task ----------

  /** The map task handed out is the free one with the least id. */
  lemma LeastMap(db: Db, j: JobId, r: Replica, t: TaskId, a: AttemptId, locked: set<TaskId>)
    ensures CanAssignMap(db, j, r, t, a, locked) <==>
      (&& Served(db, j, r) && Busy(db) < Limit(db) && a !in db.attempts && FreeMap(db, j, r, locked, t)
       && forall u :: FreeMap(db, j, r, locked, u) ==> t <= u)
  {
    RowSets(db, j, r, locked);
    forall u ensures u in IdleTasks(db, j, r, MapTask, locked) <==> FreeMap(db, j, r, locked, u) {}
  }

  /** Partition first, id second. */
  predicate NoLater(db: Db, t: TaskId, u: TaskId)
    requires t in db.tasks && u in db.tasks
  {
    var p, q := db.tasks[t].replicaIndex, db.tasks[u].replicaIndex;
    p <= q && (p == q ==> t <= u)
  }

  /** The reduce task handed out has input, and the least partition among those that do, then the least id. */
  lemma LeastReduce(db: Db, j: JobId, r: Replica, t: TaskId, a: AttemptId, locked: set<TaskId>)
    ensures CanAssignReduce(db, j, r, t, a, locked) <==>
      (&& Served(db, j, r) && MapsDone(db, j) && Busy(db) < Limit(db) && a !in db.attempts
       && t !in locked && WorthReducing(db, j, t)
       && forall u :: u !in locked && WorthReducing(db, j, u) ==> NoLater(db, t, u))
  {
    RowSets(db, j, r, locked);
    SameRoom(db, j);
    FreeIsOpen(db, j, r, locked);
    SelectedReduce(db, j, r, t, locked);
  }

  lemma SelectedReduce(db: Db, j: JobId, r: Replica, t: TaskId, locked: set<TaskId>)
    ensures Selected(AutoCompleted(db, j), j, r, ReduceTask, locked, t) <==>
      t !in locked && WorthReducing(db, j, t) && forall u :: u !in locked && WorthReducing(db, j, u) ==> NoLater(db, t, u)
  {
    var db1 := AutoCompleted(db, j);
    AfterSkipping(db, j, r, locked, t);
    forall u
      ensures u in IdleTasks(db1, j, r, ReduceTask, locked) <==> u !in locked && WorthReducing(db, j, u)
      ensures t in db.tasks && u in db.tasks ==> t in db1.tasks && u in db1.tasks && (Before(db1, t, u) <==> NoLater(db, t, u))
    {
      AfterSkipping(db, j, r, locked, u);
    }
  }
}
