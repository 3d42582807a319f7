/** Every job can be carried through: for any number of map and reduce tasks and any positive pod limit there is a run that
    hands out and commits each task in turn and ends with the job Completed. */
module FullJob {
  import opened Dds
  import opened SchedulerSpec
  import opened SchedulerRuns
  import opened HandOut

  /** m map tasks, then n reduce tasks, under a limit of `pods`. */
  datatype Shape = Shape(m: nat, n: nat, pods: int, ttl: int, skew: int)

  predicate Sane(s: Shape) { s.m > 0 && s.pods > 0 && s.ttl + s.skew >= 0 }

  /** The row of task t when the first k tasks are committed and, if `cur`, task k runs as attempt k. */
  function RowAt(s: Shape, k: nat, cur: bool, t: TaskId): Task {
    Task(0, if t < s.m then MapTask else ReduceTask,
         if t < k then TaskCompleted else if t == k && cur then InProgress else Idle,
         if t < s.m then 0 else t - s.m,
         if t == k && cur then Some(k) else None)
  }

  function AttemptAt(s: Shape, k: nat, now: int, a: AttemptId): Attempt {
    Attempt(a, a, now, s.ttl, if a < k then AttemptSuccess else AttemptRunning)
  }

  /** Map task 0 wrote a row for every partition. */
  predicate Written(s: Shape, rows: seq<Output>) {
    |rows| >= s.n && forall p :: 0 <= p < s.n ==> rows[p].task == 0 && rows[p].partition == Some(p)
  }

  ghost predicate TaskRows(tasks: map<TaskId, Task>, s: Shape, k: nat, cur: bool) {
    && (forall t: nat :: t in tasks <==> t < s.m + s.n)
    && (forall t :: t in tasks ==> tasks[t] == RowAt(s, k, cur, t))
  }

  ghost predicate AttemptRows(attempts: map<AttemptId, Attempt>, s: Shape, k: nat, cur: bool, now: int) {
    && (forall a: nat :: a in attempts <==> a < k || (a == k && cur))
    && (forall a :: a in attempts ==> attempts[a] == AttemptAt(s, k, now, a))
  }

  ghost predicate Rows(db: Db, s: Shape, k: nat, cur: bool) {
    && db.jobs.Keys == {0} && db.jobs[0].replica == 0 && db.maxPods == Some(s.pods)
    && (db.jobs[0].status == if k == s.m + s.n then JobCleaning else if k == 0 && !cur then JobPending else JobRunning)
    && TaskRows(db.tasks, s, k, cur) && AttemptRows(db.attempts, s, k, cur, db.now)
    && (k > 0 ==> Written(s, db.outputs))
  }

  // ---------- handing out ----------

  lemma Idling(db: Db, s: Shape, k: nat)
    requires Sane(s) && Rows(db, s, k, false) && k < s.m + s.n
    ensures Served(db, 0, 0) && Busy(db) < Limit(db) && k !in db.attempts
  {
    assert (set a | a in db.attempts && db.attempts[a].status == AttemptRunning) == {};
  }

  lemma MapNext(db: Db, s: Shape, k: nat)
    requires Sane(s) && Rows(db, s, k, false) && k < s.m
    ensures CanAssignMap(db, 0, 0, k, k, {})
  {
    Idling(db, s, k);
    LeastMap(db, 0, 0, k, k, {});
  }

  lemma Worth(db: Db, s: Shape, k: nat, t: TaskId)
    requires Sane(s) && Rows(db, s, k, false) && s.m <= k
    ensures WorthReducing(db, 0, t) <==> k <= t < s.m + s.n
  {
    if k <= t < s.m + s.n { assert FedBy(db, 0, t - s.m, t - s.m); }
  }

  lemma ReduceNext(db: Db, s: Shape, k: nat)
    requires Sane(s) && Rows(db, s, k, false) && s.m <= k < s.m + s.n
    ensures CanAssignReduce(db, 0, 0, k, k, {})
  {
    Idling(db, s, k);
    LeastReduce(db, 0, 0, k, k, {});
    forall t: TaskId ensures WorthReducing(db, 0, t) <==> k <= t < s.m + s.n { Worth(db, s, k, t); }
    ReduceOrder(db, s, k);
  }

  lemma ReduceOrder(db: Db, s: Shape, k: nat)
    requires Rows(db, s, k, false) && s.m <= k < s.m + s.n
    ensures MapsDone(db, 0) && forall u :: k <= u < s.m + s.n ==> NoLater(db, k, u)
  {
  }

  lemma NothingSkipped(db: Db, s: Shape, k: nat)
    requires Sane(s) && Rows(db, s, k, false) && s.m <= k
    ensures AutoCompleted(db, 0) == db
  {
    forall t: TaskId ensures t !in EmptyReduces(db, 0) {
      Worth(db, s, k, t);
      if t in db.tasks { FedIff(db, 0, db.tasks[t].replicaIndex); }
    }
    assert EmptyReduces(db, 0) == {};
    assert SetTasks(db, {}, TaskCompleted).tasks == db.tasks;
  }

  lemma AssignRows(db: Db, s: Shape, k: nat)
    requires Sane(s) && Rows(db, s, k, false) && k < s.m + s.n
    ensures Rows(Assigned(db, s.ttl, 0, k, k, k), s, k, true)
  {
  }

  // ---------- committing ----------

  lemma CommitNext(db: Db, s: Shape, k: nat)
    requires Sane(s) && Rows(db, s, k, true) && k < s.m + s.n
    ensures CompleteVerdict(db, s.skew, k, k, k) == Ok && (CompletesJob(db, k) <==> k + 1 == s.m + s.n)
  {
    assert db.tasks[k] == RowAt(s, k, true, k) && db.attempts[k] == AttemptAt(s, k, db.now, k);
    if k + 1 < s.m + s.n { assert k + 1 in PendingTasks(db, 0); }
  }

  lemma CommitRows(db: Db, s: Shape, k: nat, next: nat, outs: seq<(string, string)>)
    requires Sane(s) && Rows(db, s, k, true) && next == k + 1 <= s.m + s.n && (k == 0 ==> |outs| >= s.n && db.outputs == [])
    ensures Rows(Completed(db, k, k, outs), s, next, false)
  {
    CommitNext(db, s, k);
    CommitTask(db.tasks, s, k);
    CommitAttempt(db.attempts, s, k, db.now);
    CommitOutputs(db.outputs, s, k, outs);
  }

  lemma CommitOutputs(rows: seq<Output>, s: Shape, k: nat, outs: seq<(string, string)>)
    requires if k > 0 then Written(s, rows) else rows == [] && |outs| >= s.n
    ensures Written(s, rows + OutputRows(k, outs))
  {
  }

  lemma CommitTask(tasks: map<TaskId, Task>, s: Shape, k: nat)
    requires TaskRows(tasks, s, k, true) && k < s.m + s.n
    ensures TaskRows(tasks[k := tasks[k].(status := TaskCompleted, current := None)], s, k + 1, false)
  {
  }

  lemma CommitAttempt(attempts: map<AttemptId, Attempt>, s: Shape, k: nat, now: int)
    requires AttemptRows(attempts, s, k, true, now)
    ensures AttemptRows(attempts[k := attempts[k].(status := AttemptSuccess)], s, k + 1, false, now)
  {
  }

  // ---------- the run ----------

  /** The state of the run: k tasks committed, nothing queued but the cleanup of a finished job. */
  ghost predicate At(v: World, s: Shape, k: nat, cur: bool) {
    && Rows(v.db, s, k, cur) && v.cfg.leaseTtl == s.ttl && v.cfg.skew == s.skew && v.booting == {}
    && (k == 0 ==> v.db.outputs == [])
    && Mem(v, 0).inFlight == map[]
    && (Mem(v, 0).pendingCleanup == if k == s.m + s.n then map[0 := Known(JobCompleted)] else map[])
  }

  /** The request for work that hands out task k. */
  function Hand(s: Shape, k: nat): Event {
    if k < s.m then AssignMap(0, 0, k, k, k, {}) else AssignReduce(0, 0, k, k, k, {})
  }

  lemma HandEnabled(v: World, s: Shape, k: nat)
    requires Sane(s) && At(v, s, k, false) && k < s.m + s.n
    ensures Enabled(v, Hand(s, k)) && StepDb(v, Hand(s, k)) == Assigned(v.db, s.ttl, 0, k, k, k)
  {
    if k < s.m { MapNext(v.db, s, k); } else { ReduceNext(v.db, s, k); NothingSkipped(v.db, s, k); }
  }

  lemma HandStep(w: World, es: seq<Event>, v: World, s: Shape, k: nat) returns (es2: seq<Event>, v2: World)
    requires Sane(s) && Leads(w, es, v) && At(v, s, k, false) && k < s.m + s.n
    ensures Leads(w, es2, v2) && At(v2, s, k, true)
  {
    var e := Hand(s, k);
    HandEnabled(v, s, k);
    AssignRows(v.db, s, k);
    LeadsOn(w, es, v, e);
    es2, v2 := es + [e], Step(v, e);
  }

  lemma CommitStep(w: World, es: seq<Event>, v: World, s: Shape, k: nat, next: nat, outs: seq<(string, string)>)
    returns (es2: seq<Event>, v2: World)
    requires Sane(s) && Leads(w, es, v) && At(v, s, k, true) && next == k + 1 <= s.m + s.n && (k == 0 ==> |outs| >= s.n)
    ensures Leads(w, es2, v2) && At(v2, s, next, false)
  {
    var e := Complete(0, k, k, k, outs);
    CommitNow(v, s, k, outs);
    CommitRows(v.db, s, k, next, outs);
    LeadsOn(w, es, v, e);
    es2, v2 := es + [e], Step(v, e);
    assert v2.db == StepDb(v, e) && Mem(v2, 0) == StepMem(v, e, Mem(v, 0));
  }

  lemma CommitNow(v: World, s: Shape, k: nat, outs: seq<(string, string)>)
    requires Sane(s) && At(v, s, k, true) && k < s.m + s.n
    ensures var e := Complete(0, k, k, k, outs);
      && Enabled(v, e) && StepDb(v, e) == Completed(v.db, k, k, outs) && StepMem(v, e, Mem(v, 0)).inFlight == map[]
      && (StepMem(v, e, Mem(v, 0)).pendingCleanup == if k + 1 == s.m + s.n then map[0 := Known(JobCompleted)] else map[])
  {
    CommitNext(v.db, s, k);
  }

  lemma OneTask(w: World, es: seq<Event>, v: World, s: Shape, k: nat, next: nat, outs: seq<(string, string)>)
    returns (es2: seq<Event>, v2: World)
    requires Sane(s) && Leads(w, es, v) && At(v, s, k, false) && next == k + 1 <= s.m + s.n && (k == 0 ==> |outs| >= s.n)
    ensures Leads(w, es2, v2) && At(v2, s, next, false)
  {
    es2, v2 := HandStep(w, es, v, s, k);
    es2, v2 := CommitStep(w, es2, v2, s, k, next, outs);
  }

  // ---------- start and end ----------

  function Requested(s: Shape): seq<NewTask> {
    seq(s.m + s.n, i requires 0 <= i < s.m + s.n =>
      if i < s.m then NewTask(i, MapTask, 0) else NewTask(i, ReduceTask, i - s.m))
  }

  lemma Inserted(s: Shape)
    ensures var ns := Requested(s); DistinctIds(ns) && var rows := NewRows(0, 0, ns);
      && (forall t: nat :: t in rows <==> t < s.m + s.n) && forall t :: t in rows ==> rows[t] == RowAt(s, 0, false, t)
  {
    var ns := Requested(s);
    forall t: nat ensures t in NewRows(0, 0, ns) <==> t < s.m + s.n {
      if t < s.m + s.n { assert ns[t].id == t; }
    }
  }

  lemma ScheduledRows(db: Db, s: Shape)
    requires Sane(s) && db.jobs == map[] && db.tasks == map[] && db.attempts == map[] && db.maxPods == Some(s.pods)
    ensures FreshIds(db, Requested(s)) && Rows(Scheduled(db, 0, 0, Requested(s)), s, 0, false)
  {
    Inserted(s);
  }

  lemma Scheduling(w: World, s: Shape) returns (es: seq<Event>, v: World)
    requires Init(w) && Sane(s) && w.cfg.leaseTtl == s.ttl && w.cfg.skew == s.skew
    ensures Leads(w, es, v) && At(v, s, 0, false)
  {
    var quota, request := SetQuota(s.pods), Schedule(0, 0, 0, Requested(s));
    var v1 := Step(w, quota);
    ScheduledRows(v1.db, s);
    assert Leads(w, [quota], v1) by { assert [quota][1..] == []; }
    LeadsOn(w, [quota], v1, request);
    es, v := [quota] + [request], Step(v1, request);
  }

  lemma {:induction false} AllTasks(w: World, s: Shape, k: nat, outs: nat -> seq<(string, string)>) returns (es: seq<Event>, v: World)
    requires Init(w) && Sane(s) && w.cfg.leaseTtl == s.ttl && w.cfg.skew == s.skew && k <= s.m + s.n && |outs(0)| >= s.n
    ensures Leads(w, es, v) && At(v, s, k, false)
  {
    if k == 0 {
      es, v := Scheduling(w, s);
    } else {
      es, v := AllTasks(w, s, k - 1, outs);
      es, v := OneTask(w, es, v, s, k - 1, k, outs(k - 1));
    }
  }

  lemma PopStep(w: World, es: seq<Event>, v: World, s: Shape) returns (es2: seq<Event>, v2: World)
    requires Leads(w, es, v) && At(v, s, s.m + s.n, false)
    ensures Leads(w, es2, v2) && v2.db == v.db && v2.booting == {}
    ensures Mem(v2, 0).inFlight == map[0 := Known(JobCompleted)] && Mem(v2, 0).pendingCleanup == map[]
  {
    var e := Pop(0, {0});
    LeadsOn(w, es, v, e);
    es2, v2 := es + [e], Step(v, e);
  }

  lemma FinalStep(w: World, es: seq<Event>, v: World) returns (es2: seq<Event>, v2: World)
    requires Leads(w, es, v) && v.booting == {} && v.db.jobs.Keys == {0} && v.db.jobs[0] == Job(JobCleaning, 0)
    requires Mem(v, 0).inFlight == map[0 := Known(JobCompleted)] && Mem(v, 0).pendingCleanup == map[]
    ensures Leads(w, es2, v2) && v2.db == v.db.(jobs := map[0 := Job(JobCompleted, 0)])
    ensures Mem(v2, 0).pendingCleanup == map[] && Mem(v2, 0).inFlight == map[] && 0 !in Mem(v2, 0).cleanupRetries
  {
    var e := Finalize(0, 0, true, true);
    LeadsOn(w, es, v, e);
    es2, v2 := es + [e], Step(v, e);
  }

  /** The job is Completed with every task committed by its one attempt, and nothing is left to clean up. */
  ghost predicate Finished(v: World, s: Shape) {
    && v.db.jobs == map[0 := Job(JobCompleted, 0)]
    && (forall t: nat :: t in v.db.tasks <==> t < s.m + s.n)
    && (forall t :: t in v.db.tasks ==> v.db.tasks[t].status == TaskCompleted && v.db.tasks[t].current == None)
    && (forall a: nat :: a in v.db.attempts <==> a < s.m + s.n)
    && (forall a :: a in v.db.attempts ==> v.db.attempts[a].task == a && v.db.attempts[a].status == AttemptSuccess)
    && Mem(v, 0).pendingCleanup == map[] && Mem(v, 0).inFlight == map[] && 0 !in Mem(v, 0).cleanupRetries
  }

  /** From any fresh start, for every number of tasks, every pod limit and whatever the tasks write, as long as the first
      map task writes every partition, some run ends with the job Completed. */
  lemma Completable(w: World, s: Shape, outs: nat -> seq<(string, string)>) returns (ws: seq<World>, es: seq<Event>)
    requires Init(w) && Sane(s) && w.cfg.leaseTtl == s.ttl && w.cfg.skew == s.skew && |outs(0)| >= s.n
    ensures IsRun(ws, es) && ws[0] == w && Finished(ws[|es|], s)
  {
    var es1, v1 := AllTasks(w, s, s.m + s.n, outs);
    var es2, v2 := PopStep(w, es1, v1, s);
    var v;
    es, v := FinalStep(w, es2, v2);
    ws := LeadsIsRun(w, es, v);
    RowsFinished(v1.db, s);
  }

  lemma RowsFinished(db: Db, s: Shape)
    requires Rows(db, s, s.m + s.n, false)
    ensures forall t :: t in db.tasks ==> db.tasks[t].status == TaskCompleted && db.tasks[t].current == None
    ensures forall a :: a in db.attempts ==> db.attempts[a].task == a && db.attempts[a].status == AttemptSuccess
  {
  }
}
