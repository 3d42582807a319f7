/** Every run of any number of manager replicas over one data store.

    One event is one committed transaction (or one autocommitted statement) together with the
    in-memory update that follows it.  A rejected call changes nothing and is left out. */
module SchedulerRuns {
  import opened Dds
  import opened JobTransitions
  import opened SchedulerSpec

  /** `booting` holds the replicas between the two statements of Recover. */
  datatype World = World(cfg: Config, db: Db, locals: map<Replica, Local>, booting: set<Replica>)

  datatype Event =
    | Tick(elapsed: nat)
    | SetQuota(pods: int)
    | Schedule(r: Replica, j: JobId, home: Replica, tasks: seq<NewTask>)
    | AssignMap(r: Replica, j: JobId, t: TaskId, a: AttemptId, l: LeaseId, locked: set<TaskId>)
    | AssignReduce(r: Replica, j: JobId, t: TaskId, a: AttemptId, l: LeaseId, locked: set<TaskId>)
    | AutoComplete(r: Replica, j: JobId, locked: set<TaskId>)
    | Renew(r: Replica, t: TaskId, a: AttemptId, l: LeaseId)
    | Complete(r: Replica, t: TaskId, a: AttemptId, l: LeaseId, outs: seq<(string, string)>)
    | Fail(r: Replica, t: TaskId, a: AttemptId, l: LeaseId)
    | Reap(r: Replica, locked: set<TaskId>)
    | FailRunning(r: Replica, j: JobId)
    | Cancel(r: Replica, j: JobId)
    | Restart(r: Replica)
    | ResetTasks(r: Replica)
    | Rederive(r: Replica, j: JobId, readable: bool)
    | Pop(r: Replica, js: set<JobId>)
    | Derive(r: Replica, j: JobId, readable: bool)
    | Finalize(r: Replica, j: JobId, stagingOk: bool, workersGone: bool)

  /** The replica that performs an event; ticks and quota changes belong to none. */
  function Actor(e: Event): Option<Replica> {
    if e.Tick? || e.SetQuota? then None else Some(e.r)
  }

  function Mem(w: World, r: Replica): Local {
    if r in w.locals then w.locals[r] else EMPTY_LOCAL
  }

  function PutMem(w: World, r: Replica, m: Local): World {
    w.(locals := w.locals[r := m])
  }

  /** Between restart and the end of Recover a replica does nothing but Recover. */
  predicate Up(w: World, e: Event) {
    match Actor(e)
    case None => true
    case Some(r) => if e.Restart? then true else if e.ResetTasks? then r in w.booting else r !in w.booting
  }

  /** ScheduleJob is called once per job, before anything else happens to it. */
  predicate Unscheduled(db: Db, j: JobId) {
    && (j in db.jobs ==> db.jobs[j].status == JobPending)
    && forall t :: t in db.tasks ==> db.tasks[t].job != j
  }

  predicate Enabled(w: World, e: Event) {
    && Up(w, e)
    && match e
       case Tick(_) => true
       case SetQuota(_) => true
       case Schedule(r, j, home, ns) => Unscheduled(w.db, j) && FreshIds(w.db, ns)
       case AssignMap(r, j, t, a, l, locked) => CanAssignMap(w.db, j, r, t, a, locked)
       case AssignReduce(r, j, t, a, l, locked) => CanAssignReduce(w.db, j, r, t, a, locked)
       case AutoComplete(r, j, locked) => CanAutoComplete(w.db, j, r, locked)
       case Renew(r, t, a, l) => FenceVerdict(w.db, w.cfg.skew, t, a, l) == Ok
       case Complete(r, t, a, l, outs) => CompleteVerdict(w.db, w.cfg.skew, t, a, l) == Ok
       case Fail(r, t, a, l) => FailVerdict(w.db, w.cfg.skew, t, a, l) == Ok
       case Reap(r, locked) => true
       case FailRunning(r, j) => true
       case Cancel(r, j) => Cancellable(w.db, j)
       case Restart(r) => true
       case ResetTasks(r) => true
       case Rederive(r, j, readable) => j in w.db.jobs && Dead(w.db.jobs[j].status)
       case Pop(r, js) => Mem(w, r).inFlight == map[] && js <= Mem(w, r).pendingCleanup.Keys && |js| <= CLEANUP_BATCH
       case Derive(r, j, readable) => j in Mem(w, r).inFlight && Mem(w, r).inFlight[j] == Unknown
       case Finalize(r, j, stagingOk, workersGone) => j in Mem(w, r).inFlight && Mem(w, r).inFlight[j].Known?
  }

  /** The data store after an enabled event. */
  function StepDb(w: World, e: Event): Db
    requires Enabled(w, e)
  {
    var db := w.db;
    match e
    case Tick(d) => db.(now := db.now + d)
    case SetQuota(n) => db.(maxPods := Some(n))
    case Schedule(r, j, home, ns) => Scheduled(db, j, home, ns)
    case AssignMap(r, j, t, a, l, locked) => Assigned(db, w.cfg.leaseTtl, j, t, a, l)
    case AssignReduce(r, j, t, a, l, locked) => Assigned(AutoCompleted(db, j), w.cfg.leaseTtl, j, t, a, l)
    case AutoComplete(r, j, locked) => AutoCompleted(db, j)
    case Renew(r, t, a, l) => RenewRow(db, a)
    case Complete(r, t, a, l, outs) => Completed(db, t, a, outs)
    case Fail(r, t, a, l) => FailedOne(db, t, a)
    case Reap(r, locked) => Reaped(db, Stale(db, Mem(w, r), w.cfg.skew, r, locked))
    case FailRunning(r, j) => FailAttempts(db, RunningOfJob(db, j))
    case Cancel(r, j) => SchedulerSpec.Cancelled(db, j)
    case Restart(r) => FailAttempts(db, RunningOfReplica(db, r))
    case ResetTasks(r) => SetTasks(db, InProgressOfReplica(db, r), Idle)
    case Rederive(r, j, readable) => db
    case Pop(r, js) => db
    case Derive(r, j, readable) => db
    case Finalize(r, j, stagingOk, workersGone) =>
      FinalizedDb(w.cfg, db, Mem(w, r), j, Mem(w, r).inFlight[j].status, stagingOk)
  }

  /** The acting replica's memory after an enabled event. */
  function StepMem(w: World, e: Event, m: Local): Local
    requires Enabled(w, e)
    requires Actor(e).Some? && m == Mem(w, Actor(e).value)
  {
    var db := w.db;
    match e
    case Schedule(r, j, home, ns) => m
    case AssignMap(r, j, t, a, l, locked) => m.(heartbeats := m.heartbeats[a := db.now])
    case AssignReduce(r, j, t, a, l, locked) => m.(heartbeats := m.heartbeats[a := db.now])
    case AutoComplete(r, j, locked) =>
      if AutoCompleteFinishes(db, j) then Enqueue(m, j, Known(JobCompleted)) else m
    case Renew(r, t, a, l) => m.(heartbeats := m.heartbeats[a := db.now])
    case Complete(r, t, a, l, outs) =>
      var m1 := m.(heartbeats := m.heartbeats - {a});
      if CompletesJob(db, t) then Enqueue(m1, db.tasks[t].job, Known(JobCompleted)) else m1
    case Fail(r, t, a, l) =>
      var m1 := m.(heartbeats := m.heartbeats - {a});
      if AfterFailure(db, t) == TaskFailed then Enqueue(m1, db.tasks[t].job, Known(JobFailed)) else m1
    case Reap(r, locked) => ReapLocal(m, ExhaustedJobs(db, Stale(db, m, w.cfg.skew, r, locked)))
    case FailRunning(r, j) => m
    case Cancel(r, j) =>
      Enqueue(m.(heartbeats := m.heartbeats - RunningOfJob(db, j)), j, Known(JobCancelled))
    case Restart(r) => EMPTY_LOCAL
    case ResetTasks(r) => m
    case Rederive(r, j, readable) => Enqueue(m, j, if readable then Known(Derived(db, j)) else Unknown)
    case Pop(r, js) =>
      m.(inFlight := map j | j in js :: m.pendingCleanup[j], pendingCleanup := m.pendingCleanup - js)
    case Derive(r, j, readable) =>
      if readable then m.(inFlight := m.inFlight[j := Known(Derived(db, j))])
      else Enqueue(m.(inFlight := m.inFlight - {j}), j, Unknown)
    case Finalize(r, j, stagingOk, workersGone) =>
      FinalizedLocal(w.cfg, db, m.(inFlight := m.inFlight - {j}), j, m.inFlight[j].status, stagingOk, workersGone)
  }

  function StepBooting(w: World, e: Event): set<Replica> {
    if e.Restart? then w.booting + {e.r} else if e.ResetTasks? then w.booting - {e.r} else w.booting
  }

  function Step(w: World, e: Event): World
    requires Enabled(w, e)
  {
    var w1 := w.(db := StepDb(w, e), booting := StepBooting(w, e));
    match Actor(e)
    case None => w1
    case Some(r) => PutMem(w1, r, StepMem(w, e, Mem(w, r)))
  }

  /** A fresh data store and freshly started processes. */
  predicate Init(w: World) {
    && w.db.jobs == map[] && w.db.tasks == map[] && w.db.attempts == map[] && w.db.outputs == []
    && w.locals == map[] && w.booting == {}
  }

  /** ws[0], es[0], ws[1], ... is a run. */
  ghost predicate IsRun(ws: seq<World>, es: seq<Event>) {
    && |ws| == |es| + 1
    && Init(ws[0])
    && forall i :: 0 <= i < |es| ==> StepAt(ws, es, i)
  }

  ghost predicate StepAt(ws: seq<World>, es: seq<Event>, i: nat)
    requires i < |es| < |ws|
  {
    Enabled(ws[i], es[i]) && ws[i + 1] == Step(ws[i], es[i])
  }

  /** The events lead from w to v. */
  ghost predicate Leads(w: World, es: seq<Event>, v: World)
    decreases |es|
  {
    if es == [] then w == v else Enabled(w, es[0]) && Leads(Step(w, es[0]), es[1..], v)
  }

  lemma {:induction false} LeadsOn(w: World, es: seq<Event>, v: World, e: Event)
    requires Leads(w, es, v) && Enabled(v, e)
    ensures Leads(w, es + [e], Step(v, e))
    decreases |es|
  {
    if es == [] {
      assert (es + [e])[1..] == [];
    } else {
      LeadsOn(Step(w, es[0]), es[1..], v, e);
      assert (es + [e])[1..] == es[1..] + [e];
    }
  }

  lemma {:induction false} LeadsJoin(w: World, es: seq<Event>, v: World, more: seq<Event>, u: World)
    requires Leads(w, es, v) && Leads(v, more, u)
    ensures Leads(w, es + more, u)
    decreases |es|
  {
    if es == [] {
      assert es + more == more;
    } else {
      LeadsJoin(Step(w, es[0]), es[1..], v, more, u);
      assert (es + more)[1..] == es[1..] + more;
    }
  }

  ghost predicate Steps(ws: seq<World>, es: seq<Event>) {
    |ws| == |es| + 1 && forall i :: 0 <= i < |es| ==> StepAt(ws, es, i)
  }

  lemma {:induction false} LeadsSteps(w: World, es: seq<Event>, v: World) returns (ws: seq<World>)
    requires Leads(w, es, v)
    ensures Steps(ws, es) && ws[0] == w && ws[|es|] == v
    decreases |es|
  {
    if es == [] {
      ws := [w];
    } else {
      var rest := LeadsSteps(Step(w, es[0]), es[1..], v);
      ws := [w] + rest;
      forall i | 0 <= i < |es| ensures StepAt(ws, es, i) {
        if i > 0 { assert StepAt(rest, es[1..], i - 1); }
      }
    }
  }

  lemma RunOn(ws: seq<World>, es: seq<Event>, e: Event)
    requires IsRun(ws, es) && Enabled(ws[|es|], e)
    ensures IsRun(ws + [Step(ws[|es|], e)], es + [e])
  {
    var ws2, es2 := ws + [Step(ws[|es|], e)], es + [e];
    forall i | 0 <= i < |es2| ensures StepAt(ws2, es2, i) {
      if i < |es| { assert StepAt(ws, es, i); }
    }
  }

  /** Events that lead somewhere from a fresh start are a run. */
  lemma LeadsIsRun(w: World, es: seq<Event>, v: World) returns (ws: seq<World>)
    requires Init(w) && Leads(w, es, v)
    ensures IsRun(ws, es) && ws[0] == w && ws[|es|] == v
  {
    ws := LeadsSteps(w, es, v);
  }

  /** A run that ends with two given steps. */
  lemma LeadsTwoMore(w: World, front: seq<Event>, v: World, e: Event, v1: World, e2: Event, v2: World)
    returns (ws: seq<World>, es: seq<Event>)
    requires Init(w) && Leads(w, front, v) && Enabled(v, e) && v1 == Step(v, e) && Enabled(v1, e2) && v2 == Step(v1, e2)
    ensures IsRun(ws, es) && |es| >= 2 && es[|es| - 2..] == [e, e2] && ws[|es| - 1] == v1 && ws[|es|] == v2
  {
    var before := LeadsIsRun(w, front, v);
    RunOn(before, front, e);
    RunOn(before + [v1], front + [e], e2);
    ws, es := before + [v1] + [v2], front + [e] + [e2];
  }
}
