/** The inductive invariant of the scheduler, and its proof over every run. */
module SchedulerInvariant {
  import opened Dds
  import opened JobTransitions
  import opened SchedulerSpec
  import opened SchedulerRuns
  import opened SchedulerMoves

  /** A reduce task that has been started or finished belongs to a job whose map tasks are all Completed. */
  predicate BarrierOk(db: Db) {
    && (forall t | t in db.tasks && db.tasks[t].kind == ReduceTask
          && (db.tasks[t].status == InProgress || db.tasks[t].status == TaskCompleted) :: MapsDone(db, db.tasks[t].job))
    && (forall a | a in db.attempts && db.attempts[a].task in db.tasks && db.tasks[db.attempts[a].task].kind == ReduceTask ::
          MapsDone(db, db.tasks[db.attempts[a].task].job))
  }

  /** At most one attempt of a task succeeds. */
  predicate OneSuccess(db: Db) {
    forall a, b | a in db.attempts && b in db.attempts
      && db.attempts[a].status == AttemptSuccess && db.attempts[b].status == AttemptSuccess
      && db.attempts[a].task == db.attempts[b].task :: a == b
  }

  /** Only Completed tasks have output rows. */
  predicate OutputsOk(db: Db) {
    forall i :: 0 <= i < |db.outputs| ==>
      db.outputs[i].task in db.tasks && db.tasks[db.outputs[i].task].status == TaskCompleted
  }

  ghost predicate DbOk(db: Db) {
    RowsOk(db) && JobsOk(db) && BarrierOk(db) && OneSuccess(db) && OutputsOk(db)
  }

  ghost predicate LocalOk(db: Db, m: Local) {
    && (forall j :: j in m.pendingCleanup ==> TicketOk(db, j, m.pendingCleanup[j]))
    && (forall j :: j in m.inFlight ==> TicketOk(db, j, m.inFlight[j]))
  }

  ghost predicate TicketsOk(w: World) {
    forall r :: r in w.locals ==> LocalOk(w.db, w.locals[r])
  }

  /** Between the two statements of Recover the replica's jobs have no Running attempt. */
  predicate BootOk(w: World) {
    forall r :: r in w.booting ==> RunningOfReplica(w.db, r) == {}
  }

  ghost predicate Inv(w: World) {
    DbOk(w.db) && TicketsOk(w) && BootOk(w)
  }

  // ---------- what every event keeps, from Moves alone ----------

  lemma DeadStays(db: Db, db2: Db, j: JobId)
    requires Moves(db, db2) && j in db.jobs && Dead(db.jobs[j].status)
    ensures j in db2.jobs && Dead(db2.jobs[j].status)
    ensures AllDone(db, j) ==> AllDone(db2, j)
  {
    assert forall t :: t in PendingTasks(db2, j) ==> t in PendingTasks(db, j);
  }

  lemma SettledStays(db: Db, db2: Db, j: JobId)
    requires Moves(db, db2) && j in db.jobs && Dead(db.jobs[j].status) && Settled(db, j)
    ensures Settled(db2, j)
  {
    forall t | t in PendingTasks(db2, j)
      ensures t in FailedTasks(db2, j)
    {
      assert t in db.tasks && TaskMove(db, db2, t);
      assert t in FailedTasks(db, j);
    }
  }

  lemma FailedStays(db: Db, db2: Db, j: JobId)
    requires Moves(db, db2) && HasFailed(db, j)
    ensures HasFailed(db2, j)
  {
    var t :| t in FailedTasks(db, j);
    assert t in FailedTasks(db2, j);
  }

  lemma MapsStay(db: Db, db2: Db, j: JobId, t: TaskId)
    requires Moves(db, db2) && t in db.tasks && db.tasks[t].job == j && MapsDone(db, j)
    ensures MapsDone(db2, j)
  {
    assert forall u :: u in PendingOfKind(db2, j, MapTask) ==> u in PendingOfKind(db, j, MapTask);
  }

  lemma RowsStay(db: Db, db2: Db)
    requires RowsOk(db) && RowsMove(db, db2)
    ensures RowsOk(db2)
  {
    forall t | t in db2.tasks ensures TaskOk(db2, t) {
      if t in db.tasks {
        assert TaskOk(db, t) && TaskMove(db, db2, t);
      } else {
        assert TaskBirth(db, db2, t);
      }
    }
    forall a | a in db2.attempts ensures AttemptOk(db2, a) {
      if a in db.attempts {
        assert AttemptOk(db, a) && AttemptMove(db, db2, a) && TaskMove(db, db2, db.attempts[a].task);
      } else {
        assert AttemptBirth(db, db2, a);
      }
    }
  }

  lemma JobsStay(db: Db, db2: Db)
    requires JobsOk(db) && Moves(db, db2)
    ensures JobsOk(db2)
  {
    forall j | j in db2.jobs ensures JobOk(db2, j) {
      if j in db.jobs {
        assert JobOk(db, j) && JobMove(db, db2, j);
        if Dead(db.jobs[j].status) {
          DeadStays(db, db2, j);
          if Settled(db, j) { SettledStays(db, db2, j); }
        }
        if HasFailed(db, j) { FailedStays(db, db2, j); }
      } else {
        assert JobBirth(db, db2, j);
      }
    }
  }

  lemma BarrierStays(db: Db, db2: Db)
    requires RowsOk(db) && BarrierOk(db) && Moves(db, db2)
    ensures BarrierOk(db2)
  {
    forall t | t in db2.tasks && db2.tasks[t].kind == ReduceTask
        && (db2.tasks[t].status == InProgress || db2.tasks[t].status == TaskCompleted)
      ensures MapsDone(db2, db2.tasks[t].job)
    {
      assert t in db.tasks ==> TaskMove(db, db2, t);
      assert t !in db.tasks ==> TaskBirth(db, db2, t);
      MapsStay(db, db2, db.tasks[t].job, t);
    }
    forall a | a in db2.attempts && db2.attempts[a].task in db2.tasks && db2.tasks[db2.attempts[a].task].kind == ReduceTask
      ensures MapsDone(db2, db2.tasks[db2.attempts[a].task].job)
    {
      var t := db2.attempts[a].task;
      if a in db.attempts {
        assert AttemptMove(db, db2, a) && AttemptOk(db, a) && TaskMove(db, db2, t);
      } else {
        assert AttemptBirth(db, db2, a) && TaskMove(db, db2, t);
      }
      MapsStay(db, db2, db.tasks[t].job, t);
    }
  }

  lemma SuccessStays(db: Db, db2: Db)
    requires RowsOk(db) && OneSuccess(db) && Moves(db, db2)
    ensures OneSuccess(db2)
  {
    forall a, b | a in db2.attempts && b in db2.attempts
        && db2.attempts[a].status == AttemptSuccess && db2.attempts[b].status == AttemptSuccess
        && db2.attempts[a].task == db2.attempts[b].task
      ensures a == b
    {
      assert a in db.attempts && b in db.attempts;
      assert AttemptMove(db, db2, a) && AttemptMove(db, db2, b) && AttemptOk(db, a) && AttemptOk(db, b);
    }
  }

  lemma OutputsStay(db: Db, db2: Db)
    requires OutputsOk(db) && Moves(db, db2)
    ensures OutputsOk(db2)
  {
    forall i | 0 <= i < |db2.outputs|
      ensures db2.outputs[i].task in db2.tasks && db2.tasks[db2.outputs[i].task].status == TaskCompleted
    {
      if i < |db.outputs| {
        assert db2.outputs[i] == db.outputs[i] && TaskMove(db, db2, db.outputs[i].task);
      }
    }
  }

  lemma DbStays(db: Db, db2: Db)
    requires DbOk(db) && Moves(db, db2)
    ensures DbOk(db2)
  {
    MovesRows(db, db2);
    RowsStay(db, db2);
    JobsStay(db, db2);
    BarrierStays(db, db2);
    SuccessStays(db, db2);
    OutputsStay(db, db2);
  }

  lemma TicketStays(db: Db, db2: Db, j: JobId, k: Ticket)
    requires Moves(db, db2) && TicketOk(db, j, k)
    ensures TicketOk(db2, j, k)
  {
    DeadStays(db, db2, j);
    if HasFailed(db, j) { FailedStays(db, db2, j); }
    if Settled(db, j) { SettledStays(db, db2, j); }
  }

  lemma LocalStays(db: Db, db2: Db, m: Local)
    requires Moves(db, db2) && LocalOk(db, m)
    ensures LocalOk(db2, m)
  {
    forall j | j in m.pendingCleanup ensures TicketOk(db2, j, m.pendingCleanup[j]) { TicketStays(db, db2, j, m.pendingCleanup[j]); }
    forall j | j in m.inFlight ensures TicketOk(db2, j, m.inFlight[j]) { TicketStays(db, db2, j, m.inFlight[j]); }
  }

  // ---------- each event ----------

  lemma MemOk(w: World, r: Replica)
    requires TicketsOk(w)
    ensures LocalOk(w.db, Mem(w, r))
  {
  }

  /** Every enabled event makes only the moves listed above. */
  lemma StepMoves(w: World, e: Event)
    requires Inv(w) && Enabled(w, e)
    ensures Moves(w.db, Step(w, e).db)
  {
    var db := w.db;
    match e {
      case Tick(d) => StutterMoves(db, Step(w, e).db);
      case SetQuota(n) => StutterMoves(db, Step(w, e).db);
      case Schedule(r, j, home, ns) => ScheduleMoves(db, j, home, ns);
      case AssignMap(r, j, t, a, l, locked) => AssignMapMoves(db, w.cfg.leaseTtl, j, r, t, a, l, locked);
      case AssignReduce(r, j, t, a, l, locked) => AssignReduceMoves(db, w.cfg.leaseTtl, j, r, t, a, l, locked);
      case AutoComplete(r, j, locked) => AutoCompleteMoves(db, j, r, locked);
      case Renew(r, t, a, l) => RenewMoves(db, a);
      case Complete(r, t, a, l, outs) => CompleteMoves(db, w.cfg.skew, t, a, l, outs);
      case Fail(r, t, a, l) => FailMoves(db, w.cfg.skew, t, a, l);
      case Reap(r, locked) => ReapMoves(db, Mem(w, r), w.cfg.skew, r, locked);
      case FailRunning(r, j) => FailAttemptsMoves(db, RunningOfJob(db, j));
      case Cancel(r, j) => CancelMoves(db, j);
      case Restart(r) => FailAttemptsMoves(db, RunningOfReplica(db, r));
      case ResetTasks(r) => ResetMoves(db, r);
      case Rederive(r, j, readable) => StutterMoves(db, Step(w, e).db);
      case Pop(r, js) => StutterMoves(db, Step(w, e).db);
      case Derive(r, j, readable) => StutterMoves(db, Step(w, e).db);
      case Finalize(r, j, stagingOk, workersGone) =>
        MemOk(w, r);
        FinalizeMoves(w.cfg, db, Mem(w, r), j, Mem(w, r).inFlight[j].status, stagingOk);
    }
  }

  lemma EnqueueOk(db: Db, m: Local, j: JobId, k: Ticket)
    requires LocalOk(db, m) && TicketOk(db, j, k)
    ensures LocalOk(db, Enqueue(m, j, k))
  {
  }

  /** The ticket that an event queues, if any, is truthful in the state it leaves. */
  lemma NewTickets(w: World, e: Event)
    requires Inv(w) && Enabled(w, e) && Actor(e).Some?
    ensures LocalOk(Step(w, e).db, StepMem(w, e, Mem(w, Actor(e).value)))
  {
    var r := Actor(e).value;
    var m, db, db2 := Mem(w, r), w.db, Step(w, e).db;
    MemOk(w, r);
    StepMoves(w, e);
    LocalStays(db, db2, m);
    match e {
      case AutoComplete(_, j, locked) =>
        if AutoCompleteFinishes(db, j) {
          AutoCompleteTicket(db, j);
          EnqueueOk(db2, m, j, Known(JobCompleted));
        }
      case Complete(_, t, a, l, outs) =>
        if CompletesJob(db, t) {
          CompleteTicket(w, t, a, l, outs);
          EnqueueOk(db2, m.(heartbeats := m.heartbeats - {a}), db.tasks[t].job, Known(JobCompleted));
        }
      case Fail(_, t, a, l) =>
        if AfterFailure(db, t) == TaskFailed {
          FailTicket(w, t, a, l);
          EnqueueOk(db2, m.(heartbeats := m.heartbeats - {a}), db.tasks[t].job, Known(JobFailed));
        }
      case Reap(_, locked) => ReapTickets(w, r, locked);
      case Cancel(_, j) =>
        CancelTicket(db, j);
        EnqueueOk(db2, m.(heartbeats := m.heartbeats - RunningOfJob(db, j)), j, Known(JobCancelled));
      case Rederive(_, j, readable) => DerivedOk(db, j); EnqueueOk(db2, m, j, if readable then Known(Derived(db, j)) else Unknown);
      case Derive(_, j, readable) => DerivedOk(db, j);
      case _ =>
    }
  }

  lemma AutoCompleteTicket(db: Db, j: JobId)
    requires AutoCompleteFinishes(db, j) && j in db.jobs
    ensures TicketOk(AutoCompleted(db, j), j, Known(JobCompleted))
  {
  }

  lemma CompleteTicket(w: World, t: TaskId, a: AttemptId, l: LeaseId, outs: seq<(string, string)>)
    requires CompleteVerdict(w.db, w.cfg.skew, t, a, l) == Ok && CompletesJob(w.db, t)
    ensures TicketOk(Completed(w.db, t, a, outs), w.db.tasks[t].job, Known(JobCompleted))
  {
    var db2 := Completed(w.db, t, a, outs);
    assert PendingTasks(db2, w.db.tasks[t].job) <= PendingTasks(w.db, w.db.tasks[t].job) - {t};
  }

  lemma FailTicket(w: World, t: TaskId, a: AttemptId, l: LeaseId)
    requires FailVerdict(w.db, w.cfg.skew, t, a, l) == Ok && AfterFailure(w.db, t) == TaskFailed
    ensures TicketOk(FailedOne(w.db, t, a), w.db.tasks[t].job, Known(JobFailed))
  {
    assert t in FailedTasks(FailedOne(w.db, t, a), w.db.tasks[t].job);
  }

  lemma CancelTicket(db: Db, j: JobId)
    requires Cancellable(db, j)
    ensures TicketOk(SchedulerSpec.Cancelled(db, j), j, Known(JobCancelled))
  {
  }

  lemma DerivedOk(db: Db, j: JobId)
    requires JobsOk(db) && j in db.jobs && Dead(db.jobs[j].status)
    ensures TicketOk(db, j, Known(Derived(db, j)))
  {
    assert JobOk(db, j);
  }

  lemma ReapTickets(w: World, r: Replica, locked: set<TaskId>)
    requires Inv(w)
    ensures var stale := Stale(w.db, Mem(w, r), w.cfg.skew, r, locked);
      forall j :: j in ExhaustedJobs(w.db, stale) ==> TicketOk(Reaped(w.db, stale), j, Known(JobFailed))
  {
    var stale := Stale(w.db, Mem(w, r), w.cfg.skew, r, locked);
    var db2 := Reaped(w.db, stale);
    forall j | j in ExhaustedJobs(w.db, stale)
      ensures TicketOk(db2, j, Known(JobFailed))
    {
      var t :| t in stale && AfterFailure(w.db, t) == TaskFailed && w.db.tasks[t].job == j;
      ReapTicket(w.db, stale, t);
    }
  }

  lemma ReapTicket(db: Db, stale: set<TaskId>, t: TaskId)
    requires t in stale && t in db.tasks && db.tasks[t].job in db.jobs && AfterFailure(db, t) == TaskFailed
    ensures TicketOk(Reaped(db, stale), db.tasks[t].job, Known(JobFailed))
  {
    assert t in FailedTasks(Reaped(db, stale), db.tasks[t].job);
    assert db.tasks[t].job in ExhaustedJobs(db, stale);
  }

  lemma StepTickets(w: World, e: Event)
    requires Inv(w) && Enabled(w, e)
    ensures TicketsOk(Step(w, e))
  {
    var w2 := Step(w, e);
    StepMoves(w, e);
    forall r | r in w2.locals
      ensures LocalOk(w2.db, w2.locals[r])
    {
      if Actor(e) == Some(r) {
        NewTickets(w, e);
      } else {
        LocalStays(w.db, w2.db, w.locals[r]);
      }
    }
  }

  /** Only an assignment creates an attempt. */
  lemma SameAttempts(w: World, e: Event)
    requires Enabled(w, e) && !e.AssignMap? && !e.AssignReduce?
    ensures StepDb(w, e).attempts.Keys == w.db.attempts.Keys
  {
  }

  lemma ReplicaShrinks(db: Db, db2: Db, q: Replica, a: AttemptId)
    requires RowsOk(db) && RowsMove(db, db2) && a in db.attempts && a in RunningOfReplica(db2, q)
    ensures a in RunningOfReplica(db, q)
  {
    var t := db.attempts[a].task;
    assert AttemptMove(db, db2, a) && AttemptOk(db, a) && TaskMove(db, db2, t) && TaskOk(db, t);
  }

  /** The one attempt an assignment creates belongs to the acting replica. */
  lemma AssignedReplica(w: World, e: Event, a: AttemptId)
    requires Enabled(w, e) && (e.AssignMap? || e.AssignReduce?)
    requires a in Step(w, e).db.attempts && a !in w.db.attempts
    ensures RunningOfReplica(Step(w, e).db, e.r) >= {a}
    ensures forall q :: a in RunningOfReplica(Step(w, e).db, q) ==> q == e.r
  {
  }

  lemma RestartQuiet(db: Db, r: Replica)
    ensures RunningOfReplica(FailAttempts(db, RunningOfReplica(db, r)), r) == {}
  {
  }

  /** Between its two recovery statements no attempt of a replica's jobs is Running, whatever other replicas do. */
  lemma StepBoot(w: World, e: Event)
    requires RowsOk(w.db) && BootOk(w) && Enabled(w, e) && RowsMove(w.db, StepDb(w, e))
    ensures BootOk(Step(w, e))
  {
    var db2 := Step(w, e).db;
    if e.Restart? { RestartQuiet(w.db, e.r); }
    if !e.AssignMap? && !e.AssignReduce? { SameAttempts(w, e); }
    forall q | q in Step(w, e).booting
      ensures RunningOfReplica(db2, q) == {}
    {
      if q in w.booting {
        forall a | a in RunningOfReplica(db2, q)
          ensures a in RunningOfReplica(w.db, q)
        {
          if a in w.db.attempts {
            ReplicaShrinks(w.db, db2, q, a);
          } else {
            AssignedReplica(w, e, a);
          }
        }
      }
    }
  }

  lemma StepInv(w: World, e: Event)
    requires Inv(w) && Enabled(w, e)
    ensures Inv(Step(w, e))
  {
    StepMoves(w, e);
    DbStays(w.db, Step(w, e).db);
    StepTickets(w, e);
    MovesRows(w.db, StepDb(w, e));
    StepBoot(w, e);
  }

  /** The row rules alone need neither the job invariant nor truthful tickets. */
  lemma StepRows(w: World, e: Event)
    requires RowsOk(w.db) && BootOk(w) && Enabled(w, e) && !e.AssignMap? && !e.AssignReduce?
    ensures RowsMove(w.db, StepDb(w, e))
  {
    var db, db2 := w.db, StepDb(w, e);
    match e {
      case Schedule(r, j, home, ns) => ScheduleMoves(db, j, home, ns); MovesRows(db, db2);
      case AutoComplete(r, j, locked) => AutoCompleteRows(db, j, r, locked);
      case Renew(r, t, a, l) => RenewMoves(db, a); MovesRows(db, db2);
      case Complete(r, t, a, l, outs) => CompleteMoves(db, w.cfg.skew, t, a, l, outs); MovesRows(db, db2);
      case Fail(r, t, a, l) => FailMoves(db, w.cfg.skew, t, a, l); MovesRows(db, db2);
      case Reap(r, locked) => ReapMoves(db, Mem(w, r), w.cfg.skew, r, locked); MovesRows(db, db2);
      case FailRunning(r, j) => FailAttemptsMoves(db, RunningOfJob(db, j)); MovesRows(db, db2);
      case Cancel(r, j) => CancelMoves(db, j); MovesRows(db, db2);
      case Restart(r) => FailAttemptsMoves(db, RunningOfReplica(db, r)); MovesRows(db, db2);
      case ResetTasks(r) => ResetMoves(db, r); MovesRows(db, db2);
      case _ => SameRows(db, db2);
    }
  }

  lemma SameRows(db: Db, db2: Db)
    requires db2.tasks == db.tasks && db2.attempts == db.attempts && KeepsJobs(db, db2)
    ensures RowsMove(db, db2)
  {
  }

  lemma InitInv(w: World)
    requires Init(w)
    ensures Inv(w)
  {
  }

  /** The invariant holds in every state of every run. */
  lemma {:induction false} RunInv(ws: seq<World>, es: seq<Event>, i: nat)
    requires IsRun(ws, es) && i < |ws|
    ensures Inv(ws[i])
  {
    if i == 0 {
      InitInv(ws[0]);
    } else {
      RunInv(ws, es, i - 1);
      assert StepAt(ws, es, i - 1);
      StepInv(ws[i - 1], es[i - 1]);
    }
  }
}
