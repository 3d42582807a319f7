/** Every call on a manager process is zero or more enabled steps of the state machine, so what is proved of all runs
    holds of the code's own state. */
module SchedulerProcess {
  import opened Dds
  import opened SchedulerSpec
  import opened SchedulerRuns
  import opened SchedulerInvariant
  import Scheduler

  type Process = Scheduler.Scheduler

  /** The process and its data store are the world w as its replica sees it.  `flight` holds the cleanups it has popped and
      not yet finished, which the code keeps in local variables; `booting` is set between the two statements of Recover. */
  ghost predicate Shows(s: Process, w: World, flight: map<JobId, Ticket>, booting: bool)
    reads s
  {
    && w.cfg == s.cfg && w.db == s.View() && Mem(w, s.replicaIndex) == s.Memory().(inFlight := flight)
    && (s.replicaIndex in w.booting <==> booting)
  }

  /** A newly created process over an empty store. */
  method Start(r: Replica, c: Config) returns (s: Process, ghost w: World)
    ensures fresh(s) && Init(w) && Shows(s, w, map[], false)
  {
    s := new Scheduler.Scheduler(r, c);
    w := World(c, s.View(), map[], {});
  }

  lemma OneStep(w: World, e: Event, r: Replica) returns (v: World, es: seq<Event>)
    requires Enabled(w, e) && Actor(e) == Some(r)
    ensures es == [e] && Leads(w, es, v) && v.cfg == w.cfg && v.db == StepDb(w, e) && v.booting == StepBooting(w, e)
    ensures Mem(v, r) == StepMem(w, e, Mem(w, r)) && forall q: Replica :: q != r ==> Mem(v, q) == Mem(w, q)
  {
    v, es := Step(w, e), [e];
    assert es[1..] == [];
  }

  /** The invariant of all runs holds of the state after any call. */
  lemma {:induction false} CallsKeep(w: World, es: seq<Event>, v: World)
    requires Inv(w) && Leads(w, es, v)
    ensures Inv(v)
    decreases |es|
  {
    if es != [] {
      StepInv(w, es[0]);
      CallsKeep(Step(w, es[0]), es[1..], v);
    }
  }

  /** The event behind an answer to a request for work; the other answers leave nothing behind. */
  function AssignEvents(answer: Scheduler.Answer, r: Replica, j: JobId, a: AttemptId, l: LeaseId, locked: set<TaskId>, skips: bool): seq<Event> {
    match answer
    case GotMap(t) => [AssignMap(r, j, t, a, l, locked)]
    case GotReduce(t) => [AssignReduce(r, j, t, a, l, locked)]
    case _ => if skips then [AutoComplete(r, j, locked)] else []
  }

  method GetNextTask(s: Process, j: JobId, a: AttemptId, l: LeaseId, locked: set<TaskId>, ghost w: World, ghost flight: map<JobId, Ticket>)
    returns (answer: Scheduler.Answer, ghost v: World, ghost es: seq<Event>)
    requires Shows(s, w, flight, false) && a !in s.attempts
    modifies s
    ensures Leads(w, es, v) && Shows(s, v, flight, false)
    ensures es == AssignEvents(answer, s.replicaIndex, j, a, l, locked, Scheduler.Writes(answer, MapPhaseOver(w.db, j, s.replicaIndex, locked)))
  {
    answer := s.GetNextTask(j, a, l, locked);
    ghost var r := s.replicaIndex;
    v, es := w, [];
    if answer.GotMap? {
      v, es := AssignMapStep(w, r, j, answer.t, a, l, locked);
    } else if answer.GotReduce? {
      v, es := AssignReduceStep(w, r, j, answer.t, a, l, locked);
    } else if Scheduler.Writes(answer, MapPhaseOver(w.db, j, r, locked)) {
      v, es := SkipStep(w, r, j, locked);
    }
  }

  lemma AssignMapStep(w: World, r: Replica, j: JobId, t: TaskId, a: AttemptId, l: LeaseId, locked: set<TaskId>) returns (v: World, es: seq<Event>)
    requires r !in w.booting && CanAssignMap(w.db, j, r, t, a, locked)
    ensures es == [AssignMap(r, j, t, a, l, locked)] && Leads(w, es, v) && v.cfg == w.cfg && v.booting == w.booting
    ensures v.db == Assigned(w.db, w.cfg.leaseTtl, j, t, a, l) && Mem(v, r) == Stamped(Mem(w, r), a, w.db.now)
  {
    v, es := OneStep(w, AssignMap(r, j, t, a, l, locked), r);
  }

  lemma AssignReduceStep(w: World, r: Replica, j: JobId, t: TaskId, a: AttemptId, l: LeaseId, locked: set<TaskId>) returns (v: World, es: seq<Event>)
    requires r !in w.booting && CanAssignReduce(w.db, j, r, t, a, locked)
    ensures es == [AssignReduce(r, j, t, a, l, locked)] && Leads(w, es, v) && v.cfg == w.cfg && v.booting == w.booting
    ensures v.db == Assigned(AutoCompleted(w.db, j), w.cfg.leaseTtl, j, t, a, l) && Mem(v, r) == Stamped(Mem(w, r), a, w.db.now)
  {
    v, es := OneStep(w, AssignReduce(r, j, t, a, l, locked), r);
  }

  lemma SkipStep(w: World, r: Replica, j: JobId, locked: set<TaskId>) returns (v: World, es: seq<Event>)
    requires r !in w.booting && CanAutoComplete(w.db, j, r, locked)
    ensures es == [AutoComplete(r, j, locked)] && Leads(w, es, v) && v.cfg == w.cfg && v.booting == w.booting && v.db == AutoCompleted(w.db, j)
    ensures Mem(v, r) == if AutoCompleteFinishes(w.db, j) then Enqueue(Mem(w, r), j, Known(JobCompleted)) else Mem(w, r)
  {
    v, es := OneStep(w, AutoComplete(r, j, locked), r);
  }

  function Stamped(m: Local, a: AttemptId, now: int): Local { m.(heartbeats := m.heartbeats[a := now]) }

  method RenewLease(s: Process, t: TaskId, a: AttemptId, l: LeaseId, ghost w: World, ghost flight: map<JobId, Ticket>)
    returns (verdict: Verdict, ghost v: World, ghost es: seq<Event>)
    requires Shows(s, w, flight, false)
    modifies s
    ensures Leads(w, es, v) && Shows(s, v, flight, false)
    ensures es == if verdict == Ok then [Renew(s.replicaIndex, t, a, l)] else []
  {
    verdict := s.RenewLease(t, a, l);
    v, es := w, [];
    if verdict == Ok { v, es := OneStep(w, Renew(s.replicaIndex, t, a, l), s.replicaIndex); }
  }

  method CompleteTask(s: Process, t: TaskId, a: AttemptId, l: LeaseId, uris: seq<string>, checksums: seq<string>,
                      ghost w: World, ghost flight: map<JobId, Ticket>)
    returns (verdict: Verdict, ghost v: World, ghost es: seq<Event>)
    requires Shows(s, w, flight, false)
    modifies s
    ensures Leads(w, es, v) && Shows(s, v, flight, false)
    ensures verdict == Ok ==> |uris| == |checksums|
    ensures es == if verdict == Ok then [Complete(s.replicaIndex, t, a, l, Process.Zipped(uris, checksums))] else []
  {
    verdict := s.CompleteTask(t, a, l, uris, checksums);
    v, es := w, [];
    if verdict == Ok { v, es := OneStep(w, Complete(s.replicaIndex, t, a, l, Process.Zipped(uris, checksums)), s.replicaIndex); }
  }

  method FailTask(s: Process, t: TaskId, a: AttemptId, l: LeaseId, ghost w: World, ghost flight: map<JobId, Ticket>)
    returns (verdict: Verdict, ghost v: World, ghost es: seq<Event>)
    requires Shows(s, w, flight, false)
    modifies s
    ensures Leads(w, es, v) && Shows(s, v, flight, false)
    ensures es == if verdict == Ok then [Fail(s.replicaIndex, t, a, l)] else []
  {
    verdict := s.FailTask(t, a, l);
    v, es := w, [];
    if verdict == Ok { v, es := OneStep(w, Fail(s.replicaIndex, t, a, l), s.replicaIndex); }
  }

  method CancelJob(s: Process, j: JobId, ghost w: World, ghost flight: map<JobId, Ticket>)
    returns (found: bool, ghost v: World, ghost es: seq<Event>)
    requires Shows(s, w, flight, false)
    modifies s
    ensures Leads(w, es, v) && Shows(s, v, flight, false)
    ensures es == if Cancellable(w.db, j) then [Cancel(s.replicaIndex, j)] else []
  {
    found := s.CancelJob(j);
    v, es := w, [];
    if Cancellable(w.db, j) { v, es := OneStep(w, Cancel(s.replicaIndex, j), s.replicaIndex); }
  }

  /** ScheduleJob on a job that has no tasks yet. */
  method ScheduleJob(s: Process, j: JobId, home: Replica, mTasks: int, rTasks: int, ns: seq<NewTask>, ghost w: World, ghost flight: map<JobId, Ticket>)
    returns (ok: bool, ghost v: World, ghost es: seq<Event>)
    requires Shows(s, w, flight, false) && Unscheduled(w.db, j)
    modifies s
    ensures Leads(w, es, v) && Shows(s, v, flight, false)
    ensures es == if ok then [Schedule(s.replicaIndex, j, home, ns)] else []
  {
    ok := s.ScheduleJob(j, home, mTasks, rTasks, ns);
    v, es := w, [];
    if ok { v, es := OneStep(w, Schedule(s.replicaIndex, j, home, ns), s.replicaIndex); }
  }

  // ---------- recovery ----------

  /** Whatever was in memory is gone; the replica boots. */
  method RecoverFailAttempts(s: Process, ghost w: World, ghost flight: map<JobId, Ticket>, ghost booting: bool)
    returns (ghost v: World, ghost es: seq<Event>)
    requires Shows(s, w, flight, booting)
    modifies s
    ensures Leads(w, es, v) && Shows(s, v, map[], true) && es == [Restart(s.replicaIndex)]
    ensures RunningOfReplica(s.View(), s.replicaIndex) == {}
  {
    s.RecoverFailAttempts();
    v, es := OneStep(w, Restart(s.replicaIndex), s.replicaIndex);
  }

  method RecoverResetTasks(s: Process, ghost w: World, ghost flight: map<JobId, Ticket>) returns (ghost v: World, ghost es: seq<Event>)
    requires Shows(s, w, flight, true)
    modifies s
    ensures Leads(w, es, v) && Shows(s, v, flight, false) && es == [ResetTasks(s.replicaIndex)]
    ensures InProgressOfReplica(s.View(), s.replicaIndex) == {}
  {
    s.RecoverResetTasks();
    v, es := OneStep(w, ResetTasks(s.replicaIndex), s.replicaIndex);
  }

  // ---------- the cleanup loop ----------

  method PopPendingCleanup(s: Process, ghost w: World) returns (popped: map<JobId, Ticket>, ghost v: World, ghost es: seq<Event>)
    requires Shows(s, w, map[], false)
    modifies s
    ensures Leads(w, es, v) && Shows(s, v, popped, false) && es == [Pop(s.replicaIndex, popped.Keys)]
  {
    popped := s.PopPendingCleanup(CLEANUP_BATCH);
    v, es := OneStep(w, Pop(s.replicaIndex, popped.Keys), s.replicaIndex);
    assert popped == map j | j in popped.Keys :: Mem(w, s.replicaIndex).pendingCleanup[j];
  }

  method FinalizeJob(s: Process, j: JobId, to: JobStatus, stagingOk: bool, workersGone: bool, ghost w: World, ghost flight: map<JobId, Ticket>)
    returns (ghost v: World, ghost es: seq<Event>)
    requires Shows(s, w, flight, false) && j in flight && flight[j] == Known(to)
    modifies s
    ensures Leads(w, es, v) && Shows(s, v, flight - {j}, false) && es == [Finalize(s.replicaIndex, j, stagingOk, workersGone)]
  {
    s.FinalizeJob(j, to, stagingOk, workersGone);
    v, es := OneStep(w, Finalize(s.replicaIndex, j, stagingOk, workersGone), s.replicaIndex);
  }

  // ---------- the reaper ----------

  /** One statement per job of a set. */
  ghost predicate Flushes(es: seq<Event>, r: Replica, js: set<JobId>) {
    |es| == |js| && forall i :: 0 <= i < |es| ==> es[i].FailRunning? && es[i].r == r && es[i].j in js
  }

  ghost predicate SameBut(w: World, v: World, db: Db) {
    v.cfg == w.cfg && v.booting == w.booting && v.db == db && forall q: Replica :: Mem(v, q) == Mem(w, q)
  }

  lemma FlushedRest(db: Db, j: JobId, js: set<JobId>)
    requires j in js
    ensures Process.Flushed(FailAttempts(db, RunningOfJob(db, j)), js - {j}) == Process.Flushed(db, js)
  {
  }

  lemma FlushedNone(db: Db)
    ensures Process.Flushed(db, {}) == db
  {
  }

  lemma {:induction false} FlushSteps(w: World, r: Replica, js: set<JobId>) returns (v: World, es: seq<Event>)
    requires r !in w.booting
    ensures Leads(w, es, v) && Flushes(es, r, js) && SameBut(w, v, Process.Flushed(w.db, js))
    decreases js
  {
    if js == {} {
      FlushedNone(w.db);
      v, es := w, [];
    } else {
      var j :| j in js;
      var w1, first := OneStep(w, FailRunning(r, j), r);
      FlushedRest(w.db, j, js);
      var rest;
      v, rest := FlushSteps(w1, r, js - {j});
      LeadsJoin(w, first, w1, rest, v);
      es := first + rest;
    }
  }

  /** The reaper looks at the heartbeats only. */
  lemma StaleSame(db: Db, m: Local, m2: Local, skew: int, r: Replica, locked: set<TaskId>)
    requires m.heartbeats == m2.heartbeats
    ensures Stale(db, m, skew, r, locked) == Stale(db, m2, skew, r, locked)
  {
  }

  lemma ReapSteps(w: World, r: Replica, locked: set<TaskId>, stale: set<TaskId>) returns (v: World, es: seq<Event>)
    requires r !in w.booting && stale == Stale(w.db, Mem(w, r), w.cfg.skew, r, locked)
    ensures Leads(w, es, v) && es != [] && es[0] == Reap(r, locked) && Flushes(es[1..], r, Process.RetriedJobs(w.db, stale))
    ensures v.cfg == w.cfg && v.booting == w.booting && v.db == Process.Flushed(Reaped(w.db, stale), Process.RetriedJobs(w.db, stale))
    ensures Mem(v, r) == ReapLocal(Mem(w, r), ExhaustedJobs(w.db, stale))
  {
    var w1, first := OneStep(w, Reap(r, locked), r);
    var rest;
    v, rest := FlushSteps(w1, r, Process.RetriedJobs(w.db, stale));
    LeadsJoin(w, first, w1, rest, v);
    es := first + rest;
    assert es[1..] == rest;
  }

  lemma ReapLocalSame(m: Local, flight: map<JobId, Ticket>, js: set<JobId>)
    ensures ReapLocal(m.(inFlight := flight), js) == ReapLocal(m, js).(inFlight := flight)
  {
    assert ReapLocal(m.(inFlight := flight), js).pendingCleanup == ReapLocal(m, js).pendingCleanup;
    assert ReapLocal(m.(inFlight := flight), js).cleanupRetries == ReapLocal(m, js).cleanupRetries;
  }

  ghost function StaleOf(w: World, r: Replica, locked: set<TaskId>): set<TaskId> {
    Stale(w.db, Mem(w, r), w.cfg.skew, r, locked)
  }

  lemma ReapSeen(w: World, r: Replica, locked: set<TaskId>, m: Local, flight: map<JobId, Ticket>, stale: set<TaskId>)
    returns (v: World, es: seq<Event>)
    requires r !in w.booting && Mem(w, r) == m.(inFlight := flight) && stale == Stale(w.db, m, w.cfg.skew, r, locked)
    ensures Leads(w, es, v) && es != [] && es[0] == Reap(r, locked) && Flushes(es[1..], r, Process.RetriedJobs(w.db, stale))
    ensures v.cfg == w.cfg && v.booting == w.booting && v.db == Process.Flushed(Reaped(w.db, stale), Process.RetriedJobs(w.db, stale))
    ensures Mem(v, r) == ReapLocal(m, ExhaustedJobs(w.db, stale)).(inFlight := flight) && stale == StaleOf(w, r, locked)
  {
    StaleSame(w.db, Mem(w, r), m, w.cfg.skew, r, locked);
    ReapLocalSame(m, flight, ExhaustedJobs(w.db, stale));
    v, es := ReapSteps(w, r, locked, stale);
  }

  /** One reaper pass: the reclaiming transaction, then one statement per job that has tasks to retry. */
  method FailStaleTasks(s: Process, locked: set<TaskId>, ghost w: World, ghost flight: map<JobId, Ticket>)
    returns (recovered: nat, ghost v: World, ghost es: seq<Event>)
    requires Shows(s, w, flight, false)
    modifies s
    ensures Leads(w, es, v) && Shows(s, v, flight, false)
    ensures es != [] && es[0] == Reap(s.replicaIndex, locked)
    ensures recovered == |StaleOf(w, s.replicaIndex, locked)|
    ensures Flushes(es[1..], s.replicaIndex, Process.RetriedJobs(w.db, StaleOf(w, s.replicaIndex, locked)))
  {
    ghost var m := s.Memory();
    recovered := s.FailStaleTasks(locked);
    v, es := ReapSeen(w, s.replicaIndex, locked, m, flight, Stale(w.db, m, w.cfg.skew, s.replicaIndex, locked));
  }
}
