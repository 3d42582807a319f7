/** In-Progress tasks whose current attempt is already marked Failed.

    The statement that follows a reaper pass and the first statement of Recover mark attempts Failed and leave the task
    rows alone.  The stale-task query wants a Running attempt, so the reaper never sees such a task; the commit check
    does not look at the attempt's status, so its worker may still commit. */
module Stranded {
  import opened Dds
  import opened JobTransitions
  import opened SchedulerSpec
  import opened SchedulerRuns
  import opened SchedulerMoves
  import opened SchedulerInvariant
  import opened TwoTaskJob
  import Scheduler

  type Process = Scheduler.Scheduler

  predicate IsStranded(db: Db, t: TaskId) {
    && t in db.tasks && db.tasks[t].status == InProgress && db.tasks[t].current.Some?
    && db.tasks[t].current.value in db.attempts && db.attempts[db.tasks[t].current.value].status == AttemptFailed
  }

  predicate OwnedBy(db: Db, r: Replica, t: TaskId) {
    t in db.tasks && db.tasks[t].job in db.jobs && db.jobs[db.tasks[t].job].replica == r
  }

  /** The four ways out: the worker reports, the job is cancelled, or its replica recovers. */
  predicate Frees(db: Db, e: Event, t: TaskId)
    requires t in db.tasks
  {
    || ((e.Complete? || e.Fail?) && e.t == t)
    || (e.Cancel? && db.tasks[t].job == e.j)
    || (e.ResetTasks? && OwnedBy(db, e.r, t))
  }

  /** The two statements that mark a task's attempt Failed without touching the task. */
  predicate Strands(db: Db, e: Event, t: TaskId) {
    && t in db.tasks && db.tasks[t].status == InProgress
    && ((e.FailRunning? && db.tasks[t].job == e.j) || (e.Restart? && OwnedBy(db, e.r, t)))
  }

  // ---------- one event ----------

  /** The row of a task is exactly as before, and its current attempt has the same status. */
  predicate Untouched(db: Db, db2: Db, t: TaskId) {
    t in db.tasks && t in db2.tasks && db2.tasks[t] == db.tasks[t]
    && (db.tasks[t].current.Some? && db.tasks[t].current.value in db.attempts ==>
          db.tasks[t].current.value in db2.attempts
          && db2.attempts[db.tasks[t].current.value].status == db.attempts[db.tasks[t].current.value].status)
  }

  /** Events on other tasks leave an In-Progress task and its attempt alone. */
  lemma OthersLeave(w: World, e: Event, t: TaskId)
    requires RowsOk(w.db) && Enabled(w, e) && t in w.db.tasks && w.db.tasks[t].status == InProgress
    requires !Frees(w.db, e, t) && !Strands(w.db, e, t) && !e.Reap?
    ensures Untouched(w.db, StepDb(w, e), t)
  {
    var a := CurrentOf(w.db, t);
    if e.AssignMap? || e.AssignReduce? || e.AutoComplete? {
      AssignLeaves(w, e, t);
    } else if e.Complete? || e.Fail? {
      ReportLeaves(w, e, t);
    } else if e.Restart? {
      assert a !in RunningOfReplica(w.db, e.r);
    } else if e.FailRunning? {
      assert a !in RunningOfJob(w.db, e.j);
    } else if e.Cancel? {
      CancelLeaves(w.db, e.j, t);
    }
  }

  lemma AssignLeaves(w: World, e: Event, t: TaskId)
    requires RowsOk(w.db) && Enabled(w, e) && t in w.db.tasks && w.db.tasks[t].status == InProgress
    requires e.AssignMap? || e.AssignReduce? || e.AutoComplete?
    ensures Untouched(w.db, StepDb(w, e), t)
  {
    var c := CurrentOf(w.db, t);
    if e.AssignMap? {
      AssignedLeaves(w.db, w.cfg.leaseTtl, e, t, c);
    } else {
      SkipLeaves(w.db, e.j, t);
      if e.AssignReduce? { AssignedLeaves(AutoCompleted(w.db, e.j), w.cfg.leaseTtl, e, t, c); }
    }
  }

  lemma AssignedLeaves(db: Db, ttl: int, e: Event, t: TaskId, c: AttemptId)
    requires (e.AssignMap? || e.AssignReduce?) && e.t in db.tasks && db.tasks[e.t].status == Idle && e.a !in db.attempts
    requires t in db.tasks && db.tasks[t].status == InProgress && db.tasks[t].current == Some(c) && c in db.attempts
    ensures Untouched(db, Assigned(db, ttl, e.j, e.t, e.a, e.l), t)
  {
  }

  lemma SkipLeaves(db: Db, j: JobId, t: TaskId)
    requires t in db.tasks && db.tasks[t].status == InProgress
    ensures var db2 := AutoCompleted(db, j); t in db2.tasks && db2.tasks[t] == db.tasks[t] && db2.attempts == db.attempts
  {
  }

  lemma ReportLeaves(w: World, e: Event, t: TaskId)
    requires RowsOk(w.db) && Enabled(w, e) && t in w.db.tasks && w.db.tasks[t].status == InProgress
    requires (e.Complete? || e.Fail?) && e.t != t
    ensures Untouched(w.db, StepDb(w, e), t)
  {
    var a := CurrentOf(w.db, t);
    assert TaskOk(w.db, e.t);
  }

  lemma CurrentOf(db: Db, t: TaskId) returns (a: AttemptId)
    requires RowsOk(db) && t in db.tasks && db.tasks[t].status == InProgress
    ensures db.tasks[t].current == Some(a) && a in db.attempts && db.attempts[a].task == t && db.tasks[t].job in db.jobs
    ensures db.attempts[a].status != AttemptSuccess
  {
    assert TaskOk(db, t);
    a := db.tasks[t].current.value;
    assert AttemptOk(db, a);
  }

  lemma CancelLeaves(db: Db, j: JobId, t: TaskId)
    requires RowsOk(db) && t in db.tasks && db.tasks[t].status == InProgress && db.tasks[t].job != j
    ensures Untouched(db, SchedulerSpec.Cancelled(db, j), t)
  {
    var a := CurrentOf(db, t);
    assert a !in RunningOfJob(SetJobStatus(db, j, JobCleaning), j);
  }

  /** A stranded task is in no reaper's batch. */
  lemma NeverStale(db: Db, m: Local, skew: int, r: Replica, locked: set<TaskId>, t: TaskId)
    requires IsStranded(db, t)
    ensures t !in Stale(db, m, skew, r, locked)
  {
  }

  lemma ReapLeaves(w: World, e: Event, t: TaskId)
    requires RowsOk(w.db) && Enabled(w, e) && e.Reap? && t in w.db.tasks && w.db.tasks[t].status == InProgress
    ensures if t in Stale(w.db, Mem(w, e.r), w.cfg.skew, e.r, e.locked) then StepDb(w, e).tasks[t].current == None
      else Untouched(w.db, StepDb(w, e), t)
  {
    var a := CurrentOf(w.db, t);
    var stale := Stale(w.db, Mem(w, e.r), w.cfg.skew, e.r, e.locked);
    if t !in stale {
      forall u | u in stale && u in w.db.tasks ensures w.db.tasks[u].current != Some(a) { assert TaskOk(w.db, u); }
      assert a !in Holders(w.db, stale);
    }
  }

  lemma FreeingFrees(w: World, e: Event, t: TaskId)
    requires RowsOk(w.db) && Enabled(w, e) && t in w.db.tasks && w.db.tasks[t].status == InProgress && Frees(w.db, e, t)
    ensures !IsStranded(StepDb(w, e), t)
  {
  }

  /** What an event does to a stranded task: it stays as it is, or it is freed, and the event alone says which. */
  lemma StaysStrandedIff(w: World, e: Event, t: TaskId)
    requires RowsOk(w.db) && Enabled(w, e) && IsStranded(w.db, t)
    ensures IsStranded(StepDb(w, e), t) <==> !Frees(w.db, e, t)
    ensures !Frees(w.db, e, t) ==> StepDb(w, e).tasks[t] == w.db.tasks[t]
  {
    if Frees(w.db, e, t) {
      FreeingFrees(w, e, t);
    } else if e.Reap? {
      NeverStale(w.db, Mem(w, e.r), w.cfg.skew, e.r, e.locked, t);
      ReapLeaves(w, e, t);
    } else if !Strands(w.db, e, t) {
      OthersLeave(w, e, t);
    }
  }

  /** Which events strand a task: exactly the two statements above, on a task that is In-Progress. */
  lemma BecomesStrandedIff(w: World, e: Event, t: TaskId)
    requires RowsOk(w.db) && Enabled(w, e) && !IsStranded(w.db, t)
    ensures IsStranded(StepDb(w, e), t) <==> Strands(w.db, e, t)
  {
    if t in w.db.tasks && w.db.tasks[t].status == InProgress {
      var a := CurrentOf(w.db, t);
      if Strands(w.db, e, t) {
        DoomedFail(w, e, t, a);
      } else if Frees(w.db, e, t) {
        FreeingFrees(w, e, t);
      } else if e.Reap? {
        ReapLeaves(w, e, t);
      } else {
        OthersLeave(w, e, t);
      }
    } else {
      NotStarted(w, e, t);
    }
  }

  lemma DoomedFail(w: World, e: Event, t: TaskId, a: AttemptId)
    requires Enabled(w, e) && Strands(w.db, e, t) && w.db.tasks[t].current == Some(a) && a in w.db.attempts
    requires w.db.attempts[a].task == t && w.db.attempts[a].status == AttemptRunning
    ensures IsStranded(StepDb(w, e), t)
  {
  }

  /** A task that is not In-Progress can only become so with a new, Running attempt. */
  lemma NotStarted(w: World, e: Event, t: TaskId)
    requires RowsOk(w.db) && Enabled(w, e) && (t in w.db.tasks ==> w.db.tasks[t].status != InProgress)
    ensures !IsStranded(StepDb(w, e), t)
  {
    if e.AssignMap? || e.AssignReduce? { StartsRunning(w, e, t); }
  }

  lemma StartsRunning(w: World, e: Event, t: TaskId)
    requires Enabled(w, e) && (e.AssignMap? || e.AssignReduce?) && (t in w.db.tasks ==> w.db.tasks[t].status != InProgress)
    ensures !IsStranded(StepDb(w, e), t)
  {
  }

  // ---------- whole runs ----------

  predicate FreedBetween(ws: seq<World>, es: seq<Event>, i: nat, k: nat, t: TaskId)
    requires i <= k <= |es| <= |ws|
  {
    exists n :: i <= n < k && t in ws[n].db.tasks && Frees(ws[n].db, es[n], t)
  }

  /** Until its worker reports, the job is cancelled or its replica recovers, a stranded task keeps its attempt, is in no
      replica's reaper batch, is handed out to nobody and holds its job open. */
  lemma {:induction false} StrandedUntilFreed(ws: seq<World>, es: seq<Event>, i: nat, k: nat, t: TaskId)
    requires IsRun(ws, es) && i <= k <= |es| && IsStranded(ws[i].db, t) && !FreedBetween(ws, es, i, k, t)
    ensures IsStranded(ws[k].db, t) && ws[k].db.tasks[t] == ws[i].db.tasks[t]
    ensures forall r, locked :: t !in Stale(ws[k].db, Mem(ws[k], r), ws[k].cfg.skew, r, locked)
    ensures forall j, r, kind, locked :: t !in IdleTasks(ws[k].db, j, r, kind, locked)
    ensures t in PendingTasks(ws[k].db, ws[i].db.tasks[t].job)
    decreases k
  {
    if i < k {
      assert !FreedBetween(ws, es, i, k - 1, t);
      StrandedUntilFreed(ws, es, i, k - 1, t);
      RunInv(ws, es, k - 1);
      assert StepAt(ws, es, k - 1);
      StaysStrandedIff(ws[k - 1], es[k - 1], t);
    }
  }

  /** A reaper pass that returns one task of a job to Idle strands its siblings: every other In-Progress task of the job
      that the pass did not reclaim is stranded by the statement that follows it. */
  lemma ReapStrandsSiblings(w: World, r: Replica, locked: set<TaskId>, t: TaskId) returns (w1: World, w2: World)
    requires Inv(w) && Enabled(w, Reap(r, locked)) && t in w.db.tasks && w.db.tasks[t].status == InProgress
    requires var stale := Stale(w.db, Mem(w, r), w.cfg.skew, r, locked);
      t !in stale && w.db.tasks[t].job in Process.RetriedJobs(w.db, stale)
    ensures w1 == Step(w, Reap(r, locked)) && Enabled(w1, FailRunning(r, w.db.tasks[t].job))
    ensures w2 == Step(w1, FailRunning(r, w.db.tasks[t].job)) && IsStranded(w2.db, t)
  {
    w1 := SiblingStays(w, r, locked, t);
    w2 := FlushStrands(w1, FailRunning(r, w.db.tasks[t].job), t);
  }

  lemma SiblingStays(w: World, r: Replica, locked: set<TaskId>, t: TaskId) returns (w1: World)
    requires Inv(w) && Enabled(w, Reap(r, locked)) && t in w.db.tasks && w.db.tasks[t].status == InProgress
    requires t !in Stale(w.db, Mem(w, r), w.cfg.skew, r, locked)
    ensures w1 == Step(w, Reap(r, locked)) && RowsOk(w1.db) && w1.booting == w.booting && Untouched(w.db, w1.db, t)
  {
    StepInv(w, Reap(r, locked));
    ReapLeaves(w, Reap(r, locked), t);
    w1 := Step(w, Reap(r, locked));
  }

  lemma FlushStrands(w: World, e: Event, t: TaskId) returns (w2: World)
    requires RowsOk(w.db) && Enabled(w, e) && Strands(w.db, e, t)
    ensures w2 == Step(w, e) && IsStranded(w2.db, t)
  {
    w2 := Step(w, e);
    if IsStranded(w.db, t) { StaysStrandedIff(w, e, t); } else { BecomesStrandedIff(w, e, t); }
  }

  /** Task 7's worker is silent, task 8's heartbeat is fresh. */
  ghost predicate OneSilent(w: World) {
    && w.booting == {} && 7 in w.db.tasks && 7 in Stale(w.db, Mem(w, 0), w.cfg.skew, 0, {}) && AfterFailure(w.db, 7) == Idle
    && 8 in w.db.tasks && w.db.tasks[8].status == InProgress && w.db.tasks[8].job == 0
    && CompleteVerdict(w.db, w.cfg.skew, 8, 5, 0) == Ok && 0 !in ExhaustedJobs(w.db, Stale(w.db, Mem(w, 0), w.cfg.skew, 0, {}))
    && 8 !in Stale(w.db, Mem(w, 0), w.cfg.skew, 0, {}) && 0 in Process.RetriedJobs(w.db, Stale(w.db, Mem(w, 0), w.cfg.skew, 0, {}))
  }

  /** It happens: task 7 falls silent while task 8 keeps its lease.  The pass returns 7 to Idle and the statement after it
      strands 8, although its lease is good. */
  lemma SiblingStranded() returns (ws: seq<World>, es: seq<Event>)
    ensures IsRun(ws, es) && |es| >= 2 && es[|es| - 2..] == [Reap(0, {}), FailRunning(0, 0)]
    ensures IsStranded(ws[|es|].db, 8) && 7 in ws[|es|].db.tasks && ws[|es|].db.tasks[7].status == Idle
    ensures CompleteVerdict(ws[|es|].db, ws[|es|].cfg.skew, 8, 5, 0) == Ok && LeaseValid(ws[|es|].db, ws[|es|].cfg.skew, 5, 0)
  {
    var front, v := ReachOneSilent();
    var before := LeadsIsRun(START, front, v);
    RunInv(before, front, |front|);
    var v1, v2 := ReapStrandsSiblings(v, 0, {}, 8);
    ws, es := LeadsTwoMore(START, front, v, Reap(0, {}), v1, FailRunning(0, 0), v2);
    RetriedIsIdle(v, v1, v2);
    ReapStep(v, v1);
    FlushStep(v1, v2);
    StillLeased(v, v1, v2);
  }

  lemma ReapStep(v: World, v1: World)
    requires Enabled(v, Reap(0, {})) && v1 == Step(v, Reap(0, {}))
    ensures v1.db == Reaped(v.db, Stale(v.db, Mem(v, 0), v.cfg.skew, 0, {})) && v1.cfg == v.cfg
  {
  }

  lemma FlushStep(v1: World, v2: World)
    requires Enabled(v1, FailRunning(0, 0)) && v2 == Step(v1, FailRunning(0, 0))
    ensures v2.db == FailAttempts(v1.db, RunningOfJob(v1.db, 0)) && v2.cfg == v1.cfg
  {
  }

  /** Neither step touches task 8, its attempt's lease or its job. */
  lemma StillLeased(v: World, v1: World, v2: World)
    requires RowsOk(v.db) && OneSilent(v) && v2.cfg == v1.cfg == v.cfg
    requires v1.db == Reaped(v.db, Stale(v.db, Mem(v, 0), v.cfg.skew, 0, {})) && v2.db == FailAttempts(v1.db, RunningOfJob(v1.db, 0))
    ensures CompleteVerdict(v2.db, v2.cfg.skew, 8, 5, 0) == Ok && LeaseValid(v2.db, v2.cfg.skew, 5, 0)
  {
    StillFenced(v.db, Stale(v.db, Mem(v, 0), v.cfg.skew, 0, {}), v.cfg.skew);
    FlushFenced(v1.db, v.cfg.skew);
  }

  lemma FlushFenced(db: Db, skew: int)
    requires CompleteVerdict(db, skew, 8, 5, 0) == Ok
    ensures var db2 := FailAttempts(db, RunningOfJob(db, 0)); CompleteVerdict(db2, skew, 8, 5, 0) == Ok && LeaseValid(db2, skew, 5, 0)
  {
    StatusNotFenced(db, RunningOfJob(db, 0), skew, 8, 5, 0);
  }

  lemma StillFenced(db: Db, stale: set<TaskId>, skew: int)
    requires RowsOk(db) && CompleteVerdict(db, skew, 8, 5, 0) == Ok && 8 !in stale && 0 !in ExhaustedJobs(db, stale) && db.tasks[8].job == 0
    ensures CompleteVerdict(Reaped(db, stale), skew, 8, 5, 0) == Ok
  {
  }

  lemma ReachOneSilent() returns (es: seq<Event>, v: World)
    ensures Leads(START, es, v) && OneSilent(v)
  {
    var es0, v0 := ScheduleStep();
    var es1, v1 := GiveStep(es0, v0, SCHEDULED, map[], 7, 4);
    var es2, v2 := GiveStep(es1, v1, Given(SCHEDULED, 7, 4), map[], 8, 5);
    var u := SilentAfter(v2);
    LeadsOn(START, es2, v2, Tick(35));
    LeadsOn(START, es2 + [Tick(35)], Step(v2, Tick(35)), Renew(0, 8, 5, 0));
    es, v := es2 + [Tick(35)] + [Renew(0, 8, 5, 0)], u;
  }

  lemma SilentAfter(v: World) returns (u: World)
    requires At(v, Given(Given(SCHEDULED, 7, 4), 8, 5))
    ensures Enabled(Step(v, Tick(35)), Renew(0, 8, 5, 0)) && u == Step(Step(v, Tick(35)), Renew(0, 8, 5, 0)) && OneSilent(u)
  {
    BothHeld(v.db);
    u := RenewedLate(v);
    SilentRows(v.db, u.db, Mem(v, 0), Mem(u, 0));
  }

  lemma RenewedLate(v: World) returns (u: World)
    requires v.booting == {} && v.cfg == CFG && v.db.now == 0 && 8 in v.db.tasks && v.db.tasks[8].status == InProgress && v.db.tasks[8].current == Some(5)
    requires 5 in v.db.attempts && v.db.attempts[5].lease == 0 && v.db.attempts[5].lastRenewed == 0 && v.db.attempts[5].ttl == 30
    ensures Enabled(Step(v, Tick(35)), Renew(0, 8, 5, 0)) && u == Step(Step(v, Tick(35)), Renew(0, 8, 5, 0))
    ensures u.cfg == CFG && u.booting == {} && Mem(u, 0).heartbeats == Mem(v, 0).heartbeats[5 := 35]
    ensures u.db == v.db.(now := 35, attempts := v.db.attempts[5 := v.db.attempts[5].(lastRenewed := 35)])
  {
    u := Step(Step(v, Tick(35)), Renew(0, 8, 5, 0));
  }

  lemma BothHeld(db: Db)
    requires AtDb(db, Given(Given(SCHEDULED, 7, 4), 8, 5))
    ensures 4 in db.attempts && 5 in db.attempts && db.attempts[4].status == db.attempts[5].status == AttemptRunning
    ensures db.attempts[4].task == 7 && db.attempts[5].task == 8 && AttemptsOf(db, 7) == {4}
    ensures db.tasks[7].current == Some(4) && db.tasks[8].current == Some(5) && db.tasks[7].status == db.tasks[8].status == InProgress
  {
    assert 4 in RunningAttempts(db) && 5 in RunningAttempts(db);
    assert 4 in AttemptsOf(db, 7) && 5 in AttemptsOf(db, 8);
  }

  /** At 35 the lease of task 7 has run out and that of task 8 has just been renewed. */
  lemma SilentRows(db: Db, db2: Db, m: Local, m2: Local)
    requires AtDb(db, Given(Given(SCHEDULED, 7, 4), 8, 5)) && (forall a :: a in m.heartbeats ==> m.heartbeats[a] == 0)
    requires 5 in db.attempts && db2 == db.(now := 35, attempts := db.attempts[5 := db.attempts[5].(lastRenewed := 35)])
    requires m2.heartbeats == m.heartbeats[5 := 35]
    ensures var stale := Stale(db2, m2, 5, 0, {});
      && 7 in stale && 8 !in stale && AfterFailure(db2, 7) == Idle && CompleteVerdict(db2, 5, 8, 5, 0) == Ok
      && 0 !in ExhaustedJobs(db2, stale) && 0 in Process.RetriedJobs(db2, stale)
  {
    BothHeld(db);
    assert AttemptsOf(db2, 7) == {4};
    assert 7 in Stale(db2, m2, 5, 0, {}) && db2.tasks.Keys == {7, 8};
  }

  lemma RetriedIsIdle(v: World, v1: World, v2: World)
    requires Enabled(v, Reap(0, {})) && v1 == Step(v, Reap(0, {})) && Enabled(v1, FailRunning(0, 0)) && v2 == Step(v1, FailRunning(0, 0))
    requires 7 in v.db.tasks && 7 in Stale(v.db, Mem(v, 0), v.cfg.skew, 0, {}) && AfterFailure(v.db, 7) == Idle
    ensures 7 in v2.db.tasks && v2.db.tasks[7].status == Idle
  {
  }

  // ---------- a Failed attempt that commits ----------

  /** Marking attempts Failed changes no commit verdict. */
  lemma StatusNotFenced(db: Db, doomed: set<AttemptId>, skew: int, t: TaskId, a: AttemptId, l: LeaseId)
    ensures CompleteVerdict(FailAttempts(db, doomed), skew, t, a, l) == CompleteVerdict(db, skew, t, a, l)
    ensures FailVerdict(FailAttempts(db, doomed), skew, t, a, l) == FailVerdict(db, skew, t, a, l)
  {
  }

  /** A Failed attempt may commit a task exactly while the task is stranded with it, its job is live and its lease good. */
  lemma FailedCommitsIff(db: Db, skew: int, t: TaskId, a: AttemptId, l: LeaseId)
    requires RowsOk(db) && a in db.attempts && db.attempts[a].status == AttemptFailed
    ensures CompleteVerdict(db, skew, t, a, l) == Ok <==>
      && IsStranded(db, t) && db.tasks[t].current == Some(a)
      && !Dead(db.jobs[db.tasks[t].job].status) && LeaseValid(db, skew, a, l)
  {
    if t in db.tasks { assert TaskOk(db, t); }
  }

  /** It happens: the owner restarts and marks attempt 5 Failed; before it resets the task, the worker's report reaches
      another replica, which commits it. */
  lemma RestartedAttemptCommits(outs: seq<(string, string)>) returns (ws: seq<World>, es: seq<Event>)
    ensures IsRun(ws, es) && |es| >= 2 && es[|es| - 2..] == [Restart(0), Complete(1, 8, 5, 0, outs)]
    ensures 5 in ws[|es| - 1].db.attempts && ws[|es| - 1].db.attempts[5].status == AttemptFailed
    ensures 5 in ws[|es|].db.attempts && ws[|es|].db.attempts[5].status == AttemptSuccess
    ensures 8 in ws[|es|].db.tasks && ws[|es|].db.tasks[8].status == TaskCompleted
  {
    var front, v := ReachAssigned();
    var v1, v2 := ReportElsewhere(v, outs);
    ws, es := LeadsTwoMore(START, front, v, Restart(0), v1, Complete(1, 8, 5, 0, outs), v2);
  }

  lemma ReportElsewhere(v: World, outs: seq<(string, string)>) returns (v1: World, v2: World)
    requires At(v, Given(SCHEDULED, 8, 5))
    ensures v1 == Step(v, Restart(0)) && Enabled(v1, Complete(1, 8, 5, 0, outs)) && v2 == Step(v1, Complete(1, 8, 5, 0, outs))
    ensures 5 in v1.db.attempts && v1.db.attempts[5].status == AttemptFailed
    ensures 5 in v2.db.attempts && v2.db.attempts[5].status == AttemptSuccess
    ensures 8 in v2.db.tasks && v2.db.tasks[8].status == TaskCompleted
  {
    assert 5 in RunningAttempts(v.db) && 5 in AttemptsOf(v.db, 8);
    assert 5 in RunningOfReplica(v.db, 0);
    v1 := Step(v, Restart(0));
    v2 := Step(v1, Complete(1, 8, 5, 0, outs));
  }
}
