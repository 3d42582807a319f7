/** Dead jobs stay dead, and a job's terminal state tells the truth about its tasks. */
module JobOutcomes {
  import opened Dds
  import opened JobTransitions
  import opened SchedulerSpec
  import opened SchedulerRuns
  import opened SchedulerMoves
  import opened SchedulerInvariant
  import opened SchedulerHistory
  import opened TwoTaskJob

  /** Task `t` is handed to a worker, committed or skipped by this event. */
  predicate Advances(w: World, e: Event, t: TaskId) {
    || (e.AssignMap? && e.t == t)
    || (e.AssignReduce? && (e.t == t || t in EmptyReduces(w.db, e.j)))
    || (e.AutoComplete? && t in EmptyReduces(w.db, e.j))
    || (e.Complete? && e.t == t)
  }

  /** A job in Cleaning or a terminal state has a Failed task or only Completed ones, stays that way,
      and none of its tasks is ever assigned, committed or skipped again. */
  lemma DeadForever(ws: seq<World>, es: seq<Event>, i: nat, k: nat, j: JobId, t: TaskId)
    requires IsRun(ws, es) && i <= k < |ws|
    requires j in ws[i].db.jobs && Dead(ws[i].db.jobs[j].status)
    requires t in ws[k].db.tasks && ws[k].db.tasks[t].job == j
    ensures j in ws[k].db.jobs && Dead(ws[k].db.jobs[j].status)
    ensures HasFailed(ws[k].db, j) || AllDone(ws[k].db, j)
    ensures k < |es| ==> !Advances(ws[k], es[k], t)
  {
    RunGrows(ws, es, i, k);
    RunInv(ws, es, k);
    assert JobGrows(ws[i].db, ws[k].db, j) && JobOk(ws[k].db, j);
    if k < |es| {
      assert StepAt(ws, es, k);
      DeadTaskRests(ws[k], es[k], t);
    }
  }

  lemma DeadTaskRests(w: World, e: Event, t: TaskId)
    requires Inv(w) && Enabled(w, e) && t in w.db.tasks
    requires w.db.tasks[t].job in w.db.jobs && Dead(w.db.jobs[w.db.tasks[t].job].status)
    ensures !Advances(w, e, t)
  {
    var j := w.db.tasks[t].job;
    assert JobOk(w.db, j);
    assert t in PendingTasks(w.db, j) <==> w.db.tasks[t].status != TaskCompleted;
  }

  lemma DoneHasNoFailure(db: Db, j: JobId)
    requires AllDone(db, j)
    ensures !HasFailed(db, j)
  {
    assert FailedTasks(db, j) <= PendingTasks(db, j);
  }

  /** A job with a Failed task is Completed neither before nor after. */
  lemma FailedNeverCompletes(ws: seq<World>, es: seq<Event>, i: nat, k: nat, j: JobId)
    requires IsRun(ws, es) && i < |ws| && k < |ws| && HasFailed(ws[i].db, j)
    ensures j in ws[k].db.jobs ==> ws[k].db.jobs[j].status != JobCompleted
  {
    var n := if i <= k then k else i;
    RunGrows(ws, es, i, n);
    RunGrows(ws, es, k, n);
    RunInv(ws, es, n);
    if AllDone(ws[n].db, j) { DoneHasNoFailure(ws[n].db, j); }
    assert j in ws[k].db.jobs ==> JobGrows(ws[k].db, ws[n].db, j);
    assert j in ws[n].db.jobs ==> JobOk(ws[n].db, j);
  }

  /** A Completed job has only Completed tasks and never changes again: not its status, not its tasks' statuses. */
  lemma CompletedForever(ws: seq<World>, es: seq<Event>, i: nat, k: nat, j: JobId, t: TaskId)
    requires IsRun(ws, es) && i <= k < |ws|
    requires j in ws[i].db.jobs && ws[i].db.jobs[j].status == JobCompleted
    ensures j in ws[k].db.jobs && ws[k].db.jobs[j].status == JobCompleted
    ensures t in ws[k].db.tasks && ws[k].db.tasks[t].job == j ==> ws[k].db.tasks[t].status == TaskCompleted
  {
    RunGrows(ws, es, i, k);
    RunInv(ws, es, k);
    assert JobGrows(ws[i].db, ws[k].db, j) && JobOk(ws[k].db, j);
    if t in ws[k].db.tasks && ws[k].db.tasks[t].job == j { assert t !in PendingTasks(ws[k].db, j); }
  }

  /** Every queued or running cleanup names a state that is true of the job and stays true of it. */
  lemma QueuedCleanupsTruthful(ws: seq<World>, es: seq<Event>, i: nat, r: Replica, j: JobId)
    requires IsRun(ws, es) && i < |ws|
    requires j in Mem(ws[i], r).pendingCleanup || j in Mem(ws[i], r).inFlight
    ensures j in Mem(ws[i], r).pendingCleanup ==> TicketOk(ws[i].db, j, Mem(ws[i], r).pendingCleanup[j])
    ensures j in Mem(ws[i], r).inFlight ==> TicketOk(ws[i].db, j, Mem(ws[i], r).inFlight[j])
  {
    RunInv(ws, es, i);
    MemOk(ws[i], r);
  }

  // ---------- what the code does not promise ----------

  /** The reaper writes Cleaning without looking at the job's status.  A terminal job changes exactly when a
      reaper pass exhausts one of its tasks, and then it was Failed and goes back to Cleaning. */
  lemma TerminalChangesIff(w: World, e: Event, j: JobId)
    requires Inv(w) && Enabled(w, e) && j in w.db.jobs && Terminal(w.db.jobs[j].status)
    ensures j in Step(w, e).db.jobs
    ensures Step(w, e).db.jobs[j].status != w.db.jobs[j].status
      <==> e.Reap? && j in ExhaustedJobs(w.db, Stale(w.db, Mem(w, e.r), w.cfg.skew, e.r, e.locked))
    ensures Step(w, e).db.jobs[j].status != w.db.jobs[j].status
      ==> w.db.jobs[j].status == JobFailed && Step(w, e).db.jobs[j].status == JobCleaning
  {
    assert JobOk(w.db, j);
    if e.Reap? {
      ExhaustedJobFailed(w, e.r, e.locked, j);
    } else {
      TerminalRests(w, e, j);
    }
  }

  lemma ExhaustedJobFailed(w: World, r: Replica, locked: set<TaskId>, j: JobId)
    requires JobsOk(w.db) && j in w.db.jobs && Terminal(w.db.jobs[j].status)
    ensures j in ExhaustedJobs(w.db, Stale(w.db, Mem(w, r), w.cfg.skew, r, locked)) ==> w.db.jobs[j].status == JobFailed
  {
    assert JobOk(w.db, j);
    assert forall t :: t in Stale(w.db, Mem(w, r), w.cfg.skew, r, locked) && w.db.tasks[t].job == j ==> t in PendingTasks(w.db, j);
  }

  lemma TerminalRests(w: World, e: Event, j: JobId)
    requires JobsOk(w.db) && Enabled(w, e) && !e.Reap? && j in w.db.jobs && Terminal(w.db.jobs[j].status)
    ensures j in StepDb(w, e).jobs && StepDb(w, e).jobs[j] == w.db.jobs[j]
  {
    if e.AssignMap? || e.AssignReduce? || e.AutoComplete? { WorkSparesTerminal(w, e, j); }
  }

  lemma WorkSparesTerminal(w: World, e: Event, j: JobId)
    requires JobsOk(w.db) && Enabled(w, e) && (e.AssignMap? || e.AssignReduce? || e.AutoComplete?)
    requires j in w.db.jobs && Terminal(w.db.jobs[j].status)
    ensures j in StepDb(w, e).jobs && StepDb(w, e).jobs[j] == w.db.jobs[j]
  {
    assert JobOk(w.db, j);
    if e.AutoComplete? {
      assert EmptyReduces(w.db, e.j) <= PendingTasks(w.db, e.j);
    } else {
      assert e.t in PendingTasks(w.db, e.j);
    }
  }

  /** It happens.  Task 7 fails three times while the third attempt of task 8 is under way; the job is finalised as
      Failed; then task 8 goes silent and the reaper takes it for exhausted. */
  lemma FailedCanReopen() returns (ws: seq<World>, es: seq<Event>)
    ensures IsRun(ws, es) && es != [] && es[|es| - 1] == Reap(0, {})
    ensures ws[|es| - 1].db.jobs == map[0 := Job(JobFailed, 0)]
    ensures ws[|es|].db.jobs == map[0 := Job(JobCleaning, 0)]
  {
    var front, v := ReachSilence();
    var before := LeadsIsRun(START, front, v);
    RunOn(before, front, Reap(0, {}));
    SilentTaskReaped(v);
    ws, es := before + [Step(v, Reap(0, {}))], front + [Reap(0, {})];
  }

  const BOTH_LAST := Pos(JobRunning, map[7 := FRESH.(status := InProgress, current := Some(3)), 8 := FRESH.(status := InProgress, current := Some(6))],
                         map[7 := {1, 2, 3}, 8 := {4, 5, 6}], {3, 6})

  const ONE_LOST := Pos(JobCleaning, map[7 := FRESH.(status := TaskFailed), 8 := FRESH.(status := InProgress, current := Some(6))],
                        map[7 := {1, 2, 3}, 8 := {4, 5, 6}], {6})

  lemma PositionsAre()
    ensures Given(Tried(Tried(LAST_CHANCE, 8, 4), 8, 5), 8, 6) == BOTH_LAST
    ensures Lost(BOTH_LAST, 7, 3) == ONE_LOST
  {
    var p := Given(Tried(Tried(LAST_CHANCE, 8, 4), 8, 5), 8, 6);
    assert p.tasks == BOTH_LAST.tasks;
    assert p.tried[8] == {4, 5, 6} && p.tried == BOTH_LAST.tried && p.running == {3, 6};
    assert {3, 6} - {3} == {6} && Lost(BOTH_LAST, 7, 3).tasks == ONE_LOST.tasks;
  }

  lemma ReachOneLost() returns (es: seq<Event>, v: World)
    ensures Reached(es, v, ONE_LOST, map[0 := Known(JobFailed)])
  {
    PositionsAre();
    es, v := ReachLastChance();
    es, v := ThirdTry(es, v, LAST_CHANCE, map[], 8, 4, 5, 6);
    es, v := LoseStep(es, v, BOTH_LAST, map[], 7, 3);
  }

  /** The job is Failed, and the last attempt of task 8 has not been heard of for 100 seconds. */
  ghost predicate Silent(v: World) {
    && v.cfg == CFG && v.booting == {} && (forall a :: a in Mem(v, 0).heartbeats ==> Mem(v, 0).heartbeats[a] == 0)
    && AtDb(v.db.(now := 0, jobs := map[0 := Job(JobCleaning, 0)]), ONE_LOST)
    && v.db.jobs == map[0 := Job(JobFailed, 0)] && v.db.now == 100
  }

  lemma ReachSilence() returns (es: seq<Event>, v: World)
    ensures Leads(START, es, v) && Silent(v)
  {
    var es0, v0 := ReachOneLost();
    var pop, finalize, tick := Pop(0, {0}), Finalize(0, 0, true, true), Tick(100);
    LeadsOn(START, es0, v0, pop);
    var v1 := Step(v0, pop);
    assert v1.db == v0.db && Mem(v1, 0).inFlight == map[0 := Known(JobFailed)] && Mem(v1, 0).heartbeats == Mem(v0, 0).heartbeats;
    var es2, v2 := FinalizeFailed(es0 + [pop], v1);
    LeadsOn(START, es2, v2, tick);
    es, v := es2 + [tick], Step(v2, tick);
  }

  lemma FinalizeFailed(es: seq<Event>, v: World) returns (es2: seq<Event>, v2: World)
    requires Leads(START, es, v) && v.cfg == CFG && v.booting == {} && AtDb(v.db, ONE_LOST)
    requires Mem(v, 0).inFlight == map[0 := Known(JobFailed)]
    ensures Leads(START, es2, v2) && v2.cfg == v.cfg && v2.booting == {} && Mem(v2, 0).heartbeats == Mem(v, 0).heartbeats
    ensures v2.db == v.db.(jobs := map[0 := Job(JobFailed, 0)])
  {
    var finalize := Finalize(0, 0, true, true);
    LeadsOn(START, es, v, finalize);
    es2, v2 := es + [finalize], Step(v, finalize);
  }

  lemma SilentTaskReaped(v: World)
    requires Silent(v)
    ensures Step(v, Reap(0, {})).db.jobs == map[0 := Job(JobCleaning, 0)]
  {
    SilentRows(v);
    ReapReopens(v.db, Mem(v, 0));
    assert StepDb(v, Reap(0, {})) == Reaped(v.db, Stale(v.db, Mem(v, 0), 5, 0, {}));
  }

  lemma ReapReopens(db: Db, m: Local)
    requires db.jobs == map[0 := Job(JobFailed, 0)] && db.now == 100
    requires 8 in db.tasks && db.tasks[8] == Task(0, MapTask, InProgress, 0, Some(6)) && |AttemptsOf(db, 8)| == 3
    requires 6 in db.attempts && db.attempts[6].status == AttemptRunning && db.attempts[6].lastRenewed == 0 && db.attempts[6].ttl == 30
    requires 6 in m.heartbeats ==> m.heartbeats[6] == 0
    ensures Reaped(db, Stale(db, m, 5, 0, {})).jobs == map[0 := Job(JobCleaning, 0)]
  {
    var stale := Stale(db, m, 5, 0, {});
    assert 8 in stale;
    assert 0 in ExhaustedJobs(db, stale);
  }

  lemma SilentRows(v: World)
    requires Silent(v)
    ensures 8 in v.db.tasks && v.db.tasks[8] == Task(0, MapTask, InProgress, 0, Some(6))
    ensures 6 in v.db.attempts && v.db.attempts[6].status == AttemptRunning && v.db.attempts[6].lastRenewed == 0 && v.db.attempts[6].ttl == 30
    ensures |AttemptsOf(v.db, 8)| == 3
  {
    var db := v.db.(now := 0, jobs := map[0 := Job(JobCleaning, 0)]);
    assert AttemptsOf(v.db, 8) == AttemptsOf(db, 8) == {4, 5, 6};
    assert 6 in RunningAttempts(db);
  }

  /** ScheduleJob does not look at the status of an existing job row.  Adding tasks keeps the invariant of a job
      exactly when the job is live, or dead with a Failed task and not Cancelled; a run schedules a job only while it is
      Pending. */
  lemma ScheduleNeedsLiveJob(db: Db, j: JobId, home: Replica, ns: seq<NewTask>)
    requires JobsOk(db) && FreshIds(db, ns) && ns != [] && j in db.jobs
    ensures JobOk(Scheduled(db, j, home, ns), j)
      <==> !Dead(db.jobs[j].status) || (HasFailed(db, j) && db.jobs[j].status != JobCancelled)
  {
    var db2 := Scheduled(db, j, home, ns);
    assert ns[0] in ns && ns[0].id in PendingTasks(db2, j);
    assert ns[0].id !in FailedTasks(db2, j);
    assert JobOk(db, j);
    SameFailed(db, j, home, ns);
    if HasFailed(db, j) && AllDone(db, j) { DoneHasNoFailure(db, j); }
  }

  lemma SameFailed(db: Db, j: JobId, home: Replica, ns: seq<NewTask>)
    requires FreshIds(db, ns)
    ensures FailedTasks(Scheduled(db, j, home, ns), j) == FailedTasks(db, j)
  {
  }
}
