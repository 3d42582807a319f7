/** How long staging storage can hold a job back from its terminal state. */
module Cleanups {
  import opened Dds
  import opened JobTransitions
  import opened SchedulerSpec
  import opened SchedulerRuns

  /** A finalization by replica r of job j whose move was allowed, and needed, and did not happen. */
  predicate HeldBack(w: World, e: Event, r: Replica, j: JobId) {
    && Enabled(w, e) && e.Finalize? && e.r == r && e.j == j
    && (var to := Mem(w, r).inFlight[j].status;
        j in w.db.jobs && w.db.jobs[j].status != to && Allowed(w.db.jobs[j].status, to))
    && StepDb(w, e) == w.db
  }

  /** What starts the count of retries afresh: a restart of the process, or a finalization that went through. */
  predicate Forgets(w: World, e: Event, r: Replica, j: JobId) {
    && Enabled(w, e)
    && ((e.Restart? && e.r == r)
        || (e.Finalize? && e.r == r && e.j == j && e.workersGone && j in w.db.jobs
            && StepDb(w, e).jobs[j].status == Mem(w, r).inFlight[j].status))
  }

  /** The finalizations held back in the first k steps. */
  function HeldBacks(ws: seq<World>, es: seq<Event>, k: nat, r: Replica, j: JobId): nat
    requires k <= |es| < |ws|
  {
    if k == 0 then 0 else HeldBacks(ws, es, k - 1, r, j) + if HeldBack(ws[k - 1], es[k - 1], r, j) then 1 else 0
  }

  /** Only staging holds a finalization back, and only before the tenth retry. */
  lemma HeldBackWhy(w: World, e: Event, r: Replica, j: JobId)
    requires HeldBack(w, e, r, j)
    ensures w.cfg.staging && !e.stagingOk && Retries(Mem(w, r), j) < 10
    ensures Retries(Mem(Step(w, e), r), j) == Retries(Mem(w, r), j) + 1
  {
    var to := Mem(w, r).inFlight[j].status;
    assert SetJobStatus(w.db, j, to).jobs[j].status == to;
  }

  /** No step but a forgetting one lowers the count of retries. */
  lemma RetriesGrow(w: World, e: Event, r: Replica, j: JobId)
    requires Enabled(w, e) && !Forgets(w, e, r, j)
    ensures Retries(Mem(Step(w, e), r), j) >= Retries(Mem(w, r), j)
  {
    if Actor(e) == Some(r) { OwnRetries(w, e, r, j); }
  }

  lemma OwnRetries(w: World, e: Event, r: Replica, j: JobId)
    requires Enabled(w, e) && !Forgets(w, e, r, j) && Actor(e) == Some(r)
    ensures Retries(StepMem(w, e, Mem(w, r)), j) >= Retries(Mem(w, r), j)
  {
  }

  lemma {:induction false} HeldBackCount(ws: seq<World>, es: seq<Event>, k: nat, r: Replica, j: JobId)
    requires Steps(ws, es) && k <= |es| && forall i :: 0 <= i < |es| ==> !Forgets(ws[i], es[i], r, j)
    ensures Retries(Mem(ws[k], r), j) >= Retries(Mem(ws[0], r), j) + HeldBacks(ws, es, k, r, j)
    ensures HeldBacks(ws, es, k, r, j) > 0 ==> Retries(Mem(ws[0], r), j) + HeldBacks(ws, es, k, r, j) <= 10
  {
    if k > 0 {
      HeldBackCount(ws, es, k - 1, r, j);
      assert StepAt(ws, es, k - 1);
      if HeldBack(ws[k - 1], es[k - 1], r, j) { HeldBackWhy(ws[k - 1], es[k - 1], r, j); }
      RetriesGrow(ws[k - 1], es[k - 1], r, j);
    }
  }

  /** In any stretch of steps in which the count is not started afresh, staging holds a job back at most ten times. */
  lemma HeldBackAtMostTen(ws: seq<World>, es: seq<Event>, r: Replica, j: JobId)
    requires Steps(ws, es) && forall i :: 0 <= i < |es| ==> !Forgets(ws[i], es[i], r, j)
    ensures HeldBacks(ws, es, |es|, r, j) <= 10
  {
    HeldBackCount(ws, es, |es|, r, j);
  }

  /** A finalization of a Cleaning job writes its terminal state exactly when staging is off, its objects are gone, or
      ten tries have been made. */
  lemma FinalizesIff(w: World, e: Event)
    requires Enabled(w, e) && e.Finalize? && e.j in w.db.jobs && w.db.jobs[e.j].status == JobCleaning
    requires Mem(w, e.r).inFlight[e.j].status in {JobCompleted, JobFailed, JobCancelled}
    ensures var to, after := Mem(w, e.r).inFlight[e.j].status, StepDb(w, e);
      var through := !w.cfg.staging || e.stagingOk || Retries(Mem(w, e.r), e.j) >= 10;
      && after.jobs.Keys == w.db.jobs.Keys
      && (after.jobs[e.j].status == if through then to else JobCleaning)
      && (e.j in StepMem(w, e, Mem(w, e.r)).pendingCleanup ==>
            e.j in Mem(w, e.r).pendingCleanup || !through || !e.workersGone)
      && (!through || !e.workersGone ==> StepMem(w, e, Mem(w, e.r)).pendingCleanup == Mem(w, e.r).pendingCleanup[e.j := Known(to)])
  {
  }

}
