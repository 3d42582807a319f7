/** An assignment writes Running without looking at the job's status.  With its checks and its commit in separate steps
    it can bring a dead job back. */
module Revival {
  import opened Dds
  import opened JobTransitions
  import opened SchedulerSpec
  import opened SchedulerRuns
  import opened SchedulerMoves
  import opened SchedulerInvariant
  import opened Quota
  import opened TwoTaskJob

  predicate DeadAt(db: Db, j: JobId) { j in db.jobs && Dead(db.jobs[j].status) }

  /** A dead job has a Failed task or nothing left to do. */
  predicate Fated(db: Db, j: JobId) { HasFailed(db, j) || AllDone(db, j) }

  ghost predicate FatesOk(db: Db) { forall j :: DeadAt(db, j) ==> Fated(db, j) }

  /** Queued and running cleanups name terminal states. */
  ghost predicate NamesOk(m: Local) {
    && (forall j :: j in m.pendingCleanup && m.pendingCleanup[j].Known? ==> Terminal(m.pendingCleanup[j].status))
    && (forall j :: j in m.inFlight && m.inFlight[j].Known? ==> Terminal(m.inFlight[j].status))
  }

  ghost predicate AllNamesOk(w: World) { forall r :: r in w.locals ==> NamesOk(w.locals[r]) }

  lemma StepNames(w: World, e: Event)
    requires AllNamesOk(w) && Enabled(w, e)
    ensures AllNamesOk(Step(w, e))
  {
    if Actor(e).Some? {
      assert NamesOk(Mem(w, Actor(e).value));
      MemNames(w, e);
    }
  }

  lemma MemNames(w: World, e: Event)
    requires Enabled(w, e) && Actor(e).Some? && NamesOk(Mem(w, Actor(e).value))
    ensures NamesOk(StepMem(w, e, Mem(w, Actor(e).value)))
  {
  }

  // ---------- dead jobs under all other transactions ----------

  lemma OthersKeepDead(w: World, e: Event, j: JobId)
    requires Enabled(w, e) && !e.AssignMap? && !e.AssignReduce? && DeadAt(w.db, j)
    ensures DeadAt(StepDb(w, e), j)
  {
  }

  lemma FateStays(db: Db, db2: Db, j: JobId)
    requires TasksMove(db, db2) && DeadAt(db, j) && Fated(db, j)
    ensures Fated(db2, j)
  {
    if HasFailed(db, j) {
      var t :| t in FailedTasks(db, j);
      assert TaskMove(db, db2, t);
      assert t in FailedTasks(db2, j);
    } else {
      forall t | t in db2.tasks && db2.tasks[t].job == j ensures db2.tasks[t].status == TaskCompleted {
        assert t !in db.tasks ==> TaskBirth(db, db2, t);
        assert t !in PendingTasks(db, j) && TaskMove(db, db2, t);
      }
    }
  }

  /** A transaction that ends a live job leaves it a Failed task or nothing to do. */
  lemma KillIsFated(w: World, e: Event, j: JobId)
    requires RowsOk(w.db) && AllNamesOk(w) && Enabled(w, e) && !e.AssignMap? && !e.AssignReduce?
    requires !DeadAt(w.db, j) && DeadAt(StepDb(w, e), j)
    ensures Fated(StepDb(w, e), j)
  {
    if e.Complete? || e.Fail? || e.Reap? || e.Cancel? {
      EndingMoves(w, e);
      MoveIsFated(w.db, StepDb(w, e), j);
    } else if e.Finalize? {
      FinalizeSparesLive(w, e, j);
    } else {
      OthersSpareLive(w, e, j);
    }
  }

  lemma EndingMoves(w: World, e: Event)
    requires RowsOk(w.db) && Enabled(w, e) && (e.Complete? || e.Fail? || e.Reap? || e.Cancel?)
    ensures Moves(w.db, StepDb(w, e))
  {
    match e {
      case Complete(r, t, a, l, outs) => CompleteMoves(w.db, w.cfg.skew, t, a, l, outs);
      case Fail(r, t, a, l) => FailMoves(w.db, w.cfg.skew, t, a, l);
      case Reap(r, locked) => ReapMoves(w.db, Mem(w, r), w.cfg.skew, r, locked);
      case Cancel(r, i) => CancelMoves(w.db, i);
    }
  }

  lemma MoveIsFated(db: Db, db2: Db, j: JobId)
    requires Moves(db, db2) && !DeadAt(db, j) && DeadAt(db2, j)
    ensures Fated(db2, j)
  {
    assert j in db.jobs ==> JobMove(db, db2, j);
    assert j !in db.jobs ==> JobBirth(db, db2, j);
  }

  lemma OthersSpareLive(w: World, e: Event, j: JobId)
    requires Enabled(w, e) && !e.AssignMap? && !e.AssignReduce? && !DeadAt(w.db, j)
    requires !e.Complete? && !e.Fail? && !e.Reap? && !e.Cancel? && !e.Finalize?
    ensures DeadAt(StepDb(w, e), j) ==> Fated(StepDb(w, e), j)
  {
  }

  lemma FinalizeSparesLive(w: World, e: Event, j: JobId)
    requires AllNamesOk(w) && Enabled(w, e) && e.Finalize? && !DeadAt(w.db, j)
    ensures !DeadAt(StepDb(w, e), j)
  {
    assert NamesOk(Mem(w, e.r));
  }

  lemma OtherKeepsFates(w: World, e: Event)
    requires RowsOk(w.db) && BootOk(w) && FatesOk(w.db) && AllNamesOk(w) && Enabled(w, e) && !e.AssignMap? && !e.AssignReduce?
    ensures FatesOk(StepDb(w, e))
  {
    StepRows(w, e);
    forall j | DeadAt(StepDb(w, e), j) ensures Fated(StepDb(w, e), j) {
      if DeadAt(w.db, j) { FateStays(w.db, StepDb(w, e), j); } else { KillIsFated(w, e, j); }
    }
  }

  lemma InsertKeepsFates(w: World, h: Holder)
    requires FatesOk(w.db) && CanInsert(w.db, h) && HolderOk(w, h)
    ensures FatesOk(Inserted(w, h).db)
  {
    var db, db2 := w.db, Inserted(w, h).db;
    InsertedRows(w, h);
    forall j | DeadAt(db2, j) ensures Fated(db2, j) {
      assert j != h.j && DeadAt(db, j);
      SameFate(w, h, j);
    }
  }

  lemma SameFate(w: World, h: Holder, j: JobId)
    requires CanInsert(w.db, h) && HolderOk(w, h) && j != h.j && Fated(w.db, j)
    ensures Fated(Inserted(w, h).db, j)
  {
    var db, db2 := w.db, Inserted(w, h).db;
    InsertedRows(w, h);
    forall t | t in db.tasks && db.tasks[t].job == j ensures t in db2.tasks && db2.tasks[t] == db.tasks[t] { BaseRows(db, h, t); }
    forall t | t in db2.tasks && db2.tasks[t].job == j ensures t in db.tasks && db2.tasks[t] == db.tasks[t] {
      BaseRows(db, h, h.t);
      assert t in db.tasks;
      BaseRows(db, h, t);
    }
    assert FailedTasks(db2, j) == FailedTasks(db, j) && PendingTasks(db2, j) == PendingTasks(db, j);
  }

  lemma {:induction false} SiteFates(ss: seq<Site>, xs: seq<Action>, k: nat)
    requires IsSiteRun(ss, xs) && k < |ss|
    ensures FatesOk(ss[k].w.db) && AllNamesOk(ss[k].w)
  {
    if k > 0 {
      SiteFates(ss, xs, k - 1);
      SiteRunOk(ss, xs, k - 1);
      assert ActAt(ss, xs, k - 1);
      match xs[k - 1] {
        case Other(e) => OtherKeepsFates(ss[k - 1].w, e); StepNames(ss[k - 1].w, e);
        case InsertAndCommit => InsertKeepsFates(ss[k - 1].w, ss[k - 1].lock.value);
        case _ =>
      }
    }
  }

  // ---------- when a dead job comes back ----------

  /** A dead job becomes live by exactly one kind of step: the commit of an assignment of one of its tasks. */
  lemma RevivedIff(s: Site, x: Action, j: JobId)
    requires SiteOk(s) && Possible(s, x) && DeadAt(s.w.db, j)
    ensures !DeadAt(Act(s, x).w.db, j) <==> x.InsertAndCommit? && s.lock.value.j == j
  {
    match x {
      case Other(e) => OthersKeepDead(s.w, e, j);
      case InsertAndCommit => InsertedRows(s.w, s.lock.value);
      case _ =>
    }
  }

  ghost predicate Killed(ss: seq<Site>, n: nat, j: JobId)
    requires n + 1 < |ss|
  {
    !DeadAt(ss[n].w.db, j) && DeadAt(ss[n + 1].w.db, j)
  }

  /** Job j is killed at step n and not brought back before state k. */
  ghost predicate KilledUntil(ss: seq<Site>, n: nat, k: nat, j: JobId)
    requires n < k < |ss|
  {
    Killed(ss, n, j) && forall m | n < m <= k :: DeadAt(ss[m].w.db, j)
  }

  /** Transaction h passed its checks at step i and commits at step k. */
  ghost predicate Spans(ss: seq<Site>, xs: seq<Action>, i: nat, k: nat, h: Holder) {
    && IsSiteRun(ss, xs) && i < k < |xs| && xs[i] == Begin(h) && xs[k] == InsertAndCommit && ss[k].lock == Some(h)
  }

  /** The checks pass only for a live job. */
  lemma LiveAtBegin(ss: seq<Site>, xs: seq<Action>, i: nat, h: Holder)
    requires IsSiteRun(ss, xs) && i < |xs| && xs[i] == Begin(h)
    ensures !DeadAt(ss[i].w.db, h.j) && ss[i + 1].w == ss[i].w
  {
    assert ActAt(ss, xs, i);
    SiteFates(ss, xs, i);
    var db := ss[i].w.db;
    assert h.t in Base(db, h).tasks;
    BaseRows(db, h, h.t);
    assert h.t in PendingTasks(db, h.j);
  }

  lemma {:induction false} LastKill(ss: seq<Site>, i: nat, k: nat, j: JobId) returns (n: nat)
    requires i < k < |ss| && !DeadAt(ss[i].w.db, j) && DeadAt(ss[k].w.db, j)
    ensures i <= n < k && KilledUntil(ss, n, k, j)
    decreases k
  {
    if !DeadAt(ss[k - 1].w.db, j) {
      n := k - 1;
    } else {
      n := LastKill(ss, i, k - 1, j);
    }
  }

  /** An assignment brings a dead job back iff a step between its checks and its commit killed the job. */
  lemma RevivalIff(ss: seq<Site>, xs: seq<Action>, i: nat, k: nat, h: Holder)
    requires Spans(ss, xs, i, k, h)
    ensures DeadAt(ss[k].w.db, h.j) <==> exists n :: i < n < k && KilledUntil(ss, n, k, h.j)
    ensures !DeadAt(ss[k + 1].w.db, h.j)
  {
    LiveAtBegin(ss, xs, i, h);
    SiteRunOk(ss, xs, k);
    assert ActAt(ss, xs, k);
    InsertedRows(ss[k].w, h);
    if DeadAt(ss[k].w.db, h.j) {
      var n := LastKill(ss, i + 1, k, h.j);
      assert i < n < k && KilledUntil(ss, n, k, h.j);
    }
  }

  // ---------- who kills it ----------

  lemma AbsorbStep(s: Site, x: Action, t: TaskId)
    requires SiteOk(s) && Possible(s, x) && t in s.w.db.tasks
    requires s.w.db.tasks[t].status == TaskFailed || s.w.db.tasks[t].status == TaskCompleted
    ensures t in Act(s, x).w.db.tasks && Act(s, x).w.db.tasks[t].status == s.w.db.tasks[t].status
  {
    match x {
      case Other(e) => AbsorbOther(s.w, e, t);
      case InsertAndCommit => AbsorbInsert(s.w, s.lock.value, t);
      case _ =>
    }
  }

  lemma AbsorbOther(w: World, e: Event, t: TaskId)
    requires RowsOk(w.db) && BootOk(w) && Enabled(w, e) && !e.AssignMap? && !e.AssignReduce? && t in w.db.tasks
    requires w.db.tasks[t].status == TaskFailed || w.db.tasks[t].status == TaskCompleted
    ensures t in StepDb(w, e).tasks && StepDb(w, e).tasks[t].status == w.db.tasks[t].status
  {
    StepRows(w, e);
    assert TaskMove(w.db, StepDb(w, e), t);
  }

  lemma AbsorbInsert(w: World, h: Holder, t: TaskId)
    requires CanInsert(w.db, h) && HolderOk(w, h) && t in w.db.tasks
    requires w.db.tasks[t].status == TaskFailed || w.db.tasks[t].status == TaskCompleted
    ensures t in Inserted(w, h).db.tasks && Inserted(w, h).db.tasks[t].status == w.db.tasks[t].status
  {
    InsertedRows(w, h);
    BaseRows(w.db, h, t);
    BaseRows(w.db, h, h.t);
  }

  lemma {:induction false} Absorbed(ss: seq<Site>, xs: seq<Action>, n: nat, k: nat, t: TaskId)
    requires IsSiteRun(ss, xs) && n <= k < |ss| && t in ss[n].w.db.tasks
    requires ss[n].w.db.tasks[t].status == TaskFailed || ss[n].w.db.tasks[t].status == TaskCompleted
    ensures t in ss[k].w.db.tasks && ss[k].w.db.tasks[t].status == ss[n].w.db.tasks[t].status
    decreases k
  {
    if n < k {
      Absorbed(ss, xs, n, k - 1, t);
      SiteRunOk(ss, xs, k - 1);
      assert ActAt(ss, xs, k - 1);
      AbsorbStep(ss[k - 1], xs[k - 1], t);
    }
  }

  /** Only a reported failure or a reaper pass can end a job and leave one of its tasks Idle. */
  lemma IdleSurvives(w: World, e: Event, j: JobId, t: TaskId)
    requires AllNamesOk(w) && Enabled(w, e) && !e.AssignMap? && !e.AssignReduce?
    requires !DeadAt(w.db, j) && DeadAt(StepDb(w, e), j)
    requires t in StepDb(w, e).tasks && StepDb(w, e).tasks[t].job == j
    requires StepDb(w, e).tasks[t].status != TaskFailed && StepDb(w, e).tasks[t].status != TaskCompleted
    ensures e.Fail? || e.Reap?
  {
    var db2 := StepDb(w, e);
    assert t in PendingTasks(db2, j);
    if e.Finalize? { FinalizeSparesLive(w, e, j); }
    if e.Complete? { CommitEnds(w, e, j); }
  }

  /** A commit ends a job only by leaving nothing to do. */
  lemma CommitEnds(w: World, e: Event, j: JobId)
    requires Enabled(w, e) && e.Complete? && !DeadAt(w.db, j) && DeadAt(StepDb(w, e), j)
    ensures AllDone(StepDb(w, e), j)
  {
    var db2 := StepDb(w, e);
    assert PendingTasks(db2, j) <= PendingTasks(w.db, j) - {e.t};
  }

  /** The event is the failure, reported or found by the reaper, of a task that has no attempts left. */
  predicate UsesUp(w: World, e: Event, u: TaskId) {
    && u in w.db.tasks && |AttemptsOf(w.db, u)| >= MAX_TASK_ATTEMPTS
    && ((e.Fail? && e.t == u) || (e.Reap? && u in Stale(w.db, Mem(w, e.r), w.cfg.skew, e.r, e.locked)))
  }

  lemma LastFailure(w: World, e: Event, j: JobId) returns (u: TaskId)
    requires Enabled(w, e) && (e.Fail? || e.Reap?) && !DeadAt(w.db, j) && DeadAt(StepDb(w, e), j)
    ensures UsesUp(w, e, u) && w.db.tasks[u].job == j && u in StepDb(w, e).tasks && StepDb(w, e).tasks[u].status == TaskFailed
  {
    if e.Fail? {
      u := e.t;
    } else {
      var stale := Stale(w.db, Mem(w, e.r), w.cfg.skew, e.r, e.locked);
      u :| u in stale && u in w.db.tasks && AfterFailure(w.db, u) == TaskFailed && w.db.tasks[u].job == j;
    }
  }

  /** The killer is the last allowed failure of another task u of the job, reported or found by the reaper. */
  lemma KillerIs(ss: seq<Site>, xs: seq<Action>, i: nat, n: nat, k: nat, h: Holder) returns (u: TaskId)
    requires Spans(ss, xs, i, k, h) && i < n < k && KilledUntil(ss, n, k, h.j)
    ensures xs[n].Other? && UsesUp(ss[n].w, xs[n].e, u) && u != h.t && ss[n].w.db.tasks[u].job == h.j
    ensures u in ss[n + 1].w.db.tasks && ss[n + 1].w.db.tasks[u].status == TaskFailed
  {
    SiteRunOk(ss, xs, n);
    SiteFates(ss, xs, n);
    assert ActAt(ss, xs, n) && Killed(ss, n, h.j);
    NotInsert(ss[n], xs[n], h.j);
    OpenUntil(ss, xs, i, n + 1, k, h);
    IdleSurvives(ss[n].w, xs[n].e, h.j, h.t);
    u := LastFailure(ss[n].w, xs[n].e, h.j);
  }

  // ---------- what becomes of it ----------

  predicate RunningAt(db: Db, j: JobId) { j in db.jobs && db.jobs[j].status == JobRunning }

  /** Cancelling the job, or using up another of its tasks. */
  ghost predicate Ends(w: World, e: Event, j: JobId) {
    (e.Cancel? && e.j == j) || exists u :: UsesUp(w, e, u) && w.db.tasks[u].job == j
  }

  /** A Running job with a Failed task is ended by exactly those events; a commit never completes it, a finalize of it is
      refused, and no request for work passes the checks. */
  lemma RunsOnIff(w: World, e: Event, j: JobId)
    requires AllNamesOk(w) && Enabled(w, e) && !e.AssignMap? && !e.AssignReduce? && RunningAt(w.db, j) && HasFailed(w.db, j)
    ensures RunningAt(StepDb(w, e), j) <==> !Ends(w, e, j)
  {
    if e.Finalize? {
      RefusedFinalize(w, e, j);
    } else if e.Complete? {
      NotLastCommit(w, e, j);
    } else if e.Reap? {
      ReapEndsIff(w, e, j);
    } else if e.Fail? {
      assert UsesUp(w, e, e.t) <==> AfterFailure(w.db, e.t) == TaskFailed;
    }
  }

  lemma RefusedFinalize(w: World, e: Event, j: JobId)
    requires AllNamesOk(w) && Enabled(w, e) && e.Finalize? && RunningAt(w.db, j)
    ensures RunningAt(StepDb(w, e), j)
  {
    assert NamesOk(Mem(w, e.r));
  }

  lemma NotLastCommit(w: World, e: Event, j: JobId)
    requires Enabled(w, e) && e.Complete? && RunningAt(w.db, j) && HasFailed(w.db, j)
    ensures RunningAt(StepDb(w, e), j)
  {
    var u :| u in FailedTasks(w.db, j);
    assert u in PendingTasks(w.db, j) && u != e.t;
  }

  lemma ReapEndsIff(w: World, e: Event, j: JobId)
    requires Enabled(w, e) && e.Reap? && RunningAt(w.db, j)
    ensures RunningAt(StepDb(w, e), j) <==> !exists u :: UsesUp(w, e, u) && w.db.tasks[u].job == j
  {
    var stale := Stale(w.db, Mem(w, e.r), w.cfg.skew, e.r, e.locked);
    assert j in ExhaustedJobs(w.db, stale) <==> exists u :: UsesUp(w, e, u) && w.db.tasks[u].job == j;
  }

  lemma RunsOnStep(s: Site, x: Action, j: JobId)
    requires SiteOk(s) && AllNamesOk(s.w) && Possible(s, x) && RunningAt(s.w.db, j) && HasFailed(s.w.db, j)
    ensures RunningAt(Act(s, x).w.db, j) <==> !(x.Other? && Ends(s.w, x.e, j))
    ensures HasFailed(Act(s, x).w.db, j) && !(x.Begin? && x.h.j == j)
  {
    var u :| u in FailedTasks(s.w.db, j);
    AbsorbStep(s, x, u);
    JobOfStays(s, x, u);
    assert u in FailedTasks(Act(s, x).w.db, j);
    match x {
      case Other(e) => RunsOnIff(s.w, e, j);
      case InsertAndCommit => InsertedRows(s.w, s.lock.value);
      case _ =>
    }
  }

  lemma JobOfStays(s: Site, x: Action, t: TaskId)
    requires SiteOk(s) && Possible(s, x) && t in s.w.db.tasks
    ensures t in Act(s, x).w.db.tasks && Act(s, x).w.db.tasks[t].job == s.w.db.tasks[t].job
  {
    match x {
      case Other(e) =>
        StepRows(s.w, e);
        assert TaskMove(s.w.db, StepDb(s.w, e), t);
      case InsertAndCommit =>
        InsertedRows(s.w, s.lock.value);
        BaseRows(s.w.db, s.lock.value, t);
      case _ =>
    }
  }

  /** A revived job, Running with a Failed task, stays so until it is cancelled or another of its tasks is used up. */
  lemma {:induction false} RevivedRunsOn(ss: seq<Site>, xs: seq<Action>, i: nat, k: nat, j: JobId)
    requires IsSiteRun(ss, xs) && i <= k <= |xs| && RunningAt(ss[i].w.db, j) && HasFailed(ss[i].w.db, j)
    requires forall n :: i <= n < k && xs[n].Other? ==> !Ends(ss[n].w, xs[n].e, j)
    ensures RunningAt(ss[k].w.db, j) && HasFailed(ss[k].w.db, j)
    ensures k < |xs| ==> !(xs[k].Begin? && xs[k].h.j == j)
    decreases k
  {
    if i < k {
      RevivedRunsOn(ss, xs, i, k - 1, j);
      SiteRunOk(ss, xs, k - 1);
      SiteFates(ss, xs, k - 1);
      assert ActAt(ss, xs, k - 1);
      RunsOnStep(ss[k - 1], xs[k - 1], j);
    }
    if k < |xs| {
      SiteRunOk(ss, xs, k);
      SiteFates(ss, xs, k);
      assert ActAt(ss, xs, k);
      RunsOnStep(ss[k], xs[k], j);
    }
  }

  /** The chosen row is neither Failed nor Completed while its assignment can still commit. */
  lemma OpenUntil(ss: seq<Site>, xs: seq<Action>, i: nat, n: nat, k: nat, h: Holder)
    requires Spans(ss, xs, i, k, h) && i < n <= k
    ensures var db := ss[n].w.db;
      h.t in db.tasks && db.tasks[h.t].job == h.j && db.tasks[h.t].status != TaskFailed && db.tasks[h.t].status != TaskCompleted
  {
    HolderThere(ss, xs, i, n, h);
    assert ActAt(ss, xs, k);
    BaseRows(ss[k].w.db, h, h.t);
    var status := ss[n].w.db.tasks[h.t].status;
    if status == TaskFailed || status == TaskCompleted { Absorbed(ss, xs, n, k, h.t); }
  }

  lemma NotInsert(s: Site, x: Action, j: JobId)
    requires SiteOk(s) && Possible(s, x) && !DeadAt(s.w.db, j) && DeadAt(Act(s, x).w.db, j)
    ensures x.Other? && Act(s, x).w == Step(s.w, x.e)
  {
    if x.InsertAndCommit? { InsertedRows(s.w, s.lock.value); }
  }

  /** The task row a transaction chose stays, with its job. */
  lemma {:induction false} HolderThere(ss: seq<Site>, xs: seq<Action>, i: nat, n: nat, h: Holder)
    requires IsSiteRun(ss, xs) && i < n < |ss| && xs[i] == Begin(h)
    ensures h.t in ss[n].w.db.tasks && ss[n].w.db.tasks[h.t].job == h.j
    decreases n
  {
    assert ActAt(ss, xs, n - 1);
    if n == i + 1 {
      BeginHolder(ss[i].w, h);
    } else {
      HolderThere(ss, xs, i, n - 1, h);
      SiteRunOk(ss, xs, n - 1);
      match xs[n - 1] {
        case Other(e) =>
          StepRows(ss[n - 1].w, e);
          assert TaskMove(ss[n - 1].w.db, StepDb(ss[n - 1].w, e), h.t);
        case InsertAndCommit =>
          var g := ss[n - 1].lock.value;
          InsertedRows(ss[n - 1].w, g);
          BaseRows(ss[n - 1].w.db, g, h.t);
          BaseRows(ss[n - 1].w.db, g, g.t);
        case _ =>
      }
    }
  }

  // ---------- it happens ----------

  const LATE := Holder(0, 0, MapTask, 8, 9, 0)

  /** Task 8 passes its checks; task 7 fails for the third time and the job goes to Cleaning; the assignment of task 8
      commits and the job is Running again, with a Failed task. */
  lemma DeadJobRevived() returns (ss: seq<Site>, xs: seq<Action>)
    ensures IsSiteRun(ss, xs) && |xs| >= 4 && xs[|xs| - 4..] == LATE_STEPS
    ensures ss[|xs| - 2].w.db.jobs == map[0 := Job(JobCleaning, 0)] && ss[|xs|].w.db.jobs == map[0 := Job(JobRunning, 0)]
    ensures 7 in FailedTasks(ss[|xs|].w.db, 0) && RunningAt(ss[|xs|].w.db, 0) && HasFailed(ss[|xs|].w.db, 0)
  {
    var before, ys := SiteLastChance();
    var s2, s4;
    ss, s2, s4 := LateRun(before, ys);
    xs := ys + LATE_STEPS;
    assert ss[|xs| - 2] == s2 && ss[|xs|] == s4 && xs[|xs| - 4..] == LATE_STEPS;
  }

  const LATE_STEPS := [Begin(LATE), Other(Lose(7, 3)), LockAndRead(LATE), InsertAndCommit]

  lemma LateRun(before: seq<Site>, ys: seq<Action>) returns (ss: seq<Site>, s2: Site, s4: Site)
    requires IsSiteRun(before, ys) && At(before[|ys|].w, LAST_CHANCE) && before[|ys|].open == {} && before[|ys|].lock == None
    ensures IsSiteRun(ss, ys + LATE_STEPS) && |ss| == |ys| + 5 && ss[|ys| + 2] == s2 && ss[|ys| + 4] == s4
    ensures s2.w.db.jobs == map[0 := Job(JobCleaning, 0)] && s4.w.db.jobs == map[0 := Job(JobRunning, 0)]
    ensures 7 in FailedTasks(s4.w.db, 0)
  {
    var s1, s3;
    s1, s2 := LateBegins(before[|ys|]);
    s3, s4 := LateCommits(s2);
    FourMore(before, ys, Begin(LATE), Other(Lose(7, 3)), LockAndRead(LATE), InsertAndCommit, s1, s2, s3, s4);
    ss := before + [s1, s2, s3, s4];
  }

  lemma SiteLastChance() returns (ss: seq<Site>, xs: seq<Action>)
    ensures IsSiteRun(ss, xs) && At(ss[|xs|].w, LAST_CHANCE) && ss[|xs|].open == {} && ss[|xs|].lock == None
  {
    var es, v := ReachLastChance();
    var s;
    xs, s := RunIsSiteRun(START, es, v, 10);
    ss := SiteLeadsActs(Site(START, {}, None, 10), xs, s);
  }

  lemma FourMore(ss: seq<Site>, xs: seq<Action>, a: Action, b: Action, c: Action, d: Action, s1: Site, s2: Site, s3: Site, s4: Site)
    requires IsSiteRun(ss, xs) && Possible(ss[|xs|], a) && s1 == Act(ss[|xs|], a) && Possible(s1, b) && s2 == Act(s1, b)
    requires Possible(s2, c) && s3 == Act(s2, c) && Possible(s3, d) && s4 == Act(s3, d)
    ensures IsSiteRun(ss + [s1, s2, s3, s4], xs + [a, b, c, d])
  {
    SiteRunOn(ss, xs, a);
    SiteRunOn(ss + [s1], xs + [a], b);
    SiteRunOn(ss + [s1] + [s2], xs + [a] + [b], c);
    SiteRunOn(ss + [s1] + [s2] + [s3], xs + [a] + [b] + [c], d);
    assert ss + [s1] + [s2] + [s3] + [s4] == ss + [s1, s2, s3, s4] && xs + [a] + [b] + [c] + [d] == xs + [a, b, c, d];
  }

  lemma LateBegins(s: Site) returns (s1: Site, s2: Site)
    requires At(s.w, LAST_CHANCE) && s.open == {} && s.lock == None
    ensures Possible(s, Begin(LATE)) && s1 == Act(s, Begin(LATE))
    ensures Possible(s1, Other(Lose(7, 3))) && s2 == Act(s1, Other(Lose(7, 3)))
    ensures AtDb(s2.w.db, Lost(LAST_CHANCE, 7, 3)) && s2.open == {LATE} && s2.lock == None && s2.w.cfg == CFG
  {
    LateCanBegin(s.w.db);
    s1 := Act(s, Begin(LATE));
    LoseEnabled(s.w, LAST_CHANCE, 7, 3);
    LoseDb(s.w.db, LAST_CHANCE, 7, 3);
    s2 := Act(s1, Other(Lose(7, 3)));
    assert s2.w.db == FailedOne(s.w.db, 7, 3);
  }

  lemma LateCanBegin(db: Db)
    requires AtDb(db, LAST_CHANCE)
    ensures CanBegin(db, LATE)
  {
    assert FailedTasks(db, 0) == {};
    assert 8 in IdleTasks(db, 0, 0, MapTask, {});
  }

  lemma LateCommits(s: Site) returns (s3: Site, s4: Site)
    requires AtDb(s.w.db, Lost(LAST_CHANCE, 7, 3)) && s.open == {LATE} && s.lock == None && s.w.cfg == CFG
    ensures Possible(s, LockAndRead(LATE)) && s3 == Act(s, LockAndRead(LATE))
    ensures Possible(s3, InsertAndCommit) && s4 == Act(s3, InsertAndCommit)
    ensures s.w.db.jobs == map[0 := Job(JobCleaning, 0)] && s3.w == s.w && s4.w.db.jobs == map[0 := Job(JobRunning, 0)]
    ensures 7 in FailedTasks(s4.w.db, 0)
  {
    assert RunningAttempts(s.w.db) == {};
    assert |{1, 2, 3}| == 3;
    s3 := Act(s, LockAndRead(LATE));
    s4 := Act(s3, InsertAndCommit);
    InsertedRows(s.w, LATE);
  }
}
