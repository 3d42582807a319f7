/** Which reports a worker can make, told by the events of the run alone: who was handed the task, with which lease, when it was
    last heard of, and what has happened to the task since. */
module LeaseHistory {
  import opened Dds
  import opened SchedulerSpec
  import opened SchedulerRuns
  import opened SchedulerMoves
  import opened SchedulerInvariant
  import opened Leases
  import opened Quota

  // ---------- the history of an attempt ----------

  predicate HandsOut(e: Event) { e.AssignMap? || e.AssignReduce? }

  /** The event that created attempt a, if any: the task and the lease it drew. */
  function Grant(es: seq<Event>, a: AttemptId): Option<(TaskId, LeaseId)> {
    if es == [] then None
    else
      var last := es[|es| - 1];
      if HandsOut(last) && last.a == a then Some((last.t, last.l)) else Grant(es[..|es| - 1], a)
  }

  /** The time of the last assignment or renewal of attempt a. */
  ghost function Heard(ws: seq<World>, es: seq<Event>, k: nat, a: AttemptId): int
    requires k <= |es| < |ws|
  {
    if k == 0 then 0
    else if (HandsOut(es[k - 1]) || es[k - 1].Renew?) && es[k - 1].a == a then ws[k - 1].db.now
    else Heard(ws, es, k - 1, a)
  }

  /** One event, seen from one attempt row. */
  lemma RowStep(w: World, e: Event, a: AttemptId)
    requires Enabled(w, e)
    ensures a in StepDb(w, e).attempts <==> a in w.db.attempts || (HandsOut(e) && e.a == a)
    ensures a in StepDb(w, e).attempts ==> var row := StepDb(w, e).attempts[a];
      if HandsOut(e) && e.a == a then row == Attempt(e.t, e.l, w.db.now, w.cfg.leaseTtl, AttemptRunning)
      else a in w.db.attempts && var was := w.db.attempts[a];
        && row.task == was.task && row.lease == was.lease && row.ttl == was.ttl
        && row.lastRenewed == if e.Renew? && e.a == a then w.db.now else was.lastRenewed
  {
    if a in w.db.attempts {
      if e.Renew? { RenewedRow(w, e, a); } else if !HandsOut(e) { OtherRow(w, e, a); }
    } else if !HandsOut(e) {
      NoNewRow(w, e, a);
    }
  }

  lemma NoNewRow(w: World, e: Event, a: AttemptId)
    requires Enabled(w, e) && !HandsOut(e) && a !in w.db.attempts
    ensures a !in StepDb(w, e).attempts
  {
  }

  lemma OtherRow(w: World, e: Event, a: AttemptId)
    requires Enabled(w, e) && !e.Renew? && !HandsOut(e) && a in w.db.attempts
    ensures a in StepDb(w, e).attempts && var row, was := StepDb(w, e).attempts[a], w.db.attempts[a];
      row.task == was.task && row.lease == was.lease && row.ttl == was.ttl && row.lastRenewed == was.lastRenewed
  {
  }

  lemma SameConfig(w: World, e: Event)
    requires Enabled(w, e)
    ensures Step(w, e).cfg == w.cfg
  {
  }

  /** The row of an attempt tells its history. */
  ghost predicate RowTells(ws: seq<World>, es: seq<Event>, k: nat, a: AttemptId)
    requires k <= |es| < |ws|
  {
    && (a in ws[k].db.attempts <==> Grant(es[..k], a).Some?)
    && (a in ws[k].db.attempts ==> var row := ws[k].db.attempts[a];
         Grant(es[..k], a) == Some((row.task, row.lease)) && row.lastRenewed == Heard(ws, es, k, a) && row.ttl == ws[0].cfg.leaseTtl)
  }

  lemma {:induction false} RowsTell(ws: seq<World>, es: seq<Event>, k: nat, a: AttemptId)
    requires IsRun(ws, es) && k < |ws|
    ensures RowTells(ws, es, k, a) && ws[k].cfg == ws[0].cfg
  {
    if k > 0 {
      RowsTell(ws, es, k - 1, a);
      assert StepAt(ws, es, k - 1);
      assert es[..k][..k - 1] == es[..k - 1] && es[..k][k - 1] == es[k - 1];
      RowStep(ws[k - 1], es[k - 1], a);
      SameConfig(ws[k - 1], es[k - 1]);
    }
  }

  // ---------- the history of a task ----------

  predicate OwnedBy(db: Db, r: Replica, t: TaskId) {
    t in db.tasks && db.tasks[t].job in db.jobs && db.jobs[db.tasks[t].job].replica == r
  }

  /** Task t is In-Progress with attempt a. */
  predicate HeldBy(db: Db, t: TaskId, a: AttemptId) {
    t in db.tasks && db.tasks[t].status == InProgress && db.tasks[t].current == Some(a)
  }

  /** What takes a task from its holder: a report, a cancel, a recovery, or a reaper pass of the owner after silence. */
  predicate Takes(w: World, e: Event, t: TaskId, a: AttemptId) {
    || ((e.Complete? || e.Fail?) && e.t == t)
    || (e.Cancel? && t in w.db.tasks && w.db.tasks[t].job == e.j)
    || (e.ResetTasks? && OwnedBy(w.db, e.r, t))
    || (e.Reap? && OwnedBy(w.db, e.r, t) && t !in e.locked && a in w.db.attempts && w.db.attempts[a].status == AttemptRunning
        && w.db.now - (if a in Mem(w, e.r).heartbeats then Mem(w, e.r).heartbeats[a] else w.db.attempts[a].lastRenewed)
           >= w.db.attempts[a].ttl + w.cfg.skew)
  }

  lemma HeldStep(w: World, e: Event, t: TaskId, a: AttemptId)
    requires RowsOk(w.db) && Enabled(w, e)
    ensures HeldBy(StepDb(w, e), t, a) <==> (HandsOut(e) && e.t == t && e.a == a) || (HeldBy(w.db, t, a) && !Takes(w, e, t, a))
  {
    if t in w.db.tasks { assert TaskOk(w.db, t); }
    if HandsOut(e) {
      HeldAssign(w, e, t, a);
    } else if e.Reap? {
      HeldReap(w, e, t, a);
    } else if e.Complete? || e.Fail? {
      HeldReport(w, e, t, a);
    }
  }

  lemma HeldAssign(w: World, e: Event, t: TaskId, a: AttemptId)
    requires Enabled(w, e) && HandsOut(e) && (t in w.db.tasks ==> TaskOk(w.db, t))
    ensures HeldBy(StepDb(w, e), t, a) <==> (e.t == t && e.a == a) || HeldBy(w.db, t, a)
  {
    if e.AssignReduce? { AssignReduceRows(w.db, w.cfg.leaseTtl, e.j, e.r, e.t, e.a, e.l, e.locked); }
  }

  lemma HeldReap(w: World, e: Event, t: TaskId, a: AttemptId)
    requires Enabled(w, e) && e.Reap? && (t in w.db.tasks ==> TaskOk(w.db, t))
    ensures HeldBy(StepDb(w, e), t, a) <==> HeldBy(w.db, t, a) && !Takes(w, e, t, a)
  {
  }

  lemma HeldReport(w: World, e: Event, t: TaskId, a: AttemptId)
    requires Enabled(w, e) && (e.Complete? || e.Fail?)
    ensures HeldBy(StepDb(w, e), t, a) <==> HeldBy(w.db, t, a) && !Takes(w, e, t, a)
  {
  }

  /** Attempt a was handed task t and nothing has taken it since. */
  ghost predicate Holds(ws: seq<World>, es: seq<Event>, k: nat, t: TaskId, a: AttemptId)
    requires k <= |es| < |ws|
  {
    k > 0 && var e := es[k - 1];
      (HandsOut(e) && e.t == t && e.a == a) || (Holds(ws, es, k - 1, t, a) && !Takes(ws[k - 1], e, t, a))
  }

  lemma {:induction false} HoldsIff(ws: seq<World>, es: seq<Event>, k: nat, t: TaskId, a: AttemptId)
    requires IsRun(ws, es) && k < |ws|
    ensures HeldBy(ws[k].db, t, a) <==> Holds(ws, es, k, t, a)
  {
    if k > 0 {
      HoldsIff(ws, es, k - 1, t, a);
      RunInv(ws, es, k - 1);
      assert StepAt(ws, es, k - 1);
      HeldStep(ws[k - 1], es[k - 1], t, a);
    }
  }

  // ---------- who may report ----------

  /** The worker still holds the task, shows the lease it was given, and was heard of within the lease and the tolerance. */
  ghost predicate MayReport(ws: seq<World>, es: seq<Event>, k: nat, t: TaskId, a: AttemptId, l: LeaseId)
    requires k <= |es| < |ws|
  {
    && Holds(ws, es, k, t, a) && Grant(es[..k], a) == Some((t, l))
    && ws[k].db.now - Heard(ws, es, k, a) <= ws[0].cfg.leaseTtl + ws[0].cfg.skew
  }

  predicate LiveJob(db: Db, t: TaskId) {
    && t in db.tasks && db.tasks[t].job in db.jobs
    && (db.jobs[db.tasks[t].job].status == JobPending || db.jobs[db.tasks[t].job].status == JobRunning)
  }

  /** In every state of every run, a renewal is accepted exactly of a worker that may report, and a commit or a failure exactly
      of such a worker in a live job. */
  lemma AcceptedIff(ws: seq<World>, es: seq<Event>, k: nat, t: TaskId, a: AttemptId, l: LeaseId)
    requires IsRun(ws, es) && k < |ws|
    ensures FenceVerdict(ws[k].db, ws[k].cfg.skew, t, a, l) == Ok <==> MayReport(ws, es, k, t, a, l)
    ensures CompleteVerdict(ws[k].db, ws[k].cfg.skew, t, a, l) == Ok <==> MayReport(ws, es, k, t, a, l) && LiveJob(ws[k].db, t)
    ensures FailVerdict(ws[k].db, ws[k].cfg.skew, t, a, l) == Ok <==> MayReport(ws, es, k, t, a, l) && LiveJob(ws[k].db, t)
  {
    RowsTell(ws, es, k, a);
    HoldsIff(ws, es, k, t, a);
    RunInv(ws, es, k);
    if t in ws[k].db.tasks { assert TaskOk(ws[k].db, t); }
    VerdictIff(ws[k].db, ws[k].cfg.skew, t, a, l);
  }

  /** The three verdicts, on the row fields. */
  lemma VerdictIff(db: Db, skew: int, t: TaskId, a: AttemptId, l: LeaseId)
    ensures FenceVerdict(db, skew, t, a, l) == Ok <==>
      (&& HeldBy(db, t, a) && a in db.attempts && db.attempts[a].lease == l
       && db.now - db.attempts[a].lastRenewed <= db.attempts[a].ttl + skew)
    ensures CompleteVerdict(db, skew, t, a, l) == Ok <==> FenceVerdict(db, skew, t, a, l) == Ok && LiveJob(db, t)
    ensures FailVerdict(db, skew, t, a, l) == Ok <==> FenceVerdict(db, skew, t, a, l) == Ok && LiveJob(db, t)
  {
  }

  predicate Reports(e: Event) { e.Renew? || e.Complete? || e.Fail? }

  /** Every report in a run carries the task and the lease of the assignment that created its attempt. */
  lemma ReportsCarryLease(ws: seq<World>, es: seq<Event>, k: nat) returns (i: nat)
    requires IsRun(ws, es) && k < |es| && Reports(es[k])
    ensures i < k && HandsOut(es[i]) && es[i].a == es[k].a && es[i].t == es[k].t && es[i].l == es[k].l
  {
    assert StepAt(ws, es, k);
    AcceptedIff(ws, es, k, es[k].t, es[k].a, es[k].l);
    i := GrantedAt(es[..k], es[k].a);
  }

  lemma {:induction false} GrantedAt(es: seq<Event>, a: AttemptId) returns (i: nat)
    requires Grant(es, a).Some?
    ensures i < |es| && HandsOut(es[i]) && es[i].a == a && Grant(es, a) == Some((es[i].t, es[i].l))
  {
    var n := |es| - 1;
    if HandsOut(es[n]) && es[n].a == a { i := n; } else { i := GrantedAt(es[..n], a); }
  }

  // ---------- the same when assignments interleave ----------

  /** The commit at step i of an interleaving created attempt a of task t with lease l. */
  predicate Creates(ss: seq<Site>, xs: seq<Action>, i: nat, t: TaskId, a: AttemptId, l: LeaseId) {
    && i < |xs| && i < |ss| && xs[i] == InsertAndCommit && ss[i].lock.Some?
    && ss[i].lock.value.t == t && ss[i].lock.value.a == a && ss[i].lock.value.l == l
  }

  lemma {:induction false} SiteCreated(ss: seq<Site>, xs: seq<Action>, k: nat, a: AttemptId) returns (i: nat)
    requires IsSiteRun(ss, xs) && k < |ss| && a in ss[k].w.db.attempts
    ensures i < k && Creates(ss, xs, i, ss[k].w.db.attempts[a].task, a, ss[k].w.db.attempts[a].lease)
  {
    assert k > 0;
    assert ActAt(ss, xs, k - 1);
    SiteRunOk(ss, xs, k - 1);
    if a in ss[k - 1].w.db.attempts {
      SameGrant(ss[k - 1], xs[k - 1], a);
      i := SiteCreated(ss, xs, k - 1, a);
    } else {
      NewGrant(ss[k - 1], xs[k - 1], a);
      i := k - 1;
    }
  }

  lemma SameGrant(s: Site, x: Action, a: AttemptId)
    requires SiteOk(s) && Possible(s, x) && a in s.w.db.attempts && a in Act(s, x).w.db.attempts
    ensures Act(s, x).w.db.attempts[a].task == s.w.db.attempts[a].task && Act(s, x).w.db.attempts[a].lease == s.w.db.attempts[a].lease
  {
    match x {
      case Other(e) => RowStep(s.w, e, a);
      case InsertAndCommit => InsertedRows(s.w, s.lock.value);
      case _ =>
    }
  }

  lemma NewGrant(s: Site, x: Action, a: AttemptId)
    requires SiteOk(s) && Possible(s, x) && a !in s.w.db.attempts && a in Act(s, x).w.db.attempts
    ensures x == InsertAndCommit && s.lock.Some? && s.lock.value.a == a
    ensures Act(s, x).w.db.attempts[a].task == s.lock.value.t && Act(s, x).w.db.attempts[a].lease == s.lock.value.l
  {
    match x {
      case Other(e) => RowStep(s.w, e, a);
      case InsertAndCommit => InsertedRows(s.w, s.lock.value);
      case _ =>
    }
  }

  /** Every report in an interleaving carries the task and the lease of the commit that created its attempt. */
  lemma SiteReportsCarryLease(ss: seq<Site>, xs: seq<Action>, k: nat) returns (i: nat)
    requires IsSiteRun(ss, xs) && k < |xs| && xs[k].Other? && Reports(xs[k].e)
    ensures i < k && Creates(ss, xs, i, xs[k].e.t, xs[k].e.a, xs[k].e.l)
  {
    assert ActAt(ss, xs, k);
    SiteRunOk(ss, xs, k);
    var db, e := ss[k].w.db, xs[k].e;
    VerdictIff(db, ss[k].w.cfg.skew, e.t, e.a, e.l);
    assert TaskOk(db, e.t);
    i := SiteCreated(ss, xs, k, e.a);
  }
}
