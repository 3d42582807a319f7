/** Fencing and exactly-once commit when the checks, the lock and the commit of assignments interleave. */
module SiteHistory {
  import opened Dds
  import opened SchedulerRuns
  import opened SchedulerMoves
  import opened SchedulerInvariant
  import opened SchedulerHistory
  import opened Fencing
  import opened Commits
  import opened Quota

  // ---------- what only grows ----------

  ghost predicate RowsGrow(db: Db, db2: Db) {
    && (forall t :: t in db.tasks ==> TaskGrows(db, db2, t))
    && (forall a :: a in db.attempts ==> AttemptGrows(db, db2, a))
  }

  lemma RowsGrowTrans(a: Db, b: Db, c: Db)
    requires RowsGrow(a, b) && RowsGrow(b, c)
    ensures RowsGrow(a, c)
  {
  }

  lemma OtherGrows(w: World, e: Event)
    requires RowsOk(w.db) && BootOk(w) && Enabled(w, e) && !e.AssignMap? && !e.AssignReduce?
    ensures RowsGrow(w.db, StepDb(w, e))
  {
    var db, db2 := w.db, StepDb(w, e);
    StepRows(w, e);
    forall t | t in db.tasks ensures TaskGrows(db, db2, t) { TaskMoveGrows(db, db2, t); }
    forall a | a in db.attempts ensures AttemptGrows(db, db2, a) { AttemptMoveGrows(db, db2, a); }
  }

  lemma InsertGrows(w: World, h: Holder)
    requires CanInsert(w.db, h) && HolderOk(w, h)
    ensures RowsGrow(w.db, Inserted(w, h).db)
  {
    var db, db2 := w.db, Inserted(w, h).db;
    InsertedRows(w, h);
    BaseRows(db, h, h.t);
    forall t | t in db.tasks ensures TaskGrows(db, db2, t) { BaseRows(db, h, t); }
  }

  lemma ActGrows(s: Site, x: Action)
    requires SiteOk(s) && Possible(s, x)
    ensures RowsGrow(s.w.db, Act(s, x).w.db)
  {
    match x {
      case Other(e) => OtherGrows(s.w, e);
      case InsertAndCommit => InsertGrows(s.w, s.lock.value);
      case _ =>
    }
  }

  /** Between any two states of an interleaving: final states are absorbing and no row points back at an attempt it left. */
  lemma {:induction false} SiteGrows(ss: seq<Site>, xs: seq<Action>, i: nat, k: nat)
    requires IsSiteRun(ss, xs) && i <= k < |ss|
    ensures RowsGrow(ss[i].w.db, ss[k].w.db)
    decreases k
  {
    if i < k {
      SiteGrows(ss, xs, i, k - 1);
      SiteRunOk(ss, xs, k - 1);
      assert ActAt(ss, xs, k - 1);
      ActGrows(ss[k - 1], xs[k - 1]);
      RowsGrowTrans(ss[i].w.db, ss[k - 1].w.db, ss[k].w.db);
    }
  }

  // ---------- fencing ----------

  /** Step k does not renew, complete or fail task t under attempt a. */
  predicate Silent(xs: seq<Action>, k: nat, t: TaskId, a: AttemptId) {
    k < |xs| && xs[k].Other? ==> !ActsAs(xs[k].e, t, a)
  }

  lemma RefusedIsSilent(ss: seq<Site>, xs: seq<Action>, k: nat, t: TaskId, a: AttemptId)
    requires IsSiteRun(ss, xs) && k < |ss| && Refused(ss[k].w, t, a)
    ensures Silent(xs, k, t, a)
  {
    if k < |xs| { assert ActAt(ss, xs, k); }
  }

  /** In every interleaving, once a task has left an attempt, that attempt is refused for ever. */
  lemma SiteLeftForever(ss: seq<Site>, xs: seq<Action>, i: nat, k: nat, t: TaskId, a: AttemptId)
    requires IsSiteRun(ss, xs) && i <= k < |ss|
    requires t in ss[i].w.db.tasks && a in ss[i].w.db.attempts && ss[i].w.db.tasks[t].current != Some(a)
    ensures Refused(ss[k].w, t, a) && Silent(xs, k, t, a)
  {
    SiteGrows(ss, xs, i, k);
    assert TaskGrows(ss[i].w.db, ss[k].w.db, t);
    RefusedIsSilent(ss, xs, k, t, a);
  }

  /** The commit of an assignment fences every earlier attempt of the task for the rest of the run. */
  lemma SiteNewerFences(ss: seq<Site>, xs: seq<Action>, i: nat, k: nat, a: AttemptId)
    requires IsSiteRun(ss, xs) && i < |xs| && i < k < |ss| && xs[i] == InsertAndCommit && a in ss[i].w.db.attempts
    requires ss[i].lock.Some?
    ensures Refused(ss[k].w, ss[i].lock.value.t, a) && Silent(xs, k, ss[i].lock.value.t, a)
  {
    var h := ss[i].lock.value;
    SiteRunOk(ss, xs, i);
    assert ActAt(ss, xs, i);
    InsertedRows(ss[i].w, h);
    SiteLeftForever(ss, xs, i + 1, k, h.t, a);
  }

  /** A task that is no longer In-Progress refuses its former attempts for ever. */
  lemma SiteReclaimFences(ss: seq<Site>, xs: seq<Action>, i: nat, k: nat, t: TaskId, a: AttemptId)
    requires IsSiteRun(ss, xs) && i <= k < |ss|
    requires t in ss[i].w.db.tasks && a in ss[i].w.db.attempts && ss[i].w.db.tasks[t].status != InProgress
    ensures Refused(ss[k].w, t, a) && Silent(xs, k, t, a)
  {
    SiteRunOk(ss, xs, i);
    assert TaskOk(ss[i].w.db, t);
    if ss[i].w.db.tasks[t].current != Some(a) {
      SiteLeftForever(ss, xs, i, k, t, a);
    } else {
      SiteGrows(ss, xs, i, k);
      assert TaskGrows(ss[i].w.db, ss[k].w.db, t);
      RefusedIsSilent(ss, xs, k, t, a);
    }
  }

  // ---------- commits ----------

  predicate CommitAt(xs: seq<Action>, i: nat) { i < |xs| && xs[i].Other? && xs[i].e.Complete? }

  lemma OtherOutputsOk(w: World, e: Event)
    requires RowsOk(w.db) && BootOk(w) && OutputsOk(w.db) && Enabled(w, e) && !e.AssignMap? && !e.AssignReduce?
    ensures OutputsOk(StepDb(w, e))
  {
    OtherGrows(w, e);
    var db, db2 := w.db, StepDb(w, e);
    forall i | 0 <= i < |db.outputs| ensures db.outputs[i].task in db2.tasks && db2.tasks[db.outputs[i].task].status == TaskCompleted {
      assert TaskGrows(db, db2, db.outputs[i].task);
    }
    if e.Complete? { CompletedRows(db, e.t, e.a, e.outs); } else { SameOutputs(w, e); }
  }

  lemma {:induction false} SiteOutputsOk(ss: seq<Site>, xs: seq<Action>, k: nat)
    requires IsSiteRun(ss, xs) && k < |ss|
    ensures OutputsOk(ss[k].w.db)
  {
    if k > 0 {
      SiteOutputsOk(ss, xs, k - 1);
      SiteRunOk(ss, xs, k - 1);
      assert ActAt(ss, xs, k - 1);
      match xs[k - 1] {
        case Other(e) => OtherOutputsOk(ss[k - 1].w, e);
        case InsertAndCommit => InsertOutputsOk(ss[k - 1].w, ss[k - 1].lock.value);
        case _ =>
      }
    }
  }

  lemma InsertOutputsOk(w: World, h: Holder)
    requires OutputsOk(w.db) && CanInsert(w.db, h) && HolderOk(w, h)
    ensures OutputsOk(Inserted(w, h).db)
  {
    InsertGrows(w, h);
    InsertedRows(w, h);
    var db, db2 := w.db, Inserted(w, h).db;
    forall i | 0 <= i < |db.outputs| ensures db.outputs[i].task in db2.tasks && db2.tasks[db.outputs[i].task].status == TaskCompleted {
      assert TaskGrows(db, db2, db.outputs[i].task);
    }
  }

  /** Task t is Completed by attempt a, the only one that succeeded, and its output rows are the list `outs`. */
  ghost predicate CommittedBy(db: Db, t: TaskId, a: AttemptId, outs: seq<(string, string)>) {
    && t in db.tasks && db.tasks[t].status == TaskCompleted
    && a in db.attempts && db.attempts[a].status == AttemptSuccess && db.attempts[a].task == t
    && (forall b :: b in db.attempts && db.attempts[b].task == t && db.attempts[b].status == AttemptSuccess ==> b == a)
    && OutputsOf(db.outputs, t) == OutputRows(t, outs)
  }

  lemma CommitCommits(w: World, e: Event)
    requires RowsOk(w.db) && OutputsOk(w.db) && Enabled(w, e) && e.Complete?
    ensures CommittedBy(StepDb(w, e), e.t, e.a, e.outs)
  {
    assert TaskOk(w.db, e.t);
    CompletedRows(w.db, e.t, e.a, e.outs);
    StepOutputs(w, e, e.t);
    forall b | b in w.db.attempts && w.db.attempts[b].task == e.t ensures w.db.attempts[b].status != AttemptSuccess {
      assert AttemptOk(w.db, b);
    }
  }

  lemma CommittedStays(w: World, e: Event, t: TaskId, a: AttemptId, outs: seq<(string, string)>)
    requires RowsOk(w.db) && BootOk(w) && OutputsOk(w.db) && Enabled(w, e) && !e.AssignMap? && !e.AssignReduce?
    requires CommittedBy(w.db, t, a, outs)
    ensures CommittedBy(StepDb(w, e), t, a, outs) && !CommitsTask(e, t)
  {
    NotAgain(w, e, t);
    KeepsOutputs(w, e, t);
    StepRows(w, e);
    CommittedMoves(w.db, StepDb(w, e), t, a, outs);
  }

  lemma NotAgain(w: World, e: Event, t: TaskId)
    requires Enabled(w, e) && t in w.db.tasks && w.db.tasks[t].status == TaskCompleted
    ensures !CommitsTask(e, t)
  {
  }

  lemma KeepsOutputs(w: World, e: Event, t: TaskId)
    requires OutputsOk(w.db) && Enabled(w, e) && !CommitsTask(e, t)
    ensures OutputsOf(StepDb(w, e).outputs, t) == OutputsOf(w.db.outputs, t)
  {
    StepOutputs(w, e, t);
  }

  lemma CommittedMoves(db: Db, db2: Db, t: TaskId, a: AttemptId, outs: seq<(string, string)>)
    requires RowsOk(db) && RowsMove(db, db2) && CommittedBy(db, t, a, outs) && OutputsOf(db2.outputs, t) == OutputRows(t, outs)
    ensures CommittedBy(db2, t, a, outs)
  {
    TaskMoveGrows(db, db2, t);
    AttemptMoveGrows(db, db2, a);
    forall b | b in db2.attempts && db2.attempts[b].task == t && db2.attempts[b].status == AttemptSuccess ensures b == a {
      assert b in db.attempts ==> AttemptMove(db, db2, b);
      assert b !in db.attempts ==> AttemptBirth(db, db2, b);
    }
  }

  lemma InsertKeepsCommitted(w: World, h: Holder, t: TaskId, a: AttemptId, outs: seq<(string, string)>)
    requires CanInsert(w.db, h) && HolderOk(w, h) && CommittedBy(w.db, t, a, outs)
    ensures CommittedBy(Inserted(w, h).db, t, a, outs) && h.t != t
  {
    InsertedRows(w, h);
    BaseRows(w.db, h, t);
    BaseRows(w.db, h, h.t);
  }

  /** In every interleaving, after an accepted commit the task stays committed by that attempt with that list, and it is
      neither handed out nor committed again. */
  lemma {:induction false} SiteCommitForever(ss: seq<Site>, xs: seq<Action>, i: nat, k: nat)
    requires IsSiteRun(ss, xs) && i < k < |ss| && CommitAt(xs, i)
    ensures CommittedBy(ss[k].w.db, xs[i].e.t, xs[i].e.a, xs[i].e.outs)
    ensures k < |xs| && xs[k].Other? ==> !CommitsTask(xs[k].e, xs[i].e.t)
    ensures k < |xs| && xs[k] == InsertAndCommit ==> ss[k].lock.Some? && ss[k].lock.value.t != xs[i].e.t
    decreases k
  {
    var t, a, outs := xs[i].e.t, xs[i].e.a, xs[i].e.outs;
    assert ActAt(ss, xs, k - 1);
    SiteRunOk(ss, xs, k - 1);
    SiteOutputsOk(ss, xs, k - 1);
    if k == i + 1 {
      CommitCommits(ss[i].w, xs[i].e);
    } else {
      SiteCommitForever(ss, xs, i, k - 1);
      match xs[k - 1] {
        case Other(e) => CommittedStays(ss[k - 1].w, e, t, a, outs);
        case InsertAndCommit => InsertKeepsCommitted(ss[k - 1].w, ss[k - 1].lock.value, t, a, outs);
        case _ =>
      }
    }
    if k < |xs| { LeavesCommitted(ss, xs, k, t, a, outs); }
  }

  lemma LeavesCommitted(ss: seq<Site>, xs: seq<Action>, k: nat, t: TaskId, a: AttemptId, outs: seq<(string, string)>)
    requires IsSiteRun(ss, xs) && k < |xs| && CommittedBy(ss[k].w.db, t, a, outs)
    ensures xs[k].Other? ==> !CommitsTask(xs[k].e, t)
    ensures xs[k] == InsertAndCommit ==> ss[k].lock.Some? && ss[k].lock.value.t != t
  {
    assert ActAt(ss, xs, k);
    SiteRunOk(ss, xs, k);
    if xs[k] == InsertAndCommit { InsertKeepsCommitted(ss[k].w, ss[k].lock.value, t, a, outs); }
  }

  /** A task is committed at most once, however assignments interleave. */
  lemma SiteCommitOnce(ss: seq<Site>, xs: seq<Action>, i: nat, k: nat)
    requires IsSiteRun(ss, xs) && CommitAt(xs, i) && CommitAt(xs, k) && xs[i].e.t == xs[k].e.t
    ensures i == k
  {
    if i < k { SiteCommitForever(ss, xs, i, k); } else if k < i { SiteCommitForever(ss, xs, k, i); }
  }
}
