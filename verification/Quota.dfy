/** The cluster-wide pod quota, at the grain of check, lock-and-read, and insert-and-commit. */
module Quota {
  import opened Dds
  import opened SchedulerSpec
  import opened SchedulerRuns
  import opened SchedulerMoves
  import opened SchedulerInvariant

  /** An assignment transaction: who runs it and the row it is about to hand out. */
  datatype Holder = Holder(r: Replica, j: JobId, kind: TaskKind, t: TaskId, a: AttemptId, l: LeaseId)

  /** `open` holds the assignment transactions past their checks; `lock` is the one that holds the advisory lock;
      `high` is the largest pod limit configured so far. */
  datatype Site = Site(w: World, open: set<Holder>, lock: Option<Holder>, high: int)

  datatype Action =
    | Begin(h: Holder)            // the failed-task and routing checks, and the choice of an idle row
    | LockAndRead(h: Holder)      // pg_advisory_xact_lock, then the limit and the Running count
    | InsertAndCommit             // the guarded UPDATE, the INSERT, and COMMIT, which releases the lock
    | Abandon(h: Holder)          // any error: ROLLBACK
    | Other(e: Event)             // any other transaction of any replica, which does not take the lock

  predicate Possible(s: Site, x: Action) {
    match x
    case Begin(h) => h.r !in s.w.booting && CanBegin(s.w.db, h)
    case LockAndRead(h) => h in s.open && s.lock == None && QuotaFree(s.w.db)
    case InsertAndCommit => s.lock.Some? && CanInsert(s.w.db, s.lock.value)
    case Abandon(h) => h in s.open
    case Other(e) => !e.AssignMap? && !e.AssignReduce? && Enabled(s.w, e)
  }

  /** What the inserting transaction writes on top of: a reduce assignment also skips the empty partitions. */
  function Base(db: Db, h: Holder): Db {
    if h.kind == ReduceTask then AutoCompleted(db, h.j) else db
  }

  /** The checks of GetNextTask; any idle row may be the first one not locked by someone else. */
  predicate CanBegin(db: Db, h: Holder) {
    && Routable(db, h.j, h.r) && (h.kind == ReduceTask ==> MapsDone(db, h.j))
    && h.t in IdleTasks(Base(db, h), h.j, h.r, h.kind, {})
  }

  predicate CanInsert(db: Db, h: Holder) {
    h.t in db.tasks && Base(db, h).tasks[h.t].status == Idle && h.a !in db.attempts
  }

  function Inserted(w: World, h: Holder): World {
    PutMem(w.(db := Assigned(Base(w.db, h), w.cfg.leaseTtl, h.j, h.t, h.a, h.l)), h.r,
           Mem(w, h.r).(heartbeats := Mem(w, h.r).heartbeats[h.a := w.db.now]))
  }

  function Act(s: Site, x: Action): Site
    requires Possible(s, x)
  {
    match x
    case Begin(h) => s.(open := s.open + {h})
    case LockAndRead(h) => s.(lock := Some(h))
    case InsertAndCommit =>
      s.(w := Inserted(s.w, s.lock.value), open := s.open - {s.lock.value}, lock := None)
    case Abandon(h) => s.(open := s.open - {h}, lock := if s.lock == Some(h) then None else s.lock)
    case Other(e) =>
      Dropped(s.(w := Step(s.w, e), high := if e.SetQuota? && e.pods > s.high then e.pods else s.high), e)
  }

  /** A process that stops takes its open transactions, and with them the lock, down. */
  function Dropped(s: Site, e: Event): Site {
    if !e.Restart? then s
    else s.(open := (set h | h in s.open && h.r != e.r), lock := if s.lock.Some? && s.lock.value.r == e.r then None else s.lock)
  }

  predicate SiteInit(s: Site) {
    Init(s.w) && s.open == {} && s.lock == None && s.high >= 0 && s.high >= MaxPods(s.w.db)
  }

  ghost predicate IsSiteRun(ss: seq<Site>, xs: seq<Action>) {
    && |ss| == |xs| + 1
    && SiteInit(ss[0])
    && forall i :: 0 <= i < |xs| ==> ActAt(ss, xs, i)
  }

  ghost predicate ActAt(ss: seq<Site>, xs: seq<Action>, i: nat)
    requires i < |xs| < |ss|
  {
    Possible(ss[i], xs[i]) && ss[i + 1] == Act(ss[i], xs[i])
  }

  // ---------- no more Running attempts than slots ----------

  /** The slot that the lock holder has been promised is already counted. */
  ghost predicate WithinLimit(s: Site) {
    && |RunningAttempts(s.w.db)| + (if s.lock.Some? then 1 else 0) <= s.high
    && MaxPods(s.w.db) <= s.high
  }

  lemma SubsetSize<T>(a: set<T>, b: set<T>)
    requires a <= b
    ensures |a| <= |b|
  {
    if a != {} {
      var x :| x in a;
      SubsetSize(a - {x}, b - {x});
    }
  }

  lemma OthersDoNotRun(w: World, e: Event)
    requires Enabled(w, e) && !e.AssignMap? && !e.AssignReduce?
    ensures RunningAttempts(StepDb(w, e)) <= RunningAttempts(w.db)
  {
  }

  lemma LimitStays(w: World, e: Event)
    requires Enabled(w, e)
    ensures StepDb(w, e).maxPods == if e.SetQuota? then Some(e.pods) else w.db.maxPods
  {
  }

  lemma InsertRunsOne(s: Site)
    requires Possible(s, InsertAndCommit)
    ensures RunningAttempts(Act(s, InsertAndCommit).w.db) == RunningAttempts(s.w.db) + {s.lock.value.a}
    ensures Act(s, InsertAndCommit).w.db.maxPods == s.w.db.maxPods
  {
  }

  lemma ActStaysWithin(s: Site, x: Action)
    requires WithinLimit(s) && Possible(s, x)
    ensures WithinLimit(Act(s, x))
  {
    if x.InsertAndCommit? {
      InsertRunsOne(s);
    } else if x.Other? {
      OthersDoNotRun(s.w, x.e);
      LimitStays(s.w, x.e);
      SubsetSize(RunningAttempts(StepDb(s.w, x.e)), RunningAttempts(s.w.db));
    }
  }

  /** However many replicas interleave, the Running attempts never exceed the largest limit configured so far. */
  lemma {:induction false} NeverOversubscribed(ss: seq<Site>, xs: seq<Action>, k: nat)
    requires IsSiteRun(ss, xs) && k < |ss|
    ensures WithinLimit(ss[k])
    ensures |RunningAttempts(ss[k].w.db)| <= ss[k].high
  {
    if k == 0 {
      assert RunningAttempts(ss[0].w.db) == {};
    } else {
      NeverOversubscribed(ss, xs, k - 1);
      assert ActAt(ss, xs, k - 1);
      ActStaysWithin(ss[k - 1], xs[k - 1]);
    }
  }

  // ---------- one Running attempt per task ----------

  /** An open transaction belongs to a live process and to a task of a job that process owns. */
  predicate HolderOk(w: World, h: Holder) {
    && h.r !in w.booting && h.t in w.db.tasks && w.db.tasks[h.t].job == h.j
    && h.j in w.db.jobs && w.db.jobs[h.j].replica == h.r
  }

  ghost predicate SiteOk(s: Site) {
    && RowsOk(s.w.db) && BootOk(s.w)
    && (forall h :: h in s.open ==> HolderOk(s.w, h))
    && (s.lock.Some? ==> s.lock.value in s.open)
  }

  lemma BeginHolder(w: World, h: Holder)
    requires h.r !in w.booting && CanBegin(w.db, h)
    ensures HolderOk(w, h)
  {
  }

  /** The rows an insert writes. */
  lemma InsertedRows(w: World, h: Holder)
    requires CanInsert(w.db, h) && h.j in w.db.jobs
    ensures var db2 := Inserted(w, h).db;
      && db2.tasks == Base(w.db, h).tasks[h.t := w.db.tasks[h.t].(status := InProgress, current := Some(h.a))]
      && db2.attempts == w.db.attempts[h.a := Attempt(h.t, h.l, w.db.now, w.cfg.leaseTtl, AttemptRunning)]
      && db2.jobs == w.db.jobs[h.j := w.db.jobs[h.j].(status := JobRunning)]
      && db2.outputs == w.db.outputs
  {
  }

  /** Skipping empty partitions touches Idle rows only. */
  lemma BaseRows(db: Db, h: Holder, t: TaskId)
    requires t in db.tasks
    ensures t in Base(db, h).tasks
    ensures Base(db, h).tasks[t] == db.tasks[t]
      || (h.kind == ReduceTask && db.tasks[t].status == Idle && db.tasks[t].job == h.j
          && Base(db, h).tasks[t] == db.tasks[t].(status := TaskCompleted, current := None))
    ensures Base(db, h).tasks.Keys == db.tasks.Keys
  {
  }

  lemma InsertKeepsRows(w: World, h: Holder)
    requires RowsOk(w.db) && CanInsert(w.db, h) && HolderOk(w, h)
    ensures RowsOk(Inserted(w, h).db)
  {
    var db, db2 := w.db, Inserted(w, h).db;
    InsertedRows(w, h);
    BaseRows(db, h, h.t);
    forall t | t in db2.tasks ensures TaskOk(db2, t) {
      assert TaskOk(db, t);
      BaseRows(db, h, t);
    }
    forall a | a in db2.attempts ensures AttemptOk(db2, a) {
      if a in db.attempts {
        assert AttemptOk(db, a);
        BaseRows(db, h, db.attempts[a].task);
      }
    }
  }

  lemma InsertKeepsBoot(w: World, h: Holder, q: Replica)
    requires RowsOk(w.db) && CanInsert(w.db, h) && HolderOk(w, h) && q in w.booting && RunningOfReplica(w.db, q) == {}
    ensures RunningOfReplica(Inserted(w, h).db, q) == {}
  {
    var db, db2 := w.db, Inserted(w, h).db;
    InsertedRows(w, h);
    BaseRows(db, h, h.t);
    forall a | a in db.attempts && db.attempts[a].status == AttemptRunning ensures a !in RunningOfReplica(db2, q) {
      assert AttemptOk(db, a) && a !in RunningOfReplica(db, q);
      BaseRows(db, h, db.attempts[a].task);
    }
  }

  lemma InsertKeepsHolder(w: World, h: Holder, g: Holder)
    requires CanInsert(w.db, h) && HolderOk(w, h) && HolderOk(w, g)
    ensures HolderOk(Inserted(w, h), g)
  {
    InsertedRows(w, h);
    BaseRows(w.db, h, g.t);
  }

  lemma InsertKeepsSite(s: Site)
    requires SiteOk(s) && Possible(s, InsertAndCommit)
    ensures SiteOk(Act(s, InsertAndCommit))
  {
    var h := s.lock.value;
    InsertKeepsRows(s.w, h);
    forall q | q in s.w.booting ensures RunningOfReplica(Inserted(s.w, h).db, q) == {} { InsertKeepsBoot(s.w, h, q); }
    forall g | g in s.open ensures HolderOk(Inserted(s.w, h), g) { InsertKeepsHolder(s.w, h, g); }
  }

  lemma OtherKeepsSite(s: Site, e: Event)
    requires SiteOk(s) && Possible(s, Other(e))
    ensures SiteOk(Act(s, Other(e)))
  {
    StepRows(s.w, e);
    RowsStay(s.w.db, StepDb(s.w, e));
    StepBoot(s.w, e);
    forall h | h in Act(s, Other(e)).open ensures HolderOk(Step(s.w, e), h) {
      assert HolderOk(s.w, h) && TaskMove(s.w.db, StepDb(s.w, e), h.t);
    }
  }

  lemma ActKeepsSite(s: Site, x: Action)
    requires SiteOk(s) && Possible(s, x)
    ensures SiteOk(Act(s, x))
  {
    match x {
      case Begin(h) => BeginHolder(s.w, h);
      case InsertAndCommit => InsertKeepsSite(s);
      case Other(e) => OtherKeepsSite(s, e);
      case LockAndRead(h) =>
      case Abandon(h) =>
    }
  }

  lemma {:induction false} SiteRunOk(ss: seq<Site>, xs: seq<Action>, k: nat)
    requires IsSiteRun(ss, xs) && k < |ss|
    ensures SiteOk(ss[k])
  {
    if k > 0 {
      SiteRunOk(ss, xs, k - 1);
      assert ActAt(ss, xs, k - 1);
      ActKeepsSite(ss[k - 1], xs[k - 1]);
    }
  }

  /** In every state of every such interleaving a Running attempt is the current attempt of an In-Progress task, so a
      task has at most one. */
  lemma OneRunningPerTask(ss: seq<Site>, xs: seq<Action>, k: nat, a: AttemptId, b: AttemptId)
    requires IsSiteRun(ss, xs) && k < |ss| && a in RunningAttempts(ss[k].w.db)
    ensures var db := ss[k].w.db; var t := db.attempts[a].task;
      && t in db.tasks && db.tasks[t].status == InProgress && db.tasks[t].current == Some(a)
      && (b in RunningAttempts(db) && db.attempts[b].task == t ==> a == b)
  {
    SiteRunOk(ss, xs, k);
    assert AttemptOk(ss[k].w.db, a) && (b in ss[k].w.db.attempts ==> AttemptOk(ss[k].w.db, b));
  }

  // ---------- against the atomic assignment ----------

  function HolderOf(e: Event): Holder
    requires e.AssignMap? || e.AssignReduce?
  {
    Holder(e.r, e.j, if e.AssignMap? then MapTask else ReduceTask, e.t, e.a, e.l)
  }

  /** The three fine steps back to back do what the atomic assignment event does. */
  lemma AssignIsThreeSteps(s: Site, e: Event)
    requires s.lock == None && Enabled(s.w, e) && (e.AssignMap? || e.AssignReduce?) && HolderOf(e) !in s.open
    ensures var h := HolderOf(e);
      && Possible(s, Begin(h))
      && var s1 := Act(s, Begin(h));
         && Possible(s1, LockAndRead(h))
         && var s2 := Act(s1, LockAndRead(h));
            Possible(s2, InsertAndCommit) && Act(s2, InsertAndCommit) == s.(w := Step(s.w, e))
  {
    var h := HolderOf(e);
    if e.AssignReduce? {
      AssignReduceRows(s.w.db, s.w.cfg.leaseTtl, e.j, e.r, e.t, e.a, e.l, e.locked);
      assert RunningAttempts(AutoCompleted(s.w.db, e.j)) == RunningAttempts(s.w.db);
    }
    assert s.open + {h} - {h} == s.open;
  }

  // ---------- runs from one site to another ----------

  ghost predicate SiteLeads(s: Site, xs: seq<Action>, s2: Site)
    decreases |xs|
  {
    if xs == [] then s == s2 else Possible(s, xs[0]) && SiteLeads(Act(s, xs[0]), xs[1..], s2)
  }

  lemma {:induction false} SiteLeadsJoin(s: Site, xs: seq<Action>, s1: Site, ys: seq<Action>, s2: Site)
    requires SiteLeads(s, xs, s1) && SiteLeads(s1, ys, s2)
    ensures SiteLeads(s, xs + ys, s2)
    decreases |xs|
  {
    if xs == [] {
      assert xs + ys == ys;
    } else {
      SiteLeadsJoin(Act(s, xs[0]), xs[1..], s1, ys, s2);
      assert (xs + ys)[1..] == xs[1..] + ys;
    }
  }

  lemma SiteLeadsOne(s: Site, x: Action)
    requires Possible(s, x)
    ensures SiteLeads(s, [x], Act(s, x))
  {
    assert [x][1..] == [];
  }

  lemma SiteLeadsOn(s: Site, xs: seq<Action>, s1: Site, x: Action)
    requires SiteLeads(s, xs, s1) && Possible(s1, x)
    ensures SiteLeads(s, xs + [x], Act(s1, x))
  {
    SiteLeadsOne(s1, x);
    SiteLeadsJoin(s, xs, s1, [x], Act(s1, x));
  }

  ghost predicate Acts(ss: seq<Site>, xs: seq<Action>) {
    |ss| == |xs| + 1 && forall i :: 0 <= i < |xs| ==> ActAt(ss, xs, i)
  }

  lemma {:induction false} SiteLeadsActs(s: Site, xs: seq<Action>, s2: Site) returns (ss: seq<Site>)
    requires SiteLeads(s, xs, s2)
    ensures Acts(ss, xs) && ss[0] == s && ss[|xs|] == s2
    decreases |xs|
  {
    if xs == [] {
      ss := [s];
    } else {
      var rest := SiteLeadsActs(Act(s, xs[0]), xs[1..], s2);
      ss := [s] + rest;
      forall i | 0 <= i < |xs| ensures ActAt(ss, xs, i) {
        if i > 0 { assert ActAt(rest, xs[1..], i - 1); }
      }
    }
  }

  lemma SiteRunOn(ss: seq<Site>, xs: seq<Action>, x: Action)
    requires IsSiteRun(ss, xs) && Possible(ss[|xs|], x)
    ensures IsSiteRun(ss + [Act(ss[|xs|], x)], xs + [x])
  {
    var ss2, xs2 := ss + [Act(ss[|xs|], x)], xs + [x];
    forall i | 0 <= i < |xs2| ensures ActAt(ss2, xs2, i) {
      if i < |xs| { assert ActAt(ss, xs, i); }
    }
  }

  /** Every run with atomic assignments is one of the interleaved runs. */
  lemma {:induction false} RunIsSiteRun(w: World, es: seq<Event>, v: World, high: int) returns (xs: seq<Action>, s: Site)
    requires Leads(w, es, v)
    ensures SiteLeads(Site(w, {}, None, high), xs, s) && s.w == v && s.open == {} && s.lock == None
    decreases |es|
  {
    var s0 := Site(w, {}, None, high);
    if es == [] {
      xs, s := [], s0;
    } else {
      var ys, s1 := EventIsActions(s0, es[0]);
      var rest;
      rest, s := RunIsSiteRun(s1.w, es[1..], v, s1.high);
      SiteLeadsJoin(s0, ys, s1, rest, s);
      xs := ys + rest;
    }
  }

  lemma EventIsActions(s: Site, e: Event) returns (xs: seq<Action>, s1: Site)
    requires s.open == {} && s.lock == None && Enabled(s.w, e)
    ensures SiteLeads(s, xs, s1) && s1 == Site(Step(s.w, e), {}, None, s1.high)
  {
    if e.AssignMap? || e.AssignReduce? {
      var h := HolderOf(e);
      AssignIsThreeSteps(s, e);
      SiteLeadsOne(s, Begin(h));
      var a := Act(s, Begin(h));
      SiteLeadsOn(s, [Begin(h)], a, LockAndRead(h));
      var b := Act(a, LockAndRead(h));
      SiteLeadsOn(s, [Begin(h)] + [LockAndRead(h)], b, InsertAndCommit);
      xs, s1 := [Begin(h)] + [LockAndRead(h)] + [InsertAndCommit], s.(w := Step(s.w, e));
    } else {
      SiteLeadsOne(s, Other(e));
      xs, s1 := [Other(e)], Act(s, Other(e));
      assert s1.open == {};
    }
  }

  /** The bound is the largest limit, not the present one: lowering the limit stops nobody. */
  lemma LoweredLimitExceeded(s: Site, n: int)
    requires n < |RunningAttempts(s.w.db)|
    ensures Possible(s, Other(SetQuota(n)))
    ensures var s2 := Act(s, Other(SetQuota(n))); |RunningAttempts(s2.w.db)| > MaxPods(s2.w.db)
  {
    assert RunningAttempts(Act(s, Other(SetQuota(n))).w.db) == RunningAttempts(s.w.db);
  }
}
