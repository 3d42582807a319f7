/** Bounded retries, and the measure that bounds all work between two recoveries. */
module Retries {
  import opened Dds
  import opened SchedulerSpec
  import opened SchedulerRuns
  import opened SchedulerMoves
  import opened SchedulerInvariant

  function Tries(db: Db, t: TaskId): nat { |AttemptsOf(db, t)| }

  /** How often Recover has returned the tasks of replica `r` to Idle. */
  function Resets(es: seq<Event>, r: Replica): nat {
    if es == [] then 0
    else Resets(es[..|es| - 1], r) + if es[|es| - 1] == ResetTasks(r) then 1 else 0
  }

  // ---------- attempt counts ----------

  /** Attempts keep their task, and a new one is the attempt its task starts under. */
  lemma AttemptKept(db: Db, db2: Db, t: TaskId, a: AttemptId)
    requires AttemptsMove(db, db2)
    ensures a in AttemptsOf(db, t) ==> a in AttemptsOf(db2, t)
    ensures a in AttemptsOf(db2, t) && a !in AttemptsOf(db, t) ==> Starts(db, db2, t) && db2.tasks[t].current == Some(a)
  {
    if a in db.attempts {
      assert AttemptMove(db, db2, a);
    } else if a in db2.attempts {
      assert AttemptBirth(db, db2, a);
    }
  }

  /** A task gains one attempt when it starts and none otherwise. */
  lemma TriesMove(db: Db, db2: Db, t: TaskId)
    requires AttemptsMove(db, db2) && t in db.tasks
    ensures Starts(db, db2, t) ==> Tries(db2, t) == Tries(db, t) + 1
    ensures !Starts(db, db2, t) ==> Tries(db2, t) == Tries(db, t)
  {
    var before, after := AttemptsOf(db, t), AttemptsOf(db2, t);
    forall a: AttemptId ensures (a in before ==> a in after) && (a in after && a !in before ==> Starts(db, db2, t) && db2.tasks[t].current == Some(a)) {
      AttemptKept(db, db2, t, a);
    }
    if Starts(db, db2, t) {
      assert after == before + {db2.tasks[t].current.value};
    } else {
      assert after == before;
    }
  }

  /** Only Recover returns a task that has used up its attempts. */
  lemma ReturnsBelowLimit(w: World, e: Event, t: TaskId)
    requires Enabled(w, e) && Returns(w.db, StepDb(w, e), t)
    ensures Tries(w.db, t) < MAX_TASK_ATTEMPTS
      || (e.ResetTasks? && w.db.tasks[t].job in w.db.jobs && w.db.jobs[w.db.tasks[t].job].replica == e.r)
  {
  }

  lemma NewTaskUntried(db: Db, db2: Db, t: TaskId)
    requires DbOk(db) && Moves(db, db2) && t !in db.tasks && t in db2.tasks
    ensures Tries(db2, t) == 0
  {
    assert forall a :: a in db.attempts ==> AttemptMove(db, db2, a) && AttemptOk(db, a);
    assert forall a :: a in db2.attempts && a !in db.attempts ==> AttemptBirth(db, db2, a);
    assert AttemptsOf(db2, t) == {};
  }

  /** `resets` recoveries so far: an Idle task can still be tried. */
  predicate Bounded(db: Db, t: TaskId, resets: nat)
    requires t in db.tasks
  {
    && Tries(db, t) <= MAX_TASK_ATTEMPTS + resets
    && (db.tasks[t].status == Idle ==> Tries(db, t) < MAX_TASK_ATTEMPTS + resets)
  }

  lemma BoundedMove(db: Db, db2: Db, t: TaskId, n: nat, n2: nat)
    requires DbOk(db) && Moves(db, db2) && t in db.tasks && Bounded(db, t, n) && n <= n2
    requires Returns(db, db2, t) ==> Tries(db, t) < MAX_TASK_ATTEMPTS || n < n2
    ensures t in db2.tasks && Bounded(db2, t, n2)
  {
    TriesMove(db, db2, t);
    assert TaskMove(db, db2, t);
  }

  lemma BoundedStep(w: World, e: Event, t: TaskId, n: nat)
    requires Inv(w) && Enabled(w, e) && t in w.db.tasks && w.db.tasks[t].job in w.db.jobs && Bounded(w.db, t, n)
    ensures var db2 := Step(w, e).db;
      && t in db2.tasks && db2.tasks[t].job == w.db.tasks[t].job && db2.tasks[t].job in db2.jobs
      && db2.jobs[db2.tasks[t].job].replica == w.db.jobs[w.db.tasks[t].job].replica
      && Bounded(db2, t, if e == ResetTasks(w.db.jobs[w.db.tasks[t].job].replica) then n + 1 else n)
  {
    var db2 := Step(w, e).db;
    StepMoves(w, e);
    assert TaskMove(w.db, db2, t) && JobMove(w.db, db2, w.db.tasks[t].job);
    if Returns(w.db, db2, t) { ReturnsBelowLimit(w, e, t); }
    BoundedMove(w.db, db2, t, n, if e == ResetTasks(w.db.jobs[w.db.tasks[t].job].replica) then n + 1 else n);
  }

  /** A task is attempted at most MaxTaskAttempts times plus once per recovery of its job's replica. */
  lemma {:induction false} AttemptBound(ws: seq<World>, es: seq<Event>, k: nat, t: TaskId)
    requires IsRun(ws, es) && k < |ws| && t in ws[k].db.tasks
    ensures ws[k].db.tasks[t].job in ws[k].db.jobs
    ensures Bounded(ws[k].db, t, Resets(es[..k], ws[k].db.jobs[ws[k].db.tasks[t].job].replica))
  {
    RunInv(ws, es, k);
    assert TaskOk(ws[k].db, t);
    if k > 0 {
      var w, e := ws[k - 1], es[k - 1];
      assert StepAt(ws, es, k - 1);
      RunInv(ws, es, k - 1);
      assert es[..k][..k - 1] == es[..k - 1];
      if t in w.db.tasks {
        AttemptBound(ws, es, k - 1, t);
        BoundedStep(w, e, t, Resets(es[..k - 1], w.db.jobs[w.db.tasks[t].job].replica));
      } else {
        StepMoves(w, e);
        NewTaskUntried(w.db, ws[k].db, t);
      }
    }
  }

  // ---------- the measure ----------

  /** What a task may still cost: falls with every status change except a recovery's return to Idle. */
  function Rank(db: Db, t: TaskId): nat
    requires t in db.tasks
  {
    var left := MAX_TASK_ATTEMPTS - Tries(db, t);
    match db.tasks[t].status
    case TaskCompleted => 0
    case TaskFailed => 0
    case InProgress => if left > 0 then 2 * left + 1 else 1
    case Idle => if left > 1 then 2 * left else 2
  }

  lemma RankMove(db: Db, db2: Db, t: TaskId)
    requires DbOk(db) && Moves(db, db2) && t in db.tasks
    requires Returns(db, db2, t) ==> Tries(db, t) < MAX_TASK_ATTEMPTS
    ensures t in db2.tasks && Rank(db2, t) <= Rank(db, t)
    ensures db2.tasks[t].status != db.tasks[t].status ==> Rank(db2, t) < Rank(db, t)
  {
    TriesMove(db, db2, t);
    assert TaskMove(db, db2, t);
    if Starts(db, db2, t) { assert !Returns(db, db2, t); }
  }

  ghost function SumRank(db: Db, ts: set<TaskId>): nat
    requires ts <= db.tasks.Keys
  {
    if ts == {} then 0
    else
      var t :| t in ts;
      Rank(db, t) + SumRank(db, ts - {t})
  }

  ghost function Potential(db: Db): nat { SumRank(db, db.tasks.Keys) }

  lemma {:induction false} SumRankSplit(db: Db, ts: set<TaskId>, t: TaskId)
    requires ts <= db.tasks.Keys && t in ts
    ensures SumRank(db, ts) == Rank(db, t) + SumRank(db, ts - {t})
    decreases |ts|
  {
    var u :| u in ts && SumRank(db, ts) == Rank(db, u) + SumRank(db, ts - {u});
    if u != t {
      SumRankSplit(db, ts - {u}, t);
      SumRankSplit(db, ts - {t}, u);
      assert ts - {u} - {t} == ts - {t} - {u};
    }
  }

  lemma {:induction false} SumRankFalls(db: Db, db2: Db, ts: set<TaskId>)
    requires ts <= db.tasks.Keys && ts <= db2.tasks.Keys
    requires forall t :: t in ts ==> Rank(db2, t) <= Rank(db, t)
    ensures SumRank(db2, ts) <= SumRank(db, ts)
    decreases |ts|
  {
    if ts != {} {
      var t :| t in ts;
      SumRankSplit(db, ts, t);
      SumRankSplit(db2, ts, t);
      SumRankFalls(db, db2, ts - {t});
    }
  }

  lemma RankBound(db: Db, t: TaskId)
    requires RowsOk(db) && t in db.tasks
    ensures Rank(db, t) <= 2 * MAX_TASK_ATTEMPTS
  {
    assert TaskOk(db, t);
    if db.tasks[t].status == InProgress { assert db.tasks[t].current.value in AttemptsOf(db, t); }
  }

  lemma {:induction false} SumRankBound(db: Db, ts: set<TaskId>)
    requires RowsOk(db) && ts <= db.tasks.Keys
    ensures SumRank(db, ts) <= 2 * MAX_TASK_ATTEMPTS * |ts|
    decreases |ts|
  {
    if ts != {} {
      var t :| t in ts;
      RankBound(db, t);
      SumRankSplit(db, ts, t);
      SumRankBound(db, ts - {t});
      assert |ts| == |ts - {t}| + 1;
    }
  }

  /** The event changes the status of at least one task. */
  ghost predicate Works(w: World, e: Event) {
    || e.AssignMap? || e.AssignReduce? || e.Complete? || e.Fail?
    || (e.AutoComplete? && EmptyReduces(w.db, e.j) != {})
    || (e.Reap? && Stale(w.db, Mem(w, e.r), w.cfg.skew, e.r, e.locked) != {})
  }

  lemma WorkedTask(w: World, e: Event) returns (t: TaskId)
    requires Inv(w) && Enabled(w, e) && Works(w, e)
    ensures t in w.db.tasks && t in StepDb(w, e).tasks && StepDb(w, e).tasks[t].status != w.db.tasks[t].status
  {
    if e.AutoComplete? {
      t :| t in EmptyReduces(w.db, e.j);
    } else if e.Reap? {
      t :| t in Stale(w.db, Mem(w, e.r), w.cfg.skew, e.r, e.locked);
    } else {
      t := e.t;
      if e.AssignMap? || e.AssignReduce? { AssignedStatus(w, e); } else { ReportedStatus(w, e); }
    }
  }

  lemma AssignedStatus(w: World, e: Event)
    requires Enabled(w, e) && (e.AssignMap? || e.AssignReduce?)
    ensures e.t in w.db.tasks && e.t in StepDb(w, e).tasks && StepDb(w, e).tasks[e.t].status != w.db.tasks[e.t].status
  {
    if e.AssignReduce? { AssignReduceRows(w.db, w.cfg.leaseTtl, e.j, e.r, e.t, e.a, e.l, e.locked); }
  }

  lemma ReportedStatus(w: World, e: Event)
    requires Enabled(w, e) && (e.Complete? || e.Fail?)
    ensures e.t in w.db.tasks && e.t in StepDb(w, e).tasks && StepDb(w, e).tasks[e.t].status != w.db.tasks[e.t].status
  {
  }

  /** Neither new tasks nor a recovery. */
  predicate Quiet(e: Event) { !e.Schedule? && !e.ResetTasks? }

  lemma SameTasks(w: World, e: Event)
    requires Enabled(w, e) && !e.Schedule?
    ensures StepDb(w, e).tasks.Keys == w.db.tasks.Keys
  {
  }

  lemma PotentialStep(w: World, e: Event)
    requires Inv(w) && Enabled(w, e) && Quiet(e)
    ensures Potential(Step(w, e).db) + (if Works(w, e) then 1 else 0) <= Potential(w.db)
  {
    var db, db2 := w.db, Step(w, e).db;
    StepMoves(w, e);
    SameTasks(w, e);
    forall t | t in db.tasks
      ensures Rank(db2, t) <= Rank(db, t)
      ensures db2.tasks[t].status != db.tasks[t].status ==> Rank(db2, t) < Rank(db, t)
    {
      if Returns(db, db2, t) { ReturnsBelowLimit(w, e, t); }
      RankMove(db, db2, t);
    }
    var all := db.tasks.Keys;
    if Works(w, e) {
      var t := WorkedTask(w, e);
      SumRankSplit(db, all, t);
      SumRankSplit(db2, all, t);
      SumRankFalls(db, db2, all - {t});
    } else {
      SumRankFalls(db, db2, all);
    }
  }

  /** The number of working events in a stretch of a run. */
  ghost function WorkCount(ws: seq<World>, es: seq<Event>, i: nat, k: nat): nat
    requires i <= k <= |es| < |ws|
    decreases k
  {
    if i == k then 0 else WorkCount(ws, es, i, k - 1) + if Works(ws[k - 1], es[k - 1]) then 1 else 0
  }

  lemma {:induction false} PotentialPays(ws: seq<World>, es: seq<Event>, i: nat, k: nat)
    requires IsRun(ws, es) && i <= k <= |es| && forall n :: i <= n < k ==> Quiet(es[n])
    ensures WorkCount(ws, es, i, k) + Potential(ws[k].db) <= Potential(ws[i].db)
    decreases k
  {
    if i < k {
      PotentialPays(ws, es, i, k - 1);
      RunInv(ws, es, k - 1);
      assert StepAt(ws, es, k - 1);
      PotentialStep(ws[k - 1], es[k - 1]);
    }
  }

  /** With no new tasks and no recovery, at most six working events happen per task: however the
      assignments, commits, failures, skips and reclaims interleave, they run out. */
  lemma WorkRunsOut(ws: seq<World>, es: seq<Event>, i: nat, k: nat)
    requires IsRun(ws, es) && i <= k <= |es| && forall n :: i <= n < k ==> Quiet(es[n])
    ensures WorkCount(ws, es, i, k) <= 2 * MAX_TASK_ATTEMPTS * |ws[i].db.tasks|
  {
    PotentialPays(ws, es, i, k);
    RunInv(ws, es, i);
    SumRankBound(ws[i].db, ws[i].db.tasks.Keys);
  }
}
