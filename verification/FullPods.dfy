/** The pod limit is reached: for every limit there is a run that fills it, and the next request finds no room. */
module FullPods {
  import opened Dds
  import opened SchedulerSpec
  import opened SchedulerRuns
  import opened Scheduler
  import opened HandOut

  /** Of n + 1 map tasks of job 0, the first k run, task t as attempt t; the limit is n. */
  ghost predicate Filled(db: Db, n: nat, k: nat) {
    && db.jobs.Keys == {0} && db.jobs[0].replica == 0 && db.maxPods == Some(n)
    && (forall t: nat :: t in db.tasks <==> t <= n)
    && (forall t :: t in db.tasks ==> db.tasks[t] == Task(0, MapTask, if t < k then InProgress else Idle, 0, if t < k then Some(t) else None))
    && (forall a: nat :: a in db.attempts <==> a < k)
    && (forall a :: a in db.attempts ==> db.attempts[a].status == AttemptRunning)
  }

  function FirstIds(k: nat): (ids: set<nat>)
    ensures |ids| == k && forall a: nat :: a in ids <==> a < k
  {
    if k == 0 then {} else FirstIds(k - 1) + {k - 1}
  }

  lemma FilledBusy(db: Db, n: nat, k: nat)
    requires Filled(db, n, k)
    ensures Busy(db) == k && |RunningAttempts(db)| == k && Limit(db) == n
  {
    assert (set a | a in db.attempts && db.attempts[a].status == AttemptRunning) == FirstIds(k);
    assert RunningAttempts(db) == FirstIds(k);
  }

  lemma FilledServed(db: Db, n: nat, k: nat)
    requires Filled(db, n, k) && k <= n
    ensures Served(db, 0, 0) && FreeMap(db, 0, 0, {}, k) && forall u :: FreeMap(db, 0, 0, {}, u) ==> k <= u
  {
  }

  lemma FillDb(db: Db, n: nat, k: nat, ttl: int)
    requires Filled(db, n, k) && k < n
    ensures CanAssignMap(db, 0, 0, k, k, {}) && Filled(Assigned(db, ttl, 0, k, k, k), n, k + 1)
  {
    FilledBusy(db, n, k);
    FilledServed(db, n, k);
    LeastMap(db, 0, 0, k, k, {});
  }

  lemma FillStep(w: World, es: seq<Event>, v: World, n: nat, k: nat) returns (es2: seq<Event>, v2: World)
    requires Leads(w, es, v) && Filled(v.db, n, k) && v.booting == {} && k < n
    ensures Leads(w, es2, v2) && Filled(v2.db, n, k + 1) && v2.booting == {}
  {
    var e := AssignMap(0, 0, k, k, k, {});
    FillDb(v.db, n, k, v.cfg.leaseTtl);
    LeadsOn(w, es, v, e);
    es2, v2 := es + [e], Step(v, e);
  }

  lemma {:induction false} FillUp(w: World, es: seq<Event>, v: World, n: nat, k: nat) returns (es2: seq<Event>, v2: World)
    requires Leads(w, es, v) && Filled(v.db, n, k) && v.booting == {} && k <= n
    ensures Leads(w, es2, v2) && Filled(v2.db, n, n)
    decreases n - k
  {
    if k == n {
      es2, v2 := es, v;
    } else {
      var es1, v1 := FillStep(w, es, v, n, k);
      es2, v2 := FillUp(w, es1, v1, n, k + 1);
    }
  }

  function Requested(n: nat): seq<NewTask> {
    seq(n + 1, i requires 0 <= i < n + 1 => NewTask(i, MapTask, 0))
  }

  lemma Inserted(n: nat)
    ensures var ns := Requested(n); DistinctIds(ns) && var rows := NewRows(0, 0, ns);
      && (forall t: nat :: t in rows <==> t <= n) && forall t :: t in rows ==> rows[t] == Task(0, MapTask, Idle, 0, None)
  {
    var ns := Requested(n);
    forall t: nat ensures t in NewRows(0, 0, ns) <==> t <= n {
      if t <= n { assert ns[t].id == t; }
    }
  }

  lemma Scheduling(w: World, n: nat) returns (es: seq<Event>, v: World)
    requires Init(w)
    ensures Leads(w, es, v) && Filled(v.db, n, 0) && v.booting == {}
  {
    Inserted(n);
    var quota, request := SetQuota(n), Schedule(0, 0, 0, Requested(n));
    var v1 := Step(w, quota);
    assert Leads(w, [quota], v1) by { assert [quota][1..] == []; }
    LeadsOn(w, [quota], v1, request);
    es, v := [quota] + [request], Step(v1, request);
  }

  /** From any fresh start, for every limit n, some run has exactly n attempts Running and one more free task; the next
      request for it is refused for want of room. */
  lemma LimitReached(w: World, n: nat) returns (ws: seq<World>, es: seq<Event>)
    requires Init(w)
    ensures IsRun(ws, es) && ws[0] == w
    ensures var db := ws[|es|].db;
      && db.maxPods == Some(n) && |RunningAttempts(db)| == n && MapFree(db, 0, 0, {}) && NextCase(db, 0, 0, {}) == NoRoom
  {
    var es0, v0 := Scheduling(w, n);
    var v;
    es, v := FillUp(w, es0, v0, n, 0);
    ws := LeadsIsRun(w, es, v);
    FilledBusy(v.db, n, n);
    FilledServed(v.db, n, n);
    AnswerIff(v.db, 0, 0, {});
  }
}
