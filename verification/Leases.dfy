/** The reaper's in-memory stamp against the lease check on the row. */
module Leases {
  import opened Dds
  import opened SchedulerSpec
  import opened SchedulerRuns
  import opened SchedulerMoves
  import opened SchedulerInvariant
  import opened TwoTaskJob

  /** Replica `r` owns the job of attempt `a`. */
  predicate Owns(db: Db, r: Replica, a: AttemptId) {
    && a in db.attempts && db.attempts[a].task in db.tasks && db.tasks[db.attempts[a].task].job in db.jobs
    && db.jobs[db.tasks[db.attempts[a].task].job].replica == r
  }

  /** The owner's stamp, when it has one, is not older than the row. */
  predicate StampOk(db: Db, m: Local, r: Replica, a: AttemptId) {
    Owns(db, r, a) && a in m.heartbeats ==> m.heartbeats[a] >= db.attempts[a].lastRenewed
  }

  ghost predicate StampsOk(w: World) {
    forall r, a :: StampOk(w.db, Mem(w, r), r, a)
  }

  /** A heartbeat is taken by the replica that owns the job, or the owner keeps no stamp of the attempt, or its stamp is
      already as new.  Nothing in the heartbeat handler enforces this. */
  ghost predicate SafeRenewal(w: World, e: Event) {
    e.Renew? ==> forall r | Owns(w.db, r, e.a) && e.a in Mem(w, r).heartbeats :: e.r == r || Mem(w, r).heartbeats[e.a] >= w.db.now
  }

  /** The last renewal of a row changes only by renewing it. */
  lemma RenewalsStay(w: World, e: Event, a: AttemptId)
    requires Enabled(w, e) && !e.Renew? && a in w.db.attempts
    ensures a in StepDb(w, e).attempts && StepDb(w, e).attempts[a].lastRenewed == w.db.attempts[a].lastRenewed
  {
  }

  /** An old stamp is only dropped, or replaced by the present time when the attempt is assigned or renewed. */
  lemma StampsStay(w: World, e: Event, a: AttemptId)
    requires Enabled(w, e) && Actor(e).Some?
    ensures var m, m2 := Mem(w, Actor(e).value), StepMem(w, e, Mem(w, Actor(e).value));
      a in m2.heartbeats ==>
        (a in m.heartbeats && m2.heartbeats[a] == m.heartbeats[a])
        || (m2.heartbeats[a] == w.db.now && (e.AssignMap? || e.AssignReduce? || e.Renew?) && a == e.a)
  {
  }

  lemma OwnerStays(db: Db, db2: Db, r: Replica, a: AttemptId)
    requires RowsOk(db) && Moves(db, db2) && a in db.attempts
    ensures Owns(db2, r, a) == Owns(db, r, a)
  {
    assert AttemptOk(db, a) && AttemptMove(db, db2, a);
    var t := db.attempts[a].task;
    assert TaskOk(db, t) && TaskMove(db, db2, t) && JobMove(db, db2, db.tasks[t].job);
  }

  lemma AssignedStamp(w: World, e: Event, r: Replica, a: AttemptId)
    requires Enabled(w, e) && (e.AssignMap? || e.AssignReduce?)
    requires a in StepDb(w, e).attempts && a !in w.db.attempts && Owns(StepDb(w, e), r, a)
    ensures r == e.r && a == e.a && StepDb(w, e).attempts[a].lastRenewed == w.db.now
  {
  }

  lemma RenewedRow(w: World, e: Event, a: AttemptId)
    requires Enabled(w, e) && e.Renew? && a in w.db.attempts
    ensures a in StepDb(w, e).attempts
    ensures StepDb(w, e).attempts[a].lastRenewed == if a == e.a then w.db.now else w.db.attempts[a].lastRenewed
  {
  }

  lemma StepStamp(w: World, e: Event, r: Replica, a: AttemptId)
    requires Inv(w) && StampsOk(w) && Enabled(w, e) && SafeRenewal(w, e)
    ensures StampOk(Step(w, e).db, Mem(Step(w, e), r), r, a)
  {
    var m2 := Mem(Step(w, e), r);
    assert Step(w, e).db == StepDb(w, e) && StampOk(w.db, Mem(w, r), r, a);
    StampFrom(w, e, r, a);
    if a in w.db.attempts { OldStamp(w, e, r, a, m2); } else { NewStamp(w, e, r, a, m2); }
  }

  /** The stamp a replica holds after an event was there before, or is the present time. */
  predicate Stamped(w: World, e: Event, r: Replica, a: AttemptId, m2: Local) {
    a in m2.heartbeats ==>
      (a in Mem(w, r).heartbeats && m2.heartbeats[a] == Mem(w, r).heartbeats[a])
      || (m2.heartbeats[a] == w.db.now && Actor(e) == Some(r) && (e.AssignMap? || e.AssignReduce? || e.Renew?) && a == e.a)
  }

  lemma StampFrom(w: World, e: Event, r: Replica, a: AttemptId)
    requires Enabled(w, e)
    ensures Stamped(w, e, r, a, Mem(Step(w, e), r))
  {
    if Actor(e) == Some(r) { StampsStay(w, e, a); }
  }

  lemma OldStamp(w: World, e: Event, r: Replica, a: AttemptId, m2: Local)
    requires Inv(w) && Enabled(w, e) && SafeRenewal(w, e) && a in w.db.attempts
    requires StampOk(w.db, Mem(w, r), r, a) && m2 == Mem(Step(w, e), r) && Stamped(w, e, r, a, m2)
    ensures StampOk(StepDb(w, e), m2, r, a)
  {
    StepMoves(w, e);
    OwnerStays(w.db, StepDb(w, e), r, a);
    if e.Renew? { RenewedRow(w, e, a); } else { RenewalsStay(w, e, a); }
    if e.Renew? && a == e.a && Owns(w.db, r, a) { RenewStamps(w, e); }
    if e.AssignMap? || e.AssignReduce? { FreshAttempt(w, e); }
  }

  lemma RenewStamps(w: World, e: Event)
    requires Enabled(w, e) && e.Renew?
    ensures var m2 := Mem(Step(w, e), e.r); e.a in m2.heartbeats && m2.heartbeats[e.a] == w.db.now
  {
  }

  lemma FreshAttempt(w: World, e: Event)
    requires Enabled(w, e) && (e.AssignMap? || e.AssignReduce?)
    ensures e.a !in w.db.attempts
  {
  }

  lemma NewStamp(w: World, e: Event, r: Replica, a: AttemptId, m2: Local)
    requires Enabled(w, e) && a !in w.db.attempts && m2 == Mem(Step(w, e), r)
    ensures StampOk(StepDb(w, e), m2, r, a)
  {
    if a in StepDb(w, e).attempts && Owns(StepDb(w, e), r, a) {
      if !e.AssignMap? && !e.AssignReduce? { SameAttempts(w, e); }
      AssignedStamp(w, e, r, a);
    }
  }

  /** Of all events, only a renewal at another replica can leave the owner's stamp behind the row, and it does so exactly
      when the owner has an older stamp. */
  lemma StampsStayIff(w: World, e: Event)
    requires Inv(w) && StampsOk(w) && Enabled(w, e)
    ensures StampsOk(Step(w, e)) <==> SafeRenewal(w, e)
  {
    if SafeRenewal(w, e) {
      forall r, a ensures StampOk(Step(w, e).db, Mem(Step(w, e), r), r, a) { StepStamp(w, e, r, a); }
    } else {
      var r :| Owns(w.db, r, e.a) && e.a in Mem(w, r).heartbeats && e.r != r && Mem(w, r).heartbeats[e.a] < w.db.now;
      StepMoves(w, e);
      OwnerStays(w.db, StepDb(w, e), r, e.a);
      RenewedRow(w, e, e.a);
      assert Mem(Step(w, e), r) == Mem(w, r);
      assert !StampOk(Step(w, e).db, Mem(Step(w, e), r), r, e.a);
    }
  }

  lemma {:induction false} RunStamps(ws: seq<World>, es: seq<Event>, k: nat)
    requires IsRun(ws, es) && k < |ws| && forall i :: 0 <= i < k ==> SafeRenewal(ws[i], es[i])
    ensures StampsOk(ws[k])
  {
    if k > 0 {
      RunStamps(ws, es, k - 1);
      RunInv(ws, es, k - 1);
      assert StepAt(ws, es, k - 1);
      StampsStayIff(ws[k - 1], es[k - 1]);
    }
  }

  /** While renewals are safe, a task the reaper reclaims holds a lease that the commit check rejects,
      except at the single instant when the lease runs out. */
  lemma ReaperAgrees(ws: seq<World>, es: seq<Event>, k: nat, r: Replica, locked: set<TaskId>, t: TaskId, l: LeaseId)
    requires IsRun(ws, es) && k < |ws| && forall i :: 0 <= i < k ==> SafeRenewal(ws[i], es[i])
    requires t in Stale(ws[k].db, Mem(ws[k], r), ws[k].cfg.skew, r, locked)
    ensures var a := ws[k].db.tasks[t].current.value;
      LeaseValid(ws[k].db, ws[k].cfg.skew, a, l) ==>
        ws[k].db.now == ws[k].db.attempts[a].lastRenewed + ws[k].db.attempts[a].ttl + ws[k].cfg.skew
  {
    RunStamps(ws, es, k);
    RunInv(ws, es, k);
    var w := ws[k];
    assert TaskOk(w.db, t);
    assert StampOk(w.db, Mem(w, r), r, w.db.tasks[t].current.value);
  }

  /** The two checks disagree for a whole interval exactly when the stamp is older than the row. */
  lemma DisagreeIff(db: Db, m: Local, skew: int, a: AttemptId)
    requires a in db.attempts
    ensures (exists now: int :: Expired(db.(now := now), m, skew, a) && now < db.attempts[a].lastRenewed + db.attempts[a].ttl + skew)
      <==> a in m.heartbeats && m.heartbeats[a] < db.attempts[a].lastRenewed
  {
    var row := db.attempts[a];
    if a in m.heartbeats && m.heartbeats[a] < row.lastRenewed {
      assert Expired(db.(now := m.heartbeats[a] + row.ttl + skew), m, skew, a);
    }
  }

  /** The owner is about to reclaim task 8 although its holder could still commit it for another 29 seconds. */
  ghost predicate ReapedEarly(w: World) {
    && 8 in Stale(w.db, Mem(w, 0), w.cfg.skew, 0, {}) && CompleteVerdict(w.db, w.cfg.skew, 8, 5, 0) == Ok
    && w.db.now == 36 && w.db.attempts[5].lastRenewed + w.db.attempts[5].ttl + w.cfg.skew == 65
  }

  /** It happens: the owner stamped the assignment at 0, another replica took the heartbeat at 30, and at 36 the owner
      reclaims the task. */
  lemma RenewalElsewhereIsReaped() returns (ws: seq<World>, es: seq<Event>)
    ensures IsRun(ws, es) && |es| >= 3 && es[|es| - 3..] == [Tick(30), Renew(1, 8, 5, 0), Tick(6)]
    ensures ReapedEarly(ws[|es|])
  {
    var front, v := ReachAssigned();
    var tail, u := HeartbeatElsewhere(v);
    LeadsJoin(START, front, v, tail, u);
    es := front + tail;
    ws := LeadsIsRun(START, es, u);
  }

  lemma HeartbeatElsewhere(v: World) returns (es: seq<Event>, v4: World)
    requires At(v, Given(SCHEDULED, 8, 5)) && 5 in Mem(v, 0).heartbeats
    ensures es == [Tick(30), Renew(1, 8, 5, 0), Tick(6)] && Leads(v, es, v4) && ReapedEarly(v4)
  {
    assert 5 in RunningAttempts(v.db) && 5 in v.db.attempts;
    var v2 := Step(v, Tick(30));
    var v3 := Step(v2, Renew(1, 8, 5, 0));
    v4 := Step(v3, Tick(6));
    ReapableEarly(v, v4);
    es := [Tick(30), Renew(1, 8, 5, 0), Tick(6)];
    LeadsThree(v, v2, v3, v4, Tick(30), Renew(1, 8, 5, 0), Tick(6));
  }

  lemma ReapableEarly(v: World, v4: World)
    requires At(v, Given(SCHEDULED, 8, 5)) && 5 in Mem(v, 0).heartbeats && Mem(v4, 0) == Mem(v, 0) && v4.cfg == CFG && 5 in v.db.attempts
    requires v4.db == v.db.(now := 36, attempts := v.db.attempts[5 := v.db.attempts[5].(lastRenewed := 30)])
    ensures ReapedEarly(v4)
  {
    assert 5 in RunningAttempts(v.db);
  }

  lemma LeadsThree(v: World, v2: World, v3: World, v4: World, e: Event, e2: Event, e3: Event)
    requires Enabled(v, e) && v2 == Step(v, e) && Enabled(v2, e2) && v3 == Step(v2, e2) && Enabled(v3, e3) && v4 == Step(v3, e3)
    ensures Leads(v, [e, e2, e3], v4)
  {
    assert [e3][1..] == [] && Leads(v3, [e3], v4);
    assert [e2, e3][1..] == [e3] && Leads(v2, [e2, e3], v4);
    assert [e, e2, e3][1..] == [e2, e3];
  }
}
