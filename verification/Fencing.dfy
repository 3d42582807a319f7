/** Fencing: a replaced attempt can never again renew, complete or fail its task. */
module Fencing {
  import opened Dds
  import opened SchedulerSpec
  import opened SchedulerRuns
  import opened SchedulerMoves
  import opened SchedulerInvariant
  import opened SchedulerHistory

  /** Attempt `a` is refused by every fenced operation on `t`, whatever lease it shows. */
  ghost predicate Refused(w: World, t: TaskId, a: AttemptId) {
    forall l: LeaseId ::
      && FenceVerdict(w.db, w.cfg.skew, t, a, l) != Ok
      && CompleteVerdict(w.db, w.cfg.skew, t, a, l) != Ok
      && FailVerdict(w.db, w.cfg.skew, t, a, l) != Ok
  }

  /** An event that renews, completes or fails task `t` under attempt `a`. */
  predicate ActsAs(e: Event, t: TaskId, a: AttemptId) {
    || (e.Renew? && e.t == t && e.a == a)
    || (e.Complete? && e.t == t && e.a == a)
    || (e.Fail? && e.t == t && e.a == a)
  }

  predicate Assigns(e: Event, t: TaskId) {
    (e.AssignMap? && e.t == t) || (e.AssignReduce? && e.t == t)
  }

  /** Once a task has left an attempt, that attempt is refused for ever. */
  lemma LeftForever(ws: seq<World>, es: seq<Event>, i: nat, k: nat, t: TaskId, a: AttemptId)
    requires IsRun(ws, es) && i <= k < |ws|
    requires t in ws[i].db.tasks && a in ws[i].db.attempts && ws[i].db.tasks[t].current != Some(a)
    ensures Refused(ws[k], t, a)
    ensures k < |es| ==> !ActsAs(es[k], t, a)
  {
    RunGrows(ws, es, i, k);
    assert TaskGrows(ws[i].db, ws[k].db, t);
    RefusedDoesNotAct(ws, es, k, t, a);
  }

  /** Once a newer attempt has been created, no earlier attempt of the task acts on it again. */
  lemma NewerAttemptFences(ws: seq<World>, es: seq<Event>, i: nat, k: nat, t: TaskId, a: AttemptId)
    requires IsRun(ws, es) && i < |es| && i < k < |ws|
    requires a in ws[i].db.attempts && Assigns(es[i], t)
    ensures Refused(ws[k], t, a)
    ensures k < |es| ==> !ActsAs(es[k], t, a)
  {
    AssignmentPoints(ws, es, i, t);
    RunGrows(ws, es, i, i + 1);
    LeftForever(ws, es, i + 1, k, t, a);
  }

  lemma RefusedDoesNotAct(ws: seq<World>, es: seq<Event>, k: nat, t: TaskId, a: AttemptId)
    requires IsRun(ws, es) && k < |ws| && Refused(ws[k], t, a)
    ensures k < |es| ==> !ActsAs(es[k], t, a)
  {
    if k < |es| { assert StepAt(ws, es, k); }
  }

  lemma AssignmentPoints(ws: seq<World>, es: seq<Event>, i: nat, t: TaskId)
    requires IsRun(ws, es) && i < |es| && Assigns(es[i], t)
    ensures t in ws[i + 1].db.tasks && ws[i + 1].db.tasks[t].current == Some(es[i].a) && es[i].a !in ws[i].db.attempts
  {
    assert StepAt(ws, es, i);
  }

  /** Cancel, the reaper and recovery fence the same way: a task that is no longer In-Progress refuses everyone,
      and refuses its former attempts for ever. */
  lemma ReclaimFences(ws: seq<World>, es: seq<Event>, i: nat, k: nat, t: TaskId, a: AttemptId)
    requires IsRun(ws, es) && i <= k < |ws|
    requires t in ws[i].db.tasks && a in ws[i].db.attempts && ws[i].db.tasks[t].status != InProgress
    ensures Refused(ws[k], t, a)
    ensures k < |es| ==> !ActsAs(es[k], t, a)
  {
    RunInv(ws, es, i);
    assert TaskOk(ws[i].db, t);
    if ws[i].db.tasks[t].current != Some(a) {
      LeftForever(ws, es, i, k, t, a);
    } else {
      RunGrows(ws, es, i, k);
      assert TaskGrows(ws[i].db, ws[k].db, t);
      RefusedDoesNotAct(ws, es, k, t, a);
    }
  }
}
