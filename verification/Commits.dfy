/** Exactly-once commit: a task's output rows are the one list its one successful attempt committed. */
module Commits {
  import opened Dds
  import opened SchedulerSpec
  import opened SchedulerRuns
  import opened SchedulerMoves
  import opened SchedulerInvariant
  import opened SchedulerHistory

  predicate CommitsTask(e: Event, t: TaskId) {
    e.Complete? && e.t == t
  }

  /** Any event that would change the row of task `t`, other than cancelling or recovering its whole job. */
  predicate Touches(w: World, e: Event, t: TaskId) {
    || (e.AssignMap? && e.t == t)
    || (e.AssignReduce? && e.t == t)
    || (e.Renew? && e.t == t)
    || (e.Complete? && e.t == t)
    || (e.Fail? && e.t == t)
    || (e.Reap? && t in Stale(w.db, Mem(w, e.r), w.cfg.skew, e.r, e.locked))
  }

  // ---------- the output table ----------

  lemma {:induction false} OutputsOfAppend(rows: seq<Output>, more: seq<Output>, t: TaskId)
    ensures OutputsOf(rows + more, t) == OutputsOf(rows, t) + OutputsOf(more, t)
  {
    if more == [] {
      assert rows + more == rows;
    } else {
      var all := rows + more;
      assert all[..|all| - 1] == rows + more[..|more| - 1];
      OutputsOfAppend(rows, more[..|more| - 1], t);
    }
  }

  lemma {:induction false} OutputsOfUniform(rows: seq<Output>, owner: TaskId, t: TaskId)
    requires forall i :: 0 <= i < |rows| ==> rows[i].task == owner
    ensures OutputsOf(rows, t) == if t == owner then rows else []
  {
    if rows != [] { OutputsOfUniform(rows[..|rows| - 1], owner, t); }
  }

  lemma {:induction false} NoOutputsOf(rows: seq<Output>, t: TaskId)
    requires forall i :: 0 <= i < |rows| ==> rows[i].task != t
    ensures OutputsOf(rows, t) == []
  {
    if rows != [] { NoOutputsOf(rows[..|rows| - 1], t); }
  }

  lemma CompletedOutputs(db: Db, t: TaskId, a: AttemptId, outs: seq<(string, string)>, u: TaskId)
    requires OutputsOk(db) && t in db.tasks && a in db.attempts && db.tasks[t].status == InProgress
    ensures OutputsOf(Completed(db, t, a, outs).outputs, u) == if u == t then OutputRows(t, outs) else OutputsOf(db.outputs, u)
  {
    CompletedRows(db, t, a, outs);
    OutputsOfAppend(db.outputs, OutputRows(t, outs), u);
    OutputsOfUniform(OutputRows(t, outs), t, u);
    if u == t { NoOutputsOf(db.outputs, t); }
  }

  /** Only the commit of a task writes its rows, and it writes its whole list. */
  lemma StepOutputs(w: World, e: Event, t: TaskId)
    requires OutputsOk(w.db) && Enabled(w, e)
    ensures OutputsOf(Step(w, e).db.outputs, t)
      == if CommitsTask(e, t) then OutputRows(t, e.outs) else OutputsOf(w.db.outputs, t)
  {
    if e.Complete? {
      CompletedOutputs(w.db, e.t, e.a, e.outs, t);
    } else {
      SameOutputs(w, e);
    }
  }

  lemma SameOutputs(w: World, e: Event)
    requires Enabled(w, e) && !e.Complete?
    ensures StepDb(w, e).outputs == w.db.outputs
  {
  }

  // ---------- whole runs ----------

  lemma CommitEffect(ws: seq<World>, es: seq<Event>, i: nat)
    requires IsRun(ws, es) && i < |es| && es[i].Complete?
    ensures var t, a := es[i].t, es[i].a;
      && t in ws[i + 1].db.tasks && ws[i + 1].db.tasks[t].status == TaskCompleted
      && a in ws[i + 1].db.attempts && ws[i + 1].db.attempts[a].status == AttemptSuccess && ws[i + 1].db.attempts[a].task == t
      && OutputsOf(ws[i + 1].db.outputs, t) == OutputRows(t, es[i].outs)
  {
    RunInv(ws, es, i);
    assert StepAt(ws, es, i);
    StepOutputs(ws[i], es[i], es[i].t);
    CommitRows(ws[i], es[i]);
  }

  lemma CommitRows(w: World, e: Event)
    requires RowsOk(w.db) && Enabled(w, e) && e.Complete?
    ensures var db2 := StepDb(w, e);
      && e.t in db2.tasks && db2.tasks[e.t].status == TaskCompleted
      && e.a in db2.attempts && db2.attempts[e.a].status == AttemptSuccess && db2.attempts[e.a].task == e.t
  {
    assert TaskOk(w.db, e.t);
    CompletedRows(w.db, e.t, e.a, e.outs);
  }

  lemma CompletedUntouched(ws: seq<World>, es: seq<Event>, i: nat, k: nat, t: TaskId)
    requires IsRun(ws, es) && i <= k < |es|
    requires t in ws[i].db.tasks && ws[i].db.tasks[t].status == TaskCompleted
    ensures !Touches(ws[k], es[k], t)
  {
    RunGrows(ws, es, i, k);
    assert TaskGrows(ws[i].db, ws[k].db, t);
    assert StepAt(ws, es, k);
  }

  /** After an accepted commit: the task stays Completed, its attempt stays the only Success, its rows stay
      exactly the committed list numbered 0, 1, ..., and no event touches the task again. */
  lemma {:induction false} CommitForever(ws: seq<World>, es: seq<Event>, i: nat, k: nat)
    requires IsRun(ws, es) && i < k < |ws| && es[i].Complete?
    ensures var t, a := es[i].t, es[i].a;
      && t in ws[k].db.tasks && ws[k].db.tasks[t].status == TaskCompleted
      && a in ws[k].db.attempts && ws[k].db.attempts[a].status == AttemptSuccess
      && (forall b :: b in ws[k].db.attempts && ws[k].db.attempts[b].task == t && ws[k].db.attempts[b].status == AttemptSuccess ==> b == a)
      && OutputsOf(ws[k].db.outputs, t) == OutputRows(t, es[i].outs)
      && (k < |es| ==> !Touches(ws[k], es[k], t))
    decreases k
  {
    var t, a := es[i].t, es[i].a;
    CommitEffect(ws, es, i);
    if k > i + 1 {
      CommitForever(ws, es, i, k - 1);
      RunInv(ws, es, k - 1);
      assert StepAt(ws, es, k - 1);
      StepOutputs(ws[k - 1], es[k - 1], t);
    }
    RunGrows(ws, es, i + 1, k);
    RunInv(ws, es, k);
    assert AttemptGrows(ws[i + 1].db, ws[k].db, a);
    assert TaskGrows(ws[i + 1].db, ws[k].db, t);
    if k < |es| { CompletedUntouched(ws, es, i + 1, k, t); }
  }

  /** A task is committed at most once. */
  lemma CommitOnce(ws: seq<World>, es: seq<Event>, i: nat, k: nat)
    requires IsRun(ws, es) && i < |es| && k < |es|
    requires es[i].Complete? && es[k].Complete? && es[i].t == es[k].t
    ensures i == k
  {
    if i < k {
      CommitForever(ws, es, i, k);
    } else if k < i {
      CommitForever(ws, es, k, i);
    }
  }

  predicate HasSuccess(db: Db, t: TaskId) {
    exists a :: a in db.attempts && db.attempts[a].task == t && db.attempts[a].status == AttemptSuccess
  }

  /** A task shows an output row or a Success attempt only because a commit, the one above, put it there. */
  lemma {:induction false} CommitHappened(ws: seq<World>, es: seq<Event>, k: nat, t: TaskId) returns (i: nat)
    requires IsRun(ws, es) && k < |ws|
    requires OutputsOf(ws[k].db.outputs, t) != [] || HasSuccess(ws[k].db, t)
    ensures i < k && es[i].Complete? && es[i].t == t
    decreases k
  {
    if CommitsTask(es[k - 1], t) {
      i := k - 1;
    } else {
      NothingNew(ws, es, k - 1, t);
      i := CommitHappened(ws, es, k - 1, t);
    }
  }

  lemma NothingNew(ws: seq<World>, es: seq<Event>, i: nat, t: TaskId)
    requires IsRun(ws, es) && i < |es| && !CommitsTask(es[i], t)
    ensures OutputsOf(ws[i + 1].db.outputs, t) == OutputsOf(ws[i].db.outputs, t)
    ensures HasSuccess(ws[i + 1].db, t) ==> HasSuccess(ws[i].db, t)
  {
    RunInv(ws, es, i);
    assert StepAt(ws, es, i);
    StepOutputs(ws[i], es[i], t);
    StepMoves(ws[i], es[i]);
    OnlyCompleteCommits(ws[i], es[i], t);
    NoOtherSuccess(ws[i].db, ws[i + 1].db, t);
  }

  lemma NoOtherSuccess(db: Db, db2: Db, t: TaskId)
    requires Moves(db, db2) && !SchedulerMoves.Commits(db, db2, t)
    ensures HasSuccess(db2, t) ==> HasSuccess(db, t)
  {
    if HasSuccess(db2, t) {
      var a :| a in db2.attempts && db2.attempts[a].task == t && db2.attempts[a].status == AttemptSuccess;
      assert a in db.attempts ==> AttemptMove(db, db2, a);
      assert a !in db.attempts ==> AttemptBirth(db, db2, a);
    }
  }

  /** The attempt status is not part of the fence: an attempt that the reaper's follow-up statement has marked
      Failed can still commit, and its row then goes from Failed to Success. */
  lemma FailedAttemptMayCommit(w: World, r: Replica, t: TaskId, a: AttemptId, l: LeaseId, outs: seq<(string, string)>)
    requires Inv(w) && Enabled(w, Complete(r, t, a, l, outs))
    ensures var flush := FailRunning(r, w.db.tasks[t].job);
      && Enabled(w, flush)
      && var w1 := Step(w, flush);
         && w1.db.attempts[a].status == AttemptFailed
         && Enabled(w1, Complete(r, t, a, l, outs))
         && Step(w1, Complete(r, t, a, l, outs)).db.attempts[a].status == AttemptSuccess
  {
    var j := w.db.tasks[t].job;
    var w1 := Step(w, FailRunning(r, j));
    FlushedRow(w.db, t, a);
    assert w1.db == FailAttempts(w.db, RunningOfJob(w.db, j));
    assert CompleteVerdict(w1.db, w1.cfg.skew, t, a, l) == Ok;
    CompletedRows(w1.db, t, a, outs);
  }

  /** The flush changes nothing that the fence looks at. */
  lemma FlushedRow(db: Db, t: TaskId, a: AttemptId)
    requires RowsOk(db) && t in db.tasks && db.tasks[t].status == InProgress && db.tasks[t].current == Some(a)
    ensures a in db.attempts
    ensures var db1 := FailAttempts(db, RunningOfJob(db, db.tasks[t].job));
      && db1 == db.(attempts := db1.attempts) && a in db1.attempts
      && db1.attempts[a] == db.attempts[a].(status := AttemptFailed)
  {
    assert TaskOk(db, t) && AttemptOk(db, a);
    assert db.attempts[a].status == AttemptRunning ==> a in RunningOfJob(db, db.tasks[t].job);
  }

  lemma OnlyCompleteCommits(w: World, e: Event, t: TaskId)
    requires Enabled(w, e) && !CommitsTask(e, t)
    ensures !SchedulerMoves.Commits(w.db, StepDb(w, e), t)
  {
  }
}
