/** What holds between an earlier and any later state of a run. */
module SchedulerHistory {
  import opened Dds
  import opened JobTransitions
  import opened SchedulerRuns
  import opened SchedulerMoves
  import opened SchedulerInvariant

  /** A task row keeps its identity, its final status, and never points back at an attempt it has left. */
  predicate TaskGrows(db: Db, db2: Db, t: TaskId)
    requires t in db.tasks
  {
    && t in db2.tasks
    && db2.tasks[t].job == db.tasks[t].job
    && db2.tasks[t].kind == db.tasks[t].kind
    && db2.tasks[t].replicaIndex == db.tasks[t].replicaIndex
    && (db.tasks[t].status == TaskCompleted ==> db2.tasks[t].status == TaskCompleted)
    && (db.tasks[t].status == TaskFailed ==> db2.tasks[t].status == TaskFailed)
    && (forall a :: a in db.attempts && db2.tasks[t].current == Some(a) ==> db.tasks[t].current == Some(a))
  }

  predicate AttemptGrows(db: Db, db2: Db, a: AttemptId)
    requires a in db.attempts
  {
    && a in db2.attempts
    && db2.attempts[a].task == db.attempts[a].task
    && db2.attempts[a].lease == db.attempts[a].lease
    && (db.attempts[a].status == AttemptSuccess ==> db2.attempts[a].status == AttemptSuccess)
  }

  predicate JobGrows(db: Db, db2: Db, j: JobId)
    requires j in db.jobs
  {
    && j in db2.jobs
    && db2.jobs[j].replica == db.jobs[j].replica
    && (Dead(db.jobs[j].status) ==> Dead(db2.jobs[j].status))
    && (Dead(db.jobs[j].status) && AllDone(db, j) ==> AllDone(db2, j))
    && (db.jobs[j].status == JobCompleted ==> db2.jobs[j].status == JobCompleted)
  }

  ghost predicate Grows(db: Db, db2: Db) {
    && (forall t :: t in db.tasks ==> TaskGrows(db, db2, t))
    && (forall a :: a in db.attempts ==> AttemptGrows(db, db2, a))
    && (forall j :: j in db.jobs ==> JobGrows(db, db2, j))
    && (forall j :: HasFailed(db, j) ==> HasFailed(db2, j))
    && db.outputs <= db2.outputs
  }

  lemma GrowsSelf(db: Db)
    ensures Grows(db, db)
  {
  }

  lemma GrowsTrans(a: Db, b: Db, c: Db)
    requires Grows(a, b) && Grows(b, c)
    ensures Grows(a, c)
  {
  }

  lemma MoveGrows(db: Db, db2: Db)
    requires DbOk(db) && Moves(db, db2)
    ensures Grows(db, db2)
  {
    forall t | t in db.tasks ensures TaskGrows(db, db2, t) { TaskMoveGrows(db, db2, t); }
    forall a | a in db.attempts ensures AttemptGrows(db, db2, a) { AttemptMoveGrows(db, db2, a); }
    forall j | HasFailed(db, j) ensures HasFailed(db2, j) { FailedStays(db, db2, j); }
    forall j | j in db.jobs ensures JobGrows(db, db2, j) { JobMoveGrows(db, db2, j); }
  }

  lemma TaskMoveGrows(db: Db, db2: Db, t: TaskId)
    requires RowsOk(db) && TasksMove(db, db2) && t in db.tasks
    ensures TaskGrows(db, db2, t)
  {
    assert TaskMove(db, db2, t) && TaskOk(db, t);
  }

  lemma AttemptMoveGrows(db: Db, db2: Db, a: AttemptId)
    requires AttemptsMove(db, db2) && a in db.attempts
    ensures AttemptGrows(db, db2, a)
  {
    assert AttemptMove(db, db2, a);
  }

  lemma JobMoveGrows(db: Db, db2: Db, j: JobId)
    requires JobsOk(db) && Moves(db, db2) && j in db.jobs
    ensures JobGrows(db, db2, j)
  {
    assert JobMove(db, db2, j) && JobOk(db, j);
    if Dead(db.jobs[j].status) { DeadStays(db, db2, j); }
  }

  /** The data-store states of a run, seen through the moves alone. */
  ghost predicate MoveRun(dbs: seq<Db>) {
    forall i :: 0 <= i < |dbs| - 1 ==> MoveAt(dbs, i)
  }

  ghost predicate MoveAt(dbs: seq<Db>, i: nat)
    requires i + 1 < |dbs|
  {
    DbOk(dbs[i]) && Moves(dbs[i], dbs[i + 1])
  }

  function Dbs(ws: seq<World>): (dbs: seq<Db>)
    ensures |dbs| == |ws| && forall i :: 0 <= i < |ws| ==> dbs[i] == ws[i].db
  {
    seq(|ws|, i requires 0 <= i < |ws| => ws[i].db)
  }

  lemma RunMoves(ws: seq<World>, es: seq<Event>)
    requires IsRun(ws, es)
    ensures MoveRun(Dbs(ws))
  {
    forall i | 0 <= i < |ws| - 1
      ensures MoveAt(Dbs(ws), i)
    {
      RunInv(ws, es, i);
      assert StepAt(ws, es, i);
      StepMoves(ws[i], es[i]);
    }
  }

  lemma {:induction false} MoveRunGrows(dbs: seq<Db>, i: nat, k: nat)
    requires MoveRun(dbs) && i <= k < |dbs|
    ensures Grows(dbs[i], dbs[k])
    decreases k
  {
    if i == k {
      GrowsSelf(dbs[i]);
    } else {
      MoveRunGrows(dbs, i, k - 1);
      assert MoveAt(dbs, k - 1);
      MoveGrows(dbs[k - 1], dbs[k]);
      GrowsTrans(dbs[i], dbs[k - 1], dbs[k]);
    }
  }

  /** Later states of a run only grow. */
  lemma RunGrows(ws: seq<World>, es: seq<Event>, i: nat, k: nat)
    requires IsRun(ws, es) && i <= k < |ws|
    ensures Grows(ws[i].db, ws[k].db)
  {
    RunMoves(ws, es);
    MoveRunGrows(Dbs(ws), i, k);
  }
}
