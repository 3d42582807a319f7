/** The map/reduce barrier, and the stability of what a reduce task is given. */
module Phases {
  import opened Dds
  import opened SchedulerRuns
  import opened SchedulerMoves
  import opened SchedulerInvariant
  import opened SchedulerHistory

  lemma {:induction false} NoInputsEmpty(db: Db, rows: seq<Output>, j: JobId, p: nat)
    ensures InputsFrom(db, rows, j, p) == [] <==> forall i :: 0 <= i < |rows| ==> !FeedsReduce(db, rows[i], j, p)
  {
    if rows != [] { NoInputsEmpty(db, rows[..|rows| - 1], j, p); }
  }

  /** Rows on which two states agree give the same inputs. */
  lemma {:induction false} InputsAgree(db: Db, db2: Db, rows: seq<Output>, j: JobId, p: nat)
    requires forall i :: 0 <= i < |rows| ==> FeedsReduce(db2, rows[i], j, p) == FeedsReduce(db, rows[i], j, p)
    ensures InputsFrom(db2, rows, j, p) == InputsFrom(db, rows, j, p)
  {
    if rows != [] { InputsAgree(db, db2, rows[..|rows| - 1], j, p); }
  }

  lemma {:induction false} InputsAppend(db: Db, rows: seq<Output>, more: seq<Output>, j: JobId, p: nat)
    ensures InputsFrom(db, rows + more, j, p) == InputsFrom(db, rows, j, p) + InputsFrom(db, more, j, p)
  {
    if more == [] {
      assert rows + more == rows;
    } else {
      var all := rows + more;
      assert all[..|all| - 1] == rows + more[..|more| - 1];
      InputsAppend(db, rows, more[..|more| - 1], j, p);
    }
  }

  lemma MoveKeepsInputs(db: Db, db2: Db, j: JobId, p: nat)
    requires OutputsOk(db) && TasksMove(db, db2) && OutputsMove(db, db2) && MapsDone(db, j)
    ensures ReduceInputs(db2, j, p) == ReduceInputs(db, j, p)
  {
    var more := db2.outputs[|db.outputs|..];
    assert db2.outputs == db.outputs + more;
    InputsAppend(db2, db.outputs, more, j, p);
    OldRows(db, db2, j, p);
    NewRows(db, db2, j, p);
  }

  lemma OldRows(db: Db, db2: Db, j: JobId, p: nat)
    requires OutputsOk(db) && TasksMove(db, db2)
    ensures InputsFrom(db2, db.outputs, j, p) == InputsFrom(db, db.outputs, j, p)
  {
    forall i | 0 <= i < |db.outputs|
      ensures FeedsReduce(db2, db.outputs[i], j, p) == FeedsReduce(db, db.outputs[i], j, p)
    {
      OldRow(db, db2, i, j, p);
    }
    InputsAgree(db, db2, db.outputs, j, p);
  }

  lemma NewRows(db: Db, db2: Db, j: JobId, p: nat)
    requires TasksMove(db, db2) && OutputsMove(db, db2) && MapsDone(db, j)
    ensures InputsFrom(db2, db2.outputs[|db.outputs|..], j, p) == []
  {
    var more := db2.outputs[|db.outputs|..];
    forall i | 0 <= i < |more|
      ensures !FeedsReduce(db2, more[i], j, p)
    {
      NewRow(db, db2, |db.outputs| + i, j, p);
    }
    NoInputsEmpty(db2, more, j, p);
  }

  lemma OldRow(db: Db, db2: Db, i: nat, j: JobId, p: nat)
    requires OutputsOk(db) && TasksMove(db, db2) && i < |db.outputs|
    ensures FeedsReduce(db2, db.outputs[i], j, p) == FeedsReduce(db, db.outputs[i], j, p)
  {
    assert TaskMove(db, db2, db.outputs[i].task);
  }

  /** After the map phase only reduce tasks commit. */
  lemma NewRow(db: Db, db2: Db, i: nat, j: JobId, p: nat)
    requires TasksMove(db, db2) && OutputsMove(db, db2) && MapsDone(db, j) && |db.outputs| <= i < |db2.outputs|
    ensures !FeedsReduce(db2, db2.outputs[i], j, p)
  {
    var t := db2.outputs[i].task;
    assert SchedulerMoves.Commits(db, db2, t) && TaskMove(db, db2, t);
    assert t in PendingOfKind(db, db.tasks[t].job, db.tasks[t].kind);
  }

  lemma StableMove(db: Db, db2: Db, t: TaskId, p: nat)
    requires DbOk(db) && Moves(db, db2) && t in db.tasks && MapsDone(db, db.tasks[t].job)
    ensures t in db2.tasks && db2.tasks[t].job == db.tasks[t].job && db2.tasks[t].replicaIndex == db.tasks[t].replicaIndex
    ensures MapsDone(db2, db2.tasks[t].job)
    ensures ReduceInputs(db2, db2.tasks[t].job, p) == ReduceInputs(db, db.tasks[t].job, p)
  {
    assert TaskMove(db, db2, t);
    MapsStay(db, db2, db.tasks[t].job, t);
    MoveKeepsInputs(db, db2, db.tasks[t].job, p);
  }

  lemma {:induction false} StableFrom(dbs: seq<Db>, i: nat, k: nat, t: TaskId, p: nat)
    requires MoveRun(dbs) && i <= k < |dbs|
    requires t in dbs[i].tasks && MapsDone(dbs[i], dbs[i].tasks[t].job)
    ensures t in dbs[k].tasks && dbs[k].tasks[t].job == dbs[i].tasks[t].job
    ensures dbs[k].tasks[t].replicaIndex == dbs[i].tasks[t].replicaIndex
    ensures MapsDone(dbs[k], dbs[k].tasks[t].job)
    ensures ReduceInputs(dbs[k], dbs[k].tasks[t].job, p) == ReduceInputs(dbs[i], dbs[i].tasks[t].job, p)
    decreases k
  {
    if i < k {
      StableFrom(dbs, i, k - 1, t, p);
      assert MoveAt(dbs, k - 1);
      StableMove(dbs[k - 1], dbs[k], t, p);
    }
  }

  /** A reduce task is started or finished only when every map task of its job is Completed;
      one that is finished without having been started has no input. */
  lemma Barrier(ws: seq<World>, es: seq<Event>, i: nat, t: TaskId)
    requires IsRun(ws, es) && i < |es|
    requires t in ws[i].db.tasks && ws[i].db.tasks[t].kind == ReduceTask && t in ws[i + 1].db.tasks
    requires ws[i + 1].db.tasks[t].status == InProgress || ws[i + 1].db.tasks[t].status == TaskCompleted
    ensures MapsDone(ws[i].db, ws[i].db.tasks[t].job)
    ensures ws[i].db.tasks[t].status == Idle && ws[i + 1].db.tasks[t].status == TaskCompleted
      ==> ReduceInputs(ws[i].db, ws[i].db.tasks[t].job, ws[i].db.tasks[t].replicaIndex) == []
  {
    RunMoves(ws, es);
    assert MoveAt(Dbs(ws), i);
    BarrierMove(ws[i].db, ws[i + 1].db, t);
  }

  lemma BarrierMove(db: Db, db2: Db, t: TaskId)
    requires DbOk(db) && Moves(db, db2) && t in db.tasks && db.tasks[t].kind == ReduceTask && t in db2.tasks
    requires db2.tasks[t].status == InProgress || db2.tasks[t].status == TaskCompleted
    ensures MapsDone(db, db.tasks[t].job)
    ensures db.tasks[t].status == Idle && db2.tasks[t].status == TaskCompleted
      ==> ReduceInputs(db, db.tasks[t].job, db.tasks[t].replicaIndex) == []
  {
    assert TaskMove(db, db2, t);
    if NoInputs(db, db.tasks[t].job, db.tasks[t].replicaIndex) {
      NoInputsEmpty(db, db.outputs, db.tasks[t].job, db.tasks[t].replicaIndex);
    }
  }

  /** Once the map phase of a job is over, the inputs of each of its reduce partitions never change. */
  lemma StableInputs(ws: seq<World>, es: seq<Event>, i: nat, k: nat, t: TaskId, p: nat)
    requires IsRun(ws, es) && i <= k < |ws|
    requires t in ws[i].db.tasks && MapsDone(ws[i].db, ws[i].db.tasks[t].job)
    ensures t in ws[k].db.tasks && ws[k].db.tasks[t].job == ws[i].db.tasks[t].job
    ensures ws[k].db.tasks[t].replicaIndex == ws[i].db.tasks[t].replicaIndex
    ensures ReduceInputs(ws[k].db, ws[k].db.tasks[t].job, p) == ReduceInputs(ws[i].db, ws[i].db.tasks[t].job, p)
  {
    RunMoves(ws, es);
    StableFrom(Dbs(ws), i, k, t, p);
  }

  /** Every attempt of a reduce task is given the inputs that its first attempt was given. */
  lemma RetriesSeeSameInputs(ws: seq<World>, es: seq<Event>, i: nat, k: nat, t: TaskId)
    requires IsRun(ws, es) && i <= k < |ws|
    requires t in ws[i].db.tasks && ws[i].db.tasks[t].kind == ReduceTask
    requires AttemptsOf(ws[i].db, t) != {}
    ensures t in ws[k].db.tasks
    ensures ReduceInputs(ws[k].db, ws[k].db.tasks[t].job, ws[k].db.tasks[t].replicaIndex)
         == ReduceInputs(ws[i].db, ws[i].db.tasks[t].job, ws[i].db.tasks[t].replicaIndex)
  {
    RunMoves(ws, es);
    RunInv(ws, es, i);
    var db := ws[i].db;
    var a :| a in AttemptsOf(db, t);
    assert BarrierOk(db) && db.attempts[a].task == t;
    StableFrom(Dbs(ws), i, k, t, db.tasks[t].replicaIndex);
  }

  /** A reduce task that was finished without being started has no input in any later state. */
  lemma SkippedStaysEmpty(ws: seq<World>, es: seq<Event>, i: nat, k: nat, t: TaskId)
    requires IsRun(ws, es) && i < |es| && i < k < |ws|
    requires t in ws[i].db.tasks && ws[i].db.tasks[t].kind == ReduceTask && ws[i].db.tasks[t].status == Idle
    requires t in ws[i + 1].db.tasks && ws[i + 1].db.tasks[t].status == TaskCompleted
    ensures t in ws[k].db.tasks && ReduceInputs(ws[k].db, ws[k].db.tasks[t].job, ws[k].db.tasks[t].replicaIndex) == []
  {
    RunMoves(ws, es);
    var dbs := Dbs(ws);
    assert MoveAt(dbs, i);
    BarrierMove(dbs[i], dbs[i + 1], t);
    StableFrom(dbs, i, k, t, dbs[i].tasks[t].replicaIndex);
  }
}
