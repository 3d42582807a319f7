/** What the recorded partition index means.

    A map task closes its partitions in ascending order and reports one output per non-empty partition; the scheduler
    records the position in that list as the partition index.  The two agree exactly when the non-empty partitions
    are 0, 1, ..., k-1. */
module PartitionIndex {
  import opened Dds
  import opened SchedulerRuns
  import opened SchedulerMoves
  import opened SchedulerInvariant
  import opened Commits
  import opened Records
  import opened ShufflePath
  import opened PartitionLists

  /** `order[t]` is the ascending list of non-empty partitions of map task t. */
  type Orders = map<TaskId, seq<int>>

  // ---------- in the data store ----------

  predicate MapOf(db: Db, t: TaskId, j: JobId) {
    t in db.tasks && db.tasks[t].job == j && db.tasks[t].kind == MapTask
  }

  /** The rows of a Completed map task are numbered like its list of non-empty partitions. */
  ghost predicate Recorded(db: Db, t: TaskId, order: seq<int>) {
    && |OutputsOf(db.outputs, t)| == |order|
    && forall n :: 0 <= n < |order| ==> OutputsOf(db.outputs, t)[n].partition == Some(n)
  }

  ghost predicate AllRecorded(db: Db, j: JobId, orders: Orders) {
    forall t :: MapOf(db, t, j) ==> t in orders && Ordered(orders[t]) && Recorded(db, t, orders[t])
  }

  lemma {:induction false} RowListed(rows: seq<Output>, i: nat)
    requires i < |rows|
    ensures rows[i] in OutputsOf(rows, rows[i].task)
  {
    if i < |rows| - 1 { RowListed(rows[..|rows| - 1], i); }
  }

  lemma {:induction false} ListedRow(rows: seq<Output>, t: TaskId, n: nat) returns (i: nat)
    requires n < |OutputsOf(rows, t)|
    ensures i < |rows| && rows[i] == OutputsOf(rows, t)[n] && rows[i].task == t
  {
    if rows[|rows| - 1].task == t && n == |OutputsOf(rows, t)| - 1 {
      i := |rows| - 1;
    } else {
      i := ListedRow(rows[..|rows| - 1], t, n);
    }
  }

  /** The partition whose records row i really holds. */
  ghost predicate Holds(db: Db, i: nat, orders: Orders, p: int)
    requires i < |db.outputs|
  {
    var o := db.outputs[i];
    o.task in orders && o.partition.Some? && o.partition.value < |orders[o.task]| && orders[o.task][o.partition.value] == p
  }

  /** Reduce task p is assigned row i iff the row holds partition p. */
  ghost predicate RightRow(db: Db, j: JobId, orders: Orders, i: nat, p: nat)
    requires i < |db.outputs|
  {
    FeedsReduce(db, db.outputs[i], j, p) <==> MapOf(db, db.outputs[i].task, j) && Holds(db, i, orders, p)
  }

  lemma RowIndex(db: Db, j: JobId, orders: Orders, i: nat)
    requires AllRecorded(db, j, orders) && i < |db.outputs| && MapOf(db, db.outputs[i].task, j)
    ensures db.outputs[i].partition.Some? && db.outputs[i].partition.value < |orders[db.outputs[i].task]|
  {
    var t := db.outputs[i].task;
    RowListed(db.outputs, i);
    assert Recorded(db, t, orders[t]);
  }

  /** Every reduce task of the job is assigned exactly the rows of its own partition iff no map task left a gap. */
  lemma ServedIffPrefix(db: Db, j: JobId, orders: Orders)
    requires OutputsOk(db) && AllRecorded(db, j, orders)
    ensures (forall i, p: nat :: 0 <= i < |db.outputs| ==> RightRow(db, j, orders, i, p))
        <==> (forall t :: MapOf(db, t, j) ==> Prefix(orders[t]))
  {
    if forall i, p: nat :: 0 <= i < |db.outputs| ==> RightRow(db, j, orders, i, p) {
      forall t | MapOf(db, t, j) ensures Prefix(orders[t]) { ServedPrefix(db, j, orders, t); }
    }
    if forall t :: MapOf(db, t, j) ==> Prefix(orders[t]) {
      forall i, p: nat | 0 <= i < |db.outputs| ensures RightRow(db, j, orders, i, p) {
        var t := db.outputs[i].task;
        if MapOf(db, t, j) {
          RowIndex(db, j, orders, i);
          PositionIsPartition(orders[t]);
        }
      }
    }
  }

  lemma ServedPrefix(db: Db, j: JobId, orders: Orders, t: TaskId)
    requires OutputsOk(db) && AllRecorded(db, j, orders) && MapOf(db, t, j)
    requires forall i, p: nat :: 0 <= i < |db.outputs| ==> RightRow(db, j, orders, i, p)
    ensures Prefix(orders[t])
  {
    forall n | 0 <= n < |orders[t]| ensures orders[t][n] == n {
      var i := ListedRow(db.outputs, t, n);
      assert RightRow(db, j, orders, i, n);
    }
    PositionIsPartition(orders[t]);
  }

  /** A reduce task looks empty to the scheduler iff no map task reported more than p outputs. */
  lemma LooksEmptyIff(db: Db, j: JobId, orders: Orders, p: nat)
    requires OutputsOk(db) && AllRecorded(db, j, orders)
    ensures NoInputs(db, j, p) <==> forall t :: MapOf(db, t, j) ==> |orders[t]| <= p
  {
    if NoInputs(db, j, p) {
      forall t | MapOf(db, t, j) ensures |orders[t]| <= p {
        if p < |orders[t]| {
          var i := ListedRow(db.outputs, t, p);
          assert FeedsReduce(db, db.outputs[i], j, p);
        }
      }
    } else {
      var i :| 0 <= i < |db.outputs| && FeedsReduce(db, db.outputs[i], j, p);
      RowIndex(db, j, orders, i);
    }
  }

  // ---------- over whole runs ----------

  /** The sorted records of each map task. */
  type Runs = map<TaskId, seq<Record>>

  function OrdersOf(runs: Runs, R: nat): Orders
    requires R > 0
  {
    map t | t in runs :: Parts(runs[t], R, R)
  }

  /** The records behind an output row. */
  function Content(runs: Runs, R: nat, o: Output): seq<Record>
    requires R > 0
  {
    if o.task in runs && o.partition.Some? && o.partition.value < |Parts(runs[o.task], R, R)|
    then Held(runs[o.task], R, Parts(runs[o.task], R, R)[o.partition.value])
    else []
  }

  /** Reduce task p is assigned the row iff it holds the records of partition p of one of the job's map tasks. */
  ghost predicate GoesTo(db: Db, j: JobId, runs: Runs, R: nat, o: Output, p: nat)
    requires R > 0
  {
    FeedsReduce(db, o, j, p) <==> MapOf(db, o.task, j) && o.task in runs && Content(runs, R, o) == OfPartition(runs[o.task], R, p) != []
  }

  /** Every commit of a listed map task reports one output per non-empty partition. */
  ghost predicate Reports(es: seq<Event>, runs: Runs, R: nat)
    requires R > 0
  {
    forall i | 0 <= i < |es| && es[i].Complete? :: es[i].t in runs ==> |es[i].outs| == |Parts(runs[es[i].t], R, R)|
  }

  lemma ContentIs(db: Db, i: nat, runs: Runs, R: nat, p: nat)
    requires R > 0 && i < |db.outputs|
    ensures Holds(db, i, OrdersOf(runs, R), p) <==>
      db.outputs[i].task in runs && Content(runs, R, db.outputs[i]) == OfPartition(runs[db.outputs[i].task], R, p) != []
  {
    var o := db.outputs[i];
    if o.task in runs && o.partition.Some? {
      var run := runs[o.task];
      var parts := Parts(run, R, R);
      PartsAre(run, R);
      if o.partition.value < |parts| {
        assert parts[o.partition.value] in parts;
        InPartition(run, R, parts[o.partition.value]);
        InPartition(run, R, p);
      }
    }
  }

  /** A Completed map task was committed. */
  lemma {:induction false} MapCommitted(ws: seq<World>, es: seq<Event>, k: nat, t: TaskId) returns (i: nat)
    requires IsRun(ws, es) && k < |ws| && t in ws[k].db.tasks
    requires ws[k].db.tasks[t].kind == MapTask && ws[k].db.tasks[t].status == TaskCompleted
    ensures i < k && es[i].Complete? && es[i].t == t
    decreases k
  {
    if k > 0 && CommitsTask(es[k - 1], t) {
      i := k - 1;
    } else {
      RunInv(ws, es, k - 1);
      assert StepAt(ws, es, k - 1);
      StepMoves(ws[k - 1], es[k - 1]);
      OnlyCompleteCommits(ws[k - 1], es[k - 1], t);
      AlreadyCompleted(ws[k - 1].db, ws[k].db, t);
      i := MapCommitted(ws, es, k - 1, t);
    }
  }

  lemma AlreadyCompleted(db: Db, db2: Db, t: TaskId)
    requires TasksMove(db, db2) && t in db2.tasks && db2.tasks[t].kind == MapTask && db2.tasks[t].status == TaskCompleted
    requires !SchedulerMoves.Commits(db, db2, t)
    ensures t in db.tasks && db.tasks[t].kind == MapTask && db.tasks[t].status == TaskCompleted
  {
    assert t !in db.tasks ==> TaskBirth(db, db2, t);
    assert t in db.tasks ==> TaskMove(db, db2, t);
  }

  /** After the map phase, in every run: every reduce task of the job is assigned exactly the rows of its own partition
      iff no map task left a gap; and a reduce task looks empty although some map task wrote its partition iff one of
      those that did left a gap. */
  lemma RunServes(ws: seq<World>, es: seq<Event>, k: nat, j: JobId, runs: Runs, R: nat)
    requires R > 0 && IsRun(ws, es) && k < |ws| && Reports(es, runs, R)
    requires MapsDone(ws[k].db, j) && forall t :: MapOf(ws[k].db, t, j) ==> t in runs
    ensures (forall i, p: nat :: 0 <= i < |ws[k].db.outputs| ==> GoesTo(ws[k].db, j, runs, R, ws[k].db.outputs[i], p))
        <==> (forall t :: MapOf(ws[k].db, t, j) ==> GapFree(runs[t], R))
    ensures forall p: nat :: NoInputs(ws[k].db, j, p) ==>
      (Wrote(ws[k].db, j, runs, R, p) <==> exists t :: WroteIt(ws[k].db, j, runs, R, p, t) && !GapFree(runs[t], R))
  {
    var db, orders := ws[k].db, OrdersOf(runs, R);
    RunRecorded(ws, es, k, j, runs, R);
    RunInv(ws, es, k);
    ServedIffPrefix(db, j, orders);
    forall t | MapOf(db, t, j) ensures GapFree(runs[t], R) <==> Prefix(orders[t]) { GapFreeIff(runs[t], R); }
    forall i, p: nat | 0 <= i < |db.outputs|
      ensures GoesTo(db, j, runs, R, db.outputs[i], p) <==> RightRow(db, j, orders, i, p)
    {
      ContentIs(db, i, runs, R, p);
    }
    forall p: nat | NoInputs(db, j, p)
      ensures Wrote(db, j, runs, R, p) <==> exists t :: WroteIt(db, j, runs, R, p, t) && !GapFree(runs[t], R)
    {
      SkippedWrote(db, j, runs, R, p);
    }
  }

  ghost predicate WroteIt(db: Db, j: JobId, runs: Runs, R: nat, p: nat, t: TaskId)
    requires R > 0
  {
    MapOf(db, t, j) && t in runs && OfPartition(runs[t], R, p) != []
  }

  /** Some map task of the job has records for partition p. */
  ghost predicate Wrote(db: Db, j: JobId, runs: Runs, R: nat, p: nat)
    requires R > 0
  {
    exists t :: WroteIt(db, j, runs, R, p, t)
  }

  /** A reduce task that is skipped as empty has no records in any map output, unless a map task that wrote partition p
      left a gap below it. */
  lemma SkippedWrote(db: Db, j: JobId, runs: Runs, R: nat, p: nat)
    requires R > 0 && OutputsOk(db) && AllRecorded(db, j, OrdersOf(runs, R)) && NoInputs(db, j, p)
    ensures Wrote(db, j, runs, R, p) <==> exists t :: WroteIt(db, j, runs, R, p, t) && !GapFree(runs[t], R)
  {
    if t :| WroteIt(db, j, runs, R, p, t) {
      PartsAre(runs[t], R);
      InPartition(runs[t], R, p);
      LooksEmptyIff(db, j, OrdersOf(runs, R), p);
      GapFreeIff(runs[t], R);
      PositionIsPartition(Parts(runs[t], R, R));
    }
  }

  lemma RunRecorded(ws: seq<World>, es: seq<Event>, k: nat, j: JobId, runs: Runs, R: nat)
    requires R > 0 && IsRun(ws, es) && k < |ws| && Reports(es, runs, R)
    requires MapsDone(ws[k].db, j) && forall t :: MapOf(ws[k].db, t, j) ==> t in runs
    ensures AllRecorded(ws[k].db, j, OrdersOf(runs, R))
  {
    var db, orders := ws[k].db, OrdersOf(runs, R);
    forall t | MapOf(db, t, j) ensures t in orders && Ordered(orders[t]) && Recorded(db, t, orders[t]) {
      PartsAre(runs[t], R);
      assert t !in PendingOfKind(db, j, MapTask);
      var i := MapCommitted(ws, es, k, t);
      CommitForever(ws, es, i, k);
    }
  }
}
