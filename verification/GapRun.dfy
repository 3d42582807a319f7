/** A run that loses data to a gap: one map task, whose only record goes to partition 1, and two reduce tasks. */
module GapRun {
  import opened Dds
  import opened SchedulerSpec
  import opened SchedulerRuns
  import opened TwoTaskJob
  import opened Records
  import opened ShufflePath
  import opened PartitionLists
  import opened PartitionIndex

  const TASKS := [NewTask(7, MapTask, 0), NewTask(20, ReduceTask, 0), NewTask(21, ReduceTask, 1)]

  function MapRow(status: TaskStatus, current: Option<AttemptId>): Task { Task(0, MapTask, status, 0, current) }

  function ReduceRow(partition: nat, status: TaskStatus, current: Option<AttemptId>): Task { Task(0, ReduceTask, status, partition, current) }

  /** The job's three task rows. */
  function Rows(m: Task, r0: Task, r1: Task): map<TaskId, Task> { map[7 := m, 20 := r0, 21 := r1] }

  const IDLE0 := ReduceRow(0, Idle, None)
  const IDLE1 := ReduceRow(1, Idle, None)

  /** The four states after the empty one. */
  const DB1 := Db(map[0 := Job(JobPending, 0)], Rows(MapRow(Idle, None), IDLE0, IDLE1), map[], [], None, 0)

  const DB2 := Db(map[0 := Job(JobRunning, 0)], Rows(MapRow(InProgress, Some(5)), IDLE0, IDLE1),
                  map[5 := Attempt(7, 0, 0, 30, AttemptRunning)], [], None, 0)

  function Db3(out: (string, string)): Db {
    Db(map[0 := Job(JobRunning, 0)], Rows(MapRow(TaskCompleted, None), IDLE0, IDLE1),
       map[5 := Attempt(7, 0, 0, 30, AttemptSuccess)], [Output(7, Some(0), out.0, out.1)], None, 0)
  }

  function Db4(out: (string, string)): Db {
    Db(map[0 := Job(JobRunning, 0)],
       Rows(MapRow(TaskCompleted, None), ReduceRow(0, InProgress, Some(6)), ReduceRow(1, TaskCompleted, None)),
       map[5 := Attempt(7, 0, 0, 30, AttemptSuccess), 6 := Attempt(20, 0, 0, 30, AttemptRunning)],
       [Output(7, Some(0), out.0, out.1)], None, 0)
  }

  /** The events lead from the empty store to this one. */
  ghost predicate Reached(es: seq<Event>, v: World, db: Db) {
    Leads(START, es, v) && v.cfg == CFG && v.booting == {} && v.db == db
  }

  lemma ScheduledRows()
    ensures FreshIds(START.db, TASKS) && Scheduled(START.db, 0, 0, TASKS) == DB1
  {
    assert FreshIds(START.db, TASKS);
    assert TASKS[0] in TASKS && TASKS[1] in TASKS && TASKS[2] in TASKS;
    var rows := NewRows(0, 0, TASKS);
    assert rows == DB1.tasks;
    assert WithRows(START.db.tasks, rows) == rows;
  }

  lemma Scheduling() returns (es: seq<Event>, v: World)
    ensures es == [Schedule(0, 0, 0, TASKS)] && Reached(es, v, DB1)
  {
    ScheduledRows();
    v := Step(START, Schedule(0, 0, 0, TASKS));
    assert Leads(START, [], START);
    LeadsOn(START, [], START, Schedule(0, 0, 0, TASKS));
    es := [] + [Schedule(0, 0, 0, TASKS)];
  }

  lemma MapIsIdle()
    ensures CanAssignMap(DB1, 0, 0, 7, 5, {}) && Assigned(DB1, 30, 0, 7, 5, 0) == DB2
  {
    assert IdleTasks(DB1, 0, 0, MapTask, {}) == {7};
    assert FailedTasks(DB1, 0) == {} && RunningAttempts(DB1) == {};
    var db := Assigned(DB1, 30, 0, 7, 5, 0);
    assert db.tasks == DB2.tasks && db.jobs == DB2.jobs && db.attempts == DB2.attempts;
  }

  lemma Mapping(es1: seq<Event>, v1: World) returns (es: seq<Event>, v: World)
    requires Reached(es1, v1, DB1)
    ensures es == es1 + [AssignMap(0, 0, 7, 5, 0, {})] && Reached(es, v, DB2)
  {
    MapIsIdle();
    LeadsOn(START, es1, v1, AssignMap(0, 0, 7, 5, 0, {}));
    es, v := es1 + [AssignMap(0, 0, 7, 5, 0, {})], Step(v1, AssignMap(0, 0, 7, 5, 0, {}));
  }

  lemma MapCommits(out: (string, string))
    ensures CompleteVerdict(DB2, 5, 7, 5, 0) == Ok && Completed(DB2, 7, 5, [out]) == Db3(out)
  {
    assert 20 in PendingTasks(DB2, 0);
    var db := Completed(DB2, 7, 5, [out]);
    assert OutputRows(7, [out]) == Db3(out).outputs;
    assert db.tasks == Db3(out).tasks && db.attempts == Db3(out).attempts;
  }

  lemma Committing(es2: seq<Event>, v2: World, out: (string, string)) returns (es: seq<Event>, v: World)
    requires Reached(es2, v2, DB2)
    ensures es == es2 + [Complete(0, 7, 5, 0, [out])] && Reached(es, v, Db3(out))
  {
    MapCommits(out);
    LeadsOn(START, es2, v2, Complete(0, 7, 5, 0, [out]));
    es, v := es2 + [Complete(0, 7, 5, 0, [out])], Step(v2, Complete(0, 7, 5, 0, [out]));
  }

  lemma Skipping(es3: seq<Event>, v3: World, out: (string, string)) returns (es: seq<Event>, v: World)
    requires Reached(es3, v3, Db3(out))
    ensures es == es3 + [AssignReduce(0, 0, 20, 6, 0, {})] && Reached(es, v, Db4(out))
  {
    ReduceIsIdle(out);
    ReduceAssigned(out);
    LeadsOn(START, es3, v3, AssignReduce(0, 0, 20, 6, 0, {}));
    es, v := es3 + [AssignReduce(0, 0, 20, 6, 0, {})], Step(v3, AssignReduce(0, 0, 20, 6, 0, {}));
  }

  lemma ReduceAssigned(out: (string, string))
    ensures Assigned(AutoCompleted(Db3(out), 0), 30, 0, 20, 6, 0) == Db4(out)
  {
    ReduceIsIdle(out);
    var db := Assigned(AutoCompleted(Db3(out), 0), 30, 0, 20, 6, 0);
    assert db.tasks == Db4(out).tasks && db.attempts == Db4(out).attempts && db.jobs == Db4(out).jobs;
  }

  lemma ReduceIsIdle(out: (string, string))
    ensures CanAssignReduce(Db3(out), 0, 0, 20, 6, {})
    ensures AutoCompleted(Db3(out), 0) == Db3(out).(tasks := Rows(MapRow(TaskCompleted, None), IDLE0, ReduceRow(1, TaskCompleted, None)))
  {
    var db := Db3(out);
    LooksEmpty(out);
    var db1 := AutoCompleted(db, 0);
    assert db1.tasks == Rows(MapRow(TaskCompleted, None), IDLE0, ReduceRow(1, TaskCompleted, None)) by {
      assert 20 in PendingTasks(SetTasks(db, {21}, TaskCompleted), 0);
    }
    assert FailedTasks(db, 0) == {} && IdleTasks(db, 0, 0, MapTask, {}) == {} && PendingOfKind(db, 0, MapTask) == {};
    assert IdleTasks(db1, 0, 0, ReduceTask, {}) == {20} && RunningAttempts(db1) == {};
  }

  lemma LooksEmpty(out: (string, string))
    ensures EmptyReduces(Db3(out), 0) == {21}
  {
    var db := Db3(out);
    assert FeedsReduce(db, db.outputs[0], 0, 0) && !FeedsReduce(db, db.outputs[0], 0, 1);
  }

  /** The reduce task of partition 1 is completed as empty although the map task wrote a record for it; the one of
      partition 0, which has none, is assigned that record's row, but it fetches partition 0 and finds nothing there. */
  ghost predicate LostData(db: Db, r: Record, row: Output) {
    && 21 in db.tasks && db.tasks[21] == ReduceRow(1, TaskCompleted, None) && OfPartition([r], 2, 1) == [r] && NoInputs(db, 0, 1)
    && ReduceInputs(db, 0, 0) == [row] && Content(map[7 := [r]], 2, row) == [r] && OfPartition([r], 2, 0) == []
  }

  /** The map task's records are one record with key "b", and it reports its one non-empty partition, 1, as its first output. */
  lemma SkippedWithData(r: Record, out: (string, string)) returns (ws: seq<World>, es: seq<Event>)
    requires r.key == [98]
    ensures IsRun(ws, es) && Reports(es, map[7 := [r]], 2)
    ensures forall i :: 0 <= i < |es| && es[i].Complete? ==> es[i].t == 7
    ensures LostData(ws[|es|].db, r, Output(7, Some(0), out.0, out.1))
  {
    var v;
    es, v := ReachSkipped(out);
    ws := LeadsIsRun(START, es, v);
    ReportsOne(es, r, out);
    Handed(r, out);
  }

  function EventsOf(out: (string, string)): seq<Event> {
    [Schedule(0, 0, 0, TASKS), AssignMap(0, 0, 7, 5, 0, {}), Complete(0, 7, 5, 0, [out]), AssignReduce(0, 0, 20, 6, 0, {})]
  }

  lemma ReachSkipped(out: (string, string)) returns (es: seq<Event>, v: World)
    ensures es == EventsOf(out) && Reached(es, v, Db4(out))
  {
    es, v := ReachMapped();
    es, v := Committing(es, v, out);
    es, v := Skipping(es, v, out);
  }

  lemma ReachMapped() returns (es: seq<Event>, v: World)
    ensures es == [Schedule(0, 0, 0, TASKS), AssignMap(0, 0, 7, 5, 0, {})] && Reached(es, v, DB2)
  {
    es, v := Scheduling();
    es, v := Mapping(es, v);
  }

  lemma ReportsOne(es: seq<Event>, r: Record, out: (string, string))
    requires es == EventsOf(out) && r.key == [98]
    ensures Reports(es, map[7 := [r]], 2) && forall i :: 0 <= i < |es| && es[i].Complete? ==> es[i].t == 7
  {
    GapExample(r);
  }

  lemma Handed(r: Record, out: (string, string))
    requires r.key == [98]
    ensures LostData(Db4(out), r, Output(7, Some(0), out.0, out.1))
  {
    GapExample(r);
    var db := Db4(out);
    assert FeedsReduce(db, db.outputs[0], 0, 0);
    assert db.outputs[..0] == [] && InputsFrom(db, [], 0, 0) == [];
  }
}
