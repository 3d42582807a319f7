/** Runs of one job with two map tasks, 7 and 8, step by step from an empty store. */
module TwoTaskJob {
  import opened Dds
  import opened SchedulerSpec
  import opened SchedulerRuns

  const CFG := Config(30, 5, false)

  const START := World(CFG, Db(map[], map[], map[], [], None, 0), map[], {})

  /** The job's status, its task rows, the attempts made per task, and the attempts still Running. */
  datatype Pos = Pos(job: JobStatus, tasks: map<TaskId, Task>, tried: map<TaskId, set<AttemptId>>, running: set<AttemptId>)

  predicate IsTask(t: TaskId) { t == 7 || t == 8 }

  predicate TaskShape(tasks: map<TaskId, Task>, t: TaskId) {
    t in tasks && tasks[t].job == 0 && tasks[t].kind == MapTask && tasks[t].replicaIndex == 0
  }

  /** The store holds exactly this job, at time 0, with every lease granted at time 0. */
  ghost predicate AtDb(db: Db, p: Pos) {
    && db.jobs == map[0 := Job(p.job, 0)] && db.tasks == p.tasks && db.outputs == [] && db.maxPods == None && db.now == 0
    && p.tasks.Keys == {7, 8} && TaskShape(p.tasks, 7) && TaskShape(p.tasks, 8)
    && 7 in p.tried && 8 in p.tried && AttemptsOf(db, 7) == p.tried[7] && AttemptsOf(db, 8) == p.tried[8]
    && db.attempts.Keys == p.tried[7] + p.tried[8] && RunningAttempts(db) == p.running
    && (forall a :: a in db.attempts ==> db.attempts[a].lease == 0 && db.attempts[a].lastRenewed == 0 && db.attempts[a].ttl == 30)
  }

  /** Replica 0 is up, has nothing in flight, and stamped every heartbeat at time 0. */
  ghost predicate At(v: World, p: Pos) {
    && v.cfg == CFG && v.booting == {} && AtDb(v.db, p)
    && Mem(v, 0).inFlight == map[] && forall a :: a in Mem(v, 0).heartbeats ==> Mem(v, 0).heartbeats[a] == 0
  }

  /** The events lead from the empty store to position p; `queue` is replica 0's cleanup queue. */
  ghost predicate Reached(es: seq<Event>, v: World, p: Pos, queue: map<JobId, Ticket>) {
    Leads(START, es, v) && At(v, p) && Mem(v, 0).pendingCleanup == queue
  }

  function Given(p: Pos, t: TaskId, a: AttemptId): Pos
    requires t in p.tasks && t in p.tried
  {
    Pos(JobRunning, p.tasks[t := p.tasks[t].(status := InProgress, current := Some(a))], p.tried[t := p.tried[t] + {a}], p.running + {a})
  }

  /** Handing out task t; the other row is locked by someone else, so it is skipped. */
  function Give(t: TaskId, a: AttemptId): Event { AssignMap(0, 0, t, a, 0, {7, 8} - {t}) }

  lemma GiveEnabled(v: World, p: Pos, t: TaskId, a: AttemptId)
    requires At(v, p) && IsTask(t) && p.tasks[t].status == Idle && a !in p.tried[7] + p.tried[8] && |p.running| < 10
    requires p.tasks[7].status != TaskFailed && p.tasks[8].status != TaskFailed
    ensures Enabled(v, Give(t, a))
  {
    assert FailedTasks(v.db, 0) == {};
    assert IdleTasks(v.db, 0, 0, MapTask, {7, 8} - {t}) == {t};
  }

  lemma OneMoreAttempt(db: Db, db2: Db, t: TaskId, a: AttemptId, row: Attempt, x: TaskId)
    requires a !in db.attempts && row.task == t && row.status == AttemptRunning && db2.attempts == db.attempts[a := row]
    ensures AttemptsOf(db2, x) == AttemptsOf(db, x) + (if x == t then {a} else {})
    ensures RunningAttempts(db2) == RunningAttempts(db) + {a}
  {
  }

  lemma GiveDb(db: Db, p: Pos, t: TaskId, a: AttemptId)
    requires AtDb(db, p) && IsTask(t) && p.tasks[t].status == Idle && a !in p.tried[7] + p.tried[8]
    ensures AtDb(Assigned(db, 30, 0, t, a, 0), Given(p, t, a))
  {
    var db2, q := Assigned(db, 30, 0, t, a, 0), Given(p, t, a);
    var row := Attempt(t, 0, 0, 30, AttemptRunning);
    assert db2 == Db(map[0 := Job(JobRunning, 0)], q.tasks, db.attempts[a := row], [], None, 0);
    OneMoreAttempt(db, db2, t, a, row, 7);
    OneMoreAttempt(db, db2, t, a, row, 8);
  }

  lemma GiveStep(es: seq<Event>, v: World, p: Pos, queue: map<JobId, Ticket>, t: TaskId, a: AttemptId) returns (es2: seq<Event>, v2: World)
    requires Reached(es, v, p, queue) && IsTask(t) && p.tasks[t].status == Idle && a !in p.tried[7] + p.tried[8] && |p.running| < 10
    requires p.tasks[7].status != TaskFailed && p.tasks[8].status != TaskFailed
    ensures Reached(es2, v2, Given(p, t, a), queue) && a in Mem(v2, 0).heartbeats
  {
    GiveEnabled(v, p, t, a);
    GiveDb(v.db, p, t, a);
    LeadsOn(START, es, v, Give(t, a));
    es2, v2 := es + [Give(t, a)], Step(v, Give(t, a));
  }

  /** What a reported failure leaves: Idle again, or after the third attempt Failed and the job in Cleaning. */
  function Lost(p: Pos, t: TaskId, a: AttemptId): Pos
    requires t in p.tasks && t in p.tried
  {
    var last := |p.tried[t]| >= MAX_TASK_ATTEMPTS;
    Pos(if last then JobCleaning else p.job, p.tasks[t := p.tasks[t].(status := if last then TaskFailed else Idle, current := None)],
        p.tried, p.running - {a})
  }

  function Lose(t: TaskId, a: AttemptId): Event { Fail(0, t, a, 0) }

  lemma AttemptFails(db: Db, db2: Db, a: AttemptId, x: TaskId)
    requires a in db.attempts && db2.attempts == db.attempts[a := db.attempts[a].(status := AttemptFailed)]
    ensures AttemptsOf(db2, x) == AttemptsOf(db, x) && RunningAttempts(db2) == RunningAttempts(db) - {a}
  {
  }

  lemma LoseDb(db: Db, p: Pos, t: TaskId, a: AttemptId)
    requires AtDb(db, p) && IsTask(t) && a in p.tried[t]
    ensures AtDb(FailedOne(db, t, a), Lost(p, t, a))
  {
    var db2, q := FailedOne(db, t, a), Lost(p, t, a);
    LostRows(db, p, t, a);
    AttemptFails(db, db2, a, 7);
    AttemptFails(db, db2, a, 8);
  }

  lemma LostRows(db: Db, p: Pos, t: TaskId, a: AttemptId)
    requires AtDb(db, p) && IsTask(t) && a in p.tried[t]
    ensures a in db.attempts
    ensures var q := Lost(p, t, a);
      FailedOne(db, t, a) == Db(map[0 := Job(q.job, 0)], q.tasks, db.attempts[a := db.attempts[a].(status := AttemptFailed)], [], None, 0)
  {
    assert a in AttemptsOf(db, t);
  }

  lemma LoseEnabled(v: World, p: Pos, t: TaskId, a: AttemptId)
    requires At(v, p) && IsTask(t) && p.job == JobRunning && a in p.tried[t]
    requires p.tasks[t].status == InProgress && p.tasks[t].current == Some(a)
    ensures Enabled(v, Lose(t, a))
  {
    assert a in v.db.attempts;
  }

  lemma LoseMem(v: World, p: Pos, t: TaskId, a: AttemptId)
    requires At(v, p) && IsTask(t) && Enabled(v, Lose(t, a))
    ensures var m := Mem(Step(v, Lose(t, a)), 0);
      && m.inFlight == map[] && m.heartbeats == Mem(v, 0).heartbeats - {a}
      && m.pendingCleanup == if |p.tried[t]| >= MAX_TASK_ATTEMPTS then Mem(v, 0).pendingCleanup[0 := Known(JobFailed)] else Mem(v, 0).pendingCleanup
  {
    assert AttemptsOf(v.db, t) == p.tried[t];
  }

  lemma LoseStep(es: seq<Event>, v: World, p: Pos, queue: map<JobId, Ticket>, t: TaskId, a: AttemptId) returns (es2: seq<Event>, v2: World)
    requires Reached(es, v, p, queue) && IsTask(t) && p.job == JobRunning && a in p.tried[t]
    requires p.tasks[t].status == InProgress && p.tasks[t].current == Some(a)
    ensures Reached(es2, v2, Lost(p, t, a), if |p.tried[t]| >= MAX_TASK_ATTEMPTS then queue[0 := Known(JobFailed)] else queue)
  {
    LoseEnabled(v, p, t, a);
    es2, v2 := es + [Lose(t, a)], Step(v, Lose(t, a));
    assert v2.db == FailedOne(v.db, t, a) && v2.cfg == CFG && v2.booting == {};
    LoseDb(v.db, p, t, a);
    LoseMem(v, p, t, a);
    LeadsOn(START, es, v, Lose(t, a));
  }

  const FRESH := Task(0, MapTask, Idle, 0, None)

  const SCHEDULED := Pos(JobPending, map[7 := FRESH, 8 := FRESH], map[7 := {}, 8 := {}], {})

  lemma ScheduleStep() returns (es: seq<Event>, v: World)
    ensures Reached(es, v, SCHEDULED, map[])
  {
    var ns := [NewTask(7, MapTask, 0), NewTask(8, MapTask, 0)];
    var e := Schedule(0, 0, 0, ns);
    ScheduledDb(ns);
    assert Enabled(START, e);
    v := Step(START, e);
    assert Leads(START, [], START);
    LeadsOn(START, [], START, e);
    es := [] + [e];
  }

  lemma ScheduledDb(ns: seq<NewTask>)
    requires ns == [NewTask(7, MapTask, 0), NewTask(8, MapTask, 0)]
    ensures FreshIds(START.db, ns) && AtDb(Scheduled(START.db, 0, 0, ns), SCHEDULED)
  {
    var db2 := Scheduled(START.db, 0, 0, ns);
    assert ns[0] in ns && ns[1] in ns && NewRows(0, 0, ns).Keys == {7, 8};
    assert db2.tasks == SCHEDULED.tasks;
    assert AttemptsOf(db2, 7) == {} && AttemptsOf(db2, 8) == {} && RunningAttempts(db2) == {};
  }

  function Tried(p: Pos, t: TaskId, a: AttemptId): Pos
    requires t in p.tasks && t in p.tried
  {
    Pos(JobRunning, p.tasks[t := p.tasks[t].(status := Idle, current := None)], p.tried[t := p.tried[t] + {a}], p.running)
  }

  lemma OneTry(es: seq<Event>, v: World, p: Pos, queue: map<JobId, Ticket>, t: TaskId, a: AttemptId) returns (es2: seq<Event>, v2: World)
    requires Reached(es, v, p, queue) && IsTask(t) && p.tasks[t].status == Idle && |p.tried[t]| < 2 && |p.running| < 10
    requires p.tasks[7].status != TaskFailed && p.tasks[8].status != TaskFailed
    requires a !in p.tried[7] + p.tried[8] && a !in p.running
    ensures Reached(es2, v2, Tried(p, t, a), queue)
  {
    var es1, v1 := GiveStep(es, v, p, queue, t, a);
    GivenLost(p, t, a);
    es2, v2 := LoseStep(es1, v1, Given(p, t, a), queue, t, a);
  }

  lemma GivenLost(p: Pos, t: TaskId, a: AttemptId)
    requires t in p.tasks && t in p.tried && |p.tried[t]| < 2 && a !in p.tried[t] && a !in p.running
    ensures Lost(Given(p, t, a), t, a) == Tried(p, t, a) && |Given(p, t, a).tried[t]| < MAX_TASK_ATTEMPTS
  {
    assert p.running + {a} - {a} == p.running;
  }

  /** Two attempts of task t, a and b, fail; a third one, c, is under way. */
  lemma ThirdTry(es: seq<Event>, v: World, p: Pos, queue: map<JobId, Ticket>, t: TaskId, a: AttemptId, b: AttemptId, c: AttemptId)
    returns (es2: seq<Event>, v2: World)
    requires Reached(es, v, p, queue) && IsTask(t) && p.tasks[t].status == Idle && p.tried[t] == {} && |p.running| < 10
    requires p.tasks[7].status != TaskFailed && p.tasks[8].status != TaskFailed
    requires {a, b, c} !! p.tried[7] + p.tried[8] && {a, b, c} !! p.running && a != b && b != c && a != c
    ensures Reached(es2, v2, Given(Tried(Tried(p, t, a), t, b), t, c), queue)
  {
    es2, v2 := OneTry(es, v, p, queue, t, a);
    es2, v2 := OneTry(es2, v2, Tried(p, t, a), queue, t, b);
    es2, v2 := GiveStep(es2, v2, Tried(Tried(p, t, a), t, b), queue, t, c);
  }

  /** Task 7 on its third attempt, task 8 not yet started. */
  const LAST_CHANCE := Pos(JobRunning, map[7 := FRESH.(status := InProgress, current := Some(3)), 8 := FRESH],
                           map[7 := {1, 2, 3}, 8 := {}], {3})

  lemma ReachLastChance() returns (es: seq<Event>, v: World)
    ensures Reached(es, v, LAST_CHANCE, map[])
  {
    es, v := ScheduleStep();
    es, v := ThirdTry(es, v, SCHEDULED, map[], 7, 1, 2, 3);
    LastChanceIs();
  }

  lemma LastChanceIs()
    ensures Given(Tried(Tried(SCHEDULED, 7, 1), 7, 2), 7, 3) == LAST_CHANCE
  {
    var p := Given(Tried(Tried(SCHEDULED, 7, 1), 7, 2), 7, 3);
    assert p.tasks == LAST_CHANCE.tasks;
    assert p.tried[7] == {1, 2, 3} && p.tried == LAST_CHANCE.tried && p.running == {3};
  }

  /** Task 8 is handed out as attempt 5. */
  lemma ReachAssigned() returns (es: seq<Event>, v: World)
    ensures Leads(START, es, v) && At(v, Given(SCHEDULED, 8, 5)) && 5 in Mem(v, 0).heartbeats
  {
    var es0, v0 := ScheduleStep();
    es, v := GiveStep(es0, v0, SCHEDULED, map[], 8, 5);
  }
}
