/** The checksum lists of the shuffle are what the scheduler's rows say, in every run. */
module ShuffleRun {
  import opened Dds
  import opened SchedulerRuns
  import opened SchedulerMoves
  import opened Commits
  import opened Phases
  import opened PartitionIndex
  import opened Records
  import opened ShuffleDownload
  import opened ShufflePushes
  import opened ShuffleEndToEnd

  // ---------- the output table ----------

  /** The rows that the commits among these events write, in order. */
  function RowsOf(es: seq<Event>): seq<Output> {
    if es == [] then []
    else
      var last := es[|es| - 1];
      RowsOf(es[..|es| - 1]) + Written(last)
  }

  function Written(e: Event): seq<Output> { if e.Complete? then OutputRows(e.t, e.outs) else [] }

  lemma {:induction false} OutputsAre(ws: seq<World>, es: seq<Event>, k: nat)
    requires IsRun(ws, es) && k < |ws|
    ensures ws[k].db.outputs == RowsOf(es[..k])
  {
    if k > 0 {
      OutputsAre(ws, es, k - 1);
      assert StepAt(ws, es, k - 1);
      assert es[..k][..k - 1] == es[..k - 1];
      AppendsRows(ws[k - 1], es[k - 1]);
    }
  }

  lemma AppendsRows(w: World, e: Event)
    requires Enabled(w, e)
    ensures StepDb(w, e).outputs == w.db.outputs + Written(e)
  {
    if e.Complete? { CompletedRows(w.db, e.t, e.a, e.outs); } else { SameOutputs(w, e); }
  }

  /** A commit gives reduce task p the row at list position p. */
  predicate Feeds(db: Db, t: TaskId, j: JobId) {
    MapOf(db, t, j) && db.tasks[t].status == TaskCompleted
  }

  lemma {:induction false} InputsOfPrefix(db: Db, t: TaskId, outs: seq<(string, string)>, j: JobId, p: nat, n: nat)
    requires n <= |outs|
    ensures InputsFrom(db, OutputRows(t, outs)[..n], j, p) == if Feeds(db, t, j) && p < n then [Output(t, Some(p), outs[p].0, outs[p].1)] else []
  {
    if n > 0 {
      InputsOfPrefix(db, t, outs, j, p, n - 1);
      var rows := OutputRows(t, outs)[..n];
      assert rows[..n - 1] == OutputRows(t, outs)[..n - 1] && rows[n - 1] == Output(t, Some(n - 1), outs[n - 1].0, outs[n - 1].1);
    }
  }

  lemma InputsOfCommit(db: Db, t: TaskId, outs: seq<(string, string)>, j: JobId, p: nat)
    ensures InputsFrom(db, OutputRows(t, outs), j, p) == if Feeds(db, t, j) && p < |outs| then [Output(t, Some(p), outs[p].0, outs[p].1)] else []
  {
    InputsOfPrefix(db, t, outs, j, p, |outs|);
    assert OutputRows(t, outs)[..|outs|] == OutputRows(t, outs);
  }

  // ---------- checksums ----------

  function Checksums(rows: seq<Output>): (r: seq<string>)
    ensures |r| == |rows| && forall i :: 0 <= i < |rows| ==> r[i] == rows[i].checksum
  {
    seq(|rows|, i requires 0 <= i < |rows| => rows[i].checksum)
  }

  lemma ChecksumsMore(rows: seq<Output>, more: seq<Output>)
    ensures Checksums(rows + more) == Checksums(rows) + Checksums(more)
  {
  }

  /** The map tasks of job j in the order in which they committed. */
  function CommitList(es: seq<Event>, db: Db, j: JobId): seq<TaskId> {
    if es == [] then []
    else
      var last := es[|es| - 1];
      CommitList(es[..|es| - 1], db, j) + if Adds(last, db, j) then [last.t] else []
  }

  /** The commit of one of the job's map tasks. */
  predicate Adds(e: Event, db: Db, j: JobId) { e.Complete? && MapOf(db, e.t, j) }

  function RunList(list: seq<TaskId>, runs: Runs): (r: seq<seq<Record>>)
    ensures |r| == |list|
  {
    seq(|list|, i requires 0 <= i < |list| => if list[i] in runs then runs[list[i]] else [])
  }

  /** Every commit of a listed map task reports the digests of its non-empty partitions. */
  ghost predicate Reported(es: seq<Event>, runs: Runs, R: nat, enc: Encode, sha: Digest)
    requires R > 0
  {
    forall i | 0 <= i < |es| && es[i].Complete? && es[i].t in runs :: ReportsSums(es[i].outs, runs[es[i].t], R, enc, sha)
  }

  ghost predicate ReportsSums(outs: seq<(string, string)>, run: seq<Record>, R: nat, enc: Encode, sha: Digest)
    requires R > 0
  {
    |outs| == |Report(run, R, enc, sha)| && forall n :: 0 <= n < |outs| ==> outs[n].1 == Report(run, R, enc, sha)[n]
  }

  lemma OneCommit(db: Db, t: TaskId, outs: seq<(string, string)>, j: JobId, p: nat, run: seq<Record>, R: nat, enc: Encode, sha: Digest)
    requires R > 0 && Feeds(db, t, j) && ReportsSums(outs, run, R, enc, sha)
    ensures Checksums(InputsFrom(db, OutputRows(t, outs), j, p)) == RowOf(Report(run, R, enc, sha), p)
  {
    InputsOfCommit(db, t, outs, j, p);
  }

  /** A commit whose task is Completed in db and whose report is that of its records. */
  ghost predicate Good(e: Event, db: Db, j: JobId, runs: Runs, R: nat, enc: Encode, sha: Digest)
    requires R > 0
  {
    Adds(e, db, j) ==> db.tasks[e.t].status == TaskCompleted && e.t in runs && ReportsSums(e.outs, runs[e.t], R, enc, sha)
  }

  lemma {:induction false} ListIs(es: seq<Event>, db: Db, j: JobId, runs: Runs, R: nat, enc: Encode, sha: Digest, p: nat)
    requires R > 0 && forall i :: 0 <= i < |es| ==> Good(es[i], db, j, runs, R, enc, sha)
    ensures Checksums(InputsFrom(db, RowsOf(es), j, p)) == Expected(RunList(CommitList(es, db, j), runs), R, enc, sha, p)
  {
    if es != [] {
      var front, e := es[..|es| - 1], es[|es| - 1];
      ListIs(front, db, j, runs, R, enc, sha, p);
      InputsAppend(db, RowsOf(front), Written(e), j, p);
      ChecksumsMore(InputsFrom(db, RowsOf(front), j, p), InputsFrom(db, Written(e), j, p));
      OneEvent(db, e, j, runs, R, enc, sha, p);
      var list := CommitList(front, db, j);
      if Adds(e, db, j) {
        ExpectedNext(list, e.t, runs, R, enc, sha, p);
      } else {
        assert CommitList(es, db, j) == list;
        assert Checksums(InputsFrom(db, RowsOf(front), j, p)) + [] == Checksums(InputsFrom(db, RowsOf(front), j, p));
      }
    }
  }

  lemma ExpectedNext(list: seq<TaskId>, t: TaskId, runs: Runs, R: nat, enc: Encode, sha: Digest, p: nat)
    requires R > 0 && t in runs
    ensures Expected(RunList(list + [t], runs), R, enc, sha, p) == Expected(RunList(list, runs), R, enc, sha, p) + RowOf(Report(runs[t], R, enc, sha), p)
  {
    RunListMore(list, t, runs);
    ExpectedMore(RunList(list, runs), runs[t], R, enc, sha, p);
  }

  lemma GoodInRun(ws: seq<World>, es: seq<Event>, k: nat, i: nat, j: JobId, runs: Runs, R: nat, enc: Encode, sha: Digest)
    requires R > 0 && IsRun(ws, es) && i < k < |ws| && Reported(es, runs, R, enc, sha)
    requires forall t :: MapOf(ws[k].db, t, j) ==> t in runs
    ensures Good(es[i], ws[k].db, j, runs, R, enc, sha)
  {
    if es[i].Complete? { CommitForever(ws, es, i, k); }
  }

  lemma OneEvent(db: Db, e: Event, j: JobId, runs: Runs, R: nat, enc: Encode, sha: Digest, p: nat)
    requires R > 0 && Good(e, db, j, runs, R, enc, sha)
    ensures Checksums(InputsFrom(db, Written(e), j, p)) == if Adds(e, db, j) then RowOf(Report(runs[e.t], R, enc, sha), p) else []
  {
    if e.Complete? {
      InputsOfCommit(db, e.t, e.outs, j, p);
      if Adds(e, db, j) { OneCommit(db, e.t, e.outs, j, p, runs[e.t], R, enc, sha); }
    }
  }

  lemma RunListMore(list: seq<TaskId>, t: TaskId, runs: Runs)
    requires t in runs
    ensures RunList(list + [t], runs) == RunList(list, runs) + [runs[t]]
  {
  }

  // ---------- the list is the job's map tasks, each once ----------

  lemma {:induction false} ListHas(es: seq<Event>, db: Db, j: JobId, t: TaskId)
    ensures t in CommitList(es, db, j) <==> MapOf(db, t, j) && exists i :: 0 <= i < |es| && CommitsTask(es[i], t)
  {
    if es != [] {
      var front, last := es[..|es| - 1], es[|es| - 1];
      ListHas(front, db, j, t);
      assert (exists i :: 0 <= i < |es| && CommitsTask(es[i], t)) <==> (exists i :: 0 <= i < |front| && CommitsTask(front[i], t)) || CommitsTask(last, t) by {
        if i :| 0 <= i < |front| && CommitsTask(front[i], t) { assert CommitsTask(es[i], t); }
        if CommitsTask(last, t) { assert CommitsTask(es[|es| - 1], t); }
        if i :| 0 <= i < |es| && CommitsTask(es[i], t) && i < |front| { assert CommitsTask(front[i], t); }
      }
    }
  }

  predicate Distinct(list: seq<TaskId>) {
    forall i, k :: 0 <= i < k < |list| ==> list[i] != list[k]
  }

  lemma {:induction false} ListDistinct(ws: seq<World>, es: seq<Event>, n: nat, db: Db, j: JobId)
    requires IsRun(ws, es) && n <= |es|
    ensures Distinct(CommitList(es[..n], db, j))
  {
    if n > 0 {
      ListDistinct(ws, es, n - 1, db, j);
      var e := es[n - 1];
      assert es[..n][..n - 1] == es[..n - 1] && es[..n][n - 1] == e;
      if e.Complete? && e.t in CommitList(es[..n - 1], db, j) {
        ListHas(es[..n - 1], db, j, e.t);
        var i :| 0 <= i < n - 1 && CommitsTask(es[..n - 1][i], e.t);
        CommitOnce(ws, es, i, n - 1);
      }
    }
  }

  /** After the map phase of any run: the commit list is the job's map tasks, each once; the checksums of the rows that reduce
      task p is assigned are the list that the shuffle theorem expects in that order; and the task is skipped as empty iff
      that list is empty. */
  lemma AssignedInRun(ws: seq<World>, es: seq<Event>, k: nat, j: JobId, runs: Runs, R: nat, enc: Encode, sha: Digest, p: nat)
    requires R > 0 && IsRun(ws, es) && k < |ws| && Reported(es, runs, R, enc, sha)
    requires MapsDone(ws[k].db, j) && forall t :: MapOf(ws[k].db, t, j) ==> t in runs
    ensures var list := CommitList(es[..k], ws[k].db, j); Distinct(list) && forall t :: t in list <==> MapOf(ws[k].db, t, j)
    ensures var expected := Expected(RunList(CommitList(es[..k], ws[k].db, j), runs), R, enc, sha, p);
      Checksums(ReduceInputs(ws[k].db, j, p)) == expected && (NoInputs(ws[k].db, j, p) <==> expected == [])
  {
    var db := ws[k].db;
    ListDistinct(ws, es, k, db, j);
    forall t ensures t in CommitList(es[..k], db, j) <==> MapOf(db, t, j) { CommittedListed(ws, es, k, j, t); }
    OutputsAre(ws, es, k);
    forall i | 0 <= i < k ensures Good(es[..k][i], db, j, runs, R, enc, sha) { GoodInRun(ws, es, k, i, j, runs, R, enc, sha); }
    ListIs(es[..k], db, j, runs, R, enc, sha, p);
    NoInputsEmpty(db, db.outputs, j, p);
  }

  lemma CommittedListed(ws: seq<World>, es: seq<Event>, k: nat, j: JobId, t: TaskId)
    requires IsRun(ws, es) && k < |ws| && MapsDone(ws[k].db, j)
    ensures t in CommitList(es[..k], ws[k].db, j) <==> MapOf(ws[k].db, t, j)
  {
    ListHas(es[..k], ws[k].db, j, t);
    if MapOf(ws[k].db, t, j) {
      assert t !in PendingOfKind(ws[k].db, j, MapTask);
      var i := MapCommitted(ws, es, k, t);
      assert CommitsTask(es[..k][i], t);
    }
  }
}
