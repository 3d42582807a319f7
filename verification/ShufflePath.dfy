/** From mapper output to reducer input: sort, partition, merge. */
module ShufflePath {
  import opened Records
  import opened Merge
  import opened Spill
  import opened HashPartition

  /** The number of partitions a map task uses. */
  function Reducers(totalReducers: int): (R: nat)
    ensures R > 0 && (totalReducers > 0 ==> R == totalReducers) && (totalReducers <= 0 ==> R == 1)
  {
    if totalReducers <= 0 then 1 else totalReducers
  }

  /** The records that hash to partition p, in order. */
  function OfPartition(rs: seq<Record>, R: nat, p: nat): seq<Record>
    requires R > 0
  {
    if rs == [] then []
    else
      var rest := OfPartition(rs[..|rs| - 1], R, p);
      if Partition(rs[|rs| - 1].key, R) == p then rest + [rs[|rs| - 1]] else rest
  }

  lemma {:induction false} OfPartitionAppend(a: seq<Record>, b: seq<Record>, R: nat, p: nat)
    requires R > 0
    ensures OfPartition(a + b, R, p) == OfPartition(a, R, p) + OfPartition(b, R, p)
  {
    if b == [] {
      assert a + b == a;
    } else {
      var ab := a + b;
      assert ab[..|ab| - 1] == a + b[..|b| - 1];
      OfPartitionAppend(a, b[..|b| - 1], R, p);
    }
  }

  lemma {:induction false} OfPartitionCount(rs: seq<Record>, R: nat, p: nat, r: Record)
    requires R > 0
    ensures multiset(OfPartition(rs, R, p))[r] == if Partition(r.key, R) == p then multiset(rs)[r] else 0
  {
    if rs != [] {
      OfPartitionCount(rs[..|rs| - 1], R, p, r);
      assert rs == rs[..|rs| - 1] + [rs[|rs| - 1]];
    }
  }

  lemma {:induction false} OfPartitionSorted(rs: seq<Record>, R: nat, p: nat)
    requires R > 0 && Sorted(rs)
    ensures Sorted(OfPartition(rs, R, p))
  {
    if rs != [] {
      var front, last := rs[..|rs| - 1], rs[|rs| - 1];
      OfPartitionSorted(front, R, p);
      OfPartitionIn(front, R, p);
      var out := OfPartition(front, R, p);
      forall i | 0 <= i < |out| ensures KeyLe(out[i].key, last.key) {
        assert out[i] in front;
      }
    }
  }

  lemma {:induction false} OfPartitionIn(rs: seq<Record>, R: nat, p: nat)
    requires R > 0
    ensures forall i :: 0 <= i < |OfPartition(rs, R, p)| ==> OfPartition(rs, R, p)[i] in rs
  {
    if rs != [] { OfPartitionIn(rs[..|rs| - 1], R, p); }
  }

  /** Exactly the open partitions, each once. */
  ghost predicate Lists(order: seq<int>, writers: map<int, seq<Record>>) {
    && (forall i :: 0 <= i < |order| ==> order[i] in writers)
    && (forall p :: p in writers ==> p in order)
    && (forall i, j :: 0 <= i < j < |order| ==> order[i] != order[j])
  }

  ghost predicate Strict(order: seq<int>) {
    forall i, j :: 0 <= i < j < |order| ==> order[i] < order[j]
  }

  ghost predicate Written(rs: seq<Record>, R: nat, writers: map<int, seq<Record>>)
    requires R > 0
  {
    && (forall p: nat :: p in writers <==> OfPartition(rs, R, p) != [])
    && (forall p: int :: p in writers ==> p >= 0 && writers[p] == OfPartition(rs, R, p))
  }

  /** The partition loop of runMap: opens a writer at the first record of a partition and appends to it after that. */
  method PartitionRecords(rs: seq<Record>, totalReducers: int) returns (order: seq<int>, writers: map<int, seq<Record>>)
    ensures Written(rs, Reducers(totalReducers), writers) && Lists(order, writers) && Strict(order)
  {
    var R := Reducers(totalReducers);
    writers := map[];
    var openOrder: seq<int> := [];
    for n := 0 to |rs|
      invariant Written(rs[..n], R, writers) && Lists(openOrder, writers)
    {
      var p := HashKey(rs[n].key, R);
      WriteNext(rs, R, n, writers);
      if p !in writers {
        writers := writers[p := []];
        openOrder := openOrder + [p];
      }
      writers := writers[p := writers[p] + [rs[n]]];
    }
    assert rs[..|rs|] == rs;
    var xs := new int[|openOrder|](i requires 0 <= i < |openOrder| => openOrder[i]);
    assert xs[..] == openOrder;
    SortInPlace(xs);
    order := xs[..];
    SortedLists(openOrder, writers);
  }

  lemma WriteNext(rs: seq<Record>, R: nat, n: nat, writers: map<int, seq<Record>>)
    requires R > 0 && n < |rs| && Written(rs[..n], R, writers)
    ensures var p := Partition(rs[n].key, R);
      Written(rs[..n + 1], R, writers[p := (if p in writers then writers[p] else []) + [rs[n]]])
  {
    var p := Partition(rs[n].key, R);
    assert rs[..n + 1][..n] == rs[..n];
    assert forall q: nat :: OfPartition(rs[..n + 1], R, q) == if q == p then OfPartition(rs[..n], R, q) + [rs[n]] else OfPartition(rs[..n], R, q);
  }

  lemma SortedLists(xs: seq<int>, writers: map<int, seq<Record>>)
    requires Lists(xs, writers)
    ensures Lists(SortInts(xs), writers) && Strict(SortInts(xs))
  {
    SortIntsAscends(xs);
    SortIntsPermutes(xs);
    var s := SortInts(xs);
    Distinct(xs, s);
    forall i | 0 <= i < |s| ensures s[i] in writers { assert s[i] in multiset(s) && s[i] in multiset(xs); }
    forall p | p in writers ensures p in s { assert p in multiset(xs) && p in multiset(s); }
  }

  lemma Distinct(xs: seq<int>, s: seq<int>)
    requires multiset(s) == multiset(xs) && forall i, j :: 0 <= i < j < |xs| ==> xs[i] != xs[j]
    ensures forall i, j :: 0 <= i < j < |s| ==> s[i] != s[j]
  {
    forall i, j | 0 <= i < j < |s| ensures s[i] != s[j] {
      if s[i] == s[j] {
        OnceEach(xs, s[i]);
        Twice(s, i, j);
      }
    }
  }

  lemma {:induction false} OnceEach(xs: seq<int>, x: int)
    requires forall i, j :: 0 <= i < j < |xs| ==> xs[i] != xs[j]
    ensures multiset(xs)[x] <= 1
  {
    if xs != [] {
      OnceEach(xs[..|xs| - 1], x);
      assert xs == xs[..|xs| - 1] + [xs[|xs| - 1]];
      if x in xs[..|xs| - 1] { assert x != xs[|xs| - 1]; }
    }
  }

  lemma Twice(s: seq<int>, i: nat, j: nat)
    requires i < j < |s| && s[i] == s[j]
    ensures multiset(s)[s[i]] >= 2
  {
    assert s == s[..j] + [s[j]] + s[j + 1..];
    assert s[i] in s[..j];
  }

  // ---------- the whole path ----------

  /** One map task without a combiner: spill-sort the mapper's records, then partition the sorted stream. */
  method MapTask(records: seq<Record>, totalReducers: int, threshold: int)
    returns (order: seq<int>, writers: map<int, seq<Record>>, run: seq<Record>)
    ensures Sorted(run) && multiset(run) == multiset(records)
    ensures Written(run, Reducers(totalReducers), writers) && Lists(order, writers) && Strict(order)
  {
    var sorter := new SpillingSorter(threshold);
    for i := 0 to |records|
      invariant fresh(sorter) && sorter.Valid() && sorter.Contents() == multiset(records[..i])
    {
      assert records[..i + 1] == records[..i] + [records[i]];
      sorter.Add(records[i]);
    }
    assert records[..|records|] == records;
    run := sorter.Finalize();
    order, writers := PartitionRecords(run, totalReducers);
  }

  /** What partition p receives from the sorted runs of the map tasks. */
  function Inputs(runs: seq<seq<Record>>, R: nat, p: nat): seq<seq<Record>>
    requires R > 0
  {
    if runs == [] then []
    else
      var rest := Inputs(runs[..|runs| - 1], R, p);
      var last := OfPartition(runs[|runs| - 1], R, p);
      if last != [] then rest + [last] else rest
  }

  lemma {:induction false} InputsHold(runs: seq<seq<Record>>, R: nat, p: nat)
    requires R > 0 && AllSorted(runs)
    ensures AllSorted(Inputs(runs, R, p))
    ensures Concat(Inputs(runs, R, p)) == OfPartition(Concat(runs), R, p)
  {
    if runs != [] {
      var front, last := runs[..|runs| - 1], runs[|runs| - 1];
      InputsHold(front, R, p);
      OfPartitionSorted(last, R, p);
      assert runs == front + [last];
      ConcatAppend(front, [last]);
      assert Concat([last]) == last;
      OfPartitionAppend(Concat(front), last, R, p);
      ConcatAppend(Inputs(front, R, p), [OfPartition(last, R, p)]);
      assert Concat([OfPartition(last, R, p)]) == OfPartition(last, R, p);
    }
  }

  lemma {:induction false} RunsPermute(runs: seq<seq<Record>>, outputs: seq<seq<Record>>)
    requires |runs| == |outputs| && forall m :: 0 <= m < |runs| ==> multiset(runs[m]) == multiset(outputs[m])
    ensures multiset(Concat(runs)) == multiset(Concat(outputs))
  {
    if runs != [] { RunsPermute(runs[1..], outputs[1..]); }
  }

  /** Stream p is sorted, keeps each key's records together, and holds exactly the records that hash to p. */
  ghost predicate Delivered(outputs: seq<seq<Record>>, R: nat, p: nat, stream: seq<Record>)
    requires R > 0
  {
    && Sorted(stream) && Contiguous(stream)
    && forall r: Record :: multiset(stream)[r] == if Partition(r.key, R) == p then multiset(Concat(outputs))[r] else 0
  }

  lemma Deliver(outputs: seq<seq<Record>>, runs: seq<seq<Record>>, R: nat, p: nat, stream: seq<Record>)
    requires R > 0 && AllSorted(runs) && |runs| == |outputs|
    requires forall m :: 0 <= m < |runs| ==> multiset(runs[m]) == multiset(outputs[m])
    requires StableSortOf(stream, Concat(Inputs(runs, R, p)))
    ensures Delivered(outputs, R, p, stream)
  {
    InputsHold(runs, R, p);
    RunsPermute(runs, outputs);
    OfKeyPermutes(stream, Concat(Inputs(runs, R, p)));
    SortedContiguous(stream);
    forall r: Record ensures multiset(stream)[r] == if Partition(r.key, R) == p then multiset(Concat(outputs))[r] else 0 {
      OfPartitionCount(Concat(runs), R, p, r);
    }
  }

  /** The reduce side of partition p: the non-empty partition streams of the map tasks, merged. */
  method ReduceInput(parts: seq<map<int, seq<Record>>>, ghost runs: seq<seq<Record>>, R: nat, p: nat, batch: int) returns (stream: seq<Record>)
    requires R > 0 && |parts| == |runs| && AllSorted(runs)
    requires forall m :: 0 <= m < |parts| ==> Written(runs[m], R, parts[m])
    ensures StableSortOf(stream, Concat(Inputs(runs, R, p)))
  {
    var streams: seq<seq<Record>> := [];
    for m := 0 to |parts|
      invariant streams == Inputs(runs[..m], R, p)
    {
      assert runs[..m + 1][..m] == runs[..m];
      if p in parts[m] { streams := streams + [parts[m][p]]; }
    }
    assert runs[..|runs|] == runs;
    InputsHold(runs, R, p);
    var out, _ := MergeInputs(streams, batch);
    stream := out;
  }

  /** Every map task of the job. */
  method MapTasks(outputs: seq<seq<Record>>, totalReducers: int, threshold: int)
    returns (orders: seq<seq<int>>, parts: seq<map<int, seq<Record>>>, ghost runs: seq<seq<Record>>)
    ensures |orders| == |parts| == |runs| == |outputs| && AllSorted(runs)
    ensures forall m :: 0 <= m < |outputs| ==> multiset(runs[m]) == multiset(outputs[m]) && Written(runs[m], Reducers(totalReducers), parts[m])
    ensures forall m :: 0 <= m < |outputs| ==> Lists(orders[m], parts[m]) && Strict(orders[m])
  {
    orders, parts, runs := [], [], [];
    for m := 0 to |outputs|
      invariant |orders| == |parts| == |runs| == m && AllSorted(runs)
      invariant forall i :: 0 <= i < m ==> multiset(runs[i]) == multiset(outputs[i]) && Written(runs[i], Reducers(totalReducers), parts[i])
      invariant forall i :: 0 <= i < m ==> Lists(orders[i], parts[i]) && Strict(orders[i])
    {
      var order, writers, run := MapTask(outputs[m], totalReducers, threshold);
      orders, parts, runs := orders + [order], parts + [writers], runs + [run];
    }
  }

  /** Sort, partition and merge, for any number of map tasks: every record reaches exactly one reducer stream, with
      its multiplicity; every stream is sorted by key and all records of a key are together in one stream. */
  method Shuffle(outputs: seq<seq<Record>>, totalReducers: int, threshold: int, batch: int) returns (streams: seq<seq<Record>>)
    ensures |streams| == Reducers(totalReducers)
    ensures forall p :: 0 <= p < |streams| ==> Delivered(outputs, Reducers(totalReducers), p, streams[p])
  {
    var R := Reducers(totalReducers);
    var _, parts, runs := MapTasks(outputs, totalReducers, threshold);
    streams := [];
    for p := 0 to R
      invariant |streams| == p
      invariant forall q :: 0 <= q < p ==> Delivered(outputs, R, q, streams[q])
    {
      var stream := ReduceInput(parts, runs, R, p, batch);
      Deliver(outputs, runs, R, p, stream);
      streams := streams + [stream];
    }
  }
}
