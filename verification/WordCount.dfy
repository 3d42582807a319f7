/** The WordCount combiner and reducer, and why the combiner never changes the answer.

    Values are decimal numerals; `num` reads one and `str` writes one. */
module WordCount {
  import opened Records
  import opened Spill
  import opened HashPartition
  import opened ShufflePath

  type Num = seq<Byte> -> int
  type Str = int -> seq<Byte>

  ghost predicate Inverse(num: Num, str: Str) {
    forall n: int :: num(str(n)) == n
  }

  /** The loop state: emitted lines, the key of the open run, and its count. */
  datatype Acc = Acc(out: seq<Record>, open: bool, key: Key, count: int)

  function Flush(acc: Acc, str: Str): seq<Record> {
    if acc.open then acc.out + [Record(acc.key, str(acc.count))] else acc.out
  }

  function Feed(acc: Acc, r: Record, num: Num, str: Str): Acc {
    if acc.open && acc.key == r.key then acc.(count := acc.count + num(r.value))
    else Acc(Flush(acc, str), true, r.key, num(r.value))
  }

  function FeedAll(rs: seq<Record>, num: Num, str: Str): Acc {
    if rs == [] then Acc([], false, [], 0) else Feed(FeedAll(rs[..|rs| - 1], num, str), rs[|rs| - 1], num, str)
  }

  /** One line per run of equal keys, with the sum of the run. */
  function SumRuns(rs: seq<Record>, num: Num, str: Str): seq<Record> {
    Flush(FeedAll(rs, num, str), str)
  }

  /** combiner.py and reducer.py: the same loop. */
  method RunningSum(rs: seq<Record>, num: Num, str: Str) returns (out: seq<Record>)
    ensures out == SumRuns(rs, num, str)
  {
    var hasKey, currentKey, count := false, [], 0;
    out := [];
    for i := 0 to |rs|
      invariant Acc(out, hasKey, currentKey, count) == FeedAll(rs[..i], num, str)
    {
      assert rs[..i + 1][..i] == rs[..i];
      if !hasKey || rs[i].key != currentKey {
        if hasKey { out := out + [Record(currentKey, str(count))]; }
        hasKey, currentKey, count := true, rs[i].key, 0;
      }
      count := count + num(rs[i].value);
    }
    assert rs[..|rs|] == rs;
    if hasKey { out := out + [Record(currentKey, str(count))]; }
  }

  // ---------- sums per key ----------

  function Sum(rs: seq<Record>, k: Key, num: Num): int {
    if rs == [] then 0 else Sum(rs[..|rs| - 1], k, num) + if rs[|rs| - 1].key == k then num(rs[|rs| - 1].value) else 0
  }

  predicate Has(rs: seq<Record>, k: Key) { exists i :: 0 <= i < |rs| && rs[i].key == k }

  lemma {:induction false} SumAppend(a: seq<Record>, b: seq<Record>, k: Key, num: Num)
    ensures Sum(a + b, k, num) == Sum(a, k, num) + Sum(b, k, num)
  {
    if b == [] {
      assert a + b == a;
    } else {
      var ab := a + b;
      assert ab[..|ab| - 1] == a + b[..|b| - 1];
      SumAppend(a, b[..|b| - 1], k, num);
    }
  }

  lemma {:induction false} SumAbsent(rs: seq<Record>, k: Key, num: Num)
    requires !Has(rs, k)
    ensures Sum(rs, k, num) == 0
  {
    if rs != [] {
      assert forall i :: 0 <= i < |rs| - 1 ==> rs[..|rs| - 1][i] == rs[i];
      SumAbsent(rs[..|rs| - 1], k, num);
    }
  }

  /** Sums depend only on which records there are. */
  lemma {:induction false} SumPermutes(a: seq<Record>, b: seq<Record>, k: Key, num: Num)
    requires multiset(a) == multiset(b)
    ensures Sum(a, k, num) == Sum(b, k, num)
    decreases |a|
  {
    if a == [] {
      assert |multiset(b)| == |b|;
    } else {
      var front, last := a[..|a| - 1], a[|a| - 1];
      assert a == front + [last] && last in multiset(b);
      var i :| 0 <= i < |b| && b[i] == last;
      var c := b[..i] + b[i + 1..];
      Removal(a, b, i);
      SumPermutes(front, c, k, num);
      SumRemoval(b, i, k, num);
    }
  }

  lemma Removal(a: seq<Record>, b: seq<Record>, i: nat)
    requires a != [] && multiset(a) == multiset(b) && i < |b| && b[i] == a[|a| - 1]
    ensures multiset(a[..|a| - 1]) == multiset(b[..i] + b[i + 1..])
  {
    var x := b[i];
    assert a == a[..|a| - 1] + [x];
    assert b == b[..i] + [x] + b[i + 1..];
    var m, n := multiset(a[..|a| - 1]), multiset(b[..i]) + multiset(b[i + 1..]);
    assert m + multiset{x} == n + multiset{x};
    assert m == m + multiset{x} - multiset{x} && n == n + multiset{x} - multiset{x};
  }

  lemma SumRemoval(b: seq<Record>, i: nat, k: Key, num: Num)
    requires i < |b|
    ensures Sum(b, k, num) == Sum(b[..i] + b[i + 1..], k, num) + if b[i].key == k then num(b[i].value) else 0
  {
    assert b == b[..i + 1] + b[i + 1..];
    assert b[..i + 1][..i] == b[..i];
    SumAppend(b[..i], b[i + 1..], k, num);
    SumAppend(b[..i + 1], b[i + 1..], k, num);
  }

  lemma HasPermutes(a: seq<Record>, b: seq<Record>, k: Key)
    requires multiset(a) == multiset(b)
    ensures Has(a, k) ==> Has(b, k)
  {
    if Has(a, k) {
      var i :| 0 <= i < |a| && a[i].key == k;
      assert a[i] in multiset(b);
    }
  }

  // ---------- what the loop computes on sorted input ----------

  /** Emitted lines are in order, below the open key, and right for every key but the open one. */
  ghost predicate Tracks(acc: Acc, rs: seq<Record>, num: Num, str: Str) {
    && (acc.open <==> rs != [])
    && Sorted(acc.out)
    && (acc.open ==> acc.key == rs[|rs| - 1].key && acc.count == Sum(rs, acc.key, num))
    && (forall i :: 0 <= i < |acc.out| ==> acc.open && KeyLe(acc.out[i].key, acc.key) && acc.out[i].key != acc.key)
    && (forall k: Key :: !(acc.open && k == acc.key) ==> OfKey(acc.out, k) == if Has(rs, k) then [Record(k, str(Sum(rs, k, num)))] else [])
  }

  lemma {:induction false} FeedTracks(rs: seq<Record>, num: Num, str: Str)
    requires Sorted(rs)
    ensures Tracks(FeedAll(rs, num, str), rs, num, str)
  {
    if rs != [] {
      var front, last := rs[..|rs| - 1], rs[|rs| - 1];
      FeedTracks(front, num, str);
      var acc := FeedAll(front, num, str);
      if acc.open && acc.key == last.key { SameKeyTracks(acc, rs, num, str); } else { NewKeyTracks(acc, rs, num, str); }
    }
  }

  lemma HasLast(rs: seq<Record>, k: Key)
    requires rs != []
    ensures Has(rs, k) <==> Has(rs[..|rs| - 1], k) || rs[|rs| - 1].key == k
  {
    var front := rs[..|rs| - 1];
    if Has(front, k) {
      var i :| 0 <= i < |front| && front[i].key == k;
      assert rs[i].key == k;
    }
    if Has(rs, k) && rs[|rs| - 1].key != k {
      var i :| 0 <= i < |rs| && rs[i].key == k;
      assert front[i].key == k;
    }
  }

  lemma SameKeyTracks(acc: Acc, rs: seq<Record>, num: Num, str: Str)
    requires rs != [] && Tracks(acc, rs[..|rs| - 1], num, str) && acc.open && acc.key == rs[|rs| - 1].key
    ensures Tracks(Feed(acc, rs[|rs| - 1], num, str), rs, num, str)
  {
    forall k: Key ensures Has(rs, k) <==> Has(rs[..|rs| - 1], k) || rs[|rs| - 1].key == k { HasLast(rs, k); }
  }

  lemma NewKeyTracks(acc: Acc, rs: seq<Record>, num: Num, str: Str)
    requires Sorted(rs) && rs != [] && Tracks(acc, rs[..|rs| - 1], num, str) && !(acc.open && acc.key == rs[|rs| - 1].key)
    ensures Tracks(Feed(acc, rs[|rs| - 1], num, str), rs, num, str)
  {
    var front, last := rs[..|rs| - 1], rs[|rs| - 1];
    var next := Feed(acc, last, num, str);
    assert acc.open ==> front[|front| - 1] == rs[|rs| - 2];
    forall i | 0 <= i < |next.out| ensures KeyLe(next.out[i].key, last.key) && next.out[i].key != last.key {
      if i < |acc.out| {
        KeyTrans(acc.out[i].key, acc.key, last.key);
        KeyTotal(acc.key, last.key);
      }
    }
    FreshKey(rs);
    SumAbsent(front, last.key, num);
    forall k: Key | k != last.key
      ensures OfKey(next.out, k) == if Has(rs, k) then [Record(k, str(Sum(rs, k, num)))] else []
    {
      HasLast(rs, k);
      if acc.open {
        var line := Record(acc.key, str(acc.count));
        OfKeyAppend(acc.out, [line], k);
        if k == acc.key {
          assert front[|front| - 1].key == k;
          OfKeyNone(acc.out, k);
        }
      }
    }
  }

  /** A sorted sequence whose last key differs from the one before does not hold that key earlier. */
  lemma FreshKey(rs: seq<Record>)
    requires Sorted(rs) && rs != [] && (|rs| > 1 ==> rs[|rs| - 2].key != rs[|rs| - 1].key)
    ensures !Has(rs[..|rs| - 1], rs[|rs| - 1].key)
  {
    forall i | 0 <= i < |rs| - 1 ensures rs[i].key != rs[|rs| - 1].key {
      KeyTotal(rs[|rs| - 2].key, rs[|rs| - 1].key);
      assert i < |rs| - 2 ==> KeyLe(rs[i].key, rs[|rs| - 2].key);
    }
  }

  /** On sorted input: one line per key that occurs, in key order, with the sum of the key's values. */
  lemma SumRunsOfSorted(rs: seq<Record>, num: Num, str: Str)
    requires Sorted(rs)
    ensures Sorted(SumRuns(rs, num, str))
    ensures forall k: Key :: OfKey(SumRuns(rs, num, str), k) == if Has(rs, k) then [Record(k, str(Sum(rs, k, num)))] else []
  {
    FeedTracks(rs, num, str);
    var acc := FeedAll(rs, num, str);
    if acc.open {
      var line := Record(acc.key, str(acc.count));
      forall k: Key ensures OfKey(acc.out + [line], k) == if Has(rs, k) then [Record(k, str(Sum(rs, k, num)))] else [] {
        OfKeyAppend(acc.out, [line], k);
        if k == acc.key {
          OfKeyNone(acc.out, k);
          assert rs[|rs| - 1].key == k;
        }
      }
    }
  }

  /** The reducer's output is determined by the keys that occur and their sums. */
  lemma SameSums(a: seq<Record>, b: seq<Record>, num: Num, str: Str)
    requires Sorted(a) && Sorted(b)
    requires forall k: Key :: Has(a, k) == Has(b, k) && Sum(a, k, num) == Sum(b, k, num)
    ensures SumRuns(a, num, str) == SumRuns(b, num, str)
  {
    SumRunsOfSorted(a, num, str);
    SumRunsOfSorted(b, num, str);
    StableSortUnique(SumRuns(a, num, str), SumRuns(b, num, str));
  }

  /** Combining a sorted run keeps its keys and their sums. */
  lemma CombineKeeps(run: seq<Record>, k: Key, num: Num, str: Str)
    requires Inverse(num, str) && Sorted(run)
    ensures Has(SumRuns(run, num, str), k) == Has(run, k)
    ensures Sum(SumRuns(run, num, str), k, num) == Sum(run, k, num)
  {
    var out := SumRuns(run, num, str);
    SumRunsOfSorted(run, num, str);
    SumOfKey(out, k, num);
    if Has(run, k) {
      var line := Record(k, str(Sum(run, k, num)));
      assert OfKey(out, k) == [line];
      assert Sum([line], k, num) == num(line.value);
    } else {
      SumAbsent(run, k, num);
    }
  }

  lemma {:induction false} SumOfKey(rs: seq<Record>, k: Key, num: Num)
    ensures Sum(rs, k, num) == Sum(OfKey(rs, k), k, num)
    ensures Has(rs, k) <==> OfKey(rs, k) != []
  {
    if rs != [] {
      SumOfKey(rs[1..], k, num);
      assert rs == [rs[0]] + rs[1..];
      SumAppend([rs[0]], rs[1..], k, num);
      SumAppend(if rs[0].key == k then [rs[0]] else [], OfKey(rs[1..], k), k, num);
      assert Sum([rs[0]], k, num) == if rs[0].key == k then num(rs[0].value) else 0;
      if Has(rs[1..], k) {
        var i :| 0 <= i < |rs[1..]| && rs[1..][i].key == k;
        assert rs[i + 1].key == k;
      }
      if Has(rs, k) && rs[0].key != k {
        var i :| 0 <= i < |rs| && rs[i].key == k;
        assert rs[1..][i - 1].key == k;
      }
    }
  }

  // ---------- the whole job ----------

  /** `combined[m]` is the combiner's output for map task m. */
  ghost predicate Combines(outputs: seq<seq<Record>>, combined: seq<seq<Record>>, num: Num, str: Str) {
    && |combined| == |outputs|
    && forall m :: 0 <= m < |outputs| ==> CombinedOne(outputs[m], combined[m], num, str)
  }

  ghost predicate CombinedOne(output: seq<Record>, combined: seq<Record>, num: Num, str: Str) {
    exists run: seq<Record> :: Sorted(run) && multiset(run) == multiset(output) && combined == SumRuns(run, num, str)
  }

  lemma CombinedOneKeeps(output: seq<Record>, combined: seq<Record>, k: Key, num: Num, str: Str)
    requires Inverse(num, str) && CombinedOne(output, combined, num, str)
    ensures Has(combined, k) == Has(output, k) && Sum(combined, k, num) == Sum(output, k, num)
  {
    var run :| Sorted(run) && multiset(run) == multiset(output) && combined == SumRuns(run, num, str);
    CombineKeeps(run, k, num, str);
    SumPermutes(run, output, k, num);
    HasPermutes(run, output, k);
    HasPermutes(output, run, k);
  }

  lemma {:induction false} CombinesKeeps(outputs: seq<seq<Record>>, combined: seq<seq<Record>>, k: Key, num: Num, str: Str)
    requires Inverse(num, str) && Combines(outputs, combined, num, str)
    ensures Has(Concat(combined), k) == Has(Concat(outputs), k)
    ensures Sum(Concat(combined), k, num) == Sum(Concat(outputs), k, num)
  {
    if outputs != [] {
      CombinesKeeps(outputs[1..], combined[1..], k, num, str);
      CombinedOneKeeps(outputs[0], combined[0], k, num, str);
      SumAppend(outputs[0], Concat(outputs[1..]), k, num);
      SumAppend(combined[0], Concat(combined[1..]), k, num);
      HasAppend(outputs[0], Concat(outputs[1..]), k);
      HasAppend(combined[0], Concat(combined[1..]), k);
    }
  }

  lemma HasAppend(a: seq<Record>, b: seq<Record>, k: Key)
    ensures Has(a + b, k) <==> Has(a, k) || Has(b, k)
  {
    if Has(a, k) {
      var i :| 0 <= i < |a| && a[i].key == k;
      assert (a + b)[i].key == k;
    }
    if Has(b, k) {
      var i :| 0 <= i < |b| && b[i].key == k;
      assert (a + b)[|a| + i].key == k;
    }
  }

  /** What a delivered stream holds of one key. */
  lemma DeliveredSums(outputs: seq<seq<Record>>, R: nat, p: nat, stream: seq<Record>, k: Key, num: Num)
    requires R > 0 && Delivered(outputs, R, p, stream)
    ensures Has(stream, k) == (Partition(k, R) == p && Has(Concat(outputs), k))
    ensures Sum(stream, k, num) == if Partition(k, R) == p then Sum(Concat(outputs), k, num) else 0
  {
    var mine := OfPartition(Concat(outputs), R, p);
    forall r: Record ensures multiset(stream)[r] == multiset(mine)[r] { OfPartitionCount(Concat(outputs), R, p, r); }
    SumPermutes(stream, mine, k, num);
    HasPermutes(stream, mine, k);
    HasPermutes(mine, stream, k);
    PartitionHas(Concat(outputs), R, p, k);
    PartitionSum(Concat(outputs), R, p, k, num);
  }

  lemma {:induction false} PartitionHas(rs: seq<Record>, R: nat, p: nat, k: Key)
    requires R > 0
    ensures Has(OfPartition(rs, R, p), k) == (Partition(k, R) == p && Has(rs, k))
  {
    if rs != [] {
      var front, last := rs[..|rs| - 1], rs[|rs| - 1];
      PartitionHas(front, R, p, k);
      HasLast(rs, k);
      if Partition(last.key, R) == p {
        var out := OfPartition(front, R, p) + [last];
        assert out[..|out| - 1] == OfPartition(front, R, p);
        HasLast(out, k);
      }
    }
  }

  lemma {:induction false} PartitionSum(rs: seq<Record>, R: nat, p: nat, k: Key, num: Num)
    requires R > 0
    ensures Sum(OfPartition(rs, R, p), k, num) == if Partition(k, R) == p then Sum(rs, k, num) else 0
  {
    if rs != [] {
      var front, last := rs[..|rs| - 1], rs[|rs| - 1];
      PartitionSum(front, R, p, k, num);
      if Partition(last.key, R) == p {
        var out := OfPartition(front, R, p) + [last];
        assert out[..|out| - 1] == OfPartition(front, R, p);
      }
    }
  }

  /** For every distribution of the records over map tasks and every partition: the reducer prints the same with the
      combiner as without it. */
  lemma CombinerTransparent(outputs: seq<seq<Record>>, combined: seq<seq<Record>>, R: nat, p: nat,
                            plain: seq<Record>, stream: seq<Record>, num: Num, str: Str)
    requires R > 0 && Inverse(num, str) && Combines(outputs, combined, num, str)
    requires Delivered(outputs, R, p, plain) && Delivered(combined, R, p, stream)
    ensures SumRuns(stream, num, str) == SumRuns(plain, num, str)
  {
    forall k: Key ensures Has(stream, k) == Has(plain, k) && Sum(stream, k, num) == Sum(plain, k, num) {
      CombinesKeeps(outputs, combined, k, num, str);
      DeliveredSums(outputs, R, p, plain, k, num);
      DeliveredSums(combined, R, p, stream, k, num);
    }
    SameSums(stream, plain, num, str);
  }

  /** One map task's combiner pass: sort, then combine.  Its output is sorted again on the way to partitioning. */
  method CombineTask(records: seq<Record>, threshold: int, num: Num, str: Str) returns (combined: seq<Record>)
    ensures CombinedOne(records, combined, num, str)
  {
    var sorter := new SpillingSorter(threshold);
    for i := 0 to |records|
      invariant fresh(sorter) && sorter.Valid() && sorter.Contents() == multiset(records[..i])
    {
      assert records[..i + 1] == records[..i] + [records[i]];
      sorter.Add(records[i]);
    }
    assert records[..|records|] == records;
    var run := sorter.Finalize();
    combined := RunningSum(run, num, str);
  }

  /** The job with the combiner: what each reducer prints is what it prints without it. */
  method CountWords(outputs: seq<seq<Record>>, totalReducers: int, threshold: int, batch: int, num: Num, str: Str, useCombiner: bool)
    returns (results: seq<seq<Record>>)
    requires Inverse(num, str)
    ensures |results| == Reducers(totalReducers)
    ensures forall p, plain :: 0 <= p < |results| && Delivered(outputs, Reducers(totalReducers), p, plain) ==>
      results[p] == SumRuns(plain, num, str)
  {
    var sent := outputs;
    if useCombiner {
      sent := [];
      for m := 0 to |outputs|
        invariant |sent| == m && forall i :: 0 <= i < m ==> CombinedOne(outputs[i], sent[i], num, str)
      {
        var one := CombineTask(outputs[m], threshold, num, str);
        sent := sent + [one];
      }
    }
    var streams := Shuffle(sent, totalReducers, threshold, batch);
    results := [];
    for p := 0 to |streams|
      invariant |results| == p && forall q :: 0 <= q < p ==> results[q] == SumRuns(streams[q], num, str)
    {
      var lines := RunningSum(streams[p], num, str);
      results := results + [lines];
    }
    forall p, plain | 0 <= p < |results| && Delivered(outputs, Reducers(totalReducers), p, plain)
      ensures results[p] == SumRuns(plain, num, str)
    {
      if useCombiner {
        CombinerTransparent(outputs, sent, Reducers(totalReducers), p, plain, streams[p], num, str);
      } else {
        SameDelivered(outputs, Reducers(totalReducers), p, plain, streams[p], num, str);
      }
    }
  }

  lemma SameDelivered(outputs: seq<seq<Record>>, R: nat, p: nat, a: seq<Record>, b: seq<Record>, num: Num, str: Str)
    requires R > 0 && Delivered(outputs, R, p, a) && Delivered(outputs, R, p, b)
    ensures SumRuns(a, num, str) == SumRuns(b, num, str)
  {
    forall k: Key ensures Has(a, k) == Has(b, k) && Sum(a, k, num) == Sum(b, k, num) {
      DeliveredSums(outputs, R, p, a, k, num);
      DeliveredSums(outputs, R, p, b, k, num);
    }
    SameSums(a, b, num, str);
  }
}
