/** The k-way merge of sorted streams and its bounded multi-pass form. */
module Merge {
  import opened Arithmetic
  import opened Records
  import opened Heap

  const MAX_BATCH_SIZE: nat := 900
  const DEFAULT_BATCH_SIZE: nat := 500

  /** `rest[i]` is what stream i has left to emit; its head, if any, sits in the heap. */
  function Heads(rest: seq<seq<Record>>, n: nat): multiset<Item>
    requires n <= |rest|
  {
    if n == 0 then multiset{}
    else Heads(rest, n - 1) + HeadOf(rest, n - 1)
  }

  function HeadOf(rest: seq<seq<Record>>, i: nat): multiset<Item>
    requires i < |rest|
  {
    if rest[i] != [] then multiset{Item(rest[i][0], i)} else multiset{}
  }

  predicate IsHead(rest: seq<seq<Record>>, x: Item) {
    x.index < |rest| && rest[x.index] != [] && x.record == rest[x.index][0]
  }

  lemma HeadOfCount(rest: seq<seq<Record>>, i: nat, x: Item)
    requires i < |rest|
    ensures HeadOf(rest, i)[x] == if x.index == i && IsHead(rest, x) then 1 else 0
  {
  }

  lemma {:induction false} HeadsCount(rest: seq<seq<Record>>, n: nat, x: Item)
    requires n <= |rest|
    ensures Heads(rest, n)[x] == if x.index < n && IsHead(rest, x) then 1 else 0
  {
    if n > 0 {
      HeadsCount(rest, n - 1, x);
      HeadOfCount(rest, n - 1, x);
      assert Heads(rest, n) == Heads(rest, n - 1) + HeadOf(rest, n - 1);
    }
  }

  lemma HeadsHas(rest: seq<seq<Record>>, x: Item)
    ensures x in Heads(rest, |rest|) <==> IsHead(rest, x)
  {
    HeadsCount(rest, |rest|, x);
  }

  /** The heap after the head of stream `i` was taken off and the next one, if any, put on. */
  lemma NextHeads(rest: seq<seq<Record>>, i: nat, left: multiset<Item>)
    requires i < |rest| && rest[i] != [] && Heads(rest, |rest|) == left + multiset{Item(rest[i][0], i)}
    ensures var tail := rest[i][1..];
      Heads(rest[i := tail], |rest|) == if tail != [] then left + multiset{Item(tail[0], i)} else left
  {
    var tail := rest[i][1..];
    var heap := if tail != [] then left + multiset{Item(tail[0], i)} else left;
    forall y: Item ensures Heads(rest[i := tail], |rest|)[y] == heap[y] { NextHeadCount(rest, i, left, y); }
  }

  lemma NextHeadCount(rest: seq<seq<Record>>, i: nat, left: multiset<Item>, y: Item)
    requires i < |rest| && rest[i] != [] && Heads(rest, |rest|) == left + multiset{Item(rest[i][0], i)}
    ensures var tail := rest[i][1..];
      Heads(rest[i := tail], |rest|)[y] == left[y] + if tail != [] && y == Item(tail[0], i) then 1 else 0
  {
    HeadsCount(rest, |rest|, y);
    HeadsCount(rest[i := rest[i][1..]], |rest|, y);
    assert Heads(rest, |rest|)[y] == left[y] + multiset{Item(rest[i][0], i)}[y];
  }

  lemma {:induction false} NoHeads(rest: seq<seq<Record>>)
    requires Heads(rest, |rest|) == multiset{}
    ensures Concat(rest) == []
  {
    forall i | 0 <= i < |rest| ensures rest[i] == [] {
      if rest[i] != [] { HeadsHas(rest, Item(rest[i][0], i)); }
    }
    AllEmpty(rest);
  }

  lemma {:induction false} AllEmpty(rest: seq<seq<Record>>)
    requires forall i :: 0 <= i < |rest| ==> rest[i] == []
    ensures Concat(rest) == []
  {
    if rest != [] { AllEmpty(rest[1..]); }
  }

  /** The concatenation around stream i. */
  lemma {:induction false} ConcatAround(rest: seq<seq<Record>>, i: nat)
    requires i < |rest|
    ensures Concat(rest) == Concat(rest[..i]) + rest[i] + Concat(rest[i + 1..])
  {
    if i > 0 {
      ConcatAround(rest[1..], i - 1);
      assert rest[..i][1..] == rest[1..][..i - 1] && rest[1..][i..] == rest[i + 1..];
    }
  }

  lemma AdvanceMultiset(rest: seq<seq<Record>>, i: nat)
    requires i < |rest| && rest[i] != []
    ensures multiset(Concat(rest)) == multiset(Concat(rest[i := rest[i][1..]])) + multiset{rest[i][0]}
    ensures |Concat(rest)| == |Concat(rest[i := rest[i][1..]])| + 1
  {
    var next := rest[i := rest[i][1..]];
    ConcatAround(rest, i);
    ConcatAround(next, i);
    assert next[..i] == rest[..i] && next[i + 1..] == rest[i + 1..];
    assert rest[i] == [rest[i][0]] + rest[i][1..];
  }

  /** No stream before `i` holds the key of the least head. */
  lemma {:induction false} NoEarlierKey(rest: seq<seq<Record>>, i: nat, n: nat)
    requires n <= i < |rest| && rest[i] != [] && AllSorted(rest)
    requires forall x :: x in Heads(rest, |rest|) ==> Le(Item(rest[i][0], i), x)
    ensures OfKey(Concat(rest[..n]), rest[i][0].key) == []
  {
    var k := rest[i][0].key;
    if n > 0 {
      NoEarlierKey(rest, i, n - 1);
      NotInEarlier(rest, i, n - 1);
      ConcatOneMore(rest, n - 1);
      OfKeyAppend(Concat(rest[..n - 1]), rest[n - 1], k);
    }
  }

  lemma ConcatOneMore(rest: seq<seq<Record>>, n: nat)
    requires n < |rest|
    ensures Concat(rest[..n + 1]) == Concat(rest[..n]) + rest[n]
  {
    assert rest[..n + 1] == rest[..n] + [rest[n]];
    ConcatAppend(rest[..n], [rest[n]]);
    assert Concat([rest[n]]) == rest[n];
  }

  /** No stream before the one with the least head holds a record of that head's key. */
  lemma NotInEarlier(rest: seq<seq<Record>>, i: nat, n: nat)
    requires n < i < |rest| && rest[i] != [] && AllSorted(rest)
    requires forall x :: x in Heads(rest, |rest|) ==> Le(Item(rest[i][0], i), x)
    ensures OfKey(rest[n], rest[i][0].key) == []
  {
    var s, k := rest[n], rest[i][0].key;
    if s != [] {
      HeadsHas(rest, Item(s[0], n));
      assert s[0].key != k && KeyLe(k, s[0].key);
      AllAbove(s, k);
    }
  }

  lemma AllAbove(s: seq<Record>, k: Key)
    requires s != [] && Sorted(s) && s[0].key != k && KeyLe(k, s[0].key)
    ensures OfKey(s, k) == []
  {
    forall m | 0 <= m < |s| ensures s[m].key != k {
      KeyTotal(k, s[0].key);
      assert KeyLe(s[0].key, s[m].key) || m == 0;
    }
    OfKeyNone(s, k);
  }

  /** Emitting the least head keeps the records of every key in order. */
  lemma AdvanceKey(rest: seq<seq<Record>>, i: nat, k: Key)
    requires i < |rest| && rest[i] != [] && AllSorted(rest)
    requires forall x :: x in Heads(rest, |rest|) ==> Le(Item(rest[i][0], i), x)
    ensures OfKey(Concat(rest), k) == OfKey([rest[i][0]], k) + OfKey(Concat(rest[i := rest[i][1..]]), k)
  {
    var next := rest[i := rest[i][1..]];
    var a, b, s := Concat(rest[..i]), Concat(rest[i + 1..]), rest[i];
    ConcatAround(rest, i);
    ConcatAround(next, i);
    assert next[..i] == rest[..i] && next[i + 1..] == rest[i + 1..];
    NoEarlierKey(rest, i, i);
    KeyBetween(a, s, b, k);
  }

  /** Taking the head of s out of a + s + b, when a holds no record of the head's key. */
  lemma KeyBetween(a: seq<Record>, s: seq<Record>, b: seq<Record>, k: Key)
    requires s != [] && OfKey(a, s[0].key) == []
    ensures OfKey(a + s + b, k) == OfKey([s[0]], k) + OfKey(a + s[1..] + b, k)
  {
    ThreeParts(a, s, b, k);
    ThreeParts(a, s[1..], b, k);
    assert s == [s[0]] + s[1..];
    OfKeyAppend([s[0]], s[1..], k);
    Swap(OfKey(a, k), OfKey([s[0]], k), OfKey(s[1..], k), OfKey(b, k));
  }

  lemma Swap(x: seq<Record>, head: seq<Record>, y: seq<Record>, z: seq<Record>)
    requires x == [] || head == []
    ensures x + (head + y) + z == head + (x + y + z)
  {
    if x == [] {
      assert x + (head + y) == head + y && x + y == y;
    } else {
      assert head + y == y;
    }
  }

  lemma ThreeParts(a: seq<Record>, s: seq<Record>, b: seq<Record>, k: Key)
    ensures OfKey(a + s + b, k) == OfKey(a, k) + OfKey(s, k) + OfKey(b, k)
  {
    OfKeyAppend(a + s, b, k);
    OfKeyAppend(a, s, k);
  }

  ghost predicate SameRecords(a: seq<Record>, b: seq<Record>) {
    forall k: Key :: OfKey(a, k) == OfKey(b, k)
  }

  ghost predicate NoneAboveHeads(out: seq<Record>, rest: seq<seq<Record>>) {
    forall m, i :: 0 <= m < |out| && 0 <= i < |rest| && rest[i] != [] ==> KeyLe(out[m].key, rest[i][0].key)
  }

  /** The merge so far: `out` is in order, not above any head, and with `rest` makes up the inputs key by key. */
  ghost predicate Merging(inputs: seq<seq<Record>>, out: seq<Record>, rest: seq<seq<Record>>) {
    && AllSorted(rest)
    && Sorted(out)
    && NoneAboveHeads(out, rest)
    && SameRecords(out + Concat(rest), Concat(inputs))
  }

  lemma MergingStep(inputs: seq<seq<Record>>, out: seq<Record>, rest: seq<seq<Record>>, i: nat)
    requires Merging(inputs, out, rest) && i < |rest| && rest[i] != []
    requires forall x :: x in Heads(rest, |rest|) ==> Le(Item(rest[i][0], i), x)
    ensures Merging(inputs, out + [rest[i][0]], rest[i := rest[i][1..]])
  {
    StepRecords(inputs, out, rest, i);
    StepBounds(out, rest, i);
  }

  lemma StepRecords(inputs: seq<seq<Record>>, out: seq<Record>, rest: seq<seq<Record>>, i: nat)
    requires AllSorted(rest) && SameRecords(out + Concat(rest), Concat(inputs)) && i < |rest| && rest[i] != []
    requires forall x :: x in Heads(rest, |rest|) ==> Le(Item(rest[i][0], i), x)
    ensures SameRecords(out + [rest[i][0]] + Concat(rest[i := rest[i][1..]]), Concat(inputs))
  {
    var r, next := rest[i][0], rest[i := rest[i][1..]];
    forall k: Key ensures OfKey(out + [r] + Concat(next), k) == OfKey(Concat(inputs), k) {
      AdvanceKey(rest, i, k);
      OfKeyAppend(out + [r], Concat(next), k);
      OfKeyAppend(out, [r], k);
      OfKeyAppend(out, Concat(rest), k);
    }
  }

  lemma StepBounds(out: seq<Record>, rest: seq<seq<Record>>, i: nat)
    requires AllSorted(rest) && Sorted(out) && i < |rest| && rest[i] != []
    requires NoneAboveHeads(out, rest)
    requires forall x :: x in Heads(rest, |rest|) ==> Le(Item(rest[i][0], i), x)
    ensures AllSorted(rest[i := rest[i][1..]]) && Sorted(out + [rest[i][0]])
    ensures NoneAboveHeads(out + [rest[i][0]], rest[i := rest[i][1..]])
  {
    var r: Record, next: seq<seq<Record>> := rest[i][0], rest[i := rest[i][1..]];
    forall j | 0 <= j < |rest| && rest[j] != [] ensures KeyLe(r.key, rest[j][0].key) {
      HeadsHas(rest, Item(rest[j][0], j));
      KeyTotal(r.key, rest[j][0].key);
    }
    forall m, j | 0 <= m < |out + [r]| && 0 <= j < |next| && next[j] != []
      ensures KeyLe((out + [r])[m].key, next[j][0].key)
    {
      if j == i {
        assert next[j][0] == rest[i][1] && KeyLe(r.key, rest[i][1].key);
        if m < |out| { KeyTrans(out[m].key, r.key, rest[i][1].key); }
      }
    }
  }

  lemma MergingStart(inputs: seq<seq<Record>>)
    requires AllSorted(inputs)
    ensures Merging(inputs, [], inputs)
  {
    assert [] + Concat(inputs) == Concat(inputs);
  }

  lemma MergingEnd(inputs: seq<seq<Record>>, out: seq<Record>, rest: seq<seq<Record>>)
    requires Merging(inputs, out, rest) && Concat(rest) == []
    ensures StableSortOf(out, Concat(inputs))
  {
    assert out + [] == out;
  }

  /** What holds between two pops. */
  ghost predicate Progress(inputs: seq<seq<Record>>, out: seq<Record>, rest: seq<seq<Record>>) {
    && multiset(out) + multiset(Concat(rest)) == multiset(Concat(inputs))
    && (AllSorted(inputs) ==> Merging(inputs, out, rest))
  }

  lemma ProgressStep(inputs: seq<seq<Record>>, out: seq<Record>, rest: seq<seq<Record>>, item: Item)
    requires Progress(inputs, out, rest) && item in Heads(rest, |rest|)
    requires forall x :: x in Heads(rest, |rest|) ==> Le(item, x)
    ensures item.index < |rest| && rest[item.index] != [] && item.record == rest[item.index][0]
    ensures var next := rest[item.index := rest[item.index][1..]];
      && Progress(inputs, out + [item.record], next)
      && |Concat(next)| < |Concat(rest)|
  {
    HeadsHas(rest, item);
    var next := rest[item.index := rest[item.index][1..]];
    AdvanceMultiset(rest, item.index);
    if AllSorted(inputs) { MergingStep(inputs, out, rest, item.index); }
    assert multiset(out + [item.record]) == multiset(out) + multiset{item.record};
  }

  lemma ProgressEnd(inputs: seq<seq<Record>>, out: seq<Record>, rest: seq<seq<Record>>)
    requires Progress(inputs, out, rest) && Heads(rest, |rest|) == multiset{}
    ensures multiset(out) == multiset(Concat(inputs))
    ensures AllSorted(inputs) ==> StableSortOf(out, Concat(inputs))
  {
    NoHeads(rest);
    if AllSorted(inputs) { MergingEnd(inputs, out, rest); }
  }

  /** The heap once every stream has been opened. */
  method OpenStreams(inputs: seq<seq<Record>>) returns (heap: RecordHeap)
    ensures fresh(heap) && HeapOrdered(heap.items) && multiset(heap.items) == Heads(inputs, |inputs|)
  {
    heap := new RecordHeap();
    for i := 0 to |inputs|
      invariant fresh(heap) && HeapOrdered(heap.items) && multiset(heap.items) == Heads(inputs, i)
    {
      if inputs[i] != [] { heap.Push(Item(inputs[i][0], i)); }
    }
  }

  /** Moves the least head to the output and refills the heap from its stream. */
  method EmitOne(heap: RecordHeap, ghost inputs: seq<seq<Record>>, out: seq<Record>, rest: seq<seq<Record>>)
    returns (out': seq<Record>, rest': seq<seq<Record>>)
    requires heap.items != [] && HeapOrdered(heap.items) && multiset(heap.items) == Heads(rest, |rest|)
    requires Progress(inputs, out, rest)
    modifies heap
    ensures HeapOrdered(heap.items) && multiset(heap.items) == Heads(rest', |rest'|)
    ensures Progress(inputs, out', rest') && |rest'| == |rest| && |out'| == |out| + 1
    ensures |Concat(rest')| < |Concat(rest)|
  {
    ghost var before := heap.items;
    var item := heap.Pop();
    assert item in multiset(before) && forall x :: x in multiset(before) ==> x in before;
    ProgressStep(inputs, out, rest, item);
    NextHeads(rest, item.index, multiset(heap.items));
    out' := out + [item.record];
    rest' := rest[item.index := rest[item.index][1..]];
    if rest'[item.index] != [] { heap.Push(Item(rest'[item.index][0], item.index)); }
  }

  /** heapMerge.  The inputs are meant to be sorted; whatever they are, no record is lost or invented. */
  method HeapMerge(inputs: seq<seq<Record>>) returns (out: seq<Record>, total: nat)
    ensures total == |out|
    ensures multiset(out) == multiset(Concat(inputs))
    ensures AllSorted(inputs) ==> StableSortOf(out, Concat(inputs))
  {
    var heap := OpenStreams(inputs);
    var rest := inputs;
    out, total := [], 0;
    if AllSorted(inputs) { MergingStart(inputs); }
    while heap.items != []
      invariant total == |out| && Progress(inputs, out, rest)
      invariant HeapOrdered(heap.items) && multiset(heap.items) == Heads(rest, |rest|)
      decreases |Concat(rest)|
    {
      out, rest := EmitOne(heap, inputs, out, rest);
      total := total + 1;
    }
    ProgressEnd(inputs, out, rest);
  }

  // ---------- multi-pass ----------

  /** The clamped batch size. */
  function Batch(size: int): (b: nat)
    ensures 2 <= b <= MAX_BATCH_SIZE
    ensures 2 <= size <= MAX_BATCH_SIZE ==> b == size
    ensures size < 2 ==> b == DEFAULT_BATCH_SIZE
    ensures size > MAX_BATCH_SIZE ==> b == MAX_BATCH_SIZE
  {
    if size <= 1 then DEFAULT_BATCH_SIZE else if size > MAX_BATCH_SIZE then MAX_BATCH_SIZE else size
  }

  datatype MergeStats = MergeStats(totalPasses: nat, peakOpenStreams: nat, spillCount: nat, totalRecords: nat)

  /** Streams left after one pass over n streams: one per started batch. */
  function AfterPass(n: nat, b: nat): (m: nat)
    requires b >= 2
    ensures m * b >= n && (m - 1) * b < n
    ensures n > b ==> 2 <= m < n
  {
    CeilDiv(n, b);
    (n + b - 1) / b
  }

  lemma CeilDiv(n: nat, b: nat)
    requires b >= 2
    ensures var m := (n + b - 1) / b; m >= 0 && m * b >= n && (m - 1) * b < n && (n > b ==> 2 <= m < n)
  {
    var m := (n + b - 1) / b;
    assert n + b - 1 == m * b + (n + b - 1) % b;
    assert (m - 1) * b == m * b - b;
    if n > b {
      if m <= 1 { MulLe(m, 1, b); }
      MulLe(2, b, m - 1);
    }
  }

  function Passes(n: nat, b: nat): nat
    requires b >= 2
  {
    if n <= b then 1 else 1 + Passes(AfterPass(n, b), b)
  }

  function Spills(n: nat, b: nat): nat
    requires b >= 2
  {
    if n <= b then 0 else AfterPass(n, b) + Spills(AfterPass(n, b), b)
  }

  function Pow(b: nat, e: nat): nat {
    if e == 0 then 1 else b * Pow(b, e - 1)
  }

  lemma OnePass(n: nat, m: nat, b: nat, lo: nat, hi: nat)
    requires lo < m <= hi && (m - 1) * b < n <= m * b
    ensures b * lo < n <= b * hi
  {
    MulLe(lo, m - 1, b);
    MulLe(m, hi, b);
  }

  /** The number of passes is the least p with n <= b^p. */
  lemma {:induction false} PassesBound(n: nat, b: nat)
    requires n >= 2 && b >= 2
    ensures Passes(n, b) >= 1 && Pow(b, Passes(n, b) - 1) < n <= Pow(b, Passes(n, b))
    decreases n
  {
    if n <= b {
      assert Pow(b, 1) == b * Pow(b, 0);
    } else {
      var m := AfterPass(n, b);
      PassesBound(m, b);
      OnePass(n, m, b, Pow(b, Passes(m, b) - 1), Pow(b, Passes(m, b)));
    }
  }

  /** `b` carries the records of `a`; sorted inputs stay sorted runs with every key's order kept. */
  ghost predicate Carries(a: seq<seq<Record>>, b: seq<seq<Record>>) {
    && multiset(Concat(b)) == multiset(Concat(a))
    && (AllSorted(a) ==> AllSorted(b) && SameRecords(Concat(b), Concat(a)))
  }

  lemma CarriesTrans(a: seq<seq<Record>>, b: seq<seq<Record>>, c: seq<seq<Record>>)
    requires Carries(a, b) && Carries(b, c)
    ensures Carries(a, c)
  {
  }

  lemma CarriesMore(done: seq<seq<Record>>, next: seq<seq<Record>>, batch: seq<seq<Record>>, run: seq<Record>)
    requires Carries(done, next) && multiset(run) == multiset(Concat(batch))
    requires AllSorted(batch) ==> StableSortOf(run, Concat(batch))
    ensures Carries(done + batch, next + [run])
  {
    ConcatAppend(done, batch);
    ConcatAppend(next, [run]);
    assert Concat([run]) == run;
    assert multiset(Concat(next) + run) == multiset(Concat(next)) + multiset(run);
    if AllSorted(done + batch) {
      SortedParts(done, batch);
      SameJoined(Concat(next), Concat(done), run, Concat(batch));
    }
  }

  lemma SortedParts(a: seq<seq<Record>>, b: seq<seq<Record>>)
    requires AllSorted(a + b)
    ensures AllSorted(a) && AllSorted(b)
  {
    forall i | 0 <= i < |a| ensures Sorted(a[i]) { assert (a + b)[i] == a[i]; }
    forall i | 0 <= i < |b| ensures Sorted(b[i]) { assert (a + b)[|a| + i] == b[i]; }
  }

  lemma SameJoined(a: seq<Record>, a': seq<Record>, b: seq<Record>, b': seq<Record>)
    requires SameRecords(a, a') && SameRecords(b, b')
    ensures SameRecords(a + b, a' + b')
  {
    forall k: Key ensures OfKey(a + b, k) == OfKey(a' + b', k) {
      OfKeyAppend(a, b, k);
      OfKeyAppend(a', b', k);
    }
  }

  /** One batch of streams becomes one more spill file. */
  method MergeBatch(current: seq<seq<Record>>, i: nat, end: nat, done: seq<seq<Record>>) returns (next: seq<seq<Record>>)
    requires i <= end <= |current| && Carries(current[..i], done)
    ensures |next| == |done| + 1 && Carries(current[..end], next)
  {
    var run, _ := HeapMerge(current[i..end]);
    CarriesMore(current[..i], done, current[i..end], run);
    assert current[..i] + current[i..end] == current[..end];
    next := done + [run];
  }

  /** One pass: each batch of at most `b` streams becomes one spill file. */
  method MergePass(current: seq<seq<Record>>, b: nat) returns (next: seq<seq<Record>>, peak: nat)
    requires b >= 2 && |current| > b
    ensures |next| == AfterPass(|current|, b) && peak == b
    ensures Carries(current, next)
  {
    next, peak := [], 0;
    var i := 0;
    while i < |current|
      invariant i == Blocks(|next|, b) && i < |current| + b
      invariant Carries(current[..Least(i, |current|)], next)
      invariant peak == if i == 0 then 0 else b
      decreases |current| - i
    {
      var end := Least(i + b, |current|);
      if end - i > peak { peak := end - i; }
      next := MergeBatch(current, i, end, next);
      i := i + b;
    }
    assert current[..|current|] == current;
    PassCount(|next|, |current|, b);
  }

  /** n blocks of b streams. */
  function Blocks(n: nat, b: nat): nat {
    if n == 0 then 0 else Blocks(n - 1, b) + b
  }

  lemma {:induction false} BlocksIsProduct(n: nat, b: nat)
    ensures Blocks(n, b) == n * b
  {
    if n > 0 {
      BlocksIsProduct(n - 1, b);
      assert n * b == (n - 1) * b + b;
    }
  }

  lemma PassCount(m: nat, n: nat, b: nat)
    requires b >= 2 && n <= Blocks(m, b) < n + b
    ensures m == AfterPass(n, b)
  {
    BlocksIsProduct(m, b);
    assert (m - 1) * b == m * b - b;
    SameCount(m, AfterPass(n, b), n, b);
  }

  function Least(a: nat, b: nat): nat { if a > b then b else a }

  lemma SameCount(m: nat, m': nat, n: nat, b: nat)
    requires b >= 2 && m * b >= n && (m - 1) * b < n && m' * b >= n && (m' - 1) * b < n
    ensures m == m'
  {
    if m < m' { MulLe(m, m' - 1, b); }
    if m' < m { MulLe(m', m - 1, b); }
  }

  /** MergeInputs.  Whatever the batch size, sorted inputs give the stable sort of their concatenation, in as few
      passes as that batch size allows, holding at most min(n, batch) streams open. */
  method MergeInputs(readers: seq<seq<Record>>, batchSize: int) returns (out: seq<Record>, stats: MergeStats)
    ensures multiset(out) == multiset(Concat(readers))
    ensures AllSorted(readers) ==> StableSortOf(out, Concat(readers))
    ensures readers == [] ==> stats == MergeStats(0, 0, 0, 0)
    ensures readers != [] ==>
      var b := Batch(batchSize);
      stats == MergeStats(Passes(|readers|, b), if |readers| <= b then |readers| else b, Spills(|readers|, b), |out|)
  {
    if readers == [] { return [], MergeStats(0, 0, 0, 0); }
    var b := Batch(batchSize);
    var total;
    if |readers| <= b {
      out, total := HeapMerge(readers);
      return out, MergeStats(1, |readers|, 0, total);
    }
    var current, passes, peak, spills := readers, 0, 0, 0;
    while |current| > b
      invariant |current| >= 2 && Carries(readers, current)
      invariant passes + Passes(|current|, b) == Passes(|readers|, b)
      invariant spills + Spills(|current|, b) == Spills(|readers|, b)
      invariant peak == if |current| == |readers| then 0 else b
      invariant |current| <= |readers|
      decreases |current|
    {
      var next, p := MergePass(current, b);
      CarriesTrans(readers, current, next);
      if p > peak { peak := p; }
      passes, spills := passes + 1, spills + |next|;
      current := next;
    }
    passes := passes + 1;
    if |current| > peak { peak := |current|; }
    out, total := HeapMerge(current);
    stats := MergeStats(passes, peak, spills, total);
  }

  /** The merge equals the reference sort, so the multi-pass form equals the single-pass one for every batch size. */
  lemma MergeIsTheSort(out: seq<Record>, inputs: seq<seq<Record>>)
    requires StableSortOf(out, Concat(inputs))
    ensures out == StableSort(Concat(inputs))
  {
    StableSortSorts(Concat(inputs));
    StableSortUnique(out, StableSort(Concat(inputs)));
  }
}
