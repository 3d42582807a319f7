/** Distributing the objects under an input prefix over map tasks. */
module InputBuckets {
  import opened Records
  import opened GreedyLoads
  import InputSplits


  datatype Object = Object(key: Key, size: int)

  function Weight(o: Object): nat { if o.size > 0 then o.size else 0 }

  function Weights(objs: seq<Object>): (w: seq<nat>)
    ensures |w| == |objs| && forall i :: 0 <= i < |objs| ==> w[i] == Weight(objs[i])
  {
    seq(|objs|, i requires 0 <= i < |objs| => Weight(objs[i]))
  }

  // ---------- heaviest first ----------

  /** The order of sort.Slice: larger first, then by key. */
  predicate Precedes(a: Object, b: Object) {
    if a.size == b.size then KeyLe(a.key, b.key) else a.size > b.size
  }

  predicate Ordered(objs: seq<Object>) {
    forall i, j :: 0 <= i < j < |objs| ==> Precedes(objs[i], objs[j])
  }

  lemma PrecedesOrder(a: Object, b: Object, c: Object)
    ensures Precedes(a, b) || Precedes(b, a)
    ensures Precedes(a, b) && Precedes(b, c) ==> Precedes(a, c)
  {
    KeyTotal(a.key, b.key);
    if KeyLe(a.key, b.key) && KeyLe(b.key, c.key) { KeyTrans(a.key, b.key, c.key); }
  }

  function Place(o: Object, objs: seq<Object>): seq<Object> {
    if objs == [] || Precedes(o, objs[0]) then [o] + objs else [objs[0]] + Place(o, objs[1..])
  }

  lemma {:induction false} PlaceOrdered(o: Object, objs: seq<Object>)
    requires Ordered(objs)
    ensures Ordered(Place(o, objs)) && multiset(Place(o, objs)) == multiset(objs) + multiset{o}
  {
    PlaceAdds(o, objs);
    if objs == [] || Precedes(o, objs[0]) {
      forall j | 0 <= j < |objs| ensures Precedes(o, objs[j]) { PrecedesOrder(o, objs[0], objs[j]); }
    } else {
      PlaceOrdered(o, objs[1..]);
      PrecedesOrder(o, objs[0], objs[0]);
      var rest := Place(o, objs[1..]);
      forall j | 0 <= j < |rest| ensures Precedes(objs[0], rest[j]) { assert rest[j] in multiset(rest); }
    }
  }

  lemma {:induction false} PlaceAdds(o: Object, objs: seq<Object>)
    ensures multiset(Place(o, objs)) == multiset(objs) + multiset{o}
  {
    if objs != [] && !Precedes(o, objs[0]) {
      PlaceAdds(o, objs[1..]);
      assert objs == [objs[0]] + objs[1..];
    }
  }

  function SortedObjects(objs: seq<Object>): seq<Object> {
    if objs == [] then [] else Place(objs[|objs| - 1], SortedObjects(objs[..|objs| - 1]))
  }

  lemma {:induction false} SortedObjectsIs(objs: seq<Object>)
    ensures Ordered(SortedObjects(objs)) && multiset(SortedObjects(objs)) == multiset(objs)
  {
    if objs != [] {
      var front, last := objs[..|objs| - 1], objs[|objs| - 1];
      SortedObjectsIs(front);
      PlaceOrdered(last, SortedObjects(front));
      assert objs == front + [last];
    }
  }

  /** Of two objects the one placed first is larger, or as large with a key that is not greater. */
  lemma LargerFirst(objs: seq<Object>, i: nat, j: nat)
    requires i < j < |SortedObjects(objs)|
    ensures var a, b := SortedObjects(objs)[i], SortedObjects(objs)[j];
      a.size >= b.size && (a.size == b.size ==> a.key == b.key || KeyLt(a.key, b.key))
  {
    SortedObjectsIs(objs);
    var a, b := SortedObjects(objs)[i], SortedObjects(objs)[j];
    assert Precedes(a, b);
    KeyTotal(a.key, b.key);
  }

  /** The order is total on (size, key), so any sort by it gives the same list. */
  lemma {:induction false} OrderedUnique(a: seq<Object>, b: seq<Object>)
    requires Ordered(a) && Ordered(b) && multiset(a) == multiset(b)
    ensures a == b
  {
    if a == [] {
      assert |multiset(b)| == |b|;
    } else {
      FirstSame(a, b);
      TailsSame(a, b);
      OrderedUnique(a[1..], b[1..]);
      assert a == [a[0]] + a[1..] && b == [b[0]] + b[1..];
    }
  }

  lemma TailsSame(a: seq<Object>, b: seq<Object>)
    requires multiset(a) == multiset(b) && a != [] && b != [] && a[0] == b[0]
    ensures multiset(a[1..]) == multiset(b[1..])
  {
    assert a == [a[0]] + a[1..] && b == [b[0]] + b[1..];
    assert multiset(a[1..]) == multiset(a) - multiset{a[0]} && multiset(b[1..]) == multiset(b) - multiset{b[0]};
  }

  lemma FirstSame(a: seq<Object>, b: seq<Object>)
    requires Ordered(a) && Ordered(b) && multiset(a) == multiset(b) && a != []
    ensures b != [] && a[0] == b[0]
  {
    assert a[0] in multiset(b);
    assert b[0] in multiset(a);
    var i :| 0 <= i < |b| && b[i] == a[0];
    var j :| 0 <= j < |a| && a[j] == b[0];
    KeyTotal(a[0].key, b[0].key);
  }

  method SortObjects(objs: seq<Object>) returns (sorted: seq<Object>)
    ensures sorted == SortedObjects(objs)
  {
    sorted := [];
    for i := 0 to |objs|
      invariant sorted == SortedObjects(objs[..i])
    {
      assert objs[..i + 1][..i] == objs[..i];
      sorted := Place(objs[i], sorted);
    }
    assert objs[..|objs|] == objs;
  }

  lemma OrderedDecreasing(objs: seq<Object>)
    requires Ordered(objs)
    ensures Decreasing(Weights(objs))
  {
  }

  // ---------- placement ----------

  /** The objects of bucket b, in placement order. */
  function Bucket(objs: seq<Object>, g: Assignment, b: nat): seq<Object>
    requires |g| <= |objs|
  {
    if g == [] then []
    else
      var rest := Bucket(objs, g[..|g| - 1], b);
      if g[|g| - 1] == b then rest + [objs[|g| - 1]] else rest
  }

  function Total(objs: seq<Object>): nat {
    if objs == [] then 0 else Total(objs[..|objs| - 1]) + Weight(objs[|objs| - 1])
  }

  lemma {:induction false} BucketLoad(objs: seq<Object>, g: Assignment, b: nat)
    requires |g| <= |objs|
    ensures Total(Bucket(objs, g, b)) == Load(g, Weights(objs), b)
  {
    if g != [] {
      BucketLoad(objs, g[..|g| - 1], b);
      var rest := Bucket(objs, g[..|g| - 1], b);
      if g[|g| - 1] == b {
        var more := rest + [objs[|g| - 1]];
        assert more[..|more| - 1] == rest;
      }
    }
  }

  /** How often x occurs in all buckets together. */
  function Copies(buckets: seq<seq<Object>>, x: Object): nat {
    if buckets == [] then 0 else Copies(buckets[..|buckets| - 1], x) + multiset(buckets[|buckets| - 1])[x]
  }

  function Buckets(objs: seq<Object>, g: Assignment, m: nat): (bs: seq<seq<Object>>)
    requires |g| <= |objs|
    ensures |bs| == m && forall b :: 0 <= b < m ==> bs[b] == Bucket(objs, g, b)
  {
    seq(m, b requires 0 <= b < m => Bucket(objs, g, b))
  }

  lemma CopiesOneMore(objs: seq<Object>, g: Assignment, m: nat, x: Object)
    requires m > 0 && |g| <= |objs|
    ensures Copies(Buckets(objs, g, m), x) == Copies(Buckets(objs, g, m - 1), x) + multiset(Bucket(objs, g, m - 1))[x]
  {
    assert Buckets(objs, g, m)[..m - 1] == Buckets(objs, g, m - 1);
  }

  lemma BucketStep(objs: seq<Object>, g: Assignment, b: nat, x: Object)
    requires g != [] && |g| <= |objs|
    ensures Held(objs, g, b, x) == Held(objs, g[..|g| - 1], b, x)
         + if g[|g| - 1] == b && objs[|g| - 1] == x then 1 else 0
  {
  }

  /** How often x occurs in bucket b, and in the first m buckets. */
  function Held(objs: seq<Object>, g: Assignment, b: nat, x: Object): nat
    requires |g| <= |objs|
  {
    multiset(Bucket(objs, g, b))[x]
  }

  function HeldBelow(objs: seq<Object>, g: Assignment, m: nat, x: Object): nat
    requires |g| <= |objs|
  {
    if m == 0 then 0 else HeldBelow(objs, g, m - 1, x) + Held(objs, g, m - 1, x)
  }

  lemma {:induction false} CopiesAre(objs: seq<Object>, g: Assignment, m: nat, x: Object)
    requires |g| <= |objs|
    ensures Copies(Buckets(objs, g, m), x) == HeldBelow(objs, g, m, x)
  {
    if m > 0 {
      CopiesAre(objs, g, m - 1, x);
      CopiesOneMore(objs, g, m, x);
    }
  }

  lemma {:induction false} HeldStep(objs: seq<Object>, g: Assignment, m: nat, x: Object)
    requires g != [] && |g| <= |objs|
    ensures HeldBelow(objs, g, m, x) == HeldBelow(objs, g[..|g| - 1], m, x) + if g[|g| - 1] < m && objs[|g| - 1] == x then 1 else 0
  {
    if m > 0 {
      HeldStep(objs, g, m - 1, x);
      BucketStep(objs, g, m - 1, x);
    }
  }

  lemma {:induction false} NoneHeld(objs: seq<Object>, m: nat, x: Object)
    ensures HeldBelow(objs, [], m, x) == 0
  {
    if m > 0 { NoneHeld(objs, m - 1, x); }
  }

  /** Every object is in exactly one bucket. */
  lemma CopiesAll(objs: seq<Object>, g: Assignment, m: nat, x: Object)
    requires |g| <= |objs| && Within(g, m)
    ensures Copies(Buckets(objs, g, m), x) == multiset(objs[..|g|])[x]
  {
    CopiesAre(objs, g, m, x);
    HeldAll(objs, g, m, x);
  }

  lemma {:induction false} HeldAll(objs: seq<Object>, g: Assignment, m: nat, x: Object)
    requires |g| <= |objs| && Within(g, m)
    ensures HeldBelow(objs, g, m, x) == multiset(objs[..|g|])[x]
  {
    if g == [] {
      NoneHeld(objs, m, x);
    } else {
      HeldAll(objs, g[..|g| - 1], m, x);
      HeldStep(objs, g, m, x);
      OneMoreObject(objs, |g| - 1, x);
    }
  }

  lemma OneMoreObject(objs: seq<Object>, n: nat, x: Object)
    requires n < |objs|
    ensures multiset(objs[..n + 1])[x] == multiset(objs[..n])[x] + if objs[n] == x then 1 else 0
  {
    assert objs[..n + 1] == objs[..n] + [objs[n]];
  }

  method PickBucket(sizes: seq<nat>) returns (k: nat)
    requires sizes != []
    ensures k < |sizes| && forall b :: 0 <= b < |sizes| ==> sizes[k] <= sizes[b]
    ensures forall b :: 0 <= b < k ==> sizes[k] < sizes[b]
  {
    k := 0;
    for i := 1 to |sizes|
      invariant k < i && (forall b :: 0 <= b < i ==> sizes[k] <= sizes[b]) && forall b :: 0 <= b < k ==> sizes[k] < sizes[b]
    {
      if sizes[i] < sizes[k] { k := i; }
    }
  }

  /** The assignment loop over the sorted objects. */
  method Distribute(objs: seq<Object>, m: nat) returns (buckets: seq<seq<Object>>)
    requires m > 0
    ensures buckets == Buckets(objs, Placement(Weights(objs), |objs|, m), m)
  {
    var w := Weights(objs);
    buckets := seq(m, _ => []);
    var sizes: seq<nat> := seq(m, _ => 0);
    for n := 0 to |objs|
      invariant buckets == Buckets(objs, Placement(w, n, m), m)
      invariant |sizes| == m && forall b :: 0 <= b < m ==> sizes[b] == Load(Placement(w, n, m), w, b)
    {
      var k := PickBucket(sizes);
      ghost var g, next := Placement(w, n, m), Placement(w, n + 1, m);
      assert k == Pick(g, w, m);
      assert next[..|next| - 1] == g;
      buckets := buckets[k := buckets[k] + [objs[n]]];
      sizes := sizes[k := sizes[k] + Weight(objs[n])];
    }
  }

  // ---------- the whole plan ----------

  /** One map task reading everything under the prefix, or one per bucket. */
  datatype Plan = Fallback | Tasks(buckets: seq<seq<Object>>)

  /** The number of buckets: the total over the split size, at least one, at most one per object. */
  function TaskCount(total: nat, splitSize: nat, objects: nat): (m: nat)
    requires splitSize > 0 && objects > 0
    ensures 1 <= m <= objects
  {
    var n := (total + splitSize - 1) / splitSize;
    if n < 1 then 1 else if n > objects then objects else n
  }

  predicate Unsummed(objs: seq<Object>, sumOk: Key -> bool) {
    exists i :: 0 <= i < |objs| && objs[i].size > 0 && !sumOk(objs[i].key)
  }

  /** Objects go heaviest first to the least loaded bucket, and empty buckets are dropped. */
  function PlanOf(objects: seq<Object>, m: nat): seq<seq<Object>>
    requires m > 0
  {
    var sorted := SortedObjects(objects);
    NonEmpty(Buckets(sorted, Placement(Weights(sorted), |sorted|, m), m))
  }

  /** buildPrefixInputBuckets. */
  method BuildPrefixBuckets(objects: seq<Object>, targetSize: int, sumOk: Key -> bool) returns (plan: Plan)
    ensures plan.Fallback? <==> objects == [] || Unsummed(objects, sumOk)
    ensures plan.Tasks? ==>
      plan.buckets == PlanOf(objects, TaskCount(Total(objects), if targetSize > 0 then targetSize else InputSplits.DEFAULT_SPLIT, |objects|))
  {
    if objects == [] { return Fallback; }
    var totalSize := SumSizes(objects);
    var splitSize: nat := InputSplits.DEFAULT_SPLIT;
    if targetSize > 0 { splitSize := targetSize; }
    var mTasks := TaskCount(totalSize, splitSize, |objects|);
    var sorted := SortObjects(objects);
    SortedObjectsIs(objects);
    var bad := AnyUnsummed(sorted, sumOk);
    SameUnsummed(sorted, objects, sumOk);
    SameUnsummed(objects, sorted, sumOk);
    if bad { return Fallback; }
    var buckets := Distribute(sorted, mTasks);
    var kept := DropEmpty(buckets);
    plan := Tasks(kept);
  }

  lemma SameUnsummed(a: seq<Object>, b: seq<Object>, sumOk: Key -> bool)
    requires multiset(a) == multiset(b)
    ensures Unsummed(a, sumOk) ==> Unsummed(b, sumOk)
  {
    if i :| 0 <= i < |a| && a[i].size > 0 && !sumOk(a[i].key) { assert a[i] in multiset(b); }
  }

  method SumSizes(objs: seq<Object>) returns (total: nat)
    ensures total == Total(objs)
  {
    total := 0;
    for i := 0 to |objs|
      invariant total == Total(objs[..i])
    {
      assert objs[..i + 1][..i] == objs[..i];
      if objs[i].size > 0 { total := total + objs[i].size; }
    }
    assert objs[..|objs|] == objs;
  }

  method AnyUnsummed(objs: seq<Object>, sumOk: Key -> bool) returns (bad: bool)
    ensures bad == Unsummed(objs, sumOk)
  {
    for i := 0 to |objs|
      invariant forall k :: 0 <= k < i ==> objs[k].size <= 0 || sumOk(objs[k].key)
    {
      if objs[i].size > 0 && !sumOk(objs[i].key) { return true; }
    }
    return false;
  }

  function NonEmpty(buckets: seq<seq<Object>>): seq<seq<Object>> {
    if buckets == [] then []
    else
      var rest, last := NonEmpty(buckets[..|buckets| - 1]), buckets[|buckets| - 1];
      if last != [] then rest + [last] else rest
  }

  method DropEmpty(buckets: seq<seq<Object>>) returns (kept: seq<seq<Object>>)
    ensures kept == NonEmpty(buckets)
  {
    kept := [];
    for i := 0 to |buckets|
      invariant kept == NonEmpty(buckets[..i])
    {
      assert buckets[..i + 1][..i] == buckets[..i];
      if |buckets[i]| > 0 { kept := kept + [buckets[i]]; }
    }
    assert buckets[..|buckets|] == buckets;
  }

  lemma {:induction false} NonEmptyKeeps(buckets: seq<seq<Object>>, x: Object)
    ensures Copies(NonEmpty(buckets), x) == Copies(buckets, x)
  {
    if buckets != [] {
      var front, last := buckets[..|buckets| - 1], buckets[|buckets| - 1];
      NonEmptyKeeps(front, x);
      if last != [] {
        var kept := NonEmpty(front) + [last];
        assert kept[..|kept| - 1] == NonEmpty(front);
      }
    }
  }

  lemma {:induction false} NonEmptyFrom(buckets: seq<seq<Object>>, i: nat) returns (b: nat)
    requires i < |NonEmpty(buckets)|
    ensures b < |buckets| && NonEmpty(buckets)[i] == buckets[b] != []
  {
    var last := |buckets| - 1;
    if buckets[last] != [] && i == |NonEmpty(buckets)| - 1 {
      b := last;
    } else {
      b := NonEmptyFrom(buckets[..last], i);
    }
  }

  /** The plan reads every object exactly once and has no empty task. */
  lemma PlanComplete(objects: seq<Object>, m: nat, x: Object)
    requires m > 0
    ensures Copies(PlanOf(objects, m), x) == multiset(objects)[x]
    ensures forall i :: 0 <= i < |PlanOf(objects, m)| ==> PlanOf(objects, m)[i] != []
  {
    var sorted := SortedObjects(objects);
    var g := Placement(Weights(sorted), |sorted|, m);
    SortedObjectsIs(objects);
    PlacementGreedy(Weights(sorted), |sorted|, m);
    GreedyWithin(g, Weights(sorted), m);
    CopiesAll(sorted, g, m, x);
    assert sorted[..|g|] == sorted;
    NonEmptyKeeps(Buckets(sorted, g, m), x);
    forall i | 0 <= i < |PlanOf(objects, m)| ensures PlanOf(objects, m)[i] != [] {
      var b := NonEmptyFrom(Buckets(sorted, g, m), i);
    }
  }

  /** Its largest map task is at most 4/3 - 1/(3m) times the largest task of any other distribution `opt` of the same
      objects over m tasks. */
  lemma PlanBalanced(objects: seq<Object>, m: nat, opt: Assignment, T: nat, i: nat)
    requires m > 0 && |opt| == |SortedObjects(objects)| && Fits(opt, Weights(SortedObjects(objects)), m, T)
    requires i < |PlanOf(objects, m)|
    ensures 3 * m * Total(PlanOf(objects, m)[i]) <= (4 * m - 1) * T
  {
    var sorted := SortedObjects(objects);
    var w := Weights(sorted);
    var g := Placement(w, |sorted|, m);
    var b := NonEmptyFrom(Buckets(sorted, g, m), i);
    BucketLoad(sorted, g, b);
    SortedObjectsIs(objects);
    OrderedDecreasing(sorted);
    PlacementGreedy(w, |sorted|, m);
    FourThirds(g, opt, w, m, T, b);
  }

  /** And it exceeds the average by less than the largest object. */
  lemma PlanNearAverage(objects: seq<Object>, m: nat, top: nat, i: nat)
    requires m > 0 && i < |PlanOf(objects, m)| && forall k :: 0 <= k < |objects| ==> Weight(objects[k]) <= top
    ensures m * Total(PlanOf(objects, m)[i]) <= Total(objects) + (m - 1) * top
  {
    var sorted := SortedObjects(objects);
    var w := Weights(sorted);
    var g := Placement(w, |sorted|, m);
    var b := NonEmptyFrom(Buckets(sorted, g, m), i);
    BucketLoad(sorted, g, b);
    SortedObjectsIs(objects);
    PlacementGreedy(w, |sorted|, m);
    forall k | 0 <= k < |w| ensures w[k] <= top { assert sorted[k] in multiset(objects); }
    AverageBound(g, w, m, b, top);
    TotalIsSum(sorted, |sorted|);
    assert sorted[..|sorted|] == sorted;
    TotalPermutes(sorted, objects);
  }

  lemma {:induction false} TotalIsSum(objs: seq<Object>, n: nat)
    requires n <= |objs|
    ensures Total(objs[..n]) == Sum(Weights(objs), n)
  {
    if n > 0 {
      TotalIsSum(objs, n - 1);
      assert objs[..n][..n - 1] == objs[..n - 1];
    }
  }

  lemma {:induction false} TotalAppend(a: seq<Object>, b: seq<Object>)
    ensures Total(a + b) == Total(a) + Total(b)
  {
    if b == [] {
      assert a + b == a;
    } else {
      var ab := a + b;
      assert ab[..|ab| - 1] == a + b[..|b| - 1];
      TotalAppend(a, b[..|b| - 1]);
    }
  }

  lemma {:induction false} TotalPermutes(a: seq<Object>, b: seq<Object>)
    requires multiset(a) == multiset(b)
    ensures Total(a) == Total(b)
    decreases |a|
  {
    if a == [] {
      assert |multiset(b)| == |b|;
    } else {
      var front, last := a[..|a| - 1], a[|a| - 1];
      assert a == front + [last] && last in multiset(b);
      var i :| 0 <= i < |b| && b[i] == last;
      assert b == b[..i] + [last] + b[i + 1..];
      WithoutOne(front, b[..i], b[i + 1..], last);
      TotalPermutes(front, b[..i] + b[i + 1..]);
      TotalAppend(b[..i], b[i + 1..]);
      TotalAppend(b[..i] + [last], b[i + 1..]);
      TotalAppend(b[..i], [last]);
      assert [last][..0] == [];
    }
  }

  lemma WithoutOne(a: seq<Object>, b: seq<Object>, c: seq<Object>, x: Object)
    requires multiset(a + [x]) == multiset(b + [x] + c)
    ensures multiset(a) == multiset(b + c)
  {
    var m, n := multiset(a), multiset(b) + multiset(c);
    assert m + multiset{x} == n + multiset{x};
    assert m == m + multiset{x} - multiset{x} && n == n + multiset{x} - multiset{x};
  }
}
