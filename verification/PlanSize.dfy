/** How many map tasks a prefix plan has, and how large they are. */
module PlanSize {
  import opened Arithmetic
  import opened GreedyLoads
  import opened InputBuckets

  // ---------- the planned count ----------

  lemma Divides(a: nat, s: nat)
    requires s > 0
    ensures a / s * s <= a < a / s * s + s
  {
  }

  /** The planned count is the least number of tasks whose splits hold everything, but at most one per object. */
  lemma LeastCount(total: nat, splitSize: nat, objects: nat, k: nat)
    requires splitSize > 0 && objects > 0
    ensures var m := TaskCount(total, splitSize, objects);
      && (m == objects || m * splitSize >= total)
      && (1 <= k < m ==> k * splitSize < total)
  {
    var n := (total + splitSize - 1) / splitSize;
    Divides(total + splitSize - 1, splitSize);
    if 1 <= k < TaskCount(total, splitSize, objects) {
      MulLe(k, n - 1, splitSize);
      assert (n - 1) * splitSize == n * splitSize - splitSize;
    }
  }

  // ---------- where the objects go ----------

  /** The first p weights are positive, the others zero. */
  predicate PositiveBelow(w: seq<nat>, p: nat) {
    p <= |w| && forall i :: 0 <= i < |w| ==> (w[i] > 0 <==> i < p)
  }

  lemma Appended(g: Assignment, w: seq<nat>, k: nat, b: nat)
    requires |g| < |w|
    ensures Load(g + [k], w, b) == Load(g, w, b) + if k == b then w[|g|] else 0
  {
    var more := g + [k];
    assert more[..|more| - 1] == g;
  }

  /** Bucket b holds weight b alone for b below p, and nothing with any bytes otherwise. */
  predicate OneApiece(g: Assignment, w: seq<nat>, m: nat, p: nat)
    requires |g| <= |w| && p <= |w|
  {
    forall b :: 0 <= b < m ==> Load(g, w, b) == if b < p then w[b] else 0
  }

  /** The next weight goes to the first bucket without bytes. */
  lemma PlacedNext(g: Assignment, w: seq<nat>, m: nat, p: nat, k: nat)
    requires |g| < |w| && k < m && k <= p <= |w| && OneApiece(g, w, m, k) && forall b :: 0 <= b < k ==> w[b] > 0
    ensures Pick(g, w, m) == k
    ensures forall b :: 0 <= b < m ==> Load(g + [k], w, b) == if b < k then w[b] else if b == k then w[|g|] else 0
  {
    assert Load(g, w, k) == 0;
    forall b | 0 <= b < m ensures Load(g + [k], w, b) == if b < k then w[b] else if b == k then w[|g|] else 0 { Appended(g, w, k, b); }
  }

  /** Positive weights, while there are empty buckets, each get their own. */
  lemma {:induction false} OwnBucket(w: seq<nat>, n: nat, m: nat, p: nat)
    requires PositiveBelow(w, p) && n <= p && n <= m && m > 0
    ensures forall i :: 0 <= i < n ==> Placement(w, n, m)[i] == i
    ensures OneApiece(Placement(w, n, m), w, m, n)
  {
    if n > 0 {
      OwnBucket(w, n - 1, m, p);
      PlacedNext(Placement(w, n - 1, m), w, m, p, n - 1);
    }
  }

  /** With more buckets than positive weights, all the others share the next bucket. */
  lemma {:induction false} SharedBucket(w: seq<nat>, n: nat, m: nat, p: nat)
    requires PositiveBelow(w, p) && p <= n <= |w| && p < m
    ensures forall i :: 0 <= i < n ==> Placement(w, n, m)[i] == if i < p then i else p
    ensures OneApiece(Placement(w, n, m), w, m, p)
    decreases n
  {
    if n == p {
      OwnBucket(w, p, m, p);
    } else {
      SharedBucket(w, n - 1, m, p);
      PlacedNext(Placement(w, n - 1, m), w, m, p, p);
    }
  }

  lemma {:induction false} PlacementPrefix(w: seq<nat>, n: nat, m: nat, k: nat)
    requires k <= n <= |w| && m > 0
    ensures Placement(w, n, m)[..k] == Placement(w, k, m)
    decreases n
  {
    if k < n {
      PlacementPrefix(w, n - 1, m, k);
      assert Placement(w, n, m)[..k] == Placement(w, n - 1, m)[..k];
    }
  }

  /** Which buckets are used. */
  lemma Used(w: seq<nat>, m: nat, p: nat, b: nat)
    requires PositiveBelow(w, p) && 0 < m <= |w| && b < m
    ensures b in Placement(w, |w|, m) <==> b <= p
  {
    var g := Placement(w, |w|, m);
    if p < m {
      SharedBucket(w, |w|, m, p);
      if b <= p { assert g[b] == b; }
    } else {
      OwnBucket(w, m, m, p);
      PlacementPrefix(w, |w|, m, m);
      assert g[..m][b] == g[b] == b;
    }
  }

  // ---------- counting the tasks ----------

  lemma {:induction false} BucketUsed(objs: seq<Object>, g: Assignment, b: nat)
    requires |g| <= |objs|
    ensures Bucket(objs, g, b) != [] <==> b in g
  {
    if g != [] { BucketUsed(objs, g[..|g| - 1], b); }
  }

  lemma {:induction false} NonEmptyBelow(buckets: seq<seq<Object>>, q: nat)
    requires q <= |buckets| && forall b :: 0 <= b < |buckets| ==> (buckets[b] != [] <==> b < q)
    ensures |NonEmpty(buckets)| == q
  {
    if buckets != [] {
      var n := |buckets| - 1;
      NonEmptyBelow(buckets[..n], if q > n then n else q);
    }
  }

  function Positives(objs: seq<Object>): nat {
    if objs == [] then 0 else Positives(objs[1..]) + if objs[0].size > 0 then 1 else 0
  }

  lemma {:induction false} PositivesAppend(a: seq<Object>, b: seq<Object>)
    ensures Positives(a + b) == Positives(a) + Positives(b)
  {
    if a == [] {
      assert a + b == b;
    } else {
      assert (a + b)[1..] == a[1..] + b;
      PositivesAppend(a[1..], b);
    }
  }

  lemma {:induction false} PositivesPermute(a: seq<Object>, b: seq<Object>)
    requires multiset(a) == multiset(b)
    ensures Positives(a) == Positives(b)
    decreases |a|
  {
    assert |a| == |multiset(a)| && |b| == |multiset(b)|;
    if a != [] {
      assert a[0] in multiset(b);
      var i :| 0 <= i < |b| && b[i] == a[0];
      TakeOut(a, b, i);
      PositivesPermute(a[1..], b[..i] + b[i + 1..]);
      PositivesAppend(b[..i], b[i + 1..]);
      PositivesAppend(b[..i], b[i..]);
      assert b == b[..i] + b[i..] && b[i..][1..] == b[i + 1..];
    }
  }

  lemma TakeOut(a: seq<Object>, b: seq<Object>, i: nat)
    requires a != [] && i < |b| && b[i] == a[0] && multiset(a) == multiset(b)
    ensures multiset(a[1..]) == multiset(b[..i] + b[i + 1..])
  {
    assert a == [a[0]] + a[1..];
    assert b == b[..i] + [b[i]] + b[i + 1..];
    assert multiset(a[1..]) == multiset(a) - multiset{a[0]};
    assert multiset(b[..i] + b[i + 1..]) == multiset(b) - multiset{b[i]};
  }

  /** In decreasing order the positive objects come first. */
  lemma {:induction false} PositiveFirst(objs: seq<Object>)
    requires Decreasing(Weights(objs))
    ensures PositiveBelow(Weights(objs), Positives(objs))
  {
    if objs != [] {
      var rest := objs[1..];
      forall i, j | 0 <= i < j < |rest| ensures Weights(rest)[i] >= Weights(rest)[j] {
        assert Weights(objs)[i + 1] >= Weights(objs)[j + 1];
      }
      PositiveFirst(rest);
      PositiveCons(objs);
    }
  }

  lemma PositiveCons(objs: seq<Object>)
    requires objs != [] && Decreasing(Weights(objs)) && PositiveBelow(Weights(objs[1..]), Positives(objs[1..]))
    ensures PositiveBelow(Weights(objs), Positives(objs))
  {
    var w, v, q := Weights(objs), Weights(objs[1..]), Positives(objs[1..]);
    assert forall i :: 1 <= i < |w| ==> w[i] == v[i - 1];
    assert q > 0 ==> v[0] > 0 && w[1] == v[0];
  }

  /** The plan has m tasks, or, if fewer objects than that have any bytes, one for each of them and one for all the others. */
  lemma PlanCount(objects: seq<Object>, m: nat)
    requires 0 < m <= |objects|
    ensures |PlanOf(objects, m)| == if Positives(objects) < m then Positives(objects) + 1 else m
  {
    var sorted := SortedObjects(objects);
    SortedObjectsIs(objects);
    OrderedDecreasing(sorted);
    PositiveFirst(sorted);
    PositivesPermute(sorted, objects);
    assert |sorted| == |multiset(sorted)| == |multiset(objects)| == |objects|;
    var p, w := Positives(objects), Weights(sorted);
    var g := Placement(w, |sorted|, m);
    var buckets := Buckets(sorted, g, m);
    var q := if p < m then p + 1 else m;
    forall b | 0 <= b < m ensures buckets[b] != [] <==> b < q {
      BucketUsed(sorted, g, b);
      Used(w, m, p, b);
    }
    NonEmptyBelow(buckets, q);
  }

  // ---------- how large a task can be ----------

  lemma AtMostSum(m: nat, x: nat, s: nat, top: nat, total: nat)
    requires m > 0 && m * x <= total + (m - 1) * top && total <= m * s
    ensures x <= s + top
  {
    if x > s + top { TooLarge(m, x, s, top); }
  }

  lemma TooLarge(m: nat, x: nat, s: nat, top: nat)
    requires m > 0 && x > s + top
    ensures m * x > m * s + (m - 1) * top
  {
    MulLe(s + top + 1, x, m);
    assert m * (s + top + 1) == m * s + (m - 1) * top + top + m;
  }

  /** No task of the plan exceeds the split size by more than the largest object. */
  lemma PlanWithin(objects: seq<Object>, splitSize: nat, top: nat, i: nat)
    requires splitSize > 0 && objects != [] && forall k :: 0 <= k < |objects| ==> Weight(objects[k]) <= top
    requires i < |PlanOf(objects, TaskCount(Total(objects), splitSize, |objects|))|
    ensures Total(PlanOf(objects, TaskCount(Total(objects), splitSize, |objects|))[i]) <= splitSize + top
  {
    var m := TaskCount(Total(objects), splitSize, |objects|);
    LeastCount(Total(objects), splitSize, |objects|, 1);
    if m * splitSize >= Total(objects) {
      PlanNearAverage(objects, m, top, i);
      AtMostSum(m, Total(PlanOf(objects, m)[i]), splitSize, top, Total(objects));
    } else {
      OneEach(objects, top, i);
    }
  }

  /** With as many tasks as objects no task has more bytes than one object. */
  lemma OneEach(objects: seq<Object>, top: nat, i: nat)
    requires objects != [] && forall k :: 0 <= k < |objects| ==> Weight(objects[k]) <= top
    requires i < |PlanOf(objects, |objects|)|
    ensures Total(PlanOf(objects, |objects|)[i]) <= top
  {
    var sorted, m := SortedObjects(objects), |objects|;
    SortedObjectsIs(objects);
    OrderedDecreasing(sorted);
    PositiveFirst(sorted);
    assert |sorted| == |multiset(sorted)| == |multiset(objects)| == |objects|;
    var p, w := Positives(sorted), Weights(sorted);
    var g := Placement(w, |sorted|, m);
    var b := NonEmptyFrom(Buckets(sorted, g, m), i);
    BucketLoad(sorted, g, b);
    forall k | 0 <= k < |w| ensures w[k] <= top { assert sorted[k] in multiset(objects); }
    if p < m { SharedBucket(w, m, m, p); } else { OwnBucket(w, m, m, p); }
  }
}
