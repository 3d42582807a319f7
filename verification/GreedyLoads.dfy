/** Greedy least-loaded placement of weights, heaviest first, against every other placement. */
module GreedyLoads {
  import opened Arithmetic

  /** `a[i]` is the bucket of weight i. */
  type Assignment = seq<nat>

  function Load(a: Assignment, w: seq<nat>, b: nat): nat
    requires |a| <= |w|
  {
    if a == [] then 0
    else Load(a[..|a| - 1], w, b) + if a[|a| - 1] == b then w[|a| - 1] else 0
  }

  function Sum(w: seq<nat>, n: nat): nat
    requires n <= |w|
  {
    if n == 0 then 0 else Sum(w, n - 1) + w[n - 1]
  }

  function Ones(n: nat): (r: seq<nat>)
    ensures |r| == n && forall i :: 0 <= i < n ==> r[i] == 1
  {
    seq(n, _ => 1)
  }

  /** How many weights bucket b holds. */
  function Count(a: Assignment, b: nat): nat { Load(a, Ones(|a|), b) }

  predicate Within(a: Assignment, m: nat) { forall i :: 0 <= i < |a| ==> a[i] < m }

  predicate Decreasing(w: seq<nat>) { forall i, j :: 0 <= i < j < |w| ==> w[i] >= w[j] }

  /** Bucket k is a lightest one. */
  predicate Lightest(a: Assignment, w: seq<nat>, m: nat, k: nat)
    requires |a| <= |w|
  {
    k < m && forall b :: 0 <= b < m ==> Load(a, w, k) <= Load(a, w, b)
  }

  /** Every weight went to a bucket that was lightest at that moment. */
  predicate Greedy(g: Assignment, w: seq<nat>, m: nat)
    requires |g| <= |w|
  {
    g == [] || (Greedy(g[..|g| - 1], w, m) && Lightest(g[..|g| - 1], w, m, g[|g| - 1]))
  }

  /** The first of the lightest buckets below n. */
  function Pick(a: Assignment, w: seq<nat>, n: nat): (k: nat)
    requires |a| <= |w| && n > 0
    ensures k < n && (forall b :: 0 <= b < n ==> Load(a, w, k) <= Load(a, w, b)) && forall b :: 0 <= b < k ==> Load(a, w, k) < Load(a, w, b)
  {
    if n == 1 then 0
    else
      var k := Pick(a, w, n - 1);
      if Load(a, w, n - 1) < Load(a, w, k) then n - 1 else k
  }

  /** The placement of the first n weights. */
  function Placement(w: seq<nat>, n: nat, m: nat): (g: Assignment)
    requires n <= |w| && m > 0
    ensures |g| == n
  {
    if n == 0 then [] else Placement(w, n - 1, m) + [Pick(Placement(w, n - 1, m), w, m)]
  }

  lemma {:induction false} PlacementGreedy(w: seq<nat>, n: nat, m: nat)
    requires n <= |w| && m > 0
    ensures Greedy(Placement(w, n, m), w, m)
  {
    if n > 0 {
      PlacementGreedy(w, n - 1, m);
      assert Placement(w, n, m)[..n - 1] == Placement(w, n - 1, m);
    }
  }

  lemma {:induction false} GreedyWithin(g: Assignment, w: seq<nat>, m: nat)
    requires |g| <= |w| && Greedy(g, w, m)
    ensures Within(g, m)
  {
    if g != [] { GreedyWithin(g[..|g| - 1], w, m); }
  }

  // ---------- sums over buckets ----------

  function LoadSum(a: Assignment, w: seq<nat>, m: nat): nat
    requires |a| <= |w|
  {
    if m == 0 then 0 else LoadSum(a, w, m - 1) + Load(a, w, m - 1)
  }

  lemma {:induction false} LoadSumStep(a: Assignment, w: seq<nat>, m: nat)
    requires a != [] && |a| <= |w|
    ensures LoadSum(a, w, m) == LoadSum(a[..|a| - 1], w, m) + if a[|a| - 1] < m then w[|a| - 1] else 0
  {
    if m > 0 { LoadSumStep(a, w, m - 1); }
  }

  /** The buckets together hold what was placed. */
  lemma {:induction false} LoadSumTotal(a: Assignment, w: seq<nat>, m: nat)
    requires |a| <= |w| && Within(a, m)
    ensures LoadSum(a, w, m) == Sum(w, |a|)
  {
    if a != [] {
      LoadSumTotal(a[..|a| - 1], w, m);
      LoadSumStep(a, w, m);
    } else {
      EmptySum(w, m);
    }
  }

  lemma {:induction false} EmptySum(w: seq<nat>, m: nat)
    ensures LoadSum([], w, m) == 0
  {
    if m > 0 { EmptySum(w, m - 1); }
  }

  lemma {:induction false} LoadSumAtLeast(a: Assignment, w: seq<nat>, m: nat, x: nat)
    requires |a| <= |w| && forall b :: 0 <= b < m ==> Load(a, w, b) >= x
    ensures LoadSum(a, w, m) >= m * x
  {
    if m > 0 {
      LoadSumAtLeast(a, w, m - 1, x);
      Distribute(m - 1, x);
    }
  }

  lemma {:induction false} LoadSumAtMost(a: Assignment, w: seq<nat>, m: nat, x: nat)
    requires |a| <= |w| && forall b :: 0 <= b < m ==> Load(a, w, b) <= x
    ensures LoadSum(a, w, m) <= m * x
  {
    if m > 0 {
      LoadSumAtMost(a, w, m - 1, x);
      Distribute(m - 1, x);
    }
  }

  lemma {:induction false} OnesLoad(a: Assignment, v: seq<nat>, w: seq<nat>, b: nat)
    requires |a| <= |v| && |a| <= |w| && forall i :: 0 <= i < |a| ==> v[i] == w[i]
    ensures Load(a, v, b) == Load(a, w, b)
  {
    if a != [] { OnesLoad(a[..|a| - 1], v, w, b); }
  }

  lemma CountStep(a: Assignment, b: nat)
    requires a != []
    ensures Count(a, b) == Count(a[..|a| - 1], b) + if a[|a| - 1] == b then 1 else 0
  {
    OnesLoad(a[..|a| - 1], Ones(|a|), Ones(|a| - 1), b);
  }

  lemma {:induction false} SumOnes(w: seq<nat>, n: nat)
    requires n <= |w| && forall i :: 0 <= i < n ==> w[i] == 1
    ensures Sum(w, n) == n
  {
    if n > 0 { SumOnes(w, n - 1); }
  }

  function CountSum(a: Assignment, m: nat): nat { LoadSum(a, Ones(|a|), m) }

  lemma CountSumTotal(a: Assignment, m: nat)
    requires Within(a, m)
    ensures CountSum(a, m) == |a|
  {
    LoadSumTotal(a, Ones(|a|), m);
    SumOnes(Ones(|a|), |a|);
  }

  // ---------- what a bucket's count says about its load ----------

  /** A bucket with weight i and all weights at least x. */
  lemma {:induction false} LoadHolds(a: Assignment, w: seq<nat>, b: nat, i: nat, x: nat)
    requires |a| <= |w| && i < |a| && a[i] == b && forall k :: 0 <= k < |a| ==> w[k] >= x
    ensures Count(a, b) >= 1 && Load(a, w, b) >= w[i] + (Count(a, b) - 1) * x
  {
    CountStep(a, b);
    var front := a[..|a| - 1];
    if i == |a| - 1 {
      LoadByCount(front, w, b, x);
    } else {
      LoadHolds(front, w, b, i, x);
      Distribute(Count(front, b) - 1, x);
    }
  }

  lemma Distribute(n: int, x: int)
    ensures (n + 1) * x == n * x + x
  {
  }

  lemma {:induction false} LoadByCount(a: Assignment, w: seq<nat>, b: nat, x: nat)
    requires |a| <= |w| && forall k :: 0 <= k < |a| ==> w[k] >= x
    ensures Load(a, w, b) >= Count(a, b) * x
  {
    if a != [] {
      CountStep(a, b);
      LoadByCount(a[..|a| - 1], w, b, x);
      Distribute(Count(a[..|a| - 1], b), x);
    }
  }

  /** A bucket that is not empty holds some weight. */
  lemma {:induction false} SomeIn(a: Assignment, b: nat) returns (i: nat)
    requires Count(a, b) > 0
    ensures i < |a| && a[i] == b
  {
    CountStep(a, b);
    if a[|a| - 1] == b {
      i := |a| - 1;
    } else {
      i := SomeIn(a[..|a| - 1], b);
    }
  }

  lemma {:induction false} NoneIn(a: Assignment, w: seq<nat>, b: nat)
    requires |a| <= |w| && Count(a, b) == 0
    ensures Load(a, w, b) == 0
  {
    if a != [] {
      CountStep(a, b);
      NoneIn(a[..|a| - 1], w, b);
    }
  }

  lemma {:induction false} OneIn(a: Assignment, w: seq<nat>, b: nat, i: nat)
    requires |a| <= |w| && Count(a, b) == 1 && i < |a| && a[i] == b
    ensures Load(a, w, b) == w[i]
  {
    CountStep(a, b);
    var front := a[..|a| - 1];
    if i == |a| - 1 {
      NoneIn(front, w, b);
    } else {
      SomeCount(front, b, i);
      OneIn(front, w, b, i);
    }
  }

  lemma SomeCount(a: Assignment, b: nat, i: nat)
    requires i < |a| && a[i] == b
    ensures Count(a, b) >= 1
  {
    LoadHolds(a, Ones(|a|), b, i, 0);
  }

  lemma {:induction false} TwoIn(a: Assignment, b: nat, i: nat, j: nat)
    requires i < j < |a| && a[i] == a[j] == b
    ensures Count(a, b) >= 2
  {
    CountStep(a, b);
    if j == |a| - 1 {
      SomeCount(a[..|a| - 1], b, i);
    } else {
      TwoIn(a[..|a| - 1], b, i, j);
    }
  }

  // ---------- buckets with a single weight ----------

  function Singles(a: Assignment, m: nat): set<nat> { set b: nat | b < m && Count(a, b) == 1 }

  lemma {:induction false} SinglesStep(a: Assignment, m: nat)
    requires m > 0
    ensures |Singles(a, m)| == |Singles(a, m - 1)| + if Count(a, m - 1) == 1 then 1 else 0
  {
    assert Singles(a, m) == Singles(a, m - 1) + if Count(a, m - 1) == 1 then {m - 1} else {};
  }

  /** Without empty buckets, every bucket short of two is a single. */
  lemma {:induction false} ManySingles(a: Assignment, m: nat)
    requires forall b :: 0 <= b < m ==> Count(a, b) >= 1
    ensures |Singles(a, m)| >= 2 * m - CountSum(a, m)
  {
    if m > 0 {
      ManySingles(a, m - 1);
      SinglesStep(a, m);
    }
  }

  lemma {:induction false} FewSingles(a: Assignment, m: nat)
    requires forall b :: 0 <= b < m ==> Count(a, b) <= 2
    ensures |Singles(a, m)| <= 2 * m - CountSum(a, m)
  {
    if m > 0 {
      FewSingles(a, m - 1);
      SinglesStep(a, m);
    } else {
      assert Singles(a, 0) == {};
    }
  }

  lemma {:induction false} InjectionBound(f: map<nat, nat>, s: set<nat>, t: set<nat>)
    requires f.Keys == s && (forall b :: b in s ==> f[b] in t)
    requires forall b, c :: b in s && c in s && b != c ==> f[b] != f[c]
    ensures |s| <= |t|
    decreases |s|
  {
    if s != {} {
      var b :| b in s;
      InjectionBound(map c | c in f && c != b :: f[c], s - {b}, t - {f[b]});
    }
  }

  // ---------- the two bounds ----------

  /** Every bucket of `opt` stays within T, also while only the first n weights are there. */
  lemma {:induction false} PrefixWithin(opt: Assignment, w: seq<nat>, n: nat, b: nat, T: nat)
    requires |opt| <= |w| && n <= |opt| && Load(opt, w, b) <= T
    ensures Load(opt[..n], w, b) <= T
    decreases |opt|
  {
    if n < |opt| {
      assert opt[..|opt| - 1][..n] == opt[..n];
      PrefixWithin(opt[..|opt| - 1], w, n, b, T);
    } else {
      assert opt[..n] == opt;
    }
  }

  ghost predicate Fits(a: Assignment, w: seq<nat>, m: nat, T: nat)
    requires |a| <= |w|
  {
    Within(a, m) && forall b :: 0 <= b < m ==> Load(a, w, b) <= T
  }

  /** If the next weight is more than a third of T, and all weights so far are at least as heavy, then greedy can
      still place it within T whenever any placement of these weights within T exists. */
  lemma HeavyFits(g: Assignment, opt: Assignment, w: seq<nat>, m: nat, T: nat, low: nat)
    requires |opt| == |g| + 1 <= |w| && Within(g, m) && Fits(opt, w, m, T)
    requires forall i :: 0 <= i < |opt| ==> w[i] >= w[|g|]
    requires 3 * w[|g|] > T && forall b :: 0 <= b < m ==> Load(g, w, b) >= low
    ensures low + w[|g|] <= T
  {
    if low + w[|g|] > T {
      ManyInGreedy(g, opt, w, m, T, low);
      FewInOpt(opt, w, m, T, w[|g|]);
      SinglesInject(g, opt, w, m, T, low);
    }
  }

  /** No greedy bucket is empty, so those short of two weights are singles. */
  lemma ManyInGreedy(g: Assignment, opt: Assignment, w: seq<nat>, m: nat, T: nat, low: nat)
    requires |opt| == |g| + 1 <= |w| && Within(g, m) && Fits(opt, w, m, T)
    requires low + w[|g|] > T && forall b :: 0 <= b < m ==> Load(g, w, b) >= low
    ensures |Singles(g, m)| >= 2 * m - |g|
  {
    LoadHolds(opt, w, opt[|g|], |g|, 0);
    forall b | 0 <= b < m ensures Count(g, b) >= 1 {
      if Count(g, b) == 0 { NoneIn(g, w, b); }
    }
    ManySingles(g, m);
    CountSumTotal(g, m);
  }

  lemma FewInOpt(opt: Assignment, w: seq<nat>, m: nat, T: nat, x: nat)
    requires |opt| <= |w| && Fits(opt, w, m, T) && 3 * x > T && forall i :: 0 <= i < |opt| ==> w[i] >= x
    ensures |Singles(opt, m)| <= 2 * m - |opt|
  {
    forall b | 0 <= b < m ensures Count(opt, b) <= 2 { AtMostTwo(opt, w, m, T, b, x); }
    FewSingles(opt, m);
    CountSumTotal(opt, m);
  }

  lemma AtMostTwo(a: Assignment, w: seq<nat>, m: nat, T: nat, b: nat, x: nat)
    requires |a| <= |w| && Fits(a, w, m, T) && b < m && 3 * x > T && forall k :: 0 <= k < |a| ==> w[k] >= x
    ensures Count(a, b) <= 2
  {
    LoadByCount(a, w, b, x);
    if Count(a, b) >= 3 { MulAtLeast(Count(a, b), 3, x); }
  }

  lemma MulAtLeast(n: nat, k: nat, x: nat)
    requires n >= k
    ensures n * x >= k * x
  {
    assert (n - k) * x >= 0;
    assert n * x == (n - k) * x + k * x;
  }

  /** The weight of a single greedy bucket is too heavy to share a bucket with any other weight in `opt`. */
  lemma AloneInOpt(g: Assignment, opt: Assignment, w: seq<nat>, m: nat, T: nat, low: nat, b: nat, i: nat)
    requires |opt| == |g| + 1 <= |w| && Fits(opt, w, m, T)
    requires forall k :: 0 <= k < |opt| ==> w[k] >= w[|g|]
    requires Load(g, w, b) >= low && low + w[|g|] > T && Count(g, b) == 1 && i < |g| && g[i] == b
    ensures Count(opt, opt[i]) == 1
  {
    OneIn(g, w, b, i);
    LoadHolds(opt, w, opt[i], i, w[|g|]);
    if Count(opt, opt[i]) >= 2 { MulAtLeast(Count(opt, opt[i]) - 1, 1, w[|g|]); }
  }

  function JobIn(g: Assignment, b: nat): (i: nat)
    requires exists k :: 0 <= k < |g| && g[k] == b
    ensures i < |g| && g[i] == b
  {
    if g[|g| - 1] == b then |g| - 1 else JobIn(g[..|g| - 1], b)
  }

  lemma SinglesInject(g: Assignment, opt: Assignment, w: seq<nat>, m: nat, T: nat, low: nat)
    requires |opt| == |g| + 1 <= |w| && Within(g, m) && Fits(opt, w, m, T)
    requires forall i :: 0 <= i < |opt| ==> w[i] >= w[|g|]
    requires low + w[|g|] > T && forall b :: 0 <= b < m ==> Load(g, w, b) >= low
    ensures |Singles(g, m)| <= |Singles(opt, m)|
  {
    forall b | b in Singles(g, m) ensures exists k :: 0 <= k < |g| && g[k] == b { var k := SomeIn(g, b); }
    var f := map b | b in Singles(g, m) :: opt[JobIn(g, b)];
    forall b | b in Singles(g, m) ensures f[b] in Singles(opt, m) { AloneInOpt(g, opt, w, m, T, low, b, JobIn(g, b)); }
    forall b, c | b in Singles(g, m) && c in Singles(g, m) && b != c ensures f[b] != f[c] {
      var i, j := JobIn(g, b), JobIn(g, c);
      if f[b] == f[c] { TwoIn(opt, f[b], if i < j then i else j, if i < j then j else i); }
      assert f[b] in Singles(opt, m);
    }
    InjectionBound(f, Singles(g, m), Singles(opt, m));
  }

  /** The lightest bucket is at most the average. */
  lemma LowBelowAverage(g: Assignment, w: seq<nat>, m: nat, low: nat)
    requires |g| <= |w| && Within(g, m) && forall b :: 0 <= b < m ==> Load(g, w, b) >= low
    ensures m * low <= Sum(w, |g|)
  {
    LoadSumTotal(g, w, m);
    LoadSumAtLeast(g, w, m, low);
  }

  lemma LightFits(m: nat, low: nat, x: nat, T: nat, sum: nat)
    requires m > 0 && m * low <= sum && sum + x <= m * T && 3 * x <= T
    ensures 3 * m * (low + x) <= (4 * m - 1) * T
  {
    Triple(m, low, x);
    Distribute(m - 1, x);
    MulLe(3 * x, T, m - 1);
    Thirds(m - 1, x);
    FourMinusOne(m, T);
  }

  lemma Triple(m: int, a: int, b: int)
    ensures 3 * m * (a + b) == 3 * (m * a) + 3 * (m * b)
  {
  }

  lemma Thirds(n: int, x: int)
    ensures n * (3 * x) == 3 * (n * x)
  {
  }

  lemma FourMinusOne(m: int, T: int)
    ensures (4 * m - 1) * T == 3 * (m * T) + (m - 1) * T
  {
  }

  lemma HeavyBound(m: nat, load: nat, T: nat)
    requires m > 0 && load <= T
    ensures 3 * m * load <= (4 * m - 1) * T
  {
    MulLe(load, T, 3 * m);
    assert (4 * m - 1) * T == 3 * m * T + (m - 1) * T;
    assert (m - 1) * T >= 0;
  }

  /** One greedy step keeps within 4/3 - 1/(3m) of any placement. */
  lemma StepWithin(g: Assignment, opt: Assignment, w: seq<nat>, m: nat, T: nat, low: nat)
    requires m > 0 && |opt| == |g| + 1 <= |w| && Within(g, m) && Fits(opt, w, m, T)
    requires forall i :: 0 <= i < |opt| ==> w[i] >= w[|g|]
    requires forall b :: 0 <= b < m ==> Load(g, w, b) >= low
    ensures 3 * m * (low + w[|g|]) <= (4 * m - 1) * T
  {
    if 3 * w[|g|] > T {
      HeavyFits(g, opt, w, m, T, low);
      HeavyBound(m, low + w[|g|], T);
    } else {
      LowBelowAverage(g, w, m, low);
      LoadSumTotal(opt, w, m);
      LoadSumAtMost(opt, w, m, T);
      LightFits(m, low, w[|g|], T, Sum(w, |g|));
    }
  }

  /** Heaviest first, least loaded bucket: no bucket exceeds 4/3 - 1/(3m) times the largest bucket of any placement
      of the same weights into m buckets. */
  lemma {:induction false} FourThirds(g: Assignment, opt: Assignment, w: seq<nat>, m: nat, T: nat, b: nat)
    requires m > 0 && |g| == |opt| <= |w| && Greedy(g, w, m) && Fits(opt, w, m, T) && Decreasing(w) && b < m
    ensures 3 * m * Load(g, w, b) <= (4 * m - 1) * T
  {
    if g == [] {
      HeavyBound(m, 0, T);
    } else {
      var front, last := g[..|g| - 1], g[|g| - 1];
      GreedyWithin(front, w, m);
      FitsPrefix(opt, w, m, T);
      FourThirds(front, opt[..|opt| - 1], w, m, T, b);
      if last == b {
        StepWithin(front, opt, w, m, T, Load(front, w, last));
      }
    }
  }

  lemma FitsPrefix(opt: Assignment, w: seq<nat>, m: nat, T: nat)
    requires opt != [] && |opt| <= |w| && Fits(opt, w, m, T)
    ensures Fits(opt[..|opt| - 1], w, m, T)
  {
    var front := opt[..|opt| - 1];
    forall b | 0 <= b < m ensures Load(front, w, b) <= T { PrefixWithin(opt, w, |opt| - 1, b, T); }
  }

  lemma OneOver(m: nat, low: nat, x: nat, top: nat)
    requires m > 0 && x <= top
    ensures m * (low + x) <= m * low + x + (m - 1) * top
  {
    assert m * (low + x) == m * low + x + (m - 1) * x;
    MulLe(x, top, m - 1);
  }

  /** For any order of the weights: a greedy bucket exceeds the average by less than one weight. */
  lemma {:induction false} AverageBound(g: Assignment, w: seq<nat>, m: nat, b: nat, top: nat)
    requires m > 0 && |g| <= |w| && Greedy(g, w, m) && b < m && forall i :: 0 <= i < |w| ==> w[i] <= top
    ensures m * Load(g, w, b) <= Sum(w, |g|) + (m - 1) * top
  {
    if g == [] {
      OneOver(m, 0, 0, top);
    } else {
      var front, last := g[..|g| - 1], g[|g| - 1];
      GreedyWithin(front, w, m);
      AverageBound(front, w, m, b, top);
      if last == b {
        var low, x := Load(front, w, last), w[|g| - 1];
        LowBelowAverage(front, w, m, low);
        OneOver(m, low, x, top);
      }
    }
  }
}
