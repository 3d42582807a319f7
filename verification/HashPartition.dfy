/** Hash partitioning of sorted map output. */
module HashPartition {
  import opened Records

  const WORD: int := 0x1_0000_0000
  const FNV_OFFSET: int := 2166136261
  const FNV_PRIME: int := 16777619

  function XorByte(x: Byte, y: Byte): Byte {
    ((x as bv8) ^ (y as bv8)) as int
  }

  /** One FNV-32a round on a 32-bit word: exclusive-or with a byte touches the low byte only; the product wraps. */
  function Round(h: int, b: Byte): (r: int)
    requires 0 <= h < WORD
    ensures 0 <= r < WORD
  {
    (h - h % 256 + XorByte(h % 256, b)) * FNV_PRIME % WORD
  }

  /** FNV-32a of the first n bytes. */
  function Fnv(key: Key, n: nat): (h: int)
    requires n <= |key|
    ensures 0 <= h < WORD
  {
    if n == 0 then FNV_OFFSET else Round(Fnv(key, n - 1), key[n - 1])
  }

  /** The partition of a key: the low 31 bits of its hash, modulo the number of reducers. */
  function Partition(key: Key, R: nat): (p: nat)
    requires R > 0
    ensures p < R
  {
    Fnv(key, |key|) % 0x8000_0000 % R
  }

  /** hashPartition. */
  method HashKey(key: Key, R: nat) returns (p: nat)
    requires R > 0
    ensures p == Partition(key, R)
  {
    var h := FNV_OFFSET;
    for i := 0 to |key|
      invariant h == Fnv(key, i)
    {
      h := Round(h, key[i]);
    }
    p := h % 0x8000_0000 % R;
  }

  lemma RoundIs(h: int, b: Byte, low: Byte, x: Byte, r: int)
    requires 0 <= h < WORD && h % 256 == low && XorByte(low, b) == x && (h - low + x) * FNV_PRIME % WORD == r
    ensures Round(h, b) == r
  {
  }

  /** Published values of the 32-bit FNV-1a hash, for "", "a", "b" and "fo". */
  lemma KnownHashes(key: Key)
    ensures key == [] ==> Fnv(key, 0) == 0x811c_9dc5
    ensures key == [97] ==> Fnv(key, 1) == 0xe40c_292c
    ensures key == [98] ==> Fnv(key, 1) == 0xe70c_2de5
    ensures key == [102, 111] ==> Fnv(key, 2) == 0x6222_e842
  {
    assert Fnv(key, 0) == FNV_OFFSET;
    if key == [97] {
      assert (0xc5 as bv8) ^ (97 as bv8) == 0xa4;
      RoundIs(FNV_OFFSET, 97, 0xc5, 0xa4, 0xe40c_292c);
    } else if key == [98] {
      assert (0xc5 as bv8) ^ (98 as bv8) == 0xa7;
      RoundIs(FNV_OFFSET, 98, 0xc5, 0xa7, 0xe70c_2de5);
    } else if key == [102, 111] {
      assert (0xc5 as bv8) ^ (102 as bv8) == 0xa3;
      RoundIs(FNV_OFFSET, 102, 0xc5, 0xa3, 0xe30c_2799);
      assert Fnv(key, 1) == 0xe30c_2799;
      assert (0x99 as bv8) ^ (111 as bv8) == 0xf6;
      RoundIs(0xe30c_2799, 111, 0x99, 0xf6, 0x6222_e842);
    }
  }

  /** The sign bit of the hash is cleared before the remainder is taken. */
  lemma PartitionOfB(key: Key)
    requires key == [98]
    ensures Partition(key, 2) == 1 && Partition(key, 3) == 2
  {
    KnownHashes(key);
    assert Fnv(key, |key|) == 0xe70c_2de5;
  }

  // ---------- the order in which partitions are closed ----------

  predicate Ascending(xs: seq<int>) {
    forall i, j :: 0 <= i < j < |xs| ==> xs[i] <= xs[j]
  }

  /** Places v after every element that is not larger. */
  function InsertInt(v: int, xs: seq<int>): seq<int> {
    if xs == [] || xs[|xs| - 1] <= v then xs + [v] else InsertInt(v, xs[..|xs| - 1]) + [xs[|xs| - 1]]
  }

  function SortInts(xs: seq<int>): seq<int> {
    if xs == [] then [] else InsertInt(xs[|xs| - 1], SortInts(xs[..|xs| - 1]))
  }

  lemma {:induction false} InsertIntBound(v: int, xs: seq<int>, top: int)
    requires v <= top && forall i :: 0 <= i < |xs| ==> xs[i] <= top
    ensures forall i :: 0 <= i < |InsertInt(v, xs)| ==> InsertInt(v, xs)[i] <= top
  {
    if xs != [] && xs[|xs| - 1] > v { InsertIntBound(v, xs[..|xs| - 1], top); }
  }

  lemma {:induction false} InsertIntAscends(v: int, xs: seq<int>)
    requires Ascending(xs)
    ensures Ascending(InsertInt(v, xs))
  {
    if xs != [] && xs[|xs| - 1] > v {
      InsertIntAscends(v, xs[..|xs| - 1]);
      InsertIntBound(v, xs[..|xs| - 1], xs[|xs| - 1]);
    }
  }

  lemma {:induction false} InsertIntPermutes(v: int, xs: seq<int>)
    ensures multiset(InsertInt(v, xs)) == multiset(xs) + multiset{v}
  {
    if xs != [] && xs[|xs| - 1] > v {
      InsertIntPermutes(v, xs[..|xs| - 1]);
      assert xs == xs[..|xs| - 1] + [xs[|xs| - 1]];
    }
  }

  lemma {:induction false} SortIntsAscends(xs: seq<int>)
    ensures Ascending(SortInts(xs))
  {
    if xs != [] {
      SortIntsAscends(xs[..|xs| - 1]);
      InsertIntAscends(xs[|xs| - 1], SortInts(xs[..|xs| - 1]));
    }
  }

  lemma {:induction false} SortIntsPermutes(xs: seq<int>)
    ensures multiset(SortInts(xs)) == multiset(xs)
  {
    if xs != [] {
      var front, last := xs[..|xs| - 1], xs[|xs| - 1];
      calc {
        multiset(SortInts(xs));
        { InsertIntPermutes(last, SortInts(front)); }
        multiset(SortInts(front)) + multiset{last};
        { SortIntsPermutes(front); }
        multiset(front) + multiset{last};
        { assert xs == front + [last]; }
        multiset(xs);
      }
    }
  }

  /** Where the shifting loop stops is where InsertInt puts the value. */
  lemma {:induction false} InsertAt(v: int, xs: seq<int>, m: nat)
    requires m <= |xs| && (m > 0 ==> xs[m - 1] <= v) && forall i :: m <= i < |xs| ==> xs[i] > v
    ensures InsertInt(v, xs) == xs[..m] + [v] + xs[m..]
  {
    if m < |xs| {
      InsertAt(v, xs[..|xs| - 1], m);
      assert xs[..|xs| - 1][..m] == xs[..m] && xs[..|xs| - 1][m..] + [xs[|xs| - 1]] == xs[m..];
    }
  }

  lemma InsertedThere(v: int, xs: seq<int>, m: nat, r: seq<int>)
    requires m <= |xs| && (m > 0 ==> xs[m - 1] <= v) && forall i :: m <= i < |xs| ==> xs[i] > v
    requires |r| == |xs| + 1 && r[m] == v
    requires forall k :: 0 <= k < m ==> r[k] == xs[k]
    requires forall k :: m <= k < |xs| ==> r[k + 1] == xs[k]
    ensures r == InsertInt(v, xs)
  {
    InsertAt(v, xs, m);
    assert r == xs[..m] + [v] + xs[m..];
  }

  /** sortInts, inner loop: shifts the larger elements of the sorted prefix up and drops xs[i] into the gap. */
  method ShiftInto(xs: array<int>, i: nat)
    requires i < xs.Length
    modifies xs
    ensures xs[..i + 1] == InsertInt(old(xs[i]), old(xs[..i]))
    ensures xs[i + 1..] == old(xs[i + 1..])
  {
    var v := xs[i];
    var j := ShiftUp(xs, i, v);
    xs[j + 1] := v;
    ghost var s, r := old(xs[..i]), xs[..i + 1];
    assert forall k :: j + 1 <= k < i ==> r[k + 1] == s[k];
    InsertedThere(v, s, j + 1, r);
  }

  method ShiftUp(xs: array<int>, i: nat, v: int) returns (j: int)
    requires i < xs.Length
    modifies xs
    ensures -1 <= j < i && (j >= 0 ==> old(xs[j]) <= v)
    ensures forall k :: 0 <= k <= j ==> xs[k] == old(xs[k])
    ensures forall k :: j + 1 <= k < i ==> xs[k + 1] == old(xs[k]) && old(xs[k]) > v
    ensures forall k :: i < k < xs.Length ==> xs[k] == old(xs[k])
  {
    j := i - 1;
    while j >= 0 && xs[j] > v
      invariant -1 <= j < i
      invariant forall k :: 0 <= k <= j ==> xs[k] == old(xs[k])
      invariant forall k :: j + 1 <= k < i ==> xs[k + 1] == old(xs[k]) && old(xs[k]) > v
      invariant forall k :: i < k < xs.Length ==> xs[k] == old(xs[k])
      decreases j
    {
      xs[j + 1] := xs[j];
      j := j - 1;
    }
  }

  /** sortInts: insertion sort, in place. */
  method SortInPlace(xs: array<int>)
    modifies xs
    ensures xs[..] == SortInts(old(xs[..]))
  {
    ghost var was := xs[..];
    if xs.Length == 0 { return; }
    assert was[..1] == [was[0]] && was[..1][..0] == [];
    for i := 1 to xs.Length
      invariant xs[..i] == SortInts(was[..i]) && xs[i..] == was[i..]
    {
      assert xs[i] == was[i];
      assert was[..i + 1][..i] == was[..i];
      ShiftInto(xs, i);
    }
    assert xs[..xs.Length] == xs[..] && was[..xs.Length] == was;
  }
}
