/** The list of non-empty partitions that a map task reports, and when its positions are the partitions. */
module PartitionLists {
  import opened Records
  import opened HashPartition
  import opened ShufflePath

  ghost predicate Ordered(order: seq<int>) {
    Strict(order) && forall i :: 0 <= i < |order| ==> order[i] >= 0
  }

  /** No gap below a non-empty partition. */
  predicate Prefix(order: seq<int>) {
    forall i, q :: 0 <= i < |order| && 0 <= q < order[i] ==> q in order
  }

  lemma {:induction false} StrictAbove(order: seq<int>, i: nat)
    requires Ordered(order) && i < |order|
    ensures order[i] >= i
  {
    if i > 0 { StrictAbove(order, i - 1); }
  }

  /** The list position is the partition, for every entry, iff there is no gap. */
  lemma PositionIsPartition(order: seq<int>)
    requires Ordered(order)
    ensures (forall i :: 0 <= i < |order| ==> order[i] == i) <==> Prefix(order)
  {
    if forall i :: 0 <= i < |order| ==> order[i] == i {
      forall i, q | 0 <= i < |order| && 0 <= q < order[i] ensures q in order { assert order[q] == q; }
    }
    if Prefix(order) {
      forall i | 0 <= i < |order| ensures order[i] == i { PrefixAt(order, i); }
    }
  }

  lemma {:induction false} PrefixAt(order: seq<int>, i: nat)
    requires Ordered(order) && Prefix(order) && i < |order|
    ensures order[i] == i
  {
    StrictAbove(order, i);
    if i > 0 { PrefixAt(order, i - 1); }
    assert i < order[i] ==> i in order;
  }

  // ---------- the list a map task reports ----------

  /** The non-empty partitions below n of a map task's sorted records, ascending. */
  function Parts(run: seq<Record>, R: nat, n: nat): seq<int>
    requires R > 0
  {
    if n == 0 then [] else Parts(run, R, n - 1) + if OfPartition(run, R, n - 1) != [] then [n - 1] else []
  }

  lemma {:induction false} PartsHas(run: seq<Record>, R: nat, n: nat, p: int)
    requires R > 0
    ensures p in Parts(run, R, n) <==> 0 <= p < n && OfPartition(run, R, p) != []
  {
    if n > 0 {
      PartsHas(run, R, n - 1, p);
      InOneMore(Parts(run, R, n - 1), n - 1, p);
    }
  }

  lemma InOneMore(front: seq<int>, last: int, p: int)
    ensures p in front + [last] <==> p in front || p == last
    ensures front + [] == front
  {
  }

  lemma {:induction false} PartsOrdered(run: seq<Record>, R: nat, n: nat)
    requires R > 0
    ensures Ordered(Parts(run, R, n)) && forall i :: 0 <= i < |Parts(run, R, n)| ==> Parts(run, R, n)[i] < n
  {
    if n > 0 {
      PartsOrdered(run, R, n - 1);
      InOneMore(Parts(run, R, n - 1), n - 1, n - 1);
    }
  }

  lemma PartsAre(run: seq<Record>, R: nat)
    requires R > 0
    ensures Ordered(Parts(run, R, R))
    ensures forall p: nat :: p in Parts(run, R, R) <==> OfPartition(run, R, p) != []
  {
    PartsOrdered(run, R, R);
    forall p: nat ensures p in Parts(run, R, R) <==> OfPartition(run, R, p) != [] {
      PartsHas(run, R, R, p);
      InPartition(run, R, p);
    }
  }

  lemma {:induction false} InPartition(run: seq<Record>, R: nat, p: nat)
    requires R > 0
    ensures OfPartition(run, R, p) != [] ==> p < R && Partition(OfPartition(run, R, p)[0].key, R) == p
  {
    if run != [] { InPartition(run[..|run| - 1], R, p); }
  }

  /** The map task's loop reports exactly this list: `PartitionRecords` closes the partitions in this order. */
  lemma MapTaskReports(run: seq<Record>, R: nat, order: seq<int>, writers: map<int, seq<Record>>)
    requires R > 0 && Written(run, R, writers) && Lists(order, writers) && Strict(order)
    ensures order == Parts(run, R, R)
  {
    PartsAre(run, R);
    var parts := Parts(run, R, R);
    forall p: int ensures p in order <==> p in parts {
      OpenIff(run, R, order, writers, p);
      PartsHas(run, R, R, p);
      if p >= 0 { InPartition(run, R, p); }
    }
    SameList(order, parts);
  }

  lemma OpenIff(run: seq<Record>, R: nat, order: seq<int>, writers: map<int, seq<Record>>, p: int)
    requires R > 0 && Written(run, R, writers) && Lists(order, writers)
    ensures p in order <==> p >= 0 && OfPartition(run, R, p) != []
  {
    assert p in order ==> p in writers;
    assert p in writers ==> p in order && p >= 0;
  }

  /** A strictly increasing list is determined by its elements. */
  lemma {:induction false} SameList(a: seq<int>, b: seq<int>)
    requires Strict(a) && Strict(b) && forall p: int :: p in a <==> p in b
    ensures a == b
    decreases |a|
  {
    if a == [] {
      if b != [] { FirstIsMember(b); }
    } else {
      SameLast(a, b);
      var x, y := a[|a| - 1], b[|b| - 1];
      var a0, b0 := a[..|a| - 1], b[..|b| - 1];
      forall p: int ensures p in a0 <==> p in b0 {
        assert p in a0 <==> p in a && p != x;
        assert p in b0 <==> p in b && p != y;
      }
      SameList(a0, b0);
      assert a == a0 + [x] && b == b0 + [y];
    }
  }

  lemma FirstIsMember(b: seq<int>)
    requires b != []
    ensures b[0] in b
  {
  }

  lemma SameLast(a: seq<int>, b: seq<int>)
    requires Strict(a) && Strict(b) && (forall p: int :: p in a <==> p in b) && a != []
    ensures b != [] && a[|a| - 1] == b[|b| - 1]
  {
    assert a[0] in a;
    var x, y := a[|a| - 1], b[|b| - 1];
    assert x in a && y in b;
    var i :| 0 <= i < |b| && b[i] == x;
    var k :| 0 <= k < |a| && a[k] == y;
  }

  /** Every partition below a non-empty one is non-empty. */
  ghost predicate GapFree(run: seq<Record>, R: nat)
    requires R > 0
  {
    forall p: nat, q: nat :: q < p && OfPartition(run, R, p) != [] ==> OfPartition(run, R, q) != []
  }

  lemma GapFreeIff(run: seq<Record>, R: nat)
    requires R > 0
    ensures GapFree(run, R) <==> Prefix(Parts(run, R, R))
  {
    PartsAre(run, R);
    var parts := Parts(run, R, R);
    if Prefix(parts) {
      forall p: nat, q: nat | q < p && OfPartition(run, R, p) != [] ensures OfPartition(run, R, q) != [] {
        InPartition(run, R, p);
        assert p in parts;
        var i :| 0 <= i < |parts| && parts[i] == p;
        assert q in parts;
      }
    }
    if GapFree(run, R) {
      forall i, q | 0 <= i < |parts| && 0 <= q < parts[i] ensures q in parts {
        var p: nat := parts[i];
        assert p in parts && OfPartition(run, R, p) != [];
      }
    }
  }

  lemma OnlyPartitionOne(r: Record)
    requires r.key == [98]
    ensures OfPartition([r], 2, 1) == [r] && OfPartition([r], 2, 0) == []
  {
    PartitionOfB(r.key);
    assert [r][..0] == [];
  }

  /** The gap is real: with two reducers, the one-record map output with key "b" fills partition 1 only. */
  lemma GapExample(r: Record)
    requires r.key == [98]
    ensures OfPartition([r], 2, 1) == [r] && OfPartition([r], 2, 0) == [] && Parts([r], 2, 2) == [1] && !GapFree([r], 2)
  {
    OnlyPartitionOne(r);
    PartsAre([r], 2);
    var parts := Parts([r], 2, 2);
    forall p: int ensures p in parts <==> p in [1] { PartsHas([r], 2, 2, p); }
    SameList(parts, [1]);
  }

  /** The records a map task has for partition p. */
  function Held(run: seq<Record>, R: nat, p: int): seq<Record>
    requires R > 0
  {
    if p >= 0 then OfPartition(run, R, p) else []
  }
}
