/** The min-heap of stream heads: (key, stream index) order, sift-up and sift-down over the slice. */
module Heap {
  import opened Records

  datatype Item = Item(record: Record, index: nat)

  /** recordHeap.Less. */
  predicate Less(a: Item, b: Item) {
    if a.record.key == b.record.key then a.index < b.index else KeyLt(a.record.key, b.record.key)
  }

  predicate Le(a: Item, b: Item) { !Less(b, a) }

  lemma LeTotal(a: Item, b: Item)
    ensures Le(a, b) || Le(b, a)
    ensures Le(a, a)
  {
    KeyTotal(a.record.key, b.record.key);
  }

  lemma LeTrans(a: Item, b: Item, c: Item)
    requires Le(a, b) && Le(b, c)
    ensures Le(a, c)
  {
    KeyTotal(a.record.key, b.record.key);
    KeyTotal(b.record.key, c.record.key);
    KeyTotal(a.record.key, c.record.key);
    KeyTrans(a.record.key, b.record.key, c.record.key);
  }

  function Parent(i: nat): nat
    requires i > 0
  {
    (i - 1) / 2
  }

  /** Element `i` is not below its parent. */
  predicate Above(s: seq<Item>, i: nat)
    requires 0 < i < |s|
  {
    Le(s[Parent(i)], s[i])
  }

  ghost predicate HeapOrdered(s: seq<Item>) {
    forall i :: 0 < i < |s| ==> Above(s, i)
  }

  function Swapped(s: seq<Item>, i: nat, j: nat): (r: seq<Item>)
    requires i < |s| && j < |s|
    ensures |r| == |s|
  {
    s[i := s[j]][j := s[i]]
  }

  lemma SwapPermutes(s: seq<Item>, i: nat, j: nat)
    requires i < |s| && j < |s|
    ensures multiset(Swapped(s, i, j)) == multiset(s)
  {
  }

  lemma {:induction false} RootIsLeast(s: seq<Item>, i: nat)
    requires HeapOrdered(s) && i < |s|
    ensures Le(s[0], s[i])
  {
    if i == 0 {
      LeTotal(s[0], s[0]);
    } else {
      RootIsLeast(s, Parent(i));
      assert Above(s, i);
      LeTrans(s[0], s[Parent(i)], s[i]);
    }
  }

  // ---------- sift up ----------

  /** In order except that element `j` may be below its parent; its children are above that parent. */
  ghost predicate OrderedExceptUp(s: seq<Item>, j: nat) {
    && j < |s|
    && (forall i :: 0 < i < |s| && i != j ==> Above(s, i))
    && (forall i :: 0 < i < |s| && j > 0 && Parent(i) == j ==> Le(s[Parent(j)], s[i]))
  }

  lemma UpStep(s: seq<Item>, j: nat)
    requires OrderedExceptUp(s, j) && j > 0 && Less(s[j], s[Parent(j)])
    ensures OrderedExceptUp(Swapped(s, j, Parent(j)), Parent(j))
  {
    var p := Parent(j);
    var r := Swapped(s, j, p);
    LeTotal(s[j], s[p]);
    forall i | 0 < i < |r| && i != p ensures Above(r, i) {
      if i != j {
        assert Above(s, i);
        if Parent(i) == p { LeTrans(s[j], s[p], s[i]); }
      }
    }
    forall i | 0 < i < |r| && p > 0 && Parent(i) == p ensures Le(r[Parent(p)], r[i]) {
      assert Above(s, p);
      if i != j {
        assert Above(s, i);
        LeTrans(s[Parent(p)], s[p], s[i]);
      }
    }
  }

  lemma UpDone(s: seq<Item>, j: nat)
    requires OrderedExceptUp(s, j) && (j > 0 ==> Le(s[Parent(j)], s[j]))
    ensures HeapOrdered(s)
  {
    forall i | 0 < i < |s| ensures Above(s, i) { assert i != j ==> Above(s, i); }
  }

  lemma PushSetup(s: seq<Item>, x: Item)
    requires HeapOrdered(s)
    ensures OrderedExceptUp(s + [x], |s|)
  {
    var r := s + [x];
    forall i | 0 < i < |r| && i != |s| ensures Above(r, i) { assert Above(s, i); }
  }

  // ---------- sift down ----------

  /** In order except that element `j` may be above its children; they are not below its parent. */
  ghost predicate OrderedExceptDown(s: seq<Item>, j: nat) {
    && (forall i :: 0 < i < |s| && Parent(i) != j ==> Above(s, i))
    && (forall i :: 0 < i < |s| && j > 0 && j < |s| && Parent(i) == j ==> Le(s[Parent(j)], s[i]))
  }

  /** The smaller child of `j`. */
  function Child(s: seq<Item>, j: nat): (c: nat)
    requires 2 * j + 1 < |s|
    ensures c < |s| && c > 0 && Parent(c) == j
  {
    if 2 * j + 2 < |s| && Less(s[2 * j + 2], s[2 * j + 1]) then 2 * j + 2 else 2 * j + 1
  }

  lemma ChildLeast(s: seq<Item>, j: nat, i: nat)
    requires 2 * j + 1 < |s| && 0 < i < |s| && Parent(i) == j
    ensures Le(s[Child(s, j)], s[i])
  {
    assert i == 2 * j + 1 || i == 2 * j + 2;
    LeTotal(s[Child(s, j)], s[i]);
  }

  lemma DownStep(s: seq<Item>, j: nat)
    requires OrderedExceptDown(s, j) && 2 * j + 1 < |s| && Less(s[Child(s, j)], s[j])
    ensures OrderedExceptDown(Swapped(s, j, Child(s, j)), Child(s, j))
  {
    var c := Child(s, j);
    var r := Swapped(s, j, c);
    LeTotal(s[c], s[j]);
    forall i | 0 < i < |r| && Parent(i) != c ensures Above(r, i) {
      if Parent(i) == j { ChildLeast(s, j, i); } else { assert Above(s, i); }
    }
    forall i | 0 < i < |r| && c > 0 && Parent(i) == c ensures Le(r[Parent(c)], r[i]) {
      assert Above(s, i);
    }
  }

  lemma DownDone(s: seq<Item>, j: nat)
    requires OrderedExceptDown(s, j)
    requires 2 * j + 1 >= |s| || Le(s[j], s[Child(s, j)])
    ensures HeapOrdered(s)
  {
    forall i | 0 < i < |s| ensures Above(s, i) {
      if Parent(i) == j {
        ChildLeast(s, j, i);
        LeTrans(s[j], s[Child(s, j)], s[i]);
      }
    }
  }

  lemma PopSetup(s: seq<Item>)
    requires HeapOrdered(s) && |s| > 0
    ensures OrderedExceptDown(Swapped(s, 0, |s| - 1)[..|s| - 1], 0)
  {
    var r := Swapped(s, 0, |s| - 1)[..|s| - 1];
    forall i | 0 < i < |r| && Parent(i) != 0 ensures Above(r, i) { assert Above(s, i); }
  }

  class RecordHeap {
    var items: seq<Item>

    constructor ()
      ensures items == []
    {
      items := [];
    }

    /** heap.Push. */
    method Push(x: Item)
      requires HeapOrdered(items)
      modifies this
      ensures HeapOrdered(items) && multiset(items) == old(multiset(items)) + multiset{x}
    {
      PushSetup(items, x);
      items := items + [x];
      var j: nat := |items| - 1;
      while j > 0 && Less(items[j], items[Parent(j)])
        invariant OrderedExceptUp(items, j) && multiset(items) == old(multiset(items)) + multiset{x}
        decreases j
      {
        UpStep(items, j);
        SwapPermutes(items, j, Parent(j));
        items := Swapped(items, j, Parent(j));
        j := Parent(j);
      }
      UpDone(items, j);
    }

    /** heap.Pop: removes and returns the least item. */
    method Pop() returns (least: Item)
      requires HeapOrdered(items) && items != []
      modifies this
      ensures HeapOrdered(items) && old(multiset(items)) == multiset(items) + multiset{least}
      ensures forall x :: x in old(items) ==> Le(least, x)
    {
      var n := |items| - 1;
      forall x | x in items ensures Le(items[0], x) {
        var i :| 0 <= i < |items| && items[i] == x;
        RootIsLeast(items, i);
      }
      PopSetup(items);
      SwapPermutes(items, 0, n);
      var s := Swapped(items, 0, n);
      least := items[0];
      assert s == s[..n] + [least];
      items := s[..n];
      var j := 0;
      while 2 * j + 1 < n && Less(items[Child(items, j)], items[j])
        invariant |items| == n && OrderedExceptDown(items, j)
        invariant old(multiset(items)) == multiset(items) + multiset{least}
        decreases n - j
      {
        var c := Child(items, j);
        DownStep(items, j);
        SwapPermutes(items, j, c);
        items := Swapped(items, j, c);
        j := c;
      }
      DownDone(items, j);
    }
  }
}
