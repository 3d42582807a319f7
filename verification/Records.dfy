/** Key-value records, their order, and what it means to sort them stably. */
module Records {
  type Byte = x: int | 0 <= x < 256
  type Key = seq<Byte>

  datatype Record = Record(key: Key, value: seq<Byte>)

  // ---------- the byte order on keys ----------

  predicate KeyLt(a: Key, b: Key) {
    if b == [] then false
    else if a == [] then true
    else if a[0] != b[0] then a[0] < b[0]
    else KeyLt(a[1..], b[1..])
  }

  predicate KeyLe(a: Key, b: Key) { !KeyLt(b, a) }

  /** At position k the keys first differ: one has ended, or its byte is smaller. */
  predicate DifferAt(a: Key, b: Key, k: nat) {
    k <= |a| && k < |b| && a[..k] == b[..k] && (k < |a| ==> a[k] < b[k])
  }

  /** The order is that of bytes.Compare: by the first byte that differs, a prefix before what it begins. */
  lemma {:induction false} KeyLtIs(a: Key, b: Key)
    ensures KeyLt(a, b) <==> exists k :: 0 <= k < |b| && DifferAt(a, b, k)
  {
    if KeyLt(a, b) {
      var k := FirstDifference(a, b);
    }
    if k :| 0 <= k < |b| && DifferAt(a, b, k) { DifferLess(a, b, k); }
  }

  lemma {:induction false} FirstDifference(a: Key, b: Key) returns (k: nat)
    requires KeyLt(a, b)
    ensures k < |b| && DifferAt(a, b, k)
  {
    if a == [] || a[0] != b[0] {
      k := 0;
    } else {
      k := FirstDifference(a[1..], b[1..]);
      assert a[..k + 1] == [a[0]] + a[1..][..k] && b[..k + 1] == [b[0]] + b[1..][..k];
      k := k + 1;
    }
  }

  lemma {:induction false} DifferLess(a: Key, b: Key, k: nat)
    requires DifferAt(a, b, k)
    ensures KeyLt(a, b)
  {
    if k > 0 {
      assert a[0] == a[..k][0] == b[..k][0] == b[0];
      assert a[1..][..k - 1] == a[..k][1..] && b[1..][..k - 1] == b[..k][1..];
      DifferLess(a[1..], b[1..], k - 1);
    }
  }

  lemma {:induction false} KeyTotal(a: Key, b: Key)
    ensures KeyLe(a, b) || KeyLe(b, a)
    ensures KeyLe(a, b) && KeyLe(b, a) ==> a == b
    ensures KeyLe(a, a)
  {
    if a != [] && b != [] && a[0] == b[0] {
      KeyTotal(a[1..], b[1..]);
      assert a == [a[0]] + a[1..] && b == [b[0]] + b[1..];
    }
    if a != [] { KeySelf(a); }
  }

  lemma {:induction false} KeySelf(a: Key)
    ensures KeyLe(a, a)
  {
    if a != [] { KeySelf(a[1..]); }
  }

  lemma {:induction false} KeyTrans(a: Key, b: Key, c: Key)
    requires KeyLe(a, b) && KeyLe(b, c)
    ensures KeyLe(a, c)
  {
    if a != [] && b != [] && c != [] && a[0] == b[0] == c[0] { KeyTrans(a[1..], b[1..], c[1..]); }
  }

  // ---------- sequences of records ----------

  ghost predicate Sorted(rs: seq<Record>) {
    forall i, j :: 0 <= i < j < |rs| ==> KeyLe(rs[i].key, rs[j].key)
  }

  /** The records of one key, in order. */
  function OfKey(rs: seq<Record>, k: Key): seq<Record> {
    if rs == [] then [] else (if rs[0].key == k then [rs[0]] else []) + OfKey(rs[1..], k)
  }

  /** `out` is `rs` sorted by key with the records of each key in their original order. */
  ghost predicate StableSortOf(out: seq<Record>, rs: seq<Record>) {
    Sorted(out) && forall k: Key :: OfKey(out, k) == OfKey(rs, k)
  }

  function Concat(ss: seq<seq<Record>>): seq<Record> {
    if ss == [] then [] else ss[0] + Concat(ss[1..])
  }

  ghost predicate AllSorted(ss: seq<seq<Record>>) {
    forall i :: 0 <= i < |ss| ==> Sorted(ss[i])
  }

  lemma {:induction false} OfKeyAppend(a: seq<Record>, b: seq<Record>, k: Key)
    ensures OfKey(a + b, k) == OfKey(a, k) + OfKey(b, k)
  {
    if a == [] {
      assert a + b == b;
    } else {
      var head := if a[0].key == k then [a[0]] else [];
      assert (a + b)[0] == a[0] && (a + b)[1..] == a[1..] + b;
      OfKeyAppend(a[1..], b, k);
      Reassociate(head, OfKey(a[1..], k), OfKey(b, k));
    }
  }

  lemma Reassociate(x: seq<Record>, y: seq<Record>, z: seq<Record>)
    ensures x + (y + z) == (x + y) + z
  {
  }

  lemma {:induction false} ConcatAppend(a: seq<seq<Record>>, b: seq<seq<Record>>)
    ensures Concat(a + b) == Concat(a) + Concat(b)
  {
    if a == [] {
      assert a + b == b;
    } else {
      assert (a + b)[1..] == a[1..] + b;
      ConcatAppend(a[1..], b);
    }
  }

  lemma {:induction false} OfKeyNone(rs: seq<Record>, k: Key)
    requires forall i :: 0 <= i < |rs| ==> rs[i].key != k
    ensures OfKey(rs, k) == []
  {
    if rs != [] { OfKeyNone(rs[1..], k); }
  }

  lemma {:induction false} OfKeyHas(rs: seq<Record>, i: nat)
    requires i < |rs|
    ensures OfKey(rs, rs[i].key) != []
  {
    if i > 0 { OfKeyHas(rs[1..], i - 1); }
  }

  lemma {:induction false} OfKeyCount(rs: seq<Record>, r: Record)
    ensures multiset(OfKey(rs, r.key))[r] == multiset(rs)[r]
  {
    if rs != [] {
      OfKeyCount(rs[1..], r);
      assert rs == [rs[0]] + rs[1..];
    }
  }

  /** Equal records per key means equal records. */
  lemma OfKeyPermutes(a: seq<Record>, b: seq<Record>)
    requires forall k: Key :: OfKey(a, k) == OfKey(b, k)
    ensures multiset(a) == multiset(b)
  {
    forall r: Record ensures multiset(a)[r] == multiset(b)[r] {
      OfKeyCount(a, r);
      OfKeyCount(b, r);
    }
  }

  // ---------- the reference sort ----------

  function Insert(r: Record, rs: seq<Record>): seq<Record> {
    if rs == [] || KeyLe(r.key, rs[0].key) then [r] + rs else [rs[0]] + Insert(r, rs[1..])
  }

  function StableSort(rs: seq<Record>): seq<Record> {
    if rs == [] then [] else Insert(rs[0], StableSort(rs[1..]))
  }

  lemma {:induction false} InsertSorts(r: Record, rs: seq<Record>)
    requires Sorted(rs)
    ensures Sorted(Insert(r, rs))
    ensures forall x :: x in Insert(r, rs) <==> x == r || x in rs
  {
    if rs == [] || KeyLe(r.key, rs[0].key) {
      forall j | 0 <= j < |rs| ensures KeyLe(r.key, rs[j].key) {
        if j > 0 { KeyTrans(r.key, rs[0].key, rs[j].key); }
      }
    } else {
      InsertSorts(r, rs[1..]);
      KeyTotal(r.key, rs[0].key);
      var rest := Insert(r, rs[1..]);
      forall j | 0 <= j < |rest| ensures KeyLe(rs[0].key, rest[j].key) {
        assert rest[j] in rest;
      }
    }
  }

  lemma {:induction false} InsertKeeps(r: Record, rs: seq<Record>, k: Key)
    ensures OfKey(Insert(r, rs), k) == OfKey([r], k) + OfKey(rs, k)
  {
    if rs == [] || KeyLe(r.key, rs[0].key) {
      OfKeyAppend([r], rs, k);
    } else {
      InsertKeeps(r, rs[1..], k);
      KeyTotal(r.key, rs[0].key);
      OfKeyAppend([rs[0]], Insert(r, rs[1..]), k);
      OfKeyAppend([rs[0]], rs[1..], k);
      assert rs == [rs[0]] + rs[1..];
      OtherKey(r, rs[0], OfKey(rs[1..], k), k);
    }
  }

  lemma OtherKey(r: Record, x: Record, rest: seq<Record>, k: Key)
    requires r.key != x.key
    ensures OfKey([x], k) + (OfKey([r], k) + rest) == OfKey([r], k) + (OfKey([x], k) + rest)
  {
  }

  lemma {:induction false} StableSortSorts(rs: seq<Record>)
    ensures StableSortOf(StableSort(rs), rs)
  {
    if rs != [] {
      StableSortSorts(rs[1..]);
      InsertSorts(rs[0], StableSort(rs[1..]));
      forall k: Key ensures OfKey(StableSort(rs), k) == OfKey(rs, k) {
        InsertKeeps(rs[0], StableSort(rs[1..]), k);
        OfKeyAppend([rs[0]], rs[1..], k);
        assert rs == [rs[0]] + rs[1..];
      }
    }
  }

  /** There is only one stable sort of a sequence. */
  lemma {:induction false} StableSortUnique(a: seq<Record>, b: seq<Record>)
    requires Sorted(a) && Sorted(b) && forall k: Key :: OfKey(a, k) == OfKey(b, k)
    ensures a == b
  {
    if a != [] {
      OfKeyHas(a, 0);
      SameHead(a, b);
      forall k: Key ensures OfKey(a[1..], k) == OfKey(b[1..], k) {
        var n := if a[0].key == k then 1 else 0;
        assert OfKey(a[1..], k) == OfKey(a, k)[n..] && OfKey(b[1..], k) == OfKey(b, k)[n..];
      }
      StableSortUnique(a[1..], b[1..]);
      assert a == [a[0]] + a[1..] && b == [b[0]] + b[1..];
    } else if b != [] {
      OfKeyHas(b, 0);
    }
  }

  lemma SameHead(a: seq<Record>, b: seq<Record>)
    requires a != [] && b != [] && Sorted(a) && Sorted(b) && forall k: Key :: OfKey(a, k) == OfKey(b, k)
    ensures a[0] == b[0]
  {
    HeadBelow(a, b);
    HeadBelow(b, a);
    KeyTotal(a[0].key, b[0].key);
    assert OfKey(a, a[0].key)[0] == a[0] && OfKey(b, b[0].key)[0] == b[0];
  }

  lemma HeadBelow(a: seq<Record>, b: seq<Record>)
    requires a != [] && b != [] && Sorted(a) && forall k: Key :: OfKey(a, k) == OfKey(b, k)
    ensures KeyLe(a[0].key, b[0].key)
  {
    OfKeyHas(b, 0);
    if forall i :: 0 <= i < |a| ==> a[i].key != b[0].key {
      OfKeyNone(a, b[0].key);
    } else {
      var i :| 0 <= i < |a| && a[i].key == b[0].key;
      KeyTotal(a[0].key, a[0].key);
    }
  }

  /** The records of a key lie together. */
  ghost predicate Contiguous(rs: seq<Record>) {
    forall i, j, m :: 0 <= i <= m <= j < |rs| && rs[i].key == rs[j].key ==> rs[m].key == rs[i].key
  }

  lemma SortedContiguous(rs: seq<Record>)
    requires Sorted(rs)
    ensures Contiguous(rs)
  {
    forall i, j, m | 0 <= i <= m <= j < |rs| && rs[i].key == rs[j].key
      ensures rs[m].key == rs[i].key
    {
      KeyTotal(rs[i].key, rs[m].key);
    }
  }
}
