/** The map side's external sort: an in-memory buffer with a byte budget and sorted spill files. */
module Spill {
  import opened Records
  import opened Merge

  const RECORD_OVERHEAD_BYTES: int := 32
  const DEFAULT_SPILL_THRESHOLD_BYTES: int := 64 * 1024 * 1024

  function RecordSize(r: Record): int { |r.key| + |r.value| + RECORD_OVERHEAD_BYTES }

  function Size(rs: seq<Record>): int {
    if rs == [] then 0 else Size(rs[..|rs| - 1]) + RecordSize(rs[|rs| - 1])
  }

  /** All keys and values, one after the other. */
  function Payload(rs: seq<Record>): seq<Byte> {
    if rs == [] then [] else Payload(rs[..|rs| - 1]) + rs[|rs| - 1].key + rs[|rs| - 1].value
  }

  /** The budget counts every byte of keys and values and 32 bytes per record. */
  lemma {:induction false} SizeIs(rs: seq<Record>)
    ensures Size(rs) == |Payload(rs)| + 32 * |rs|
  {
    if rs != [] { SizeIs(rs[..|rs| - 1]); }
  }

  /** sort.Slice by key: some sorted permutation; the order of equal keys is not promised. */
  method SortByKey(rs: seq<Record>) returns (s: seq<Record>)
    ensures Sorted(s) && multiset(s) == multiset(rs)
  {
    s := StableSort(rs);
    StableSortSorts(rs);
    OfKeyPermutes(s, rs);
  }

  class SpillingSorter {
    const thresholdBytes: int
    var buffer: seq<Record>
    var bufferBytes: int
    var spillFiles: seq<seq<Record>>

    /** Between calls the buffer is below its budget and every file on disk is a non-empty sorted run. */
    ghost predicate Valid()
      reads this
    {
      && 0 < thresholdBytes
      && bufferBytes == Size(buffer) < thresholdBytes
      && AllSorted(spillFiles)
      && (forall i :: 0 <= i < |spillFiles| ==> spillFiles[i] != [])
    }

    /** Every record added so far. */
    ghost function Contents(): multiset<Record>
      reads this
    {
      multiset(Concat(spillFiles)) + multiset(buffer)
    }

    constructor (threshold: int)
      ensures Valid() && Contents() == multiset{}
      ensures thresholdBytes == if threshold <= 0 then DEFAULT_SPILL_THRESHOLD_BYTES else threshold
    {
      thresholdBytes := if threshold <= 0 then DEFAULT_SPILL_THRESHOLD_BYTES else threshold;
      buffer, bufferBytes, spillFiles := [], 0, [];
    }

    /** Add. */
    method Add(rec: Record)
      requires Valid()
      modifies this
      ensures Valid() && Contents() == old(Contents()) + multiset{rec}
      ensures old(spillFiles) <= spillFiles
      ensures Size(old(buffer) + [rec]) >= thresholdBytes <==> buffer == [] && |spillFiles| == |old(spillFiles)| + 1
    {
      buffer := buffer + [rec];
      bufferBytes := bufferBytes + RecordSize(rec);
      assert buffer[..|buffer| - 1] == old(buffer);
      if bufferBytes >= thresholdBytes { SpillBuffer(); }
    }

    /** spill. */
    method SpillBuffer()
      requires 0 < thresholdBytes && AllSorted(spillFiles) && forall i :: 0 <= i < |spillFiles| ==> spillFiles[i] != []
      requires bufferBytes == Size(buffer)
      modifies this
      ensures Valid() && Contents() == old(Contents()) && buffer == []
      ensures old(spillFiles) <= spillFiles && |spillFiles| == |old(spillFiles)| + if old(buffer) == [] then 0 else 1
    {
      if buffer == [] { return; }
      var run := SortByKey(buffer);
      assert multiset(run) == multiset(buffer) && |multiset(run)| == |run|;
      ConcatAppend(spillFiles, [run]);
      assert Concat([run]) == run;
      spillFiles := spillFiles + [run];
      buffer, bufferBytes := [], 0;
    }

    /** Finalize: the fully sorted stream of every record added. */
    method Finalize() returns (out: seq<Record>)
      requires Valid()
      modifies this
      ensures Sorted(out) && multiset(out) == old(Contents())
    {
      if spillFiles == [] {
        out := SortByKey(buffer);
        buffer, bufferBytes := [], 0;
        return;
      }
      SpillBuffer();
      var merged, _ := MergeInputs(spillFiles, 0);
      out := merged;
    }
  }
}
