/** Cutting one input object into splits, and reading all of it back through them. */
module InputSplits {
  import opened Records
  import opened Lines
  import opened SplitReader

  const DEFAULT_SPLIT: nat := 0x400_0000

  datatype Split = Split(start: nat, end: nat, checksum: string)

  /** The whole object, unchecked: byteEnd is 0. */
  const WHOLE := Split(0, 0, "")

  /** checksumObjectRange: the digest of a range, or an error. */
  type RangeSum = (nat, nat) -> Sum
  datatype Sum = SumOk(hex: string) | SumError

  function EndOf(start: nat, size: nat, splitSize: nat): nat
    requires start < size && splitSize > 0
  {
    if start + splitSize - 1 >= size then size - 1 else start + splitSize - 1
  }

  /** The splits from `start` on. */
  function SplitsFrom(start: nat, size: nat, splitSize: nat, sums: RangeSum): seq<Split>
    requires splitSize > 0
    decreases size - start
  {
    if start >= size then []
    else
      var end := EndOf(start, size, splitSize);
      [Split(start, end, if sums(start, end).SumOk? then sums(start, end).hex else "")]
      + SplitsFrom(start + splitSize, size, splitSize, sums)
  }

  ghost predicate AllSummed(start: nat, size: nat, splitSize: nat, sums: RangeSum)
    requires splitSize > 0
    decreases size - start
  {
    start >= size || (sums(start, EndOf(start, size, splitSize)).SumOk? && AllSummed(start + splitSize, size, splitSize, sums))
  }

  /** buildInputSplits; a size that is not positive stands for a failed stat too. */
  method BuildInputSplits(size: int, targetSize: int, sums: RangeSum) returns (splits: seq<Split>)
    ensures var splitSize: nat := if targetSize <= 0 then DEFAULT_SPLIT else targetSize;
      splits == if size > 0 && AllSummed(0, size, splitSize, sums) then SplitsFrom(0, size, splitSize, sums) else [WHOLE]
  {
    if size <= 0 { return [WHOLE]; }
    var splitSize: nat := DEFAULT_SPLIT;
    if targetSize > 0 { splitSize := targetSize; }
    var ok, cut := Cut(size, splitSize, sums);
    splits := if ok then cut else [WHOLE];
  }

  method Cut(size: nat, splitSize: nat, sums: RangeSum) returns (ok: bool, splits: seq<Split>)
    requires splitSize > 0
    ensures ok == AllSummed(0, size, splitSize, sums)
    ensures ok ==> splits == SplitsFrom(0, size, splitSize, sums)
  {
    splits := [];
    var start := 0;
    while start < size
      invariant splits + SplitsFrom(start, size, splitSize, sums) == SplitsFrom(0, size, splitSize, sums)
      invariant AllSummed(start, size, splitSize, sums) == AllSummed(0, size, splitSize, sums)
      decreases size - start
    {
      var end := start + splitSize - 1;
      if end >= size { end := size - 1; }
      var sum := sums(start, end);
      if sum.SumError? { return false, []; }
      ghost var rest := SplitsFrom(start + splitSize, size, splitSize, sums);
      assert SplitsFrom(start, size, splitSize, sums) == [Split(start, end, sum.hex)] + rest;
      splits := splits + [Split(start, end, sum.hex)];
      start := start + splitSize;
    }
    ok := true;
  }

  // ---------- no gap, no overlap ----------

  /** The splits tile the object: they start where the previous one ended and end at the last byte. */
  ghost predicate Tiles(splits: seq<Split>, start: nat, size: nat) {
    if splits == [] then start >= size
    else splits[0].start == start <= splits[0].end < size && Tiles(splits[1..], splits[0].end + 1, size)
  }

  lemma {:induction false} SplitsTile(start: nat, size: nat, splitSize: nat, sums: RangeSum)
    requires splitSize > 0
    ensures Tiles(SplitsFrom(start, size, splitSize, sums), start, size)
    decreases size - start
  {
    if start < size {
      SplitsTile(start + splitSize, size, splitSize, sums);
      var rest := SplitsFrom(start + splitSize, size, splitSize, sums);
      assert SplitsFrom(start, size, splitSize, sums)[1..] == rest;
      if start + splitSize >= size { assert rest == []; }
    }
  }

  ghost predicate InFile(splits: seq<Split>, file: seq<Byte>) {
    forall i :: 0 <= i < |splits| ==> splits[i].start <= splits[i].end < |file|
  }

  function AllOwned(file: seq<Byte>, splits: seq<Split>): seq<Byte>
    requires InFile(splits, file)
  {
    if splits == [] then [] else Owned(file, splits[0].start, splits[0].end) + AllOwned(file, splits[1..])
  }

  lemma {:induction false} TilesInFile(splits: seq<Split>, start: nat, file: seq<Byte>)
    requires Tiles(splits, start, |file|)
    ensures InFile(splits, file)
  {
    if splits != [] {
      TilesInFile(splits[1..], splits[0].end + 1, file);
      assert forall i :: 1 <= i < |splits| ==> splits[i] == splits[1..][i - 1];
    }
  }

  lemma OwnedHead(file: seq<Byte>, start: nat, end: nat)
    requires start <= end < |file|
    ensures Owned(file, start, end) + file[NextStart(file, end + 1)..] == file[NextStart(file, start)..]
  {
    NextStartMonotone(file, start, end + 1);
    var a, b := NextStart(file, start), NextStart(file, end + 1);
    assert file[a..b] + file[b..] == file[a..];
  }

  /** Whatever the split points are, the lines that begin in the splits, put together, are the file: every line
      belongs to exactly one split. */
  lemma {:induction false} OwnedTile(file: seq<Byte>, splits: seq<Split>, start: nat)
    requires Tiles(splits, start, |file|) && start <= |file| && InFile(splits, file)
    ensures AllOwned(file, splits) == file[NextStart(file, start)..]
  {
    if splits == [] {
      assert NextStart(file, start) == |file|;
    } else {
      var s, rest := splits[0], splits[1..];
      RestInFile(splits, file);
      OwnedTile(file, rest, s.end + 1);
      OwnedHead(file, start, s.end);
    }
  }

  lemma RestInFile(splits: seq<Split>, file: seq<Byte>)
    requires splits != [] && InFile(splits, file)
    ensures InFile(splits[1..], file)
    ensures AllOwned(file, splits) == Owned(file, splits[0].start, splits[0].end) + AllOwned(file, splits[1..])
  {
  }

  // ---------- when every split can be read exactly ----------

  /** No line, its newline included, is longer than n. */
  ghost predicate LinesWithin(file: seq<Byte>, n: nat) {
    forall x :: 0 < x <= |file| ==> NextStart(file, x) < x + n
  }

  ghost predicate EndsInNewline(file: seq<Byte>) { file != [] && file[|file| - 1] == NEWLINE }

  /** The digest is that of the claimed range. */
  ghost predicate Summed(file: seq<Byte>, s: Split, sha: seq<Byte> -> string)
    requires s.start <= s.end < |file|
  {
    s.checksum == "" || s.checksum == sha(file[s.start..s.end + 1])
  }

  /** The next newline at or after x is at most n bytes away. */
  lemma NewlineNear(file: seq<Byte>, x: nat, n: nat)
    requires x < |file| && LinesWithin(file, n) && EndsInNewline(file)
    ensures file[NextStart(file, x + 1) - 1] == NEWLINE && NextStart(file, x + 1) <= x + n
  {
    NextStartIs(file, x + 1);
  }

  /** The window of a split that is at least a line shorter than one chunk reaches the end of its last line. */
  lemma WindowSuffices(file: seq<Byte>, s: Split, n: nat)
    requires s.start <= s.end < |file| && EndsInNewline(file) && LinesWithin(file, n)
    requires s.end - s.start + 1 + n <= READ_CHUNK
    ensures WindowFrom(file, s.start, s.start) == At(Min(s.start + READ_CHUNK, |file|))
    ensures NextStart(file, s.end + 1) <= Min(s.start + READ_CHUNK, |file|)
    ensures HasNewline(file[s.start..Min(s.start + READ_CHUNK, |file|)])
  {
    NewlineNear(file, s.end, n);
    var stop, next := Min(s.start + READ_CHUNK, |file|), NextStart(file, s.end + 1);
    HasIt(file, s.start, stop, next - 1);
    FirstChunk(file, s.start);
  }

  lemma HasIt(file: seq<Byte>, start: nat, stop: nat, x: nat)
    requires start <= x < stop <= |file| && file[x] == NEWLINE
    ensures HasNewline(file[start..stop])
  {
    assert file[start..stop][x - start] == NEWLINE;
  }

  /** The checksum of the claimed range is accepted. */
  lemma SumAccepted(file: seq<Byte>, s: Split, stop: nat, sha: seq<Byte> -> string)
    requires s.start <= s.end < |file| && s.start <= stop <= |file| && Summed(file, s, sha)
    ensures ChecksumOk(Bytes(file, s.start, stop), s.start, s.end, s.checksum, sha)
  {
    var n := s.end - s.start + 1;
    if stop - s.start >= n { SliceOfSlice(file, s.start, stop, 0, n); }
  }

  /** The window of the split reaches the end of the record that covers its last byte. */
  ghost predicate Reaches(file: seq<Byte>, s: Split)
    requires s.start <= s.end < |file|
  {
    s.end == 0 || (WindowFrom(file, s.start, s.start).At? && NextStart(file, s.end + 1) <= WindowFrom(file, s.start, s.start).end)
  }

  /** The split starts the file, is at least one record long, or ends the file; and [0, 0] only stands for a one-byte file. */
  ghost predicate Placed(file: seq<Byte>, s: Split, n: nat) {
    && s.start <= s.end < |file| && (s.end == 0 ==> |file| == 1)
    && (s.start == 0 || s.end - s.start + 1 >= n || s.end == |file| - 1)
  }

  function Reading(file: seq<Byte>, s: Split, sha: seq<Byte> -> string): Result {
    SplitOf(file, s.start, s.end, s.checksum, sha)
  }

  /** A split whose window gets past its last byte emits only the bytes its digest was taken of. */
  lemma EmittedSummed(file: seq<Byte>, s: Split, sha: seq<Byte> -> string)
    requires s.start <= s.end < |file| && s.end > 0 && Reaches(file, s) && Reading(file, s, sha).Emitted?
    ensures Summed(file, s, sha)
  {
    NextStartIs(file, s.end + 1);
    RefusedIff(file, s.start, s.end, s.checksum, sha);
  }

  /** A split that reaches is read without an error. */
  lemma ReachEmits(file: seq<Byte>, s: Split, sha: seq<Byte> -> string)
    requires s.start <= s.end < |file| && EndsInNewline(file) && Summed(file, s, sha) && Reaches(file, s)
    ensures Reading(file, s, sha).Emitted?
  {
    if s.end > 0 {
      WindowReaches(file, s.start, s.start);
      var stop, next := WindowFrom(file, s.start, s.start).end, NextStart(file, s.end + 1);
      SumAccepted(file, s, stop, sha);
      NextStartIs(file, s.end + 1);
      HasIt(file, s.start, stop, next - 1);
    }
  }

  /** A line begins in the split, or the split ends the file and none is left to begin. */
  lemma LineBegins(file: seq<Byte>, s: Split, n: nat)
    requires EndsInNewline(file) && LinesWithin(file, n) && Placed(file, s, n)
    ensures NextStart(file, s.start) <= s.end || (NextStart(file, s.start) == |file| && s.end == |file| - 1)
  {
    if s.start > 0 { NewlineNear(file, s.start - 1, n); }
  }

  /** What a split yields is a prefix of the lines that begin in it, and all of them iff its window reaches. */
  lemma ReadsPrefix(file: seq<Byte>, s: Split, n: nat, sha: seq<Byte> -> string)
    requires EndsInNewline(file) && LinesWithin(file, n) && Placed(file, s, n) && Reading(file, s, sha).Emitted?
    ensures Reading(file, s, sha).bytes <= Owned(file, s.start, s.end)
    ensures Reading(file, s, sha).bytes == Owned(file, s.start, s.end) <==> Reaches(file, s)
  {
    if s.end == 0 {
      assert file[0..1] == file;
    } else {
      LineBegins(file, s, n);
      PrefixEmitted(file, s, sha);
    }
  }

  lemma PrefixEmitted(file: seq<Byte>, s: Split, sha: seq<Byte> -> string)
    requires 0 < s.end && s.start <= s.end < |file| && Reading(file, s, sha).Emitted?
    requires NextStart(file, s.start) <= s.end || (NextStart(file, s.start) == |file| && s.end == |file| - 1)
    ensures Reading(file, s, sha).bytes <= Owned(file, s.start, s.end)
    ensures Reading(file, s, sha).bytes == Owned(file, s.start, s.end) <==> Reaches(file, s)
  {
    var last := LastEmitted(file, s, sha);
    var first, next := NextStart(file, s.start), NextStart(file, s.end + 1);
    assert Owned(file, s.start, s.end) == file[first..next];
    PrefixOf(file, first, last, next);
  }

  /** Where the split's output ends: at the end of its last line, or where the window ends. */
  lemma LastEmitted(file: seq<Byte>, s: Split, sha: seq<Byte> -> string) returns (last: nat)
    requires 0 < s.end && s.start <= s.end < |file| && Reading(file, s, sha).Emitted?
    requires NextStart(file, s.start) <= s.end || (NextStart(file, s.start) == |file| && s.end == |file| - 1)
    ensures NextStart(file, s.start) <= last <= NextStart(file, s.end + 1)
    ensures Reading(file, s, sha) == Emitted(file[NextStart(file, s.start)..last])
    ensures last == NextStart(file, s.end + 1) <==> Reaches(file, s)
  {
    EmittedIs(file, s.start, s.end, s.checksum, sha);
    var first, stop := NextStart(file, s.start), WindowFrom(file, s.start, s.start).end;
    assert NextStart(file, Max(first, s.end) + 1) == NextStart(file, s.end + 1);
    last := Min(NextStart(file, s.end + 1), stop);
  }

  lemma PrefixOf(file: seq<Byte>, a: nat, b: nat, c: nat)
    requires a <= b <= c <= |file|
    ensures file[a..b] <= file[a..c] && (file[a..b] == file[a..c] <==> b == c)
  {
    SlicesEqual(file, a, b, c);
    assert forall i :: 0 <= i < b - a ==> file[a..b][i] == file[a..c][i];
  }

  // ---------- the whole file ----------

  ghost predicate AllPlaced(file: seq<Byte>, splits: seq<Split>, n: nat) {
    forall i :: 0 <= i < |splits| ==> Placed(file, splits[i], n)
  }

  ghost predicate AllReach(file: seq<Byte>, splits: seq<Split>)
    requires InFile(splits, file)
  {
    forall i :: 0 <= i < |splits| ==> Reaches(file, splits[i])
  }

  predicate AllEmit(file: seq<Byte>, splits: seq<Split>, sha: seq<Byte> -> string) {
    forall i :: 0 <= i < |splits| ==> Reading(file, splits[i], sha).Emitted?
  }

  /** Everything the splits yield, in order. */
  function AllRead(file: seq<Byte>, splits: seq<Split>, sha: seq<Byte> -> string): seq<Byte>
    requires AllEmit(file, splits, sha)
  {
    if splits == [] then [] else Reading(file, splits[0], sha).bytes + AllRead(file, splits[1..], sha)
  }

  lemma {:induction false} ReadTotal(file: seq<Byte>, splits: seq<Split>, n: nat, sha: seq<Byte> -> string)
    requires EndsInNewline(file) && LinesWithin(file, n) && InFile(splits, file) && AllPlaced(file, splits, n) && AllEmit(file, splits, sha)
    ensures |AllRead(file, splits, sha)| <= |AllOwned(file, splits)|
    ensures AllReach(file, splits) ==> AllRead(file, splits, sha) == AllOwned(file, splits)
    ensures |AllRead(file, splits, sha)| == |AllOwned(file, splits)| ==> AllReach(file, splits)
  {
    if splits != [] {
      var s, rest := splits[0], splits[1..];
      ReadTotal(file, rest, n, sha);
      ReadsPrefix(file, s, n, sha);
      ReachSplit(file, splits);
      PrefixEqual(Reading(file, s, sha).bytes, Owned(file, s.start, s.end));
    }
  }

  lemma PrefixEqual(a: seq<Byte>, b: seq<Byte>)
    requires a <= b
    ensures |a| == |b| <==> a == b
  {
  }

  lemma ReachSplit(file: seq<Byte>, splits: seq<Split>)
    requires splits != [] && InFile(splits, file)
    ensures AllReach(file, splits) <==> Reaches(file, splits[0]) && AllReach(file, splits[1..])
  {
    assert forall i :: 1 <= i < |splits| ==> splits[i] == splits[1..][i - 1];
    if Reaches(file, splits[0]) && AllReach(file, splits[1..]) {
      forall i | 0 <= i < |splits| ensures Reaches(file, splits[i]) { if i > 0 { assert Reaches(file, splits[1..][i - 1]); } }
    }
    if AllReach(file, splits) {
      forall i | 0 <= i < |splits[1..]| ensures Reaches(file, splits[1..][i]) { assert Reaches(file, splits[i + 1]); }
    }
  }

  /** A file of whole records, and a split size of at least two bytes and at least the longest record. */
  ghost predicate Suits(file: seq<Byte>, splitSize: nat, n: nat) {
    EndsInNewline(file) && LinesWithin(file, n) && n <= splitSize && (splitSize >= 2 || |file| == 1)
  }

  ghost predicate SumsOf(file: seq<Byte>, sums: RangeSum, sha: seq<Byte> -> string) {
    forall a: nat, b: nat :: a <= b < |file| ==> sums(a, b) == SumOk(sha(file[a..b + 1]))
  }

  lemma SplitsAt(start: nat, size: nat, splitSize: nat, sums: RangeSum, i: nat)
    requires splitSize > 0 && i < |SplitsFrom(start, size, splitSize, sums)|
    ensures start < size
    ensures var end := EndOf(start, size, splitSize);
      i == 0 ==> SplitsFrom(start, size, splitSize, sums)[0] == Split(start, end, if sums(start, end).SumOk? then sums(start, end).hex else "")
    ensures i > 0 ==> i - 1 < |SplitsFrom(start + splitSize, size, splitSize, sums)|
    ensures i > 0 ==> SplitsFrom(start, size, splitSize, sums)[i] == SplitsFrom(start + splitSize, size, splitSize, sums)[i - 1]
  {
  }

  lemma {:induction false} SplitsPlaced(file: seq<Byte>, start: nat, splitSize: nat, n: nat, sums: RangeSum, i: nat)
    requires splitSize > 0 && Suits(file, splitSize, n)
    requires i < |SplitsFrom(start, |file|, splitSize, sums)|
    ensures var s := SplitsFrom(start, |file|, splitSize, sums)[i];
      Placed(file, s, n) && s.end - s.start + 1 <= splitSize
    decreases |file| - start
  {
    SplitsAt(start, |file|, splitSize, sums, i);
    if i > 0 {
      SplitsPlaced(file, start + splitSize, splitSize, n, sums, i - 1);
    } else {
      FirstPlaced(file, start, EndOf(start, |file|, splitSize), splitSize, n, sums);
    }
  }

  lemma FirstPlaced(file: seq<Byte>, start: nat, end: nat, splitSize: nat, n: nat, sums: RangeSum)
    requires splitSize > 0 && Suits(file, splitSize, n) && start < |file|
    requires end == EndOf(start, |file|, splitSize)
    ensures var s := Split(start, end, if sums(start, end).SumOk? then sums(start, end).hex else "");
      Placed(file, s, n) && s.end - s.start + 1 <= splitSize
  {
  }

  lemma {:induction false} EverySummed(file: seq<Byte>, start: nat, splitSize: nat, sums: RangeSum, sha: seq<Byte> -> string)
    requires splitSize > 0 && SumsOf(file, sums, sha)
    ensures AllSummed(start, |file|, splitSize, sums)
    decreases |file| - start
  {
    if start < |file| { EverySummed(file, start + splitSize, splitSize, sums, sha); }
  }

  /** The splits lie in the file and own all of it. */
  lemma SplitsOwnFile(file: seq<Byte>, splitSize: nat, sums: RangeSum)
    requires splitSize > 0
    ensures InFile(SplitsFrom(0, |file|, splitSize, sums), file)
    ensures AllOwned(file, SplitsFrom(0, |file|, splitSize, sums)) == file
  {
    var splits := SplitsFrom(0, |file|, splitSize, sums);
    SplitsTile(0, |file|, splitSize, sums);
    TilesInFile(splits, 0, file);
    OwnedTile(file, splits, 0);
    assert file[0..] == file;
  }

  /** The splits of a suitable file give it back byte for byte iff every window reaches the end of the record that
      covers its split's last byte. */
  lemma FileReadIff(file: seq<Byte>, splitSize: nat, n: nat, sums: RangeSum, sha: seq<Byte> -> string)
    requires splitSize > 0 && Suits(file, splitSize, n)
    requires AllEmit(file, SplitsFrom(0, |file|, splitSize, sums), sha)
    ensures InFile(SplitsFrom(0, |file|, splitSize, sums), file)
    ensures AllRead(file, SplitsFrom(0, |file|, splitSize, sums), sha) == file <==> AllReach(file, SplitsFrom(0, |file|, splitSize, sums))
  {
    var splits := SplitsFrom(0, |file|, splitSize, sums);
    SplitsOwnFile(file, splitSize, sums);
    forall i | 0 <= i < |splits| ensures Placed(file, splits[i], n) { SplitsPlaced(file, 0, splitSize, n, sums, i); }
    ReadTotal(file, splits, n, sha);
  }

  /** Windows that reach and digests that match mean that no split fails. */
  lemma ReachAllEmit(file: seq<Byte>, splits: seq<Split>, sha: seq<Byte> -> string)
    requires InFile(splits, file) && EndsInNewline(file) && AllReach(file, splits) && AllMatch(file, splits, sha)
    ensures AllEmit(file, splits, sha)
  {
    forall i | 0 <= i < |splits| ensures Reading(file, splits[i], sha).Emitted? {
      if splits[i].end > 0 { ReachEmits(file, splits[i], sha); }
    }
  }

  /** A condition to check before submitting: split size and longest record together fit one chunk. */
  lemma SmallSplitsReach(file: seq<Byte>, splitSize: nat, n: nat, sums: RangeSum)
    requires splitSize > 0 && Suits(file, splitSize, n) && splitSize + n <= READ_CHUNK
    ensures InFile(SplitsFrom(0, |file|, splitSize, sums), file) && AllReach(file, SplitsFrom(0, |file|, splitSize, sums))
  {
    var splits := SplitsFrom(0, |file|, splitSize, sums);
    SplitsOwnFile(file, splitSize, sums);
    forall i | 0 <= i < |splits| ensures Reaches(file, splits[i]) {
      SplitsPlaced(file, 0, splitSize, n, sums, i);
      WindowSuffices(file, splits[i], n);
    }
  }

  /** Reads every split in turn; stops at the first error. */
  method ReadEach(file: seq<Byte>, splits: seq<Split>, sha: seq<Byte> -> string) returns (ok: bool, all: seq<Byte>)
    ensures ok == AllEmit(file, splits, sha)
    ensures ok ==> all == AllRead(file, splits, sha)
  {
    all := [];
    for i := 0 to |splits|
      invariant AllEmit(file, splits[..i], sha) && all == AllRead(file, splits[..i], sha)
    {
      var r := ReadSplit(file, splits[i].start, splits[i].end, splits[i].checksum, sha);
      assert r == Reading(file, splits[i], sha);
      if !r.Emitted? { return false, all; }
      assert splits[..i + 1] == splits[..i] + [splits[i]];
      ReadOneMore(file, splits[..i], splits[i], sha);
      all := all + r.bytes;
    }
    assert splits[..|splits|] == splits;
    ok := true;
  }

  lemma {:induction false} ReadOneMore(file: seq<Byte>, splits: seq<Split>, s: Split, sha: seq<Byte> -> string)
    requires AllEmit(file, splits, sha) && Reading(file, s, sha).Emitted?
    ensures AllEmit(file, splits + [s], sha) && AllRead(file, splits + [s], sha) == AllRead(file, splits, sha) + Reading(file, s, sha).bytes
  {
    var all := splits + [s];
    assert AllEmit(file, all, sha);
    if splits == [] {
      assert all[1..] == [];
    } else {
      ReadOneMore(file, splits[1..], s, sha);
      assert all[0] == splits[0] && all[1..] == splits[1..] + [s];
      Assoc(Reading(file, splits[0], sha).bytes, AllRead(file, splits[1..], sha), Reading(file, s, sha).bytes);
    }
  }

  lemma Assoc(a: seq<Byte>, b: seq<Byte>, c: seq<Byte>)
    ensures a + (b + c) == a + b + c
  {
  }

  /** Every checksum is the digest of its range of the file; a one-byte file is read without a check. */
  ghost predicate AllMatch(file: seq<Byte>, splits: seq<Split>, sha: seq<Byte> -> string)
    requires InFile(splits, file)
  {
    forall i :: 0 <= i < |splits| ==> splits[i].end == 0 || Summed(file, splits[i], sha)
  }

  /** Cut an object into splits and read every split of the file that is there then.  If every range could be summed, the file
      comes back iff every window reaches and every digest is that of the file's range; otherwise it is read as a whole. */
  method ReadThroughSplits(file: seq<Byte>, splitSize: nat, ghost n: nat, sums: RangeSum, sha: seq<Byte> -> string)
    returns (ok: bool, all: seq<Byte>)
    requires splitSize > 0 && Suits(file, splitSize, n)
    ensures InFile(SplitsFrom(0, |file|, splitSize, sums), file)
    ensures AllSummed(0, |file|, splitSize, sums) ==> (ok && all == file <==>
      AllReach(file, SplitsFrom(0, |file|, splitSize, sums)) && AllMatch(file, SplitsFrom(0, |file|, splitSize, sums), sha))
    ensures !AllSummed(0, |file|, splitSize, sums) ==> ok && all == file
  {
    SplitsOwnFile(file, splitSize, sums);
    var splits := BuildInputSplits(|file|, splitSize, sums);
    ok, all := ReadEach(file, splits, sha);
    if AllSummed(0, |file|, splitSize, sums) {
      if ok {
        FileReadIff(file, splitSize, n, sums, sha);
        if AllReach(file, splits) { EmitsMatch(file, splits, sha); }
      } else if AllReach(file, splits) && AllMatch(file, splits, sha) {
        ReachAllEmit(file, splits, sha);
      }
    } else {
      WholeRead(file, sha);
    }
  }

  lemma WholeRead(file: seq<Byte>, sha: seq<Byte> -> string)
    ensures AllEmit(file, [WHOLE], sha) && AllRead(file, [WHOLE], sha) == file
  {
    assert [WHOLE][1..] == [];
  }

  lemma EmitsMatch(file: seq<Byte>, splits: seq<Split>, sha: seq<Byte> -> string)
    requires InFile(splits, file) && AllReach(file, splits) && AllEmit(file, splits, sha)
    ensures AllMatch(file, splits, sha)
  {
    forall i | 0 <= i < |splits| ensures splits[i].end == 0 || Summed(file, splits[i], sha) {
      if splits[i].end > 0 { EmittedSummed(file, splits[i], sha); }
    }
  }

  /** The digests of the file itself match. */
  lemma OwnSumsMatch(file: seq<Byte>, splitSize: nat, sums: RangeSum, sha: seq<Byte> -> string)
    requires splitSize > 0 && SumsOf(file, sums, sha)
    ensures AllSummed(0, |file|, splitSize, sums) && InFile(SplitsFrom(0, |file|, splitSize, sums), file)
    ensures AllMatch(file, SplitsFrom(0, |file|, splitSize, sums), sha)
  {
    EverySummed(file, 0, splitSize, sums, sha);
    SplitsOwnFile(file, splitSize, sums);
    OtherSums(file, file, 0, splitSize, sums, sha);
  }

  /** The digest is never empty and tells the ranges of two objects of one size apart. */
  ghost predicate TellsApart(file: seq<Byte>, before: seq<Byte>, sha: seq<Byte> -> string) {
    |before| == |file| && forall a: nat, b: nat :: a <= b < |file| ==>
      sha(Range(before, a, b)) != "" && (sha(Range(file, a, b)) == sha(Range(before, a, b)) ==> Range(file, a, b) == Range(before, a, b))
  }

  function Range(file: seq<Byte>, first: nat, last: nat): seq<Byte>
    requires first <= last < |file|
  {
    file[first..last + 1]
  }

  /** Splits summed from one object and read from another of the same size: each digest is the one of the first. */
  lemma {:induction false} OtherSums(file: seq<Byte>, before: seq<Byte>, start: nat, splitSize: nat, sums: RangeSum, sha: seq<Byte> -> string)
    requires splitSize > 0 && |before| == |file| && SumsOf(before, sums, sha)
    ensures forall i :: 0 <= i < |SplitsFrom(start, |file|, splitSize, sums)| ==> SummedFrom(SplitsFrom(start, |file|, splitSize, sums)[i], before, sha)
    decreases |file| - start
  {
    if start < |file| {
      OtherSums(file, before, start + splitSize, splitSize, sums, sha);
      var all := SplitsFrom(start, |file|, splitSize, sums);
      forall i | 0 <= i < |all| ensures SummedFrom(all[i], before, sha) { SplitsAt(start, |file|, splitSize, sums, i); }
    }
  }

  ghost predicate SummedFrom(s: Split, before: seq<Byte>, sha: seq<Byte> -> string) {
    s.start <= s.end < |before| && s.checksum == sha(before[s.start..s.end + 1])
  }

  /** An object that was changed between the planning and the reading, at its old size and of more than one byte, is not
      read as if nothing had happened: when every window reaches, the digests match iff not a byte has changed. */
  lemma ChangeDetected(file: seq<Byte>, before: seq<Byte>, splitSize: nat, sums: RangeSum, sha: seq<Byte> -> string)
    requires splitSize >= 2 && |file| >= 2 && TellsApart(file, before, sha) && SumsOf(before, sums, sha)
    ensures InFile(SplitsFrom(0, |file|, splitSize, sums), file)
    ensures AllMatch(file, SplitsFrom(0, |file|, splitSize, sums), sha) <==> file == before
  {
    var splits := SplitsFrom(0, |file|, splitSize, sums);
    SplitsOwnFile(file, splitSize, sums);
    OtherSums(file, before, 0, splitSize, sums, sha);
    if AllMatch(file, splits, sha) {
      SplitsTile(0, |file|, splitSize, sums);
      forall i | 0 <= i < |splits| ensures SameRange(file, before, splits[i]) {
        var s := splits[i];
        assert SummedFrom(s, before, sha);
        SplitEnds(0, |file|, splitSize, sums, i);
        assert sha(Range(file, s.start, s.end)) == sha(Range(before, s.start, s.end)) != "";
      }
      SameTiles(file, before, splits, 0);
      assert file[0..] == file && before[0..] == before;
    }
  }

  ghost predicate SameRange(file: seq<Byte>, before: seq<Byte>, s: Split) {
    s.start <= s.end < |file| && |before| == |file| && file[s.start..s.end + 1] == before[s.start..s.end + 1]
  }

  /** Split i is the i-th range of splitSize bytes, cut off at the end of the object, and there are just enough of them. */
  lemma {:induction false} SplitIs(start: nat, size: nat, splitSize: nat, sums: RangeSum, i: nat)
    requires splitSize > 0 && start < size
    ensures var n := |SplitsFrom(start, size, splitSize, sums)|; n > 0 && (n - 1) * splitSize < size - start <= n * splitSize
    ensures i < |SplitsFrom(start, size, splitSize, sums)| ==>
      var s := SplitsFrom(start, size, splitSize, sums)[i];
      && s.start == start + i * splitSize && s.end == (if s.start + splitSize < size then s.start + splitSize else size) - 1
      && s.checksum == (if sums(s.start, s.end).SumOk? then sums(s.start, s.end).hex else "")
    decreases size - start
  {
    var rest := SplitsFrom(start + splitSize, size, splitSize, sums);
    var k := if i > 0 then i - 1 else 0;
    assert |SplitsFrom(start, size, splitSize, sums)| == |rest| + 1;
    assert |rest| * splitSize + splitSize == (|rest| + 1) * splitSize;
    assert k * splitSize + splitSize == (k + 1) * splitSize;
    if start + splitSize < size {
      SplitIs(start + splitSize, size, splitSize, sums, k);
      assert (|rest| - 1) * splitSize + splitSize == |rest| * splitSize;
    }
  }

  /** No split of a longer object ends at byte 0. */
  lemma {:induction false} SplitEnds(start: nat, size: nat, splitSize: nat, sums: RangeSum, i: nat)
    requires splitSize >= 2 && size >= 2 && i < |SplitsFrom(start, size, splitSize, sums)|
    ensures SplitsFrom(start, size, splitSize, sums)[i].end > 0
    decreases size - start
  {
    SplitsAt(start, size, splitSize, sums, i);
    if i > 0 { SplitEnds(start + splitSize, size, splitSize, sums, i - 1); }
  }

  lemma {:induction false} SameTiles(file: seq<Byte>, before: seq<Byte>, splits: seq<Split>, start: nat)
    requires Tiles(splits, start, |file|) && |before| == |file| && start <= |file| && forall i :: 0 <= i < |splits| ==> SameRange(file, before, splits[i])
    ensures file[start..] == before[start..]
  {
    if splits != [] {
      var s := splits[0];
      forall i | 0 <= i < |splits[1..]| ensures SameRange(file, before, splits[1..][i]) { assert SameRange(file, before, splits[i + 1]); }
      SameTiles(file, before, splits[1..], s.end + 1);
      assert SameRange(file, before, splits[0]);
      assert file[start..] == file[start..s.end + 1] + file[s.end + 1..];
      assert before[start..] == before[start..s.end + 1] + before[s.end + 1..];
    }
  }

  /** The default does not meet the condition: a 64 MiB split inside a file, with a newline in its first MiB, is read
      only up to that MiB. */
  lemma DefaultSplitTruncated(file: seq<Byte>, start: nat, checksum: string, sha: seq<Byte> -> string)
    requires start + DEFAULT_SPLIT <= |file| && HasNewline(file[start..start + READ_CHUNK])
    ensures SplitOf(file, start, start + DEFAULT_SPLIT - 1, checksum, sha).Emitted?
    ensures SplitOf(file, start, start + DEFAULT_SPLIT - 1, checksum, sha).bytes < Owned(file, start, start + DEFAULT_SPLIT - 1)
  {
    LongSplitTruncated(file, start, start + DEFAULT_SPLIT - 1, checksum, sha);
  }
}
