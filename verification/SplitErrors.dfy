/** How far the range download reads, and every error of the split reader, told on the bytes of the file. */
module SplitErrors {
  import opened Records
  import opened Lines
  import opened SplitReader

  /** No newline in [from, to). */
  predicate Bare(file: seq<Byte>, from: nat, to: nat) {
    forall i :: from <= i < to && i < |file| ==> file[i] != NEWLINE
  }

  lemma BareIff(file: seq<Byte>, from: nat, to: nat)
    requires from <= to <= |file|
    ensures Bare(file, from, to) <==> !HasNewline(file[from..to])
  {
    if HasNewline(file[from..to]) {
      var k :| 0 <= k < to - from && file[from..to][k] == NEWLINE;
      assert file[from + k] == NEWLINE;
    } else {
      forall i | from <= i < to ensures file[i] != NEWLINE { assert file[from..to][i - from] == file[i]; }
    }
  }

  /** Chunks without a newline are read through, up to 256 of them. */
  lemma {:induction false} SkipChunks(file: seq<Byte>, start: nat, n: nat)
    requires start + n * READ_CHUNK <= |file| && Bare(file, start, start + n * READ_CHUNK)
    ensures n <= 256 ==> WindowFrom(file, start, start) == WindowFrom(file, start, start + n * READ_CHUNK)
    ensures n > 256 ==> WindowFrom(file, start, start) == Failed(TooLong)
  {
    if n > 0 {
      SkipChunks(file, start, n - 1);
      var pos := start + (n - 1) * READ_CHUNK;
      assert Min(pos + READ_CHUNK, |file|) == start + n * READ_CHUNK;
      BareIff(file, pos, pos + READ_CHUNK);
    }
  }

  /** With the first newline in chunk n the download ends with that chunk, or fails if that is beyond 256 MiB. */
  lemma WindowAtNewline(file: seq<Byte>, start: nat, n: nat)
    requires start + n * READ_CHUNK < |file| && Bare(file, start, start + n * READ_CHUNK)
    requires !Bare(file, start, start + (n + 1) * READ_CHUNK)
    ensures var end := Min(start + (n + 1) * READ_CHUNK, |file|);
      WindowFrom(file, start, start) == if end - start <= 256 * 0x10_0000 then At(end) else Failed(TooLong)
  {
    var pos := start + n * READ_CHUNK;
    var end := Min(pos + READ_CHUNK, |file|);
    assert end == Min(start + (n + 1) * READ_CHUNK, |file|);
    SkipChunks(file, start, n);
    assert !Bare(file, pos, end);
    BareIff(file, pos, end);
  }

  /** With no newline at all it fails, unless it comes to the end of the file at the end of a chunk. */
  lemma WindowWithout(file: seq<Byte>, start: nat)
    requires start <= |file| && Bare(file, start, |file|)
    ensures WindowFrom(file, start, start) ==
      if |file| - start > 256 * 0x10_0000 then Failed(TooLong)
      else if (|file| - start) % 0x10_0000 == 0 then At(|file|) else Failed(NoNewline)
  {
    var n := (|file| - start) / READ_CHUNK;
    SkipChunks(file, start, n);
    var pos := start + n * READ_CHUNK;
    if pos < |file| { BareIff(file, pos, |file|); }
  }

  /** A window that is not empty holds a newline, unless the rest of the file has none. */
  lemma {:induction false} WindowHolds(file: seq<Byte>, start: nat, pos: nat)
    requires start <= pos <= |file| && WindowFrom(file, start, pos).At?
    ensures pos <= WindowFrom(file, start, pos).end <= |file|
    ensures Bare(file, pos, WindowFrom(file, start, pos).end) <==> Bare(file, pos, |file|)
    decreases |file| - pos
  {
    if pos < |file| {
      var end := Min(pos + READ_CHUNK, |file|);
      BareIff(file, pos, end);
      if !HasNewline(file[pos..end]) { WindowHolds(file, start, end); }
    }
  }

  /** The range ends before it begins, or begins beyond the file. */
  lemma BadRangeIff(file: seq<Byte>, start: nat, end: nat, checksum: string, sha: seq<Byte> -> string)
    ensures SplitOf(file, start, end, checksum, sha) == InvalidRange <==> 0 < end < start
    ensures SplitOf(file, start, end, checksum, sha) == NoPrecedingByte <==> 0 < end && |file| < start <= end
  {
    if 0 < end && start <= end && start <= |file| && WindowFrom(file, start, start).At? {
      NeverOther(file, start, end, WindowFrom(file, start, start).end);
    }
  }

  lemma NeverOther(file: seq<Byte>, start: nat, end: nat, stop: nat)
    requires start <= |file|
    ensures EmitWindow(file, start, end, stop).Emitted? || EmitWindow(file, start, end, stop) == NoLineToSkip
  {
  }

  /** The split begins inside a line that does not end, in a file the download read to its end. */
  lemma NoLineIff(file: seq<Byte>, start: nat, end: nat, checksum: string, sha: seq<Byte> -> string)
    ensures SplitOf(file, start, end, checksum, sha) == NoLineToSkip <==>
      && 0 < end && 0 < start <= end && start <= |file| && file[start - 1] != NEWLINE && Bare(file, start, |file|)
      && WindowFrom(file, start, start).At? && SplitOf(file, start, end, checksum, sha) != BadChecksum
  {
    if 0 < end && 0 < start <= end && start <= |file| && WindowFrom(file, start, start).At? {
      var stop := WindowFrom(file, start, start).end;
      WindowHolds(file, start, start);
      BareIff(file, start, stop);
    }
  }
}
