/** The reader of one input split. */
module SplitReader {
  import opened Records
  import opened Lines

  const READ_CHUNK: nat := 0x10_0000
  const MAX_RANGE: nat := 0x1000_0000

  datatype Result =
    | Emitted(bytes: seq<Byte>)
    | InvalidRange
    | TooLong
    | NoNewline
    | BadChecksum
    | NoPrecedingByte
    | NoLineToSkip

  datatype Window = At(end: nat) | Failed(error: Result)

  // ---------- specification ----------

  function Min(a: nat, b: nat): nat { if a < b then a else b }

  /** How far getRawRange reads: chunk by chunk to the end of the first chunk that holds a newline. */
  function WindowFrom(file: seq<Byte>, start: nat, pos: nat): (w: Window)
    requires start <= pos
    ensures w.Failed? ==> w.error == TooLong || w.error == NoNewline
    decreases |file| - pos
  {
    if pos >= |file| then At(pos)
    else
      var end := Min(pos + READ_CHUNK, |file|);
      if end - start > MAX_RANGE then Failed(TooLong)
      else if HasNewline(file[pos..end]) then At(end)
      else if end - pos < READ_CHUNK then Failed(NoNewline)
      else WindowFrom(file, start, end)
  }

  function Bytes(file: seq<Byte>, start: nat, end: nat): seq<Byte> {
    if start <= end <= |file| then file[start..end] else []
  }

  /** Whole lines from pos on, at least one, until one ends beyond byteEnd or the buffer is used up. */
  function LastPos(raw: seq<Byte>, start: nat, end: nat, pos: nat): (r: nat)
    requires pos <= |raw|
    ensures pos <= r <= |raw|
    decreases |raw| - pos
  {
    var next := NextStart(raw, pos + 1);
    if next == pos || raw[next - 1] != NEWLINE then |raw|
    else if start + next > end then next
    else LastPos(raw, start, end, next)
  }

  datatype Span = Span(from: nat, to: nat) | NoSpan

  /** Which bytes of the buffer are emitted, if the partial line can be skipped. */
  function EmitSpan(raw: seq<Byte>, start: nat, end: nat, atBoundary: bool): (r: Span)
    ensures r.Span? ==> r.from <= r.to <= |raw|
  {
    if start > 0 && !atBoundary then
      if !HasNewline(raw) then NoSpan else var p := NextStart(raw, 1); Span(p, LastPos(raw, start, end, p))
    else Span(0, LastPos(raw, start, end, 0))
  }

  function EmitFrom(raw: seq<Byte>, start: nat, end: nat, atBoundary: bool): Result {
    match EmitSpan(raw, start, end, atBoundary)
    case NoSpan => NoLineToSkip
    case Span(from, to) => Emitted(raw[from..to])
  }

  function ChecksumOk(raw: seq<Byte>, start: nat, end: nat, checksum: string, sha: seq<Byte> -> string): bool
    requires start <= end
  {
    checksum == "" || |raw| < end - start + 1 || sha(raw[..end - start + 1]) == checksum
  }

  function SplitOf(file: seq<Byte>, start: nat, end: nat, checksum: string, sha: seq<Byte> -> string): Result {
    if end == 0 then Emitted(file)
    else if end < start then InvalidRange
    else
      match WindowFrom(file, start, start)
      case Failed(error) => error
      case At(stop) =>
        if !ChecksumOk(Bytes(file, start, stop), start, end, checksum, sha) then BadChecksum
        else if start > |file| then NoPrecedingByte
        else EmitWindow(file, start, end, stop)
  }

  function EmitWindow(file: seq<Byte>, start: nat, end: nat, stop: nat): Result
    requires start <= |file|
  {
    EmitFrom(Bytes(file, start, stop), start, end, start == 0 || file[start - 1] == NEWLINE)
  }

  // ---------- the code ----------

  /** A ranged GET. */
  function GetObject(file: seq<Byte>, first: nat, last: nat): seq<Byte>
    requires first <= last
  {
    if first >= |file| then [] else file[first..Min(last + 1, |file|)]
  }

  lemma ChunkIs(file: seq<Byte>, start: nat, pos: nat)
    requires start <= pos < |file|
    ensures var end := Min(pos + READ_CHUNK, |file|); var chunk := GetObject(file, pos, pos + READ_CHUNK - 1);
      chunk == file[pos..end] && |chunk| == end - pos > 0 && Bytes(file, start, pos) + chunk == Bytes(file, start, end)
  {
  }

  method GetRawRange(file: seq<Byte>, start: nat, end: nat) returns (ok: bool, raw: seq<Byte>, error: Result)
    ensures end < start ==> !ok && error == InvalidRange
    ensures end >= start && ok ==>
      WindowFrom(file, start, start).At? && raw == Bytes(file, start, WindowFrom(file, start, start).end)
    ensures end >= start && !ok ==> WindowFrom(file, start, start) == Failed(error)
  {
    raw, error := [], InvalidRange;
    if end < start { return false, raw, error; }
    var nextStart, totalRead := start, 0;
    while true
      invariant start <= nextStart && raw == Bytes(file, start, nextStart)
      invariant totalRead == nextStart - start && (nextStart == start || nextStart <= |file|)
      invariant WindowFrom(file, start, nextStart) == WindowFrom(file, start, start)
      decreases |file| - nextStart
    {
      var chunk := GetObject(file, nextStart, nextStart + READ_CHUNK - 1);
      if |chunk| == 0 { return true, raw, error; }
      ChunkIs(file, start, nextStart);
      raw := raw + chunk;
      totalRead := totalRead + |chunk|;
      if totalRead > MAX_RANGE { return false, raw, TooLong; }
      if NEWLINE in chunk { return true, raw, error; }
      if |chunk| < READ_CHUNK { return false, raw, NoNewline; }
      nextStart := nextStart + |chunk|;
    }
  }

  /** ReadBytes: the position after the next newline, or the end of the buffer. */
  method ReadLine(raw: seq<Byte>, pos: nat) returns (next: nat, eof: bool)
    requires pos <= |raw|
    ensures next == NextStart(raw, pos + 1)
    ensures eof <==> next == pos || raw[next - 1] != NEWLINE
    ensures pos <= next <= |raw| && (eof ==> next == |raw|)
  {
    next := pos;
    while next < |raw|
      invariant pos <= next <= |raw| && NextStart(raw, next + 1) == NextStart(raw, pos + 1)
      invariant next > pos ==> raw[next - 1] != NEWLINE
    {
      next := next + 1;
      if raw[next - 1] == NEWLINE { return next, false; }
    }
    eof := true;
  }

  method EmitLines(raw: seq<Byte>, start: nat, end: nat, atBoundary: bool) returns (r: Result)
    ensures r == EmitFrom(raw, start, end, atBoundary)
  {
    var offset := 0;
    if start > 0 && !atBoundary {
      var skipped, eof := ReadLine(raw, 0);
      if raw != [] {
        NewlineFound(raw, 1);
        assert raw[0..] == raw;
      }
      if eof { return NoLineToSkip; }
      offset := skipped;
    }
    var out := CopyLines(raw, start, end, offset);
    r := Emitted(out);
  }

  method CopyLines(raw: seq<Byte>, start: nat, end: nat, from: nat) returns (out: seq<Byte>)
    requires from <= |raw|
    ensures out == raw[from..LastPos(raw, start, end, from)]
  {
    var offset := from;
    out := [];
    while true
      invariant from <= offset <= |raw| && out == raw[from..offset]
      invariant LastPos(raw, start, end, offset) == LastPos(raw, start, end, from)
      decreases |raw| - offset
    {
      var next, eof := ReadLine(raw, offset);
      out := out + raw[offset..next];
      if eof { return; }
      if start + next > end { return; }
      offset := next;
    }
  }

  /** readSplitRecordsStreaming. */
  method ReadSplit(file: seq<Byte>, start: nat, end: nat, checksum: string, sha: seq<Byte> -> string) returns (r: Result)
    ensures r == SplitOf(file, start, end, checksum, sha)
  {
    if end == 0 { return Emitted(file); }
    var ok, raw, error := GetRawRange(file, start, end);
    if !ok { return error; }
    if checksum != "" && |raw| >= end - start + 1 && sha(raw[..end - start + 1]) != checksum { return BadChecksum; }
    var atBoundary := true;
    if start > 0 {
      var before := GetObject(file, start - 1, start - 1);
      if before == [] { return NoPrecedingByte; }
      atBoundary := before[0] == NEWLINE;
    }
    r := EmitLines(raw, start, end, atBoundary);
  }

  // ---------- what a split should emit ----------

  /** The lines that begin in [start, end]. */
  function Owned(file: seq<Byte>, start: nat, end: nat): seq<Byte>
    requires start <= end < |file|
  {
    Bytes(file, NextStart(file, start), NextStart(file, end + 1))
  }

  function Max(a: nat, b: nat): nat { if a < b then b else a }

  lemma {:induction false} LastPosIs(raw: seq<Byte>, start: nat, end: nat, pos: nat)
    requires pos <= |raw| && start <= end
    ensures LastPos(raw, start, end, pos) == NextStart(raw, Max(pos, end - start) + 1)
    decreases |raw| - pos
  {
    var next, e := NextStart(raw, pos + 1), end - start;
    NextStartIs(raw, pos + 1);
    if next > pos && raw[next - 1] == NEWLINE && start + next <= end {
      LastPosIs(raw, start, end, next);
    } else if pos < e < |raw| {
      if e < next { NextStartSkips(raw, pos + 1, e + 1); }
    }
  }

  /** A newline in the first chunk ends the download there. */
  lemma FirstChunk(file: seq<Byte>, start: nat)
    requires start < |file| && HasNewline(file[start..Min(start + READ_CHUNK, |file|)])
    ensures WindowFrom(file, start, start) == At(Min(start + READ_CHUNK, |file|))
  {
    assert Min(start + READ_CHUNK, |file|) - start <= READ_CHUNK <= MAX_RANGE;
  }

  lemma {:induction false} WindowReaches(file: seq<Byte>, start: nat, pos: nat)
    requires start <= pos <= |file| && WindowFrom(file, start, pos).At?
    ensures pos <= WindowFrom(file, start, pos).end <= |file|
    ensures pos < |file| ==> pos < WindowFrom(file, start, pos).end
    decreases |file| - pos
  {
    if pos < |file| {
      var end := Min(pos + READ_CHUNK, |file|);
      if !HasNewline(file[pos..end]) { WindowReaches(file, start, end); }
    }
  }

  /** The first and last byte of what a window yields. */
  lemma EmitWindowIs(file: seq<Byte>, start: nat, end: nat, stop: nat)
    requires start <= end < |file| && start < stop <= |file| && EmitWindow(file, start, end, stop).Emitted?
    ensures var first := NextStart(file, start);
      && first <= stop
      && var last := Min(NextStart(file, Max(first, end) + 1), stop);
         first <= last && EmitWindow(file, start, end, stop) == Emitted(file[first..last])
  {
    var raw := file[start..stop];
    var span := EmitSpan(raw, start, end, start == 0 || file[start - 1] == NEWLINE);
    SpanInFile(file, start, end, stop, span);
    SliceOfSlice(file, start, stop, span.from, span.to);
  }

  lemma SpanInFile(file: seq<Byte>, start: nat, end: nat, stop: nat, span: Span)
    requires start <= end < |file| && start < stop <= |file| && span.Span?
    requires span == EmitSpan(file[start..stop], start, end, start == 0 || file[start - 1] == NEWLINE)
    ensures var first := NextStart(file, start);
      start + span.from == first <= stop && start + span.to == Min(NextStart(file, Max(first, end) + 1), stop)
  {
    SkipIs(file, start, stop);
    LastInFile(file, start, end, stop, span.from);
  }

  lemma LastInFile(file: seq<Byte>, start: nat, end: nat, stop: nat, p: nat)
    requires start <= end && start <= stop <= |file| && p <= stop - start
    ensures start + LastPos(file[start..stop], start, end, p) == Min(NextStart(file, Max(start + p, end) + 1), stop)
  {
    LastPosIs(file[start..stop], start, end, p);
    var x := Max(p, end - start) + 1;
    if x <= stop - start {
      NextStartInWindow(file, start, stop, x);
    } else {
      BeyondWindow(file, start, stop, x);
    }
  }

  lemma SliceOfSlice(file: seq<Byte>, start: nat, stop: nat, p: nat, q: nat)
    requires start <= stop <= |file| && p <= q <= stop - start
    ensures file[start..stop][p..q] == file[start + p..start + q]
  {
    var raw := file[start..stop];
    assert |raw[p..q]| == |file[start + p..start + q]|;
    assert forall i :: 0 <= i < q - p ==> raw[p..q][i] == file[start + p + i];
  }

  /** What is emitted, in terms of the file: whole lines from the first one that begins in the split, cut off at the
      window's end. */
  lemma EmittedIs(file: seq<Byte>, start: nat, end: nat, checksum: string, sha: seq<Byte> -> string)
    requires 0 < end && start <= end < |file| && SplitOf(file, start, end, checksum, sha).Emitted?
    ensures WindowFrom(file, start, start).At?
    ensures var first, stop := NextStart(file, start), WindowFrom(file, start, start).end;
      && start < stop && first <= stop <= |file|
      && var last := Min(NextStart(file, Max(first, end) + 1), stop);
         first <= last && SplitOf(file, start, end, checksum, sha) == Emitted(file[first..last])
  {
    WindowReaches(file, start, start);
    EmitWindowIs(file, start, end, WindowFrom(file, start, start).end);
  }

  /** A split is refused for its checksum exactly when it names one, the download got past its last byte, and the digest of
      those bytes of the file is another. */
  lemma RefusedIff(file: seq<Byte>, start: nat, end: nat, checksum: string, sha: seq<Byte> -> string)
    requires 0 < end && start <= end < |file|
    ensures SplitOf(file, start, end, checksum, sha) == BadChecksum <==>
      && checksum != "" && sha(file[start..end + 1]) != checksum
      && WindowFrom(file, start, start).At? && end < WindowFrom(file, start, start).end
  {
    if WindowFrom(file, start, start).At? {
      WindowReaches(file, start, start);
      var stop := WindowFrom(file, start, start).end;
      if end < stop { SliceOfSlice(file, start, stop, 0, end + 1 - start); }
      NeverBadChecksum(file, start, end, stop);
    }
  }

  lemma NeverBadChecksum(file: seq<Byte>, start: nat, end: nat, stop: nat)
    requires start <= |file|
    ensures EmitWindow(file, start, end, stop) != BadChecksum
  {
  }

  /** A split of at most one chunk with a newline in its first chunk is always checked. */
  lemma ShortSplitChecked(file: seq<Byte>, start: nat, end: nat, checksum: string, sha: seq<Byte> -> string)
    requires 0 < end && start <= end < |file| && end - start < READ_CHUNK && checksum != ""
    requires HasNewline(file[start..Min(start + READ_CHUNK, |file|)])
    ensures SplitOf(file, start, end, checksum, sha) == BadChecksum <==> sha(file[start..end + 1]) != checksum
  {
    FirstChunk(file, start);
    RefusedIff(file, start, end, checksum, sha);
  }

  lemma BeyondWindow(file: seq<Byte>, start: nat, stop: nat, x: nat)
    requires start <= stop <= |file| && x > stop - start
    ensures start + NextStart(file[start..stop], x) == Min(NextStart(file, start + x), stop)
  {
  }

  /** Skipping the partial line ends at the first line that begins in the split. */
  lemma SkipIs(file: seq<Byte>, start: nat, stop: nat)
    requires start < |file| && start <= stop <= |file| && stop > start
    requires start > 0 && file[start - 1] != NEWLINE ==> HasNewline(file[start..stop])
    ensures start <= NextStart(file, start) <= stop
    ensures start > 0 && file[start - 1] != NEWLINE ==> NextStart(file, start) == start + NextStart(file[start..stop], 1)
    ensures start == 0 || file[start - 1] == NEWLINE ==> NextStart(file, start) == start
  {
    if start > 0 && file[start - 1] != NEWLINE {
      var raw := file[start..stop];
      NewlineFound(raw, 1);
      assert raw[0..] == raw;
      NextStartInWindow(file, start, stop, 1);
      var n := NextStart(raw, 1);
      assert file[start + n - 1] == NEWLINE;
      NextStartFirst(file, start + 1, start + n);
      NextStartSkips(file, start, start + 1);
    }
  }

  /** A split emits exactly the lines that begin in it, iff: when a line begins in it, the window reaches the end of
      the last such line; when none does, the window ends where the next line would begin. */
  lemma ExactIff(file: seq<Byte>, start: nat, end: nat, checksum: string, sha: seq<Byte> -> string)
    requires 0 < end && start <= end < |file| && SplitOf(file, start, end, checksum, sha).Emitted?
    ensures WindowFrom(file, start, start).At?
    ensures var first, stop := NextStart(file, start), WindowFrom(file, start, start).end;
      SplitOf(file, start, end, checksum, sha) == Emitted(Owned(file, start, end))
      <==> if first <= end then NextStart(file, end + 1) <= stop else stop == first
  {
    EmittedIs(file, start, end, checksum, sha);
    CutIff(file, start, end, WindowFrom(file, start, start).end);
  }

  lemma CutIff(file: seq<Byte>, start: nat, end: nat, stop: nat)
    requires start <= end < |file| && NextStart(file, start) <= stop <= |file|
    ensures var first := NextStart(file, start);
      var last := Min(NextStart(file, Max(first, end) + 1), stop);
      && first <= last
      && (file[first..last] == Owned(file, start, end)
          <==> if first <= end then NextStart(file, end + 1) <= stop else stop == first)
  {
    var first, next := NextStart(file, start), NextStart(file, end + 1);
    var last := Min(NextStart(file, Max(first, end) + 1), stop);
    NextStartMonotone(file, start, end + 1);
    if first > end { NextStartSkips(file, start, end + 1); }
    SlicesEqual(file, first, last, next);
  }

  lemma SlicesEqual(file: seq<Byte>, a: nat, b: nat, c: nat)
    requires a <= b <= |file| && a <= c <= |file|
    ensures file[a..b] == file[a..c] <==> b == c
  {
    assert |file[a..b]| == b - a && |file[a..c]| == c - a;
  }

  /** A newline in the first chunk stops the download there: a split longer than one chunk, inside the file, loses
      everything beyond it.  The loss is silent whatever the checksum: a window shorter than the range is not checked. */
  lemma LongSplitTruncated(file: seq<Byte>, start: nat, end: nat, checksum: string, sha: seq<Byte> -> string)
    requires start <= end < |file| && end - start >= READ_CHUNK
    requires HasNewline(file[start..start + READ_CHUNK])
    ensures SplitOf(file, start, end, checksum, sha).Emitted?
    ensures |SplitOf(file, start, end, checksum, sha).bytes| <= READ_CHUNK
    ensures SplitOf(file, start, end, checksum, sha).bytes < Owned(file, start, end)
  {
    FirstChunkStops(file, start);
    EmittedIs(file, start, end, checksum, sha);
    NextStartMonotone(file, start, end + 1);
  }

  lemma FirstChunkStops(file: seq<Byte>, start: nat)
    requires start + READ_CHUNK <= |file| && HasNewline(file[start..start + READ_CHUNK])
    ensures WindowFrom(file, start, start) == At(start + READ_CHUNK)
  {
  }
}
