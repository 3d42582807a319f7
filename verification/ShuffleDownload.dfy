/** The reducer's end of the shuffle stream: reassembly and checksum validation. */
module ShuffleDownload {
  import opened Records
  import opened ShuffleChunks
  import opened ShuffleStore

  type Digest = seq<Byte> -> string
  type Trim = string -> string

  /** Hex digests are not empty and carry no blanks. */
  ghost predicate HexDigest(sha: Digest, trim: Trim) {
    trim("") == "" && forall b: seq<Byte> :: sha(b) != "" && trim(sha(b)) == sha(b)
  }

  /** Finished segments, the open segment, and whether a check has failed. */
  datatype Rx = Rx(segments: seq<seq<Byte>>, open: seq<Byte>, failed: bool)

  /** The checksum the assignment gives for a segment; "" when it gives none. */
  function Assigned(expected: seq<string>, idx: nat): string {
    if idx < |expected| then expected[idx] else ""
  }

  /** A segment passes if the assignment and the stream do not disagree, and the bytes match whichever speaks. */
  predicate Passes(expected: seq<string>, idx: nat, streamSum: string, bytes: seq<Byte>, sha: Digest) {
    var fromAssignment := Assigned(expected, idx);
    var want := if fromAssignment != "" then fromAssignment else streamSum;
    && !(fromAssignment != "" && streamSum != "" && fromAssignment != streamSum)
    && (want == "" || sha(bytes) == want)
  }

  function Take(rx: Rx, c: Chunk, expected: seq<string>, sha: Digest, trim: Trim): Rx {
    if rx.failed then rx
    else if c.data != [] then rx.(open := rx.open + c.data)
    else if rx.open == [] then rx
    else if Passes(expected, |rx.segments|, trim(c.sum), rx.open, sha) then Rx(rx.segments + [rx.open], [], false)
    else rx.(failed := true)
  }

  function TakeAll(chunks: seq<Chunk>, expected: seq<string>, sha: Digest, trim: Trim): Rx {
    if chunks == [] then Rx([], [], false)
    else Take(TakeAll(chunks[..|chunks| - 1], expected, sha, trim), chunks[|chunks| - 1], expected, sha, trim)
  }

  /** At end of stream an unterminated segment is checked against the assignment alone. */
  function AtEof(rx: Rx, expected: seq<string>, sha: Digest): Rx {
    if rx.failed || rx.open == [] then rx
    else if Passes(expected, |rx.segments|, "", rx.open, sha) then Rx(rx.segments + [rx.open], [], false)
    else rx.(failed := true)
  }

  /** downloadShuffleInputsFromService. */
  method Download(chunks: seq<Chunk>, expected: seq<string>, sha: Digest, trim: Trim) returns (ok: bool, segments: seq<seq<Byte>>)
    requires trim("") == ""
    ensures var rx := AtEof(TakeAll(chunks, expected, sha, trim), expected, sha);
      ok == !rx.failed && (ok ==> segments == rx.segments)
  {
    segments := [];
    var segment: seq<Byte> := [];
    var segmentHasData := false;
    for i := 0 to |chunks|
      invariant segmentHasData <==> segment != []
      invariant TakeAll(chunks[..i], expected, sha, trim) == Rx(segments, segment, false)
    {
      assert chunks[..i + 1][..i] == chunks[..i];
      var chunk := chunks[i];
      if chunk.data == [] {
        if segmentHasData {
          var pass := Check(expected, |segments|, trim(chunk.sum), segment, sha);
          if !pass {
            FailureSticks(chunks, i + 1, expected, sha, trim);
            return false, [];
          }
          segments := segments + [segment];
          segment, segmentHasData := [], false;
        }
      } else {
        segmentHasData := true;
        segment := segment + chunk.data;
      }
    }
    assert chunks[..|chunks|] == chunks;
    ok := true;
    if segmentHasData {
      ok := Check(expected, |segments|, "", segment, sha);
      if ok { segments := segments + [segment]; }
    }
  }

  /** A segment is accepted iff every checksum that is given for it, by the assignment or by the stream, is its digest. */
  lemma PassesIff(expected: seq<string>, idx: nat, streamSum: string, bytes: seq<Byte>, sha: Digest)
    ensures Passes(expected, idx, streamSum, bytes, sha) <==>
      (idx < |expected| && expected[idx] != "" ==> expected[idx] == sha(bytes)) && (streamSum != "" ==> streamSum == sha(bytes))
  {
  }

  /** resolveExpectedChecksum followed by validateChecksumHex. */
  method Check(expected: seq<string>, idx: nat, streamSum: string, bytes: seq<Byte>, sha: Digest) returns (pass: bool)
    ensures pass == Passes(expected, idx, streamSum, bytes, sha)
  {
    var fromAssignment := "";
    if idx < |expected| { fromAssignment := expected[idx]; }
    if fromAssignment != "" && streamSum != "" && fromAssignment != streamSum { return false; }
    var want := streamSum;
    if fromAssignment != "" { want := fromAssignment; }
    if want == "" { return true; }
    pass := sha(bytes) == want;
  }

  lemma {:induction false} FailureSticks(chunks: seq<Chunk>, n: nat, expected: seq<string>, sha: Digest, trim: Trim)
    requires n <= |chunks| && TakeAll(chunks[..n], expected, sha, trim).failed
    ensures TakeAll(chunks, expected, sha, trim).failed
    decreases |chunks|
  {
    if n == |chunks| {
      assert chunks[..n] == chunks;
    } else {
      assert chunks[..|chunks| - 1][..n] == chunks[..n];
      FailureSticks(chunks[..|chunks| - 1], n, expected, sha, trim);
    }
  }

  // ---------- against the server's stream ----------

  function NonEmpty(blobs: seq<seq<Byte>>): seq<seq<Byte>> {
    if blobs == [] then []
    else
      var rest, last := NonEmpty(blobs[..|blobs| - 1]), blobs[|blobs| - 1];
      if last != [] then rest + [last] else rest
  }

  predicate AgreesAt(expected: seq<string>, i: nat, segment: seq<Byte>, sha: Digest) {
    Assigned(expected, i) == "" || Assigned(expected, i) == sha(segment)
  }

  /** Wherever the assignment names a checksum, it is the one of the segment at that position. */
  ghost predicate Agrees(expected: seq<string>, segments: seq<seq<Byte>>, sha: Digest) {
    forall i :: 0 <= i < |segments| ==> AgreesAt(expected, i, segments[i], sha)
  }

  lemma {:induction false} TakeFrames(before: seq<Chunk>, frames: seq<Chunk>, job: string, part: int, rx: Rx, expected: seq<string>, sha: Digest, trim: Trim)
    requires DataFrames(frames, job, part) && !rx.failed && TakeAll(before, expected, sha, trim) == rx
    ensures TakeAll(before + frames, expected, sha, trim) == rx.(open := rx.open + Bytes(frames))
  {
    if frames == [] {
      assert before + frames == before;
    } else {
      var front, last := frames[..|frames| - 1], frames[|frames| - 1];
      TakeFrames(before, front, job, part, rx, expected, sha, trim);
      TakeNext(before, front, last, rx, expected, sha, trim);
      assert frames == front + [last];
    }
  }

  lemma TakeNext(before: seq<Chunk>, front: seq<Chunk>, last: Chunk, rx: Rx, expected: seq<string>, sha: Digest, trim: Trim)
    requires last.data != [] && !rx.failed && TakeAll(before + front, expected, sha, trim) == rx.(open := rx.open + Bytes(front))
    ensures TakeAll(before + (front + [last]), expected, sha, trim) == rx.(open := rx.open + Bytes(front + [last]))
  {
    assert before + (front + [last]) == before + front + [last];
    TakeOne(before + front, last, expected, sha, trim);
    BytesOneMore(front, last);
    assert rx.open + (Bytes(front) + last.data) == rx.open + Bytes(front) + last.data;
  }

  lemma BytesOneMore(front: seq<Chunk>, last: Chunk)
    ensures Bytes(front + [last]) == Bytes(front) + last.data
  {
    var all := front + [last];
    assert all[..|all| - 1] == front;
  }

  lemma TakeOne(before: seq<Chunk>, c: Chunk, expected: seq<string>, sha: Digest, trim: Trim)
    ensures TakeAll(before + [c], expected, sha, trim) == Take(TakeAll(before, expected, sha, trim), c, expected, sha, trim)
  {
    var all := before + [c];
    assert all[..|all| - 1] == before && all[|all| - 1] == c;
  }

  /** A segment delimiter. */
  lemma TakeMark(before: seq<Chunk>, mark: Chunk, blob: seq<Byte>, expected: seq<string>, sha: Digest, trim: Trim)
    requires HexDigest(sha, trim) && mark.data == [] && mark.sum == sha(blob)
    requires var rx := TakeAll(before, expected, sha, trim); !rx.failed && rx.open == blob
    ensures var rx := TakeAll(before, expected, sha, trim);
      TakeAll(before + [mark], expected, sha, trim)
      == if blob == [] then rx
         else if AgreesAt(expected, |rx.segments|, blob, sha) then Rx(rx.segments + [blob], [], false)
         else rx.(failed := true)
  {
    TakeOne(before, mark, expected, sha, trim);
  }

  /** One stored blob of the stream. */
  lemma TakeBlob(before: seq<Chunk>, job: string, part: int, blob: seq<Byte>, expected: seq<string>, sha: Digest, trim: Trim)
    requires HexDigest(sha, trim)
    requires var rx := TakeAll(before, expected, sha, trim); !rx.failed && rx.open == []
    ensures var rx := TakeAll(before, expected, sha, trim);
      var next := TakeAll(before + Frames(job, part, blob) + [Chunk(job, part, [], sha(blob))], expected, sha, trim);
      if blob == [] then next == rx
      else if AgreesAt(expected, |rx.segments|, blob, sha) then next == Rx(rx.segments + [blob], [], false)
      else next.failed
  {
    var frames := Frames(job, part, blob);
    FramesHold(job, part, blob);
    TakeFrames(before, frames, job, part, TakeAll(before, expected, sha, trim), expected, sha, trim);
    TakeMark(before + frames, Chunk(job, part, [], sha(blob)), blob, expected, sha, trim);
  }

  lemma {:induction false} TakeStream(job: string, part: int, blobs: seq<seq<Byte>>, expected: seq<string>, sha: Digest, trim: Trim)
    requires HexDigest(sha, trim)
    ensures var rx := TakeAll(StreamOf(job, part, blobs, sha), expected, sha, trim);
      && (!rx.failed <==> Agrees(expected, NonEmpty(blobs), sha))
      && (!rx.failed ==> rx == Rx(NonEmpty(blobs), [], false))
  {
    if blobs != [] {
      var front, last := blobs[..|blobs| - 1], blobs[|blobs| - 1];
      TakeStream(job, part, front, expected, sha, trim);
      var before := StreamOf(job, part, front, sha);
      var all := StreamOf(job, part, blobs, sha);
      assert blobs == front + [last];
      if TakeAll(before, expected, sha, trim).failed {
        assert all[..|before|] == before;
        FailureSticks(all, |before|, expected, sha, trim);
        AgreesPrefix(expected, front, last, sha);
      } else {
        TakeBlob(before, job, part, last, expected, sha, trim);
        AgreesPrefix(expected, front, last, sha);
      }
    }
  }

  lemma AgreesOneMore(expected: seq<string>, segments: seq<seq<Byte>>, last: seq<Byte>, sha: Digest)
    ensures Agrees(expected, segments + [last], sha) <==> Agrees(expected, segments, sha) && AgreesAt(expected, |segments|, last, sha)
  {
    var all := segments + [last];
    assert all[|segments|] == last;
    if Agrees(expected, all, sha) {
      forall i | 0 <= i < |segments| ensures AgreesAt(expected, i, segments[i], sha) { assert all[i] == segments[i]; }
    }
  }

  lemma AgreesPrefix(expected: seq<string>, front: seq<seq<Byte>>, last: seq<Byte>, sha: Digest)
    ensures NonEmpty(front + [last]) == if last != [] then NonEmpty(front) + [last] else NonEmpty(front)
    ensures Agrees(expected, NonEmpty(front + [last]), sha) <==>
      Agrees(expected, NonEmpty(front), sha) && (last != [] ==> AgreesAt(expected, |NonEmpty(front)|, last, sha))
  {
    var blobs := front + [last];
    assert blobs[..|blobs| - 1] == front;
    AgreesOneMore(expected, NonEmpty(front), last, sha);
  }

  /** What the reducer gets from the server: accepted iff every assigned checksum belongs to the segment at its
      position, and then exactly the stored non-empty blobs, each whole and in the order they were pushed. */
  lemma DownloadIffAgrees(job: string, part: int, blobs: seq<seq<Byte>>, expected: seq<string>, sha: Digest, trim: Trim)
    requires HexDigest(sha, trim)
    ensures var rx := AtEof(TakeAll(StreamOf(job, part, blobs, sha), expected, sha, trim), expected, sha);
      && (!rx.failed <==> Agrees(expected, NonEmpty(blobs), sha))
      && (!rx.failed ==> rx.segments == NonEmpty(blobs))
  {
    TakeStream(job, part, blobs, expected, sha, trim);
  }

  /** Position matters: two different outputs pushed in one order and assigned in the other are refused. */
  lemma SwappedOrderRefused(job: string, part: int, a: seq<Byte>, b: seq<Byte>, sha: Digest, trim: Trim)
    requires HexDigest(sha, trim) && a != [] && b != [] && sha(a) != sha(b)
    ensures AtEof(TakeAll(StreamOf(job, part, [b, a], sha), [sha(a), sha(b)], sha, trim), [sha(a), sha(b)], sha).failed
  {
    DownloadIffAgrees(job, part, [b, a], [sha(a), sha(b)], sha, trim);
    AgreesPrefix([sha(a), sha(b)], [b], a, sha);
    AgreesPrefix([sha(a), sha(b)], [], b, sha);
    assert [b] + [a] == [b, a] && [] + [b] == [b];
  }

  /** Counts are not compared: a segment beyond the assigned list is delivered too, so the output of a map attempt
      that pushed and was then retried reaches the reducer twice. */
  lemma RepushedTwice(job: string, part: int, a: seq<Byte>, sha: Digest, trim: Trim)
    requires HexDigest(sha, trim) && a != []
    ensures AtEof(TakeAll(StreamOf(job, part, [a, a], sha), [sha(a)], sha, trim), [sha(a)], sha) == Rx([a, a], [], false)
  {
    DownloadIffAgrees(job, part, [a, a], [sha(a)], sha, trim);
    AgreesPrefix([sha(a)], [a], a, sha);
    AgreesPrefix([sha(a)], [], a, sha);
    assert [a] + [a] == [a, a] && [] + [a] == [a];
    TakeStream(job, part, [a, a], [sha(a)], sha, trim);
  }

  /** With a full assignment, a download is accepted exactly when the stored outputs and the assigned ones agree position
      by position as far as both go: it may still differ from the assignment in its number of segments. */
  lemma AssignedSegmentsMatch(job: string, part: int, blobs: seq<seq<Byte>>, expected: seq<string>, sha: Digest, trim: Trim)
    requires HexDigest(sha, trim) && forall i :: 0 <= i < |expected| ==> expected[i] != ""
    ensures !AtEof(TakeAll(StreamOf(job, part, blobs, sha), expected, sha, trim), expected, sha).failed <==>
      forall i :: 0 <= i < |NonEmpty(blobs)| && i < |expected| ==> sha(NonEmpty(blobs)[i]) == expected[i]
  {
    DownloadIffAgrees(job, part, blobs, expected, sha, trim);
    var segments := NonEmpty(blobs);
    forall i | 0 <= i < |segments|
      ensures AgreesAt(expected, i, segments[i], sha) <==> i >= |expected| || sha(segments[i]) == expected[i]
    {
    }
  }

  function DigestsOf(segments: seq<seq<Byte>>, sha: Digest): seq<string> {
    seq(|segments|, i requires 0 <= i < |segments| => sha(segments[i]))
  }

  /** The reducer gets the assigned list, no more and no less and in order, exactly when every assigned checksum is that of
      the stored output at its position and there are as many outputs as assigned ones. */
  lemma DeliversAssignedIff(job: string, part: int, blobs: seq<seq<Byte>>, expected: seq<string>, sha: Digest, trim: Trim)
    requires HexDigest(sha, trim)
    ensures var rx := AtEof(TakeAll(StreamOf(job, part, blobs, sha), expected, sha, trim), expected, sha);
      !rx.failed && DigestsOf(rx.segments, sha) == expected <==>
        |NonEmpty(blobs)| == |expected| && forall i :: 0 <= i < |expected| ==> sha(NonEmpty(blobs)[i]) == expected[i]
  {
    DownloadIffAgrees(job, part, blobs, expected, sha, trim);
    var segments := NonEmpty(blobs);
    if |segments| == |expected| && forall i :: 0 <= i < |expected| ==> sha(segments[i]) == expected[i] {
      assert DigestsOf(segments, sha) == expected;
      assert forall i :: 0 <= i < |segments| ==> AgreesAt(expected, i, segments[i], sha);
    }
  }

  /** A partial push that is left behind among a partition's outputs: the reducer never gets exactly the assigned list. */
  lemma PartialNeverExact(job: string, part: int, before: seq<seq<Byte>>, partial: seq<Byte>, after: seq<seq<Byte>>, sha: Digest, trim: Trim)
    requires HexDigest(sha, trim) && partial != []
    ensures var expected := DigestsOf(NonEmpty(before + after), sha);
      var rx := AtEof(TakeAll(StreamOf(job, part, before + [partial] + after, sha), expected, sha, trim), expected, sha);
      !(!rx.failed && DigestsOf(rx.segments, sha) == expected)
  {
    DeliversAssignedIff(job, part, before + [partial] + after, DigestsOf(NonEmpty(before + after), sha), sha, trim);
    NonEmptyCount(before, after);
    NonEmptyCount(before + [partial], after);
    NonEmptyCount(before, [partial]);
    assert [partial][..0] == [];
  }

  lemma {:induction false} NonEmptyCount(a: seq<seq<Byte>>, b: seq<seq<Byte>>)
    ensures |NonEmpty(a + b)| == |NonEmpty(a)| + |NonEmpty(b)|
  {
    if b == [] {
      assert a + b == a;
    } else {
      var ab := a + b;
      assert ab[..|ab| - 1] == a + b[..|b| - 1];
      NonEmptyCount(a, b[..|b| - 1]);
    }
  }

  /** After an aborted attempt and its retry the download is refused, unless the partial push has the digest of the whole
      output; then both are delivered. */
  lemma RetryAfterAbort(job: string, part: int, partial: seq<Byte>, whole: seq<Byte>, sha: Digest, trim: Trim)
    requires HexDigest(sha, trim) && partial != [] && whole != []
    ensures var rx := AtEof(TakeAll(StreamOf(job, part, [partial, whole], sha), [sha(whole)], sha, trim), [sha(whole)], sha);
      (!rx.failed <==> sha(partial) == sha(whole)) && (!rx.failed ==> rx.segments == [partial, whole])
  {
    DownloadIffAgrees(job, part, [partial, whole], [sha(whole)], sha, trim);
    AgreesPrefix([sha(whole)], [partial], whole, sha);
    AgreesPrefix([sha(whole)], [], partial, sha);
    assert [partial] + [whole] == [partial, whole] && [] + [partial] == [partial];
  }
}
