/** Writer, server and reducer together. */
module ShuffleRoundTrip {
  import opened Records
  import opened ShuffleChunks
  import opened PartitionWriter
  import opened ShuffleStore
  import opened ShuffleDownload

  function Flat(pieces: seq<seq<Byte>>): seq<Byte> {
    if pieces == [] then [] else Flat(pieces[..|pieces| - 1]) + pieces[|pieces| - 1]
  }

  /** What each map task wrote to one partition, from its Write calls. */
  function Payloads(outputs: seq<seq<seq<Byte>>>): (r: seq<seq<Byte>>)
    ensures |r| == |outputs|
  {
    if outputs == [] then [] else Payloads(outputs[..|outputs| - 1]) + [Flat(outputs[|outputs| - 1])]
  }

  function Total(blobs: seq<seq<Byte>>): nat {
    if blobs == [] then 0 else Total(blobs[..|blobs| - 1]) + |blobs[|blobs| - 1]|
  }

  lemma OneMoreOutput(outputs: seq<seq<seq<Byte>>>, m: nat)
    requires m < |outputs|
    ensures Payloads(outputs[..m + 1]) == Payloads(outputs[..m]) + [Flat(outputs[m])]
  {
    assert outputs[..m + 1][..m] == outputs[..m];
  }

  lemma {:induction false} TotalGrows(outputs: seq<seq<seq<Byte>>>, m: nat)
    requires m <= |outputs|
    ensures Total(Payloads(outputs[..m])) <= Total(Payloads(outputs))
    decreases |outputs| - m
  {
    if m < |outputs| {
      OneMoreOutput(outputs, m);
      TotalGrows(outputs, m + 1);
      var next := Payloads(outputs[..m + 1]);
      assert next[..|next| - 1] == Payloads(outputs[..m]);
    } else {
      assert outputs[..m] == outputs;
    }
  }

  /** One map task streams its records and closes; an empty partition opens no stream. */
  method WriteAll(pieces: seq<seq<Byte>>, job: string, part: int, sha: Digest) returns (frames: seq<Chunk>, checksum: string)
    ensures DataFrames(frames, job, part) && Bytes(frames) == Flat(pieces) && checksum == sha(Flat(pieces))
  {
    var writer := new ShufflePartitionWriter(job, part);
    for i := 0 to |pieces|
      invariant fresh(writer) && writer.Valid() && !writer.closed && writer.hashed == Flat(pieces[..i])
      invariant writer.job == job && writer.part == part
    {
      assert pieces[..i + 1][..i] == pieces[..i];
      writer.Write(pieces[i]);
    }
    assert pieces[..|pieces|] == pieces;
    var ok, sum := writer.Close(sha);
    return writer.sent, sum;
  }

  /** A map task that fails after these writes: its open writer is aborted and the server commits a partial push. */
  method WriteAndAbort(server: ShuffleServer, pieces: seq<seq<Byte>>, job: string, part: int) returns (stored: bool)
    requires job != "" && server.Valid()
    modifies server
    ensures server.Valid()
    ensures stored <==> WholeChunks(Flat(pieces)) != [] && old(Fits(server.log, job, part, |WholeChunks(Flat(pieces))|))
    ensures server.log == old(server.log) + if stored then [Blob(job, part, WholeChunks(Flat(pieces)))] else []
  {
    var frames := AbortedFrames(pieces, job, part);
    NoBytesNoFrames(frames, job, part);
    var status := PushAll(server, frames, job, part);
    stored := frames != [] && status == Success;
  }

  method AbortedFrames(pieces: seq<seq<Byte>>, job: string, part: int) returns (frames: seq<Chunk>)
    ensures DataFrames(frames, job, part) && Bytes(frames) == WholeChunks(Flat(pieces))
  {
    var writer := new ShufflePartitionWriter(job, part);
    for i := 0 to |pieces|
      invariant fresh(writer) && writer.Valid() && !writer.closed && writer.hashed == Flat(pieces[..i])
      invariant writer.job == job && writer.part == part
    {
      assert pieces[..i + 1][..i] == pieces[..i];
      writer.Write(pieces[i]);
    }
    assert pieces[..|pieces|] == pieces;
    writer.Abort();
    frames := writer.sent;
  }

  lemma NoBytesNoFrames(frames: seq<Chunk>, job: string, part: int)
    requires DataFrames(frames, job, part)
    ensures frames == [] <==> Bytes(frames) == []
  {
    if frames != [] { assert |frames[|frames| - 1].data| > 0; }
  }

  /** One writer's stream to the server; an empty partition opens none. */
  method Send(server: ShuffleServer, pieces: seq<seq<Byte>>, job: string, part: int, sha: Digest) returns (ok: bool, empty: bool, checksum: string)
    requires job != "" && server.Valid()
    modifies server
    ensures server.Valid() && empty == (Flat(pieces) == []) && checksum == sha(Flat(pieces))
    ensures ok <==> empty || old(Fits(server.log, job, part, |Flat(pieces)|))
    ensures ok ==> server.log == if empty then old(server.log) else old(server.log) + [Blob(job, part, Flat(pieces))]
    ensures ok ==> (job in server.data <==> old(job in server.data) || !empty)
  {
    var frames;
    frames, checksum := WriteAll(pieces, job, part, sha);
    NoBytesNoFrames(frames, job, part);
    var status := PushAll(server, frames, job, part);
    return status == Success, frames == [], checksum;
  }

  /** The server holds exactly these payloads of one partition, and nothing else of the job. */
  ghost predicate HoldsOnly(server: ShuffleServer, job: string, part: int, payloads: seq<seq<Byte>>)
    reads server
  {
    && server.Valid()
    && BlobsOf(server.log, job, part) == NonEmpty(payloads)
    && PartBytes(server.log, job, part) == JobBytes(server.log, job) == Total(payloads)
    && (job in server.data <==> NonEmpty(payloads) != [])
  }

  method PushOne(server: ShuffleServer, pieces: seq<seq<Byte>>, job: string, part: int, sha: Digest,
                 sums: seq<string>, ghost before: seq<seq<Byte>>)
    returns (ok: bool, next: seq<string>)
    requires job != "" && HoldsOnly(server, job, part, before) && Digests(sums, NonEmpty(before), sha)
    requires Total(before) <= MAX_PARTITION_BYTES
    modifies server
    ensures ok <==> Total(before + [Flat(pieces)]) <= MAX_PARTITION_BYTES
    ensures ok ==> HoldsOnly(server, job, part, before + [Flat(pieces)])
    ensures ok ==> Digests(next, NonEmpty(before + [Flat(pieces)]), sha)
  {
    ghost var after, log := before + [Flat(pieces)], server.log;
    assert after[..|after| - 1] == before;
    OneMore(log, Blob(job, part, Flat(pieces)), job, part);
    var empty, checksum;
    ok, empty, checksum := Send(server, pieces, job, part, sha);
    next := if empty then sums else sums + [checksum];
  }

  /** Push every map task's partition and download it again: exactly the non-empty payloads come back, whole and in
      order.  It fails iff they exceed the partition limit or there is no payload at all (the job is then unknown). */
  method RoundTrip(outputs: seq<seq<seq<Byte>>>, job: string, part: int, sha: Digest, trim: Trim)
    returns (ok: bool, segments: seq<seq<Byte>>)
    requires job != "" && HexDigest(sha, trim)
    ensures ok <==> NonEmpty(Payloads(outputs)) != [] && Total(Payloads(outputs)) <= MAX_PARTITION_BYTES
    ensures ok ==> segments == NonEmpty(Payloads(outputs))
  {
    var server := new ShuffleServer();
    var pushed, expected := PushOutputs(server, outputs, job, part, sha);
    if !pushed { return false, []; }
    DigestsAgree(expected, NonEmpty(Payloads(outputs)), sha);
    ok, segments := Fetch(server, Payloads(outputs), job, part, expected, sha, trim);
  }

  method PushOutputs(server: ShuffleServer, outputs: seq<seq<seq<Byte>>>, job: string, part: int, sha: Digest)
    returns (ok: bool, expected: seq<string>)
    requires job != "" && HoldsOnly(server, job, part, [])
    modifies server
    ensures ok <==> Total(Payloads(outputs)) <= MAX_PARTITION_BYTES
    ensures ok ==> HoldsOnly(server, job, part, Payloads(outputs)) && Digests(expected, NonEmpty(Payloads(outputs)), sha)
  {
    expected := [];
    for m := 0 to |outputs|
      invariant HoldsOnly(server, job, part, Payloads(outputs[..m])) && Total(Payloads(outputs[..m])) <= MAX_PARTITION_BYTES
      invariant Digests(expected, NonEmpty(Payloads(outputs[..m])), sha)
    {
      OneMoreOutput(outputs, m);
      ok, expected := PushOne(server, outputs[m], job, part, sha, expected, Payloads(outputs[..m]));
      if !ok {
        TotalGrows(outputs, m + 1);
        return;
      }
    }
    assert outputs[..|outputs|] == outputs;
    ok := true;
  }

  method Fetch(server: ShuffleServer, ghost payloads: seq<seq<Byte>>, job: string, part: int, expected: seq<string>, sha: Digest, trim: Trim)
    returns (ok: bool, segments: seq<seq<Byte>>)
    requires HexDigest(sha, trim) && server.Valid() && BlobsOf(server.log, job, part) == NonEmpty(payloads)
    ensures ok <==> job in server.data && Agrees(expected, NonEmpty(payloads), sha)
    ensures ok ==> segments == NonEmpty(payloads)
  {
    var found, chunks := server.GetShuffleData(job, part, sha);
    if !found { return false, []; }
    DownloadIffAgrees(job, part, NonEmpty(payloads), expected, sha, trim);
    NonEmptyAgain(payloads);
    ok, segments := Download(chunks, expected, sha, trim);
  }

  ghost predicate Digests(sums: seq<string>, blobs: seq<seq<Byte>>, sha: Digest) {
    |sums| == |blobs| && forall i :: 0 <= i < |blobs| ==> sums[i] == sha(blobs[i])
  }

  lemma DigestsAgree(sums: seq<string>, blobs: seq<seq<Byte>>, sha: Digest)
    requires Digests(sums, blobs, sha)
    ensures Agrees(sums, blobs, sha)
  {
  }

  lemma {:induction false} NonEmptyAgain(blobs: seq<seq<Byte>>)
    ensures NonEmpty(NonEmpty(blobs)) == NonEmpty(blobs)
  {
    if blobs != [] {
      var front, last := blobs[..|blobs| - 1], blobs[|blobs| - 1];
      NonEmptyAgain(front);
      var ne := NonEmpty(front) + [last];
      assert ne[..|ne| - 1] == NonEmpty(front);
    }
  }
}
