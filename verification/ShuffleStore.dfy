/** The in-memory shuffle server: what concurrent pushes leave behind, and what a reader is sent. */
module ShuffleStore {
  import opened Records
  import opened ShuffleChunks

  const MAX_PARTITION_BYTES: nat := 0x1000_0000
  const MAX_JOB_BYTES: nat := 0x8000_0000

  /** An accepted push. */
  datatype Blob = Blob(job: string, part: int, data: seq<Byte>)

  /** A push stream in progress; the job is "" until the first chunk. */
  datatype Push = Push(job: string, part: int, buf: seq<Byte>)

  const NEW_PUSH := Push("", 0, [])

  datatype Status = Success | InvalidArgument | ResourceExhausted

  // ---------- what a log of accepted pushes amounts to ----------

  /** The payloads of one partition, in the order they were accepted. */
  function BlobsOf(log: seq<Blob>, job: string, part: int): seq<seq<Byte>> {
    if log == [] then []
    else
      var rest, last := BlobsOf(log[..|log| - 1], job, part), log[|log| - 1];
      if last.job == job && last.part == part then rest + [last.data] else rest
  }

  function PartBytes(log: seq<Blob>, job: string, part: int): nat {
    if log == [] then 0
    else
      var last := log[|log| - 1];
      PartBytes(log[..|log| - 1], job, part) + if last.job == job && last.part == part then |last.data| else 0
  }

  function JobBytes(log: seq<Blob>, job: string): nat {
    if log == [] then 0
    else
      var last := log[|log| - 1];
      JobBytes(log[..|log| - 1], job) + if last.job == job then |last.data| else 0
  }

  ghost predicate WithinLimits(log: seq<Blob>) {
    && (forall job, part :: PartBytes(log, job, part) <= MAX_PARTITION_BYTES)
    && (forall job :: JobBytes(log, job) <= MAX_JOB_BYTES)
  }

  predicate Fits(log: seq<Blob>, job: string, part: int, n: nat) {
    PartBytes(log, job, part) + n <= MAX_PARTITION_BYTES && JobBytes(log, job) + n <= MAX_JOB_BYTES
  }

  /** What one more chunk on a push is answered with, given the pushes accepted so far. */
  function ReceiveStatus(log: seq<Blob>, push: Push, chunk: Chunk): Status {
    if chunk.job == "" then InvalidArgument
    else if push.job != "" && (chunk.job != push.job || chunk.part != push.part) then InvalidArgument
    else if !Fits(log, chunk.job, chunk.part, |push.buf| + |chunk.data|) then ResourceExhausted
    else Success
  }

  // ---------- what a reader is sent ----------

  /** The data frames of one blob. */
  function Frames(job: string, part: int, blob: seq<Byte>): seq<Chunk>
    decreases |blob|
  {
    if |blob| <= CHUNK_BYTES then (if blob == [] then [] else [Chunk(job, part, blob, "")])
    else [Chunk(job, part, blob[..CHUNK_BYTES], "")] + Frames(job, part, blob[CHUNK_BYTES..])
  }

  /** Each blob's frames followed by an empty frame with the blob's digest. */
  function StreamOf(job: string, part: int, blobs: seq<seq<Byte>>, sha: seq<Byte> -> string): seq<Chunk> {
    if blobs == [] then []
    else
      var last := blobs[|blobs| - 1];
      StreamOf(job, part, blobs[..|blobs| - 1], sha) + Frames(job, part, last) + [Chunk(job, part, [], sha(last))]
  }

  lemma {:induction false} FramesHold(job: string, part: int, blob: seq<Byte>)
    ensures DataFrames(Frames(job, part, blob), job, part) && Bytes(Frames(job, part, blob)) == blob
    decreases |blob|
  {
    if |blob| <= CHUNK_BYTES {
      assert blob != [] ==> Frames(job, part, blob)[..0] == [];
    } else {
      var head := [Chunk(job, part, blob[..CHUNK_BYTES], "")];
      FramesHold(job, part, blob[CHUNK_BYTES..]);
      BytesAppend(head, Frames(job, part, blob[CHUNK_BYTES..]));
      assert head[..0] == [];
      assert blob == blob[..CHUNK_BYTES] + blob[CHUNK_BYTES..];
    }
  }

  // ---------- what the server keeps of the log ----------

  type Data = map<string, map<int, seq<seq<Byte>>>>
  type PartSizes = map<string, map<int, nat>>
  type JobSizes = map<string, nat>

  function Stored(data: Data, job: string, part: int): seq<seq<Byte>> {
    if job in data && part in data[job] then data[job][part] else []
  }

  function PartSize(sizes: PartSizes, job: string, part: int): nat {
    if job in sizes && part in sizes[job] then sizes[job][part] else 0
  }

  function JobSize(sizes: JobSizes, job: string): nat {
    if job in sizes then sizes[job] else 0
  }

  ghost predicate DataAgrees(data: Data, log: seq<Blob>) {
    forall job, part :: Stored(data, job, part) == BlobsOf(log, job, part)
  }

  ghost predicate PartsAgree(sizes: PartSizes, log: seq<Blob>) {
    forall job, part :: PartSize(sizes, job, part) == PartBytes(log, job, part)
  }

  ghost predicate JobsAgree(sizes: JobSizes, log: seq<Blob>) {
    forall job :: JobSize(sizes, job) == JobBytes(log, job)
  }

  /** One more accepted push, seen from one partition. */
  lemma OneMore(log: seq<Blob>, b: Blob, job: string, part: int)
    ensures BlobsOf(log + [b], job, part) == BlobsOf(log, job, part) + if b.job == job && b.part == part then [b.data] else []
    ensures PartBytes(log + [b], job, part) == PartBytes(log, job, part) + if b.job == job && b.part == part then |b.data| else 0
    ensures JobBytes(log + [b], job) == JobBytes(log, job) + if b.job == job then |b.data| else 0
  {
    var more := log + [b];
    assert more[..|more| - 1] == log && more[|more| - 1] == b;
  }

  lemma StoreData(data: Data, log: seq<Blob>, b: Blob)
    requires DataAgrees(data, log) && b.job in data
    ensures DataAgrees(data[b.job := data[b.job][b.part := Stored(data, b.job, b.part) + [b.data]]], log + [b])
  {
    var next := data[b.job := data[b.job][b.part := Stored(data, b.job, b.part) + [b.data]]];
    forall job, part ensures Stored(next, job, part) == BlobsOf(log + [b], job, part) { OneMore(log, b, job, part); }
  }

  lemma StoreParts(sizes: PartSizes, log: seq<Blob>, b: Blob, row: map<int, nat>)
    requires PartsAgree(sizes, log) && b.job in sizes
    requires row == sizes[b.job][b.part := PartSize(sizes, b.job, b.part) + |b.data|]
    ensures PartsAgree(sizes[b.job := row], log + [b])
  {
    var next := sizes[b.job := row];
    forall job, part ensures PartSize(next, job, part) == PartBytes(log + [b], job, part) {
      OneMore(log, b, job, part);
      assert PartSize(next, job, part) == PartSize(sizes, job, part) + if b.job == job && b.part == part then |b.data| else 0;
    }
  }

  lemma StoreJob(sizes: JobSizes, log: seq<Blob>, b: Blob)
    requires JobsAgree(sizes, log)
    ensures JobsAgree(sizes[b.job := JobSize(sizes, b.job) + |b.data|], log + [b])
  {
    forall job ensures JobSize(sizes[b.job := JobSize(sizes, b.job) + |b.data|], job) == JobBytes(log + [b], job) {
      OneMore(log, b, job, 0);
    }
  }

  lemma StoreLimits(log: seq<Blob>, b: Blob)
    requires WithinLimits(log) && Fits(log, b.job, b.part, |b.data|)
    ensures WithinLimits(log + [b])
  {
    forall job, part ensures PartBytes(log + [b], job, part) <= MAX_PARTITION_BYTES { OneMore(log, b, job, part); }
    forall job ensures JobBytes(log + [b], job) <= MAX_JOB_BYTES { OneMore(log, b, job, 0); }
  }

  /** `log` is the history of accepted pushes; the three maps are what the server keeps of it. */
  class ShuffleServer {
    var data: Data
    var jobSizes: JobSizes
    var partSizes: PartSizes
    ghost var log: seq<Blob>

    /** The maps agree with the history, and the history stays within both limits. */
    ghost predicate Valid()
      reads this
    {
      DataAgrees(data, log) && PartsAgree(partSizes, log) && JobsAgree(jobSizes, log) && WithinLimits(log)
    }

    constructor ()
      ensures Valid() && log == [] && data == map[]
    {
      data, jobSizes, partSizes, log := map[], map[], map[], [];
    }

    /** One chunk of a push; other pushes may commit between any two chunks. */
    method Receive(push: Push, chunk: Chunk) returns (next: Push, status: Status)
      requires Valid()
      ensures status == ReceiveStatus(log, push, chunk)
      ensures status == Success ==> next == Push(chunk.job, chunk.part, push.buf + chunk.data)
    {
      next := push;
      if chunk.job == "" { return next, InvalidArgument; }
      if next.job == "" { next := next.(job := chunk.job, part := chunk.part); }
      if chunk.job != next.job || chunk.part != next.part { return next, InvalidArgument; }
      var incoming := |next.buf| + |chunk.data|;
      if incoming > MAX_PARTITION_BYTES { return next, ResourceExhausted; }
      if PartSize(partSizes, next.job, next.part) + incoming > MAX_PARTITION_BYTES { return next, ResourceExhausted; }
      if JobSize(jobSizes, next.job) + incoming > MAX_JOB_BYTES { return next, ResourceExhausted; }
      return next.(buf := next.buf + chunk.data), Success;
    }

    /** End of a push: all of it is stored, or nothing is. */
    method Finish(push: Push) returns (status: Status)
      requires Valid()
      modifies this
      ensures Valid()
      ensures status == if push.job == "" || old(Fits(log, push.job, push.part, |push.buf|)) then Success else ResourceExhausted
      ensures log == if status == Success && push.job != "" then old(log) + [Blob(push.job, push.part, push.buf)] else old(log)
      ensures data.Keys == old(data.Keys) + if push.job == "" then {} else {push.job}
    {
      if push.job == "" { return Success; }
      var job, part := push.job, push.part;
      if job !in data { data := data[job := map[]]; }
      if job !in partSizes { partSizes := partSizes[job := map[]]; }
      var newPart: nat := PartSize(partSizes, job, part) + |push.buf|;
      var newJob := JobSize(jobSizes, job) + |push.buf|;
      if newPart > MAX_PARTITION_BYTES || newJob > MAX_JOB_BYTES { return ResourceExhausted; }
      Store(Blob(job, part, push.buf));
      return Success;
    }

    method Store(blob: Blob)
      requires Valid() && blob.job in data && blob.job in partSizes && Fits(log, blob.job, blob.part, |blob.data|)
      modifies this
      ensures Valid() && log == old(log) + [blob] && data.Keys == old(data.Keys)
    {
      var newData := data[blob.job := data[blob.job][blob.part := Stored(data, blob.job, blob.part) + [blob.data]]];
      var row: map<int, nat> := partSizes[blob.job][blob.part := PartSize(partSizes, blob.job, blob.part) + |blob.data|];
      var newParts := partSizes[blob.job := row];
      var newJobs := jobSizes[blob.job := JobSize(jobSizes, blob.job) + |blob.data|];
      ghost var newLog := log + [blob];
      assert DataAgrees(newData, newLog) by { StoreData(data, log, blob); }
      assert PartsAgree(newParts, newLog) by { StoreParts(partSizes, log, blob, row); }
      assert JobsAgree(newJobs, newLog) by { StoreJob(jobSizes, log, blob); }
      assert WithinLimits(newLog) by { StoreLimits(log, blob); }
      data, partSizes, jobSizes, log := newData, newParts, newJobs, newLog;
    }

    /** NotFound for an unknown job; otherwise the partition's blobs in the order they were accepted, one delimiter each. */
    method GetShuffleData(job: string, part: int, sha: seq<Byte> -> string) returns (found: bool, out: seq<Chunk>)
      requires Valid()
      ensures found == (job in data)
      ensures out == if found then StreamOf(job, part, BlobsOf(log, job, part), sha) else []
    {
      out := [];
      if job !in data { return false, out; }
      assert Stored(data, job, part) == BlobsOf(log, job, part);
      if part !in data[job] { return true, out; }
      var blobs := data[job][part];
      for n := 0 to |blobs|
        invariant out == StreamOf(job, part, blobs[..n], sha)
      {
        assert blobs[..n + 1][..n] == blobs[..n];
        var frames := SendBlob(job, part, blobs[n]);
        out := out + frames + [Chunk(job, part, [], sha(blobs[n]))];
      }
      assert blobs[..|blobs|] == blobs;
      return true, out;
    }
  }

  lemma NextFrame(job: string, part: int, blob: seq<Byte>, n: nat)
    requires blob != [] && n == if |blob| < CHUNK_BYTES then |blob| else CHUNK_BYTES
    ensures Frames(job, part, blob) == [Chunk(job, part, blob[..n], "")] + Frames(job, part, blob[n..])
  {
    if |blob| <= CHUNK_BYTES { assert blob[..n] == blob && blob[n..] == []; }
  }

  method SendBlob(job: string, part: int, blob: seq<Byte>) returns (out: seq<Chunk>)
    ensures out == Frames(job, part, blob)
  {
    out := [];
    var i := 0;
    while i < |blob|
      invariant 0 <= i <= |blob| && out + Frames(job, part, blob[i..]) == Frames(job, part, blob)
    {
      var end := i + CHUNK_BYTES;
      if end > |blob| { end := |blob|; }
      assert blob[i..][..end - i] == blob[i..end] && blob[i..][end - i..] == blob[end..];
      NextFrame(job, part, blob[i..], end - i);
      out := out + [Chunk(job, part, blob[i..end], "")];
      i := end;
    }
  }

  /** A whole push from one writer, alone on the stream: the stored blob is exactly what was written. */
  method PushAll(server: ShuffleServer, frames: seq<Chunk>, job: string, part: int) returns (status: Status)
    requires server.Valid() && job != "" && DataFrames(frames, job, part)
    modifies server
    ensures server.Valid()
    ensures status == Success ==> server.log == old(server.log) + (if frames == [] then [] else [Blob(job, part, Bytes(frames))])
    ensures status != Success ==> server.log == old(server.log)
    ensures status == Success ==> server.data.Keys == old(server.data.Keys) + if frames == [] then {} else {job}
    ensures status == Success <==> frames == [] || old(Fits(server.log, job, part, |Bytes(frames)|))
  {
    var push := NEW_PUSH;
    for n := 0 to |frames|
      invariant server.Valid() && server.log == old(server.log) && server.data == old(server.data)
      invariant n == 0 ==> push == NEW_PUSH
      invariant n > 0 ==> push == Push(job, part, Bytes(frames[..n]))
      invariant n > 0 ==> Fits(server.log, job, part, |Bytes(frames[..n])|)
    {
      assert frames[..n + 1][..n] == frames[..n];
      assert frames == frames[..n + 1] + frames[n + 1..];
      BytesAppend(frames[..n + 1], frames[n + 1..]);
      var next, st := server.Receive(push, frames[n]);
      if st != Success { return st; }
      push := next;
    }
    assert frames[..|frames|] == frames;
    status := server.Finish(push);
  }
}
