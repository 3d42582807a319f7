/** The streaming partition writer of a map task. */
module PartitionWriter {
  import opened Records
  import opened ShuffleChunks

  /** `sent` is what went out on the push stream; `hashed` is what the running digest has consumed. */
  class ShufflePartitionWriter {
    const job: string
    const part: int
    var sent: seq<Chunk>
    var buf: seq<Byte>
    var hashed: seq<Byte>
    var closed: bool

    /** What was sent and what waits are together what was hashed, and less than one chunk waits. */
    ghost predicate Valid()
      reads this
    {
      && Bytes(sent) + buf == hashed
      && |buf| < CHUNK_BYTES
      && DataFrames(sent, job, part)
      && (!closed ==> AllFull(sent))
    }

    constructor (job: string, part: int)
      ensures Valid() && hashed == [] && sent == [] && !closed && this.job == job && this.part == part
    {
      this.job, this.part := job, part;
      sent, buf, hashed, closed := [], [], [], false;
    }

    method Send(data: seq<Byte>)
      requires 0 < |data| <= CHUNK_BYTES && DataFrames(sent, job, part)
      modifies this`sent
      ensures DataFrames(sent, job, part) && Bytes(sent) == old(Bytes(sent)) + data
      ensures old(AllFull(sent)) && |data| == CHUNK_BYTES ==> AllFull(sent)
    {
      sent := sent + [Chunk(job, part, data, "")];
    }

    method Write(p: seq<Byte>)
      requires Valid() && !closed
      modifies this`sent, this`buf, this`hashed
      ensures Valid() && hashed == old(hashed) + p
    {
      hashed := hashed + p;
      buf := buf + p;
      while |buf| >= CHUNK_BYTES
        invariant Bytes(sent) + buf == hashed && DataFrames(sent, job, part) && AllFull(sent)
        invariant hashed == old(hashed) + p
      {
        ghost var before := buf;
        Send(buf[..CHUNK_BYTES]);
        buf := buf[CHUNK_BYTES..];
        assert before == before[..CHUNK_BYTES] + buf;
      }
    }

    /** On success everything written has been sent, and the reported checksum is the digest of exactly that. */
    method Close(sha: seq<Byte> -> string) returns (ok: bool, checksum: string)
      requires Valid()
      modifies this`sent, this`buf, this`closed
      ensures Valid() && closed && ok == !old(closed)
      ensures ok ==> Bytes(sent) == hashed && checksum == sha(hashed)
      ensures !ok ==> sent == old(sent) && buf == old(buf)
    {
      if closed { return false, ""; }
      closed := true;
      if |buf| > 0 {
        Send(buf);
        buf := [];
      }
      return true, sha(hashed);
    }

    /** Abort of a writer that was not closed: the stream ends where it is, and what waits in the buffer is never sent.  The
        server sees an ordinary end of stream, so it keeps the whole chunks of what was written. */
    method Abort()
      requires Valid()
      modifies this`closed
      ensures Valid() && closed
      ensures !old(closed) ==> Bytes(sent) == WholeChunks(hashed)
    {
      if closed { return; }
      FullBytes(sent);
      Quotient(|sent|, |buf|);
      closed := true;
    }
  }
}
