/** Chunks on the shuffle streams. */
module ShuffleChunks {
  import opened Records

  const CHUNK_BYTES: nat := 0x10_0000

  /** One frame; `sum` is set on segment delimiters only. */
  datatype Chunk = Chunk(job: string, part: int, data: seq<Byte>, sum: string)

  /** The bytes carried by a list of frames. */
  function Bytes(chunks: seq<Chunk>): seq<Byte> {
    if chunks == [] then [] else Bytes(chunks[..|chunks| - 1]) + chunks[|chunks| - 1].data
  }

  lemma {:induction false} BytesAppend(a: seq<Chunk>, b: seq<Chunk>)
    ensures Bytes(a + b) == Bytes(a) + Bytes(b)
  {
    if b == [] {
      assert a + b == a;
    } else {
      var ab := a + b;
      assert ab[..|ab| - 1] == a + b[..|b| - 1];
      BytesAppend(a, b[..|b| - 1]);
    }
  }

  predicate AllFull(chunks: seq<Chunk>) {
    forall i :: 0 <= i < |chunks| ==> |chunks[i].data| == CHUNK_BYTES
  }

  lemma {:induction false} FullBytes(chunks: seq<Chunk>)
    requires AllFull(chunks)
    ensures |Bytes(chunks)| == |chunks| * CHUNK_BYTES
  {
    if chunks != [] { FullBytes(chunks[..|chunks| - 1]); }
  }

  /** The whole chunks of a payload. */
  function WholeChunks(x: seq<Byte>): (r: seq<Byte>)
    ensures r <= x && |r| % CHUNK_BYTES == 0 && |x| - |r| < CHUNK_BYTES
  {
    x[..|x| - |x| % CHUNK_BYTES]
  }

  lemma WholeIff(x: seq<Byte>)
    ensures WholeChunks(x) == x <==> |x| % CHUNK_BYTES == 0
    ensures WholeChunks(x) == [] <==> |x| < CHUNK_BYTES
  {
  }

  lemma Quotient(n: nat, rest: nat)
    requires rest < CHUNK_BYTES
    ensures (n * CHUNK_BYTES + rest) % CHUNK_BYTES == rest
  {
  }

  /** Every frame is addressed to (job, part), is not empty and is at most one chunk long. */
  predicate DataFrames(chunks: seq<Chunk>, job: string, part: int) {
    forall i :: 0 <= i < |chunks| ==>
      chunks[i].job == job && chunks[i].part == part && 0 < |chunks[i].data| <= CHUNK_BYTES
  }
}
