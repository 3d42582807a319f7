/** Any number of push streams at once, their chunks interleaved in any order. */
module ShuffleInterleaving {
  import opened Records
  import opened ShuffleChunks
  import opened ShuffleStore

  /** A chunk, the end, or the loss of the stream with this number. */
  datatype Event = Recv(id: nat, chunk: Chunk) | Eof(id: nat) | Lost(id: nat)

  /** `owners[n]` is the stream that `log[n]` came from; `closed` streams are over. */
  datatype State = State(log: seq<Blob>, owners: seq<nat>, pushes: map<nat, Push>, closed: set<nat>)

  const START := State([], [], map[], {})

  function PushOn(s: State, id: nat): Push {
    if id in s.pushes then s.pushes[id] else NEW_PUSH
  }

  function Step(s: State, e: Event): State {
    var push := PushOn(s, e.id);
    match e
    case Recv(id, chunk) =>
      if ReceiveStatus(s.log, push, chunk) == Success
      then s.(pushes := s.pushes[id := Push(chunk.job, chunk.part, push.buf + chunk.data)])
      else s.(closed := s.closed + {id})
    case Eof(id) =>
      if push.job != "" && Fits(s.log, push.job, push.part, |push.buf|)
      then State(s.log + [Blob(push.job, push.part, push.buf)], s.owners + [id], s.pushes, s.closed + {id})
      else s.(closed := s.closed + {id})
    case Lost(id) => s.(closed := s.closed + {id})
  }

  function After(es: seq<Event>): State {
    if es == [] then START else Step(After(es[..|es| - 1]), es[|es| - 1])
  }

  /** Nothing happens on a stream that is over. */
  predicate Proper(es: seq<Event>) {
    es == [] || (Proper(es[..|es| - 1]) && es[|es| - 1].id !in After(es[..|es| - 1]).closed)
  }

  /** The chunks received on one stream, in order. */
  function Received(es: seq<Event>, id: nat): seq<Chunk> {
    if es == [] then []
    else
      var rest, last := Received(es[..|es| - 1], id), es[|es| - 1];
      if last.Recv? && last.id == id then rest + [last.chunk] else rest
  }

  /** What the server has buffered after these chunks. */
  function Buffered(chunks: seq<Chunk>): Push {
    if chunks == [] then NEW_PUSH else Push(chunks[0].job, chunks[0].part, Bytes(chunks))
  }

  predicate OpenOk(es: seq<Event>, s: State, id: nat) {
    id !in s.closed ==> PushOn(s, id) == Buffered(Received(es, id)) && (PushOn(s, id).job == "" ==> Received(es, id) == [])
  }

  /** The n-th accepted push is all that its stream sent, in order, and that stream is over. */
  predicate BlobOk(es: seq<Event>, s: State, n: nat)
    requires n < |s.owners| <= |s.log|
  {
    var chunks := Received(es, s.owners[n]);
    s.owners[n] in s.closed && chunks != [] && s.log[n] == Blob(chunks[0].job, chunks[0].part, Bytes(chunks))
  }

  ghost predicate Ok(es: seq<Event>, s: State) {
    && |s.owners| == |s.log|
    && WithinLimits(s.log)
    && (forall n :: 0 <= n < |s.log| ==> BlobOk(es, s, n))
    && (forall n, m :: 0 <= n < m < |s.owners| ==> s.owners[n] != s.owners[m])
    && (forall id: nat :: OpenOk(es, s, id))
  }

  lemma StepOpen(es: seq<Event>, s: State, e: Event, id: nat)
    requires OpenOk(es, s, id) && e.id !in s.closed
    ensures OpenOk(es + [e], Step(s, e), id)
  {
    var more := es + [e];
    assert more[..|more| - 1] == es;
    if e.Recv? && e.id == id && id !in Step(s, e).closed {
      var chunks := Received(es, id);
      var all := chunks + [e.chunk];
      assert all[..|all| - 1] == chunks && Received(more, id) == all;
      assert Bytes(all) == Bytes(chunks) + e.chunk.data;
    }
  }

  lemma StepBlob(es: seq<Event>, s: State, e: Event, n: nat)
    requires |s.owners| == |s.log| && n < |Step(s, e).log| && e.id !in s.closed
    requires forall m :: 0 <= m < |s.log| ==> BlobOk(es, s, m)
    requires OpenOk(es, s, e.id)
    ensures |Step(s, e).owners| == |Step(s, e).log| && BlobOk(es + [e], Step(s, e), n)
  {
    var more := es + [e];
    assert more[..|more| - 1] == es;
    if n < |s.log| { assert BlobOk(es, s, n); }
  }

  /** Under any interleaving: each accepted push is exactly what one stream sent, no stream is stored twice, and the
      stored bytes of every partition and every job stay within their limits. */
  lemma {:induction false} PushesAreAtomic(es: seq<Event>)
    requires Proper(es)
    ensures Ok(es, After(es))
  {
    if es != [] {
      var front, e := es[..|es| - 1], es[|es| - 1];
      PushesAreAtomic(front);
      var s := After(front);
      assert es == front + [e];
      forall id: nat ensures OpenOk(es, After(es), id) { StepOpen(front, s, e, id); }
      forall n | 0 <= n < |After(es).log| ensures |After(es).owners| == |After(es).log| && BlobOk(es, After(es), n) {
        StepBlob(front, s, e, n);
      }
      var push := PushOn(s, e.id);
      if Fits(s.log, push.job, push.part, |push.buf|) { StoreLimits(s.log, Blob(push.job, push.part, push.buf)); }
      OwnersDistinct(front, s, e);
    }
  }

  lemma OwnersDistinct(es: seq<Event>, s: State, e: Event)
    requires Ok(es, s) && e.id !in s.closed
    ensures |Step(s, e).owners| == |Step(s, e).log|
    ensures forall n, m :: 0 <= n < m < |Step(s, e).owners| ==> Step(s, e).owners[n] != Step(s, e).owners[m]
  {
    forall n | 0 <= n < |s.owners| ensures s.owners[n] != e.id { assert BlobOk(es, s, n); }
  }
}
