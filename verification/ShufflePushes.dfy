/** The push side of a job: all map tasks' partitions sent to one server, in any order. */
module ShufflePushes {
  import opened Records
  import opened ShufflePath
  import opened PartitionLists
  import opened ShuffleStore
  import opened ShuffleDownload
  import opened ShuffleRoundTrip

  /** The write calls a partition's records are sent with, and the records read back from a segment. */
  type Encode = seq<Record> -> seq<seq<Byte>>
  type Decode = seq<Byte> -> seq<Record>

  /** Decoding undoes encoding, and only an empty partition encodes to no bytes. */
  ghost predicate Codec(enc: Encode, dec: Decode) {
    forall rs: seq<Record> :: dec(Flat(enc(rs))) == rs && (Flat(enc(rs)) == [] <==> rs == [])
  }

  /** What each map task writes for partition p. */
  function Writes(runs: seq<seq<Record>>, R: nat, p: nat, enc: Encode): (r: seq<seq<seq<Byte>>>)
    requires R > 0
    ensures |r| == |runs|
  {
    if runs == [] then [] else Writes(runs[..|runs| - 1], R, p, enc) + [enc(OfPartition(runs[|runs| - 1], R, p))]
  }

  function DecodeAll(segments: seq<seq<Byte>>, dec: Decode): seq<seq<Record>> {
    if segments == [] then [] else DecodeAll(segments[..|segments| - 1], dec) + [dec(segments[|segments| - 1])]
  }

  /** The non-empty payloads of partition p decode to the partition's non-empty sorted runs. */
  lemma {:induction false} PayloadsDecode(runs: seq<seq<Record>>, R: nat, p: nat, enc: Encode, dec: Decode)
    requires R > 0 && Codec(enc, dec)
    ensures DecodeAll(NonEmpty(Payloads(Writes(runs, R, p, enc))), dec) == Inputs(runs, R, p)
  {
    if runs != [] {
      var front, mine := runs[..|runs| - 1], OfPartition(runs[|runs| - 1], R, p);
      PayloadsDecode(front, R, p, enc, dec);
      LastPayload(runs, R, p, enc);
      var ne, flat := NonEmpty(Payloads(Writes(front, R, p, enc))), Flat(enc(mine));
      if flat != [] { assert (ne + [flat])[..|ne|] == ne; }
    }
  }

  lemma LastPayload(runs: seq<seq<Record>>, R: nat, p: nat, enc: Encode)
    requires R > 0 && runs != []
    ensures var front, flat := Payloads(Writes(runs[..|runs| - 1], R, p, enc)), Flat(enc(OfPartition(runs[|runs| - 1], R, p)));
      NonEmpty(Payloads(Writes(runs, R, p, enc))) == if flat != [] then NonEmpty(front) + [flat] else NonEmpty(front)
  {
    var w := Writes(runs, R, p, enc);
    assert w[..|w| - 1] == Writes(runs[..|runs| - 1], R, p, enc);
    var all := Payloads(w);
    assert all[..|all| - 1] == Payloads(w[..|w| - 1]);
  }

  lemma {:induction false} SameCount(segments: seq<seq<Byte>>, dec: Decode)
    ensures |DecodeAll(segments, dec)| == |segments|
  {
    if segments != [] { SameCount(segments[..|segments| - 1], dec); }
  }

  // ---------- one server for all partitions of the job ----------

  /** What has been pushed to each partition, in the order it arrived. */
  type Pushed = seq<seq<seq<Byte>>>

  function JobTotal(pay: Pushed): nat {
    if pay == [] then 0 else JobTotal(pay[..|pay| - 1]) + Total(pay[|pay| - 1])
  }

  /** Every partition and the job as a whole are within the server's limits. */
  ghost predicate Fit(pay: Pushed) {
    (forall q :: 0 <= q < |pay| ==> Total(pay[q]) <= MAX_PARTITION_BYTES) && JobTotal(pay) <= MAX_JOB_BYTES
  }

  ghost predicate HoldsPart(log: seq<Blob>, job: string, q: int, payloads: seq<seq<Byte>>) {
    BlobsOf(log, job, q) == NonEmpty(payloads) && PartBytes(log, job, q) == Total(payloads)
  }

  /** A log of accepted pushes holds exactly these payloads of the job; `known` says whether the server knows the job. */
  ghost predicate LogHolds(log: seq<Blob>, known: bool, job: string, pay: Pushed) {
    && (forall q :: 0 <= q < |pay| ==> HoldsPart(log, job, q, pay[q]))
    && JobBytes(log, job) == JobTotal(pay)
    && (known <==> SomePayload(pay))
  }

  ghost predicate HoldsAll(server: ShuffleServer, job: string, pay: Pushed)
    reads server
  {
    server.Valid() && LogHolds(server.log, job in server.data, job, pay)
  }

  ghost predicate SomePayload(pay: Pushed) {
    exists q :: 0 <= q < |pay| && NonEmpty(pay[q]) != []
  }

  function Grown(pay: Pushed, p: nat, x: seq<Byte>): (r: Pushed)
    requires p < |pay|
    ensures |r| == |pay|
  {
    pay[p := pay[p] + [x]]
  }

  lemma OnePayload(payloads: seq<seq<Byte>>, x: seq<Byte>)
    ensures NonEmpty(payloads + [x]) == if x != [] then NonEmpty(payloads) + [x] else NonEmpty(payloads)
    ensures Total(payloads + [x]) == Total(payloads) + |x|
  {
    var more := payloads + [x];
    assert more[..|more| - 1] == payloads;
  }

  lemma {:induction false} JobTotalGrown(pay: Pushed, p: nat, x: seq<Byte>)
    requires p < |pay|
    ensures JobTotal(Grown(pay, p, x)) == JobTotal(pay) + |x|
    decreases |pay|
  {
    var n := |pay| - 1;
    var grown := Grown(pay, p, x);
    if p == n {
      OnePayload(pay[p], x);
      assert grown[..n] == pay[..n];
    } else {
      JobTotalGrown(pay[..n], p, x);
      assert grown[..n] == Grown(pay[..n], p, x);
    }
  }

  lemma FitGrown(pay: Pushed, p: nat, x: seq<Byte>)
    requires p < |pay| && Fit(pay)
    ensures Fit(Grown(pay, p, x)) <==> Total(pay[p]) + |x| <= MAX_PARTITION_BYTES && JobTotal(pay) + |x| <= MAX_JOB_BYTES
  {
    OnePayload(pay[p], x);
    JobTotalGrown(pay, p, x);
    var grown := Grown(pay, p, x);
    assert grown[p] == pay[p] + [x];
    assert forall q :: 0 <= q < |pay| && q != p ==> grown[q] == pay[q];
  }

  lemma SomeGrown(pay: Pushed, p: nat, x: seq<Byte>)
    requires p < |pay|
    ensures SomePayload(Grown(pay, p, x)) <==> SomePayload(pay) || x != []
  {
    OnePayload(pay[p], x);
    var grown := Grown(pay, p, x);
    assert grown[p] == pay[p] + [x];
    if q :| 0 <= q < |pay| && NonEmpty(pay[q]) != [] { assert NonEmpty(grown[q]) != []; }
    if q :| 0 <= q < |pay| && NonEmpty(grown[q]) != [] { assert q == p || NonEmpty(pay[q]) != []; }
    if x != [] { assert NonEmpty(grown[p]) != []; }
  }

  function LogAfter(log: seq<Blob>, job: string, p: nat, x: seq<Byte>): seq<Blob> {
    if x == [] then log else log + [Blob(job, p, x)]
  }

  lemma HoldsGrown(log: seq<Blob>, job: string, pay: Pushed, p: nat, x: seq<Byte>, q: nat)
    requires p < |pay| && q < |pay| && HoldsPart(log, job, q, pay[q])
    ensures HoldsPart(LogAfter(log, job, p, x), job, q, Grown(pay, p, x)[q])
  {
    OnePayload(pay[p], x);
    OneMore(log, Blob(job, p, x), job, q);
  }

  lemma LogGrown(log: seq<Blob>, known: bool, job: string, pay: Pushed, p: nat, x: seq<Byte>)
    requires p < |pay| && LogHolds(log, known, job, pay)
    ensures LogHolds(LogAfter(log, job, p, x), known || x != [], job, Grown(pay, p, x))
  {
    var log2, pay2 := LogAfter(log, job, p, x), Grown(pay, p, x);
    forall q | 0 <= q < |pay| ensures HoldsPart(log2, job, q, pay2[q]) {
      assert HoldsPart(log, job, q, pay[q]);
      HoldsGrown(log, job, pay, p, x, q);
    }
    BytesGrown(log, job, pay, p, x);
    SomeGrown(pay, p, x);
  }

  lemma BytesGrown(log: seq<Blob>, job: string, pay: Pushed, p: nat, x: seq<Byte>)
    requires p < |pay| && JobBytes(log, job) == JobTotal(pay)
    ensures JobBytes(LogAfter(log, job, p, x), job) == JobTotal(Grown(pay, p, x))
  {
    JobTotalGrown(pay, p, x);
    OneMore(log, Blob(job, p, x), job, p);
  }

  /** What the server has room for. */
  lemma RoomIff(log: seq<Blob>, known: bool, job: string, pay: Pushed, p: nat, x: seq<Byte>)
    requires p < |pay| && LogHolds(log, known, job, pay) && Fit(pay)
    ensures Fit(Grown(pay, p, x)) <==> x == [] || Fits(log, job, p, |x|)
  {
    FitGrown(pay, p, x);
    assert HoldsPart(log, job, p, pay[p]);
  }

  /** One map task pushes one partition to the shared server. */
  method PushPart(server: ShuffleServer, pieces: seq<seq<Byte>>, job: string, p: nat, sha: Digest, ghost pay: Pushed)
    returns (ok: bool, checksum: string)
    requires job != "" && HoldsAll(server, job, pay) && p < |pay| && Fit(pay)
    modifies server
    ensures checksum == sha(Flat(pieces))
    ensures ok <==> Fit(Grown(pay, p, Flat(pieces)))
    ensures ok ==> HoldsAll(server, job, Grown(pay, p, Flat(pieces)))
  {
    ghost var log, known := server.log, job in server.data;
    RoomIff(log, known, job, pay, p, Flat(pieces));
    LogGrown(log, known, job, pay, p, Flat(pieces));
    var empty;
    ok, empty, checksum := Send(server, pieces, job, p, sha);
  }

  // ---------- any order of pushes ----------

  /** Map task number `task` closes its writer for partition `part`. */
  datatype Delivery = Delivery(task: nat, part: nat)

  predicate InRange(pushes: seq<Delivery>, M: nat, R: nat) {
    forall i :: 0 <= i < |pushes| ==> pushes[i].task < M && pushes[i].part < R
  }

  /** The bytes a map task sends for partition p. */
  function Payload(run: seq<Record>, R: nat, p: int, enc: Encode): seq<Byte>
    requires R > 0
  {
    Flat(enc(Held(run, R, p)))
  }

  function Nothing(R: nat): (r: Pushed)
    ensures |r| == R && forall p :: 0 <= p < R ==> r[p] == []
  {
    seq(R, _ => [])
  }

  /** What the server is sent by these pushes. */
  function Arrived(pushes: seq<Delivery>, runs: seq<seq<Record>>, R: nat, enc: Encode): (r: Pushed)
    requires R > 0 && InRange(pushes, |runs|, R)
    ensures |r| == R
    decreases |pushes|
  {
    if pushes == [] then Nothing(R)
    else
      var last := pushes[|pushes| - 1];
      Grown(Arrived(pushes[..|pushes| - 1], runs, R, enc), last.part, Payload(runs[last.task], R, last.part, enc))
  }

  lemma OneMorePush(pushes: seq<Delivery>, runs: seq<seq<Record>>, R: nat, enc: Encode, n: nat)
    requires R > 0 && InRange(pushes, |runs|, R) && n < |pushes|
    ensures InRange(pushes[..n], |runs|, R) && InRange(pushes[..n + 1], |runs|, R)
    ensures Arrived(pushes[..n + 1], runs, R, enc)
      == Grown(Arrived(pushes[..n], runs, R, enc), pushes[n].part, Payload(runs[pushes[n].task], R, pushes[n].part, enc))
  {
    var more := pushes[..n + 1];
    assert more[..|more| - 1] == pushes[..n] && more[|more| - 1] == pushes[n];
  }

  /** Pushing more never makes it fit again. */
  lemma UnfitGrown(pay: Pushed, p: nat, x: seq<Byte>)
    requires p < |pay| && Fit(Grown(pay, p, x))
    ensures Fit(pay)
  {
    OnePayload(pay[p], x);
    JobTotalGrown(pay, p, x);
    var grown := Grown(pay, p, x);
    assert grown[p] == pay[p] + [x];
    assert forall q :: 0 <= q < |pay| && q != p ==> grown[q] == pay[q];
  }

  lemma {:induction false} FitBefore(pushes: seq<Delivery>, runs: seq<seq<Record>>, R: nat, enc: Encode, n: nat)
    requires R > 0 && InRange(pushes, |runs|, R) && n <= |pushes| && Fit(Arrived(pushes, runs, R, enc))
    ensures Fit(Arrived(pushes[..n], runs, R, enc))
    decreases |pushes| - n
  {
    if n < |pushes| {
      FitBefore(pushes, runs, R, enc, n + 1);
      OneMorePush(pushes, runs, R, enc, n);
      UnfitGrown(Arrived(pushes[..n], runs, R, enc), pushes[n].part, Payload(runs[pushes[n].task], R, pushes[n].part, enc));
    } else {
      assert pushes[..n] == pushes;
    }
  }

  lemma TooMuch(pushes: seq<Delivery>, runs: seq<seq<Record>>, R: nat, enc: Encode, n: nat)
    requires R > 0 && InRange(pushes, |runs|, R) && n <= |pushes| && !Fit(Arrived(pushes[..n], runs, R, enc))
    ensures !Fit(Arrived(pushes, runs, R, enc))
  {
    if Fit(Arrived(pushes, runs, R, enc)) { FitBefore(pushes, runs, R, enc, n); }
  }

  lemma {:induction false} NoBytes(pay: Pushed)
    requires forall q :: 0 <= q < |pay| ==> pay[q] == []
    ensures JobTotal(pay) == 0
  {
    if pay != [] { NoBytes(pay[..|pay| - 1]); }
  }

  lemma NothingFits(R: nat)
    ensures Fit(Nothing(R)) && !SomePayload(Nothing(R)) && JobTotal(Nothing(R)) == 0
  {
    NoBytes(Nothing(R));
  }

  /** The worker knows the digest of each push. */
  ghost predicate Summed(sums: map<Delivery, string>, pushes: seq<Delivery>, runs: seq<seq<Record>>, R: nat, enc: Encode, sha: Digest)
    requires R > 0 && InRange(pushes, |runs|, R)
  {
    forall i :: 0 <= i < |pushes| ==> pushes[i] in sums && sums[pushes[i]] == sha(Payload(runs[pushes[i].task], R, pushes[i].part, enc))
  }

  /** After the first n pushes. */
  ghost predicate Ready(server: ShuffleServer, job: string, sums: map<Delivery, string>, pushes: seq<Delivery>, runs: seq<seq<Record>>,
                        R: nat, enc: Encode, sha: Digest)
    requires R > 0 && InRange(pushes, |runs|, R)
    reads server
  {
    && HoldsAll(server, job, Arrived(pushes, runs, R, enc)) && Fit(Arrived(pushes, runs, R, enc))
    && Summed(sums, pushes, runs, R, enc, sha)
  }

  lemma SummedMore(sums: map<Delivery, string>, pushes: seq<Delivery>, runs: seq<seq<Record>>, R: nat, enc: Encode, sha: Digest, n: nat, sum: string)
    requires R > 0 && InRange(pushes, |runs|, R) && n < |pushes| && Summed(sums, pushes[..n], runs, R, enc, sha)
    requires sum == sha(Payload(runs[pushes[n].task], R, pushes[n].part, enc))
    ensures Summed(sums[pushes[n] := sum], pushes[..n + 1], runs, R, enc, sha)
  {
    forall i | 0 <= i < n + 1
      ensures pushes[i] in sums[pushes[n] := sum]
      ensures sums[pushes[n] := sum][pushes[i]] == sha(Payload(runs[pushes[i].task], R, pushes[i].part, enc))
    {
      if i < n { assert pushes[..n][i] == pushes[i]; }
    }
  }

  lemma MineIs(parts: map<int, seq<Record>>, run: seq<Record>, R: nat, p: nat)
    requires R > 0 && Written(run, R, parts)
    ensures (if p in parts then parts[p] else []) == Held(run, R, p)
  {
  }

  method PushNext(server: ShuffleServer, parts: seq<map<int, seq<Record>>>, ghost runs: seq<seq<Record>>, R: nat, job: string, enc: Encode, sha: Digest,
                  sums: map<Delivery, string>, pushes: seq<Delivery>, n: nat)
    returns (ok: bool, next: map<Delivery, string>)
    requires R > 0 && |parts| == |runs| && job != "" && InRange(pushes, |runs|, R) && n < |pushes|
    requires forall m :: 0 <= m < |parts| ==> Written(runs[m], R, parts[m])
    requires Ready(server, job, sums, pushes[..n], runs, R, enc, sha)
    modifies server
    ensures ok <==> Fit(Arrived(pushes[..n + 1], runs, R, enc))
    ensures ok ==> Ready(server, job, next, pushes[..n + 1], runs, R, enc, sha)
  {
    var m, p := pushes[n].task, pushes[n].part;
    var mine := if p in parts[m] then parts[m][p] else [];
    MineIs(parts[m], runs[m], R, p);
    OneMorePush(pushes, runs, R, enc, n);
    var sum;
    ok, sum := PushPart(server, enc(mine), job, p, sha, Arrived(pushes[..n], runs, R, enc));
    next := sums[pushes[n] := sum];
    SummedMore(sums, pushes, runs, R, enc, sha, n, sum);
  }

  /** All pushes in the given order: the server takes everything iff every partition and the whole job fit. */
  method PushInOrder(server: ShuffleServer, parts: seq<map<int, seq<Record>>>, ghost runs: seq<seq<Record>>, R: nat, job: string, enc: Encode, sha: Digest,
                     pushes: seq<Delivery>)
    returns (ok: bool, sums: map<Delivery, string>)
    requires R > 0 && |parts| == |runs| && job != "" && InRange(pushes, |runs|, R)
    requires forall m :: 0 <= m < |parts| ==> Written(runs[m], R, parts[m])
    requires server.Valid() && server.log == [] && server.data == map[]
    modifies server
    ensures ok <==> Fit(Arrived(pushes, runs, R, enc))
    ensures ok ==> Ready(server, job, sums, pushes, runs, R, enc, sha)
  {
    sums := map[];
    NothingFits(R);
    for n := 0 to |pushes|
      invariant Ready(server, job, sums, pushes[..n], runs, R, enc, sha)
    {
      ok, sums := PushNext(server, parts, runs, R, job, enc, sha, sums, pushes, n);
      if !ok {
        TooMuch(pushes, runs, R, enc, n + 1);
        return;
      }
    }
    assert pushes[..|pushes|] == pushes;
    ok := true;
  }

  // ---------- what one partition holds ----------

  /** The map tasks in the order their pushes to partition p arrived. */
  function Order(pushes: seq<Delivery>, p: nat): seq<nat> {
    if pushes == [] then []
    else Order(pushes[..|pushes| - 1], p) + if pushes[|pushes| - 1].part == p then [pushes[|pushes| - 1].task] else []
  }

  predicate Below(order: seq<nat>, M: nat) { forall i :: 0 <= i < |order| ==> order[i] < M }

  lemma {:induction false} OrderBelow(pushes: seq<Delivery>, p: nat, M: nat, R: nat)
    requires InRange(pushes, M, R)
    ensures Below(Order(pushes, p), M)
  {
    if pushes != [] { OrderBelow(pushes[..|pushes| - 1], p, M, R); }
  }

  lemma {:induction false} OrderHas(pushes: seq<Delivery>, p: nat, m: nat)
    ensures m in Order(pushes, p) <==> Delivery(m, p) in pushes
  {
    if pushes != [] { OrderHas(pushes[..|pushes| - 1], p, m); }
  }

  function Pick<T>(xs: seq<T>, order: seq<nat>): (r: seq<T>)
    requires Below(order, |xs|)
    ensures |r| == |order| && forall i :: 0 <= i < |order| ==> r[i] == xs[order[i]]
  {
    seq(|order|, i requires 0 <= i < |order| => xs[order[i]])
  }

  lemma PickMore<T>(xs: seq<T>, order: seq<nat>, m: nat)
    requires Below(order, |xs|) && m < |xs|
    ensures Below(order + [m], |xs|) && Pick(xs, order + [m]) == Pick(xs, order) + [xs[m]]
  {
  }

  /** The payloads of partition p in a given order of map tasks. */
  function Queued(runs: seq<seq<Record>>, order: seq<nat>, R: nat, p: nat, enc: Encode): seq<seq<Byte>>
    requires R > 0 && Below(order, |runs|)
  {
    Payloads(Writes(Pick(runs, order), R, p, enc))
  }

  lemma QueuedMore(runs: seq<seq<Record>>, order: seq<nat>, R: nat, p: nat, enc: Encode, m: nat)
    requires R > 0 && Below(order, |runs|) && m < |runs|
    ensures Queued(runs, order + [m], R, p, enc) == Queued(runs, order, R, p, enc) + [Payload(runs[m], R, p, enc)]
  {
    PickMore(runs, order, m);
    OneMoreWrite(Pick(runs, order), runs[m], R, p, enc);
  }

  /** Partition p holds the payloads of the map tasks in the order they arrived. */
  lemma {:induction false} ArrivedIs(pushes: seq<Delivery>, runs: seq<seq<Record>>, R: nat, enc: Encode, p: nat)
    requires R > 0 && InRange(pushes, |runs|, R) && p < R
    ensures Below(Order(pushes, p), |runs|)
    ensures Arrived(pushes, runs, R, enc)[p] == Queued(runs, Order(pushes, p), R, p, enc)
  {
    OrderBelow(pushes, p, |runs|, R);
    if pushes == [] {
      assert Pick(runs, []) == [];
    } else {
      var front, last := pushes[..|pushes| - 1], pushes[|pushes| - 1];
      ArrivedIs(front, runs, R, enc, p);
      ArrivedStep(Arrived(front, runs, R, enc), last, Payload(runs[last.task], R, last.part, enc), p);
      if last.part == p {
        QueuedMore(runs, Order(front, p), R, p, enc, last.task);
      } else {
        assert Order(pushes, p) == Order(front, p);
      }
    }
  }

  lemma ArrivedStep(pay: Pushed, last: Delivery, x: seq<Byte>, p: nat)
    requires last.part < |pay| && p < |pay|
    ensures Grown(pay, last.part, x)[p] == if last.part == p then pay[p] + [x] else pay[p]
  {
  }

  lemma OneMoreWrite(runs: seq<seq<Record>>, run: seq<Record>, R: nat, p: nat, enc: Encode)
    requires R > 0
    ensures Payloads(Writes(runs + [run], R, p, enc)) == Payloads(Writes(runs, R, p, enc)) + [Payload(run, R, p, enc)]
  {
    var more := runs + [run];
    assert more[..|more| - 1] == runs;
    var w := Writes(more, R, p, enc);
    assert w[..|w| - 1] == Writes(runs, R, p, enc);
  }

  lemma {:induction false} SomeArrived(pushes: seq<Delivery>, runs: seq<seq<Record>>, R: nat, enc: Encode, d: Delivery)
    requires R > 0 && InRange(pushes, |runs|, R) && d in pushes && Payload(runs[d.task], R, d.part, enc) != []
    ensures SomePayload(Arrived(pushes, runs, R, enc))
  {
    var front, last := pushes[..|pushes| - 1], pushes[|pushes| - 1];
    if d != last { SomeArrived(front, runs, R, enc, d); }
    SomeGrown(Arrived(front, runs, R, enc), last.part, Payload(runs[last.task], R, last.part, enc));
  }
}
