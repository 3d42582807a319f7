/** Mapper output to reducer input: the sort path, the shuffle server, and the checksum lists that the manager assigns.

    The map tasks are numbered in the order their completions commit.  Their pushes may reach the server in any other
    order.  Reduce task p fetches partition p, and checks the segments against the p-th checksum of every map task's
    report, in commit order; without any such checksum it is skipped. */
module ShuffleEndToEnd {
  import opened Records
  import opened Merge
  import opened HashPartition
  import opened ShufflePath
  import opened PartitionLists
  import opened ShuffleStore
  import opened ShuffleDownload
  import opened ShuffleRoundTrip
  import opened ShufflePushes

  // ---------- what the manager assigns ----------

  /** The checksums a map task reports: one per non-empty partition, ascending. */
  function Report(run: seq<Record>, R: nat, enc: Encode, sha: Digest): (r: seq<string>)
    requires R > 0
    ensures |r| == |Parts(run, R, R)| && forall n :: 0 <= n < |r| ==> r[n] == sha(Payload(run, R, Parts(run, R, R)[n], enc))
  {
    var parts := Parts(run, R, R);
    seq(|parts|, n requires 0 <= n < |parts| => sha(Payload(run, R, parts[n], enc)))
  }

  /** The entry of one report that carries index p. */
  function RowOf(report: seq<string>, p: nat): seq<string> {
    if p < |report| then [report[p]] else []
  }

  /** The checksums assigned to reduce task p, in commit order. */
  function Expected(runs: seq<seq<Record>>, R: nat, enc: Encode, sha: Digest, p: nat): seq<string>
    requires R > 0
  {
    if runs == [] then []
    else Expected(runs[..|runs| - 1], R, enc, sha, p) + RowOf(Report(runs[|runs| - 1], R, enc, sha), p)
  }

  /** The segments stored for partition p, in the order they arrived. */
  function Blobs(pushes: seq<Delivery>, runs: seq<seq<Record>>, R: nat, enc: Encode, p: nat): seq<seq<Byte>>
    requires R > 0 && InRange(pushes, |runs|, R) && p < R
  {
    NonEmpty(Arrived(pushes, runs, R, enc)[p])
  }

  /** The assigned checksums are those of the stored segments as far as both go, and a skipped partition is empty. */
  ghost predicate Harmless(pushes: seq<Delivery>, runs: seq<seq<Record>>, R: nat, enc: Encode, sha: Digest, p: nat)
    requires R > 0 && InRange(pushes, |runs|, R) && p < R
  {
    var expected, blobs := Expected(runs, R, enc, sha, p), Blobs(pushes, runs, R, enc, p);
    Agrees(expected, blobs, sha) && (expected == [] ==> blobs == [])
  }

  method ReportOf(order: seq<int>, parts: map<int, seq<Record>>, ghost run: seq<Record>, R: nat, ghost enc: Encode, ghost sha: Digest, m: nat,
                  sums: map<Delivery, string>)
    returns (report: seq<string>)
    requires R > 0 && Written(run, R, parts) && Lists(order, parts) && Strict(order)
    requires forall p: nat :: p < R ==> Delivery(m, p) in sums && sums[Delivery(m, p)] == sha(Payload(run, R, p, enc))
    ensures report == Report(run, R, enc, sha)
  {
    MapTaskReports(run, R, order, parts);
    PartsOrdered(run, R, R);
    report := [];
    for n := 0 to |order|
      invariant |report| == n && forall i :: 0 <= i < n ==> report[i] == sha(Payload(run, R, order[i], enc))
    {
      var p: nat := order[n];
      report := report + [sums[Delivery(m, p)]];
    }
  }

  // ---------- what the reducers get ----------

  datatype Outcome = Skipped | Refused | Got(stream: seq<Record>)

  /** What one reducer ends with, given its assigned checksums and the segments stored for it. */
  ghost predicate OutcomeIs(expected: seq<string>, payloads: seq<seq<Byte>>, inputs: seq<seq<Record>>, sha: Digest, o: Outcome) {
    && (o.Skipped? <==> expected == [])
    && (o.Refused? <==> expected != [] && !Agrees(expected, NonEmpty(payloads), sha))
    && (o.Got? ==> StableSortOf(o.stream, Concat(inputs)))
  }

  /** Partition p fetched from a server that holds these map tasks' payloads, against any assigned list. */
  method ReduceFromServer(server: ShuffleServer, ghost runs: seq<seq<Record>>, R: nat, p: nat, job: string, expected: seq<string>,
                          ghost enc: Encode, dec: Decode, sha: Digest, trim: Trim, batch: int)
    returns (ok: bool, stream: seq<Record>)
    requires R > 0 && AllSorted(runs) && Codec(enc, dec) && HexDigest(sha, trim)
    requires server.Valid() && BlobsOf(server.log, job, p) == NonEmpty(Payloads(Writes(runs, R, p, enc)))
    ensures ok <==> job in server.data && Agrees(expected, NonEmpty(Payloads(Writes(runs, R, p, enc))), sha)
    ensures ok ==> StableSortOf(stream, Concat(Inputs(runs, R, p)))
  {
    PayloadsDecode(runs, R, p, enc, dec);
    var found, segments := Fetch(server, Payloads(Writes(runs, R, p, enc)), job, p, expected, sha, trim);
    if !found { return false, []; }
    var inputs := DecodeSegments(segments, dec);
    InputsHold(runs, R, p);
    var out, _ := MergeInputs(inputs, batch);
    return true, out;
  }

  method DecodeSegments(segments: seq<seq<Byte>>, dec: Decode) returns (streams: seq<seq<Record>>)
    ensures streams == DecodeAll(segments, dec)
  {
    streams := [];
    for i := 0 to |segments|
      invariant streams == DecodeAll(segments[..i], dec)
    {
      assert segments[..i + 1][..i] == segments[..i];
      streams := streams + [dec(segments[i])];
    }
    assert segments[..|segments|] == segments;
  }

  /** A reducer with an assigned checksum finds the job on the server. */
  lemma {:induction false} SomeReport(runs: seq<seq<Record>>, R: nat, enc: Encode, sha: Digest, p: nat) returns (m: nat)
    requires R > 0 && Expected(runs, R, enc, sha, p) != []
    ensures m < |runs| && p < |Parts(runs[m], R, R)|
  {
    var n := |runs| - 1;
    if p < |Report(runs[n], R, enc, sha)| { m := n; } else { m := SomeReport(runs[..n], R, enc, sha, p); }
  }

  lemma ReportedPart(run: seq<Record>, R: nat, enc: Encode, dec: Decode, p: nat) returns (q: nat)
    requires R > 0 && Codec(enc, dec) && p < |Parts(run, R, R)|
    ensures q < R && Payload(run, R, q, enc) != []
  {
    PartsOrdered(run, R, R);
    q := Parts(run, R, R)[p];
    PartsHas(run, R, R, q);
  }

  lemma JobKnown(pushes: seq<Delivery>, runs: seq<seq<Record>>, R: nat, enc: Encode, dec: Decode, sha: Digest, p: nat)
    requires R > 0 && AllPushed(pushes, |runs|, R) && Codec(enc, dec) && Expected(runs, R, enc, sha, p) != []
    ensures SomePayload(Arrived(pushes, runs, R, enc))
  {
    var m := SomeReport(runs, R, enc, sha, p);
    var q := ReportedPart(runs[m], R, enc, dec, p);
    PushedOnce(pushes, |runs|, R, m, q);
    SomeArrived(pushes, runs, R, enc, Delivery(m, q));
  }

  method ReduceOne(server: ShuffleServer, ghost pushes: seq<Delivery>, ghost runs: seq<seq<Record>>, R: nat, p: nat, job: string, expected: seq<string>,
                   ghost enc: Encode, dec: Decode, sha: Digest, trim: Trim, batch: int)
    returns (o: Outcome)
    requires R > 0 && p < R && AllSorted(runs) && AllPushed(pushes, |runs|, R) && Codec(enc, dec) && HexDigest(sha, trim)
    requires HoldsAll(server, job, Arrived(pushes, runs, R, enc)) && expected == Expected(runs, R, enc, sha, p)
    ensures ReducedAs(pushes, runs, R, enc, sha, p, o)
  {
    ghost var mine := StoredFor(server.log, job in server.data, job, pushes, runs, R, enc, dec, sha, p);
    if |expected| == 0 { return Skipped; }
    var ok, stream := ReduceFromServer(server, mine, R, p, job, expected, enc, dec, sha, trim, batch);
    o := if ok then Got(stream) else Refused;
  }

  /** What the server has for reducer p, and that it knows the job if the reducer was assigned anything. */
  lemma StoredFor(log: seq<Blob>, known: bool, job: string, pushes: seq<Delivery>, runs: seq<seq<Record>>, R: nat, enc: Encode, dec: Decode, sha: Digest, p: nat)
    returns (mine: seq<seq<Record>>)
    requires R > 0 && p < R && AllSorted(runs) && AllPushed(pushes, |runs|, R) && Codec(enc, dec)
    requires LogHolds(log, known, job, Arrived(pushes, runs, R, enc))
    ensures Below(Order(pushes, p), |runs|) && mine == Pick(runs, Order(pushes, p)) && AllSorted(mine)
    ensures Arrived(pushes, runs, R, enc)[p] == Payloads(Writes(mine, R, p, enc))
    ensures BlobsOf(log, job, p) == NonEmpty(Payloads(Writes(mine, R, p, enc)))
    ensures Expected(runs, R, enc, sha, p) != [] ==> known
  {
    ArrivedIs(pushes, runs, R, enc, p);
    mine := Pick(runs, Order(pushes, p));
    assert HoldsPart(log, job, p, Arrived(pushes, runs, R, enc)[p]);
    if Expected(runs, R, enc, sha, p) != [] { JobKnown(pushes, runs, R, enc, dec, sha, p); }
  }

  /** The outcome of reduce task p for these pushes and this commit order. */
  ghost predicate ReducedAs(pushes: seq<Delivery>, runs: seq<seq<Record>>, R: nat, enc: Encode, sha: Digest, p: nat, o: Outcome)
    requires R > 0 && p < R && InRange(pushes, |runs|, R)
  {
    && Below(Order(pushes, p), |runs|)
    && OutcomeIs(Expected(runs, R, enc, sha, p), Arrived(pushes, runs, R, enc)[p], Inputs(Pick(runs, Order(pushes, p)), R, p), sha, o)
  }

  // ---------- every partition pushed once ----------

  function Upto(M: nat): (r: seq<nat>)
    ensures |r| == M && forall i :: 0 <= i < M ==> r[i] == i
  {
    seq(M, i => i)
  }

  /** Every map task pushes every partition exactly once, in any order. */
  ghost predicate AllPushed(pushes: seq<Delivery>, M: nat, R: nat) {
    InRange(pushes, M, R) && forall p: nat :: p < R ==> multiset(Order(pushes, p)) == multiset(Upto(M))
  }

  lemma PushedOnce(pushes: seq<Delivery>, M: nat, R: nat, m: nat, p: nat)
    requires AllPushed(pushes, M, R) && m < M && p < R
    ensures Delivery(m, p) in pushes
  {
    assert Upto(M)[m] == m;
    assert m in multiset(Upto(M));
    assert m in multiset(Order(pushes, p));
    OrderHas(pushes, p, m);
  }

  function Without(s: seq<nat>, i: nat): (r: seq<nat>)
    requires i < |s|
    ensures |r| == |s| - 1
  {
    s[..i] + s[i + 1..]
  }

  lemma DropOne(s: seq<nat>, i: nat)
    requires i < |s|
    ensures multiset(Without(s, i)) == multiset(s) - multiset{s[i]}
  {
    assert s == s[..i] + [s[i]] + s[i + 1..];
    assert multiset(s) == multiset(Without(s, i)) + multiset{s[i]};
  }

  lemma ConcatDrop(outputs: seq<seq<Record>>, t: seq<nat>, i: nat)
    requires Below(t, |outputs|) && i < |t|
    ensures Below(Without(t, i), |outputs|)
    ensures multiset(Concat(Pick(outputs, t))) == multiset(Concat(Pick(outputs, Without(t, i)))) + multiset(outputs[t[i]])
  {
    var a, b, x := Pick(outputs, t[..i]), Pick(outputs, t[i + 1..]), outputs[t[i]];
    assert Pick(outputs, t) == a + ([x] + b);
    assert Pick(outputs, Without(t, i)) == a + b;
    ConcatAppend(a, [x] + b);
    ConcatAppend([x], b);
    ConcatAppend(a, b);
    assert Concat([x]) == x;
  }

  /** Two orders of the same tasks: take the first task of one out of both. */
  lemma MatchFirst(s: seq<nat>, t: seq<nat>) returns (i: nat)
    requires multiset(s) == multiset(t) && s != []
    ensures i < |t| && t[i] == s[0] && multiset(Without(s, 0)) == multiset(Without(t, i))
  {
    assert s[0] in multiset(t);
    i :| 0 <= i < |t| && t[i] == s[0];
    DropOne(s, 0);
    DropOne(t, i);
  }

  /** The order of the map tasks does not change which records there are. */
  lemma {:induction false} PickPermutes(outputs: seq<seq<Record>>, s: seq<nat>, t: seq<nat>)
    requires Below(s, |outputs|) && Below(t, |outputs|) && multiset(s) == multiset(t)
    ensures multiset(Concat(Pick(outputs, s))) == multiset(Concat(Pick(outputs, t)))
    decreases |s|
  {
    if s == [] {
      SameLength(s, t);
    } else {
      var i := MatchFirst(s, t);
      ConcatDrop(outputs, s, 0);
      ConcatDrop(outputs, t, i);
      PickPermutes(outputs, Without(s, 0), Without(t, i));
    }
  }

  lemma SameLength(s: seq<nat>, t: seq<nat>)
    requires multiset(s) == multiset(t)
    ensures |s| == |t|
  {
    assert |s| == |multiset(s)| && |t| == |multiset(t)|;
  }

  lemma PickAll(outputs: seq<seq<Record>>)
    ensures Below(Upto(|outputs|), |outputs|) && Pick(outputs, Upto(|outputs|)) == outputs
  {
  }

  lemma PickSame(outputs: seq<seq<Record>>, runs: seq<seq<Record>>, order: seq<nat>)
    requires AllSorted(runs) && |runs| == |outputs| && Below(order, |runs|)
    requires forall m :: 0 <= m < |runs| ==> multiset(runs[m]) == multiset(outputs[m])
    ensures AllSorted(Pick(runs, order)) && |Pick(runs, order)| == |Pick(outputs, order)|
    ensures forall i :: 0 <= i < |order| ==> multiset(Pick(runs, order)[i]) == multiset(Pick(outputs, order)[i])
  {
    forall i | 0 <= i < |order| ensures multiset(Pick(runs, order)[i]) == multiset(Pick(outputs, order)[i]) {
      assert Pick(runs, order)[i] == runs[order[i]] && Pick(outputs, order)[i] == outputs[order[i]];
    }
  }

  /** A stream that is right for the map tasks in arrival order is right. */
  lemma DeliverPicked(outputs: seq<seq<Record>>, runs: seq<seq<Record>>, order: seq<nat>, R: nat, p: nat, stream: seq<Record>)
    requires R > 0 && AllSorted(runs) && |runs| == |outputs| && Below(order, |runs|) && multiset(order) == multiset(Upto(|runs|))
    requires forall m :: 0 <= m < |runs| ==> multiset(runs[m]) == multiset(outputs[m])
    requires StableSortOf(stream, Concat(Inputs(Pick(runs, order), R, p)))
    ensures Delivered(outputs, R, p, stream)
  {
    PickSame(outputs, runs, order);
    Deliver(Pick(outputs, order), Pick(runs, order), R, p, stream);
    PickAll(outputs);
    PickPermutes(outputs, order, Upto(|outputs|));
  }

  // ---------- when every reducer gets its records ----------

  /** The reducer works on exactly the records of its partition; one that is skipped works on none. */
  ghost predicate Right(outputs: seq<seq<Record>>, R: nat, p: nat, o: Outcome)
    requires R > 0
  {
    match o
    case Skipped => Delivered(outputs, R, p, [])
    case Refused => false
    case Got(stream) => Delivered(outputs, R, p, stream)
  }

  lemma {:induction false} InputsOccur(runs: seq<seq<Record>>, R: nat, p: nat) returns (r: Record)
    requires R > 0 && Inputs(runs, R, p) != []
    ensures r in Concat(runs) && Partition(r.key, R) == p
  {
    var front, last := runs[..|runs| - 1], runs[|runs| - 1];
    assert runs == front + [last];
    ConcatAppend(front, [last]);
    assert Concat([last]) == last;
    if OfPartition(last, R, p) != [] {
      r := OfPartition(last, R, p)[0];
      OfPartitionIn(last, R, p);
      InPartition(last, R, p);
    } else {
      r := InputsOccur(front, R, p);
    }
  }

  /** Without input the empty stream is right, and with input it is not. */
  lemma EmptyRightIff(outputs: seq<seq<Record>>, runs: seq<seq<Record>>, order: seq<nat>, R: nat, p: nat)
    requires R > 0 && AllSorted(runs) && |runs| == |outputs| && Below(order, |runs|) && multiset(order) == multiset(Upto(|runs|))
    requires forall m :: 0 <= m < |runs| ==> multiset(runs[m]) == multiset(outputs[m])
    ensures Delivered(outputs, R, p, []) <==> Inputs(Pick(runs, order), R, p) == []
  {
    var mine := Pick(runs, order);
    if Inputs(mine, R, p) == [] {
      assert Concat(Inputs(mine, R, p)) == [];
      DeliverPicked(outputs, runs, order, R, p, []);
    } else {
      var r := InputsOccur(mine, R, p);
      assert r in multiset(Concat(mine));
      PickAll(runs);
      PickPermutes(runs, order, Upto(|runs|));
      RunsPermute(runs, outputs);
      assert multiset(Concat(outputs))[r] > 0 && multiset([])[r] == 0;
    }
  }

  /** Reducer p gets exactly its records iff partition p is harmless. */
  lemma RightIff(outputs: seq<seq<Record>>, runs: seq<seq<Record>>, pushes: seq<Delivery>, R: nat, enc: Encode, dec: Decode, sha: Digest, p: nat, o: Outcome)
    requires R > 0 && p < R && AllSorted(runs) && |runs| == |outputs| && AllPushed(pushes, |runs|, R) && Codec(enc, dec)
    requires forall m :: 0 <= m < |runs| ==> multiset(runs[m]) == multiset(outputs[m])
    requires ReducedAs(pushes, runs, R, enc, sha, p, o)
    ensures Right(outputs, R, p, o) <==> Harmless(pushes, runs, R, enc, sha, p)
  {
    var order := Order(pushes, p);
    match o {
      case Refused =>
      case Got(stream) => DeliverPicked(outputs, runs, order, R, p, stream);
      case Skipped =>
        EmptyRightIff(outputs, runs, order, R, p);
        BlobsEmptyIff(pushes, runs, R, enc, dec, p);
        NothingExpected(Blobs(pushes, runs, R, enc, p), sha);
    }
  }

  lemma NothingExpected(blobs: seq<seq<Byte>>, sha: Digest)
    ensures Agrees([], blobs, sha)
  {
  }

  lemma BlobsEmptyIff(pushes: seq<Delivery>, runs: seq<seq<Record>>, R: nat, enc: Encode, dec: Decode, p: nat)
    requires R > 0 && p < R && InRange(pushes, |runs|, R) && Codec(enc, dec) && Below(Order(pushes, p), |runs|)
    ensures Blobs(pushes, runs, R, enc, p) == [] <==> Inputs(Pick(runs, Order(pushes, p)), R, p) == []
  {
    ArrivedIs(pushes, runs, R, enc, p);
    PayloadsDecode(Pick(runs, Order(pushes, p)), R, p, enc, dec);
    ShufflePushes.SameCount(Blobs(pushes, runs, R, enc, p), dec);
  }

  /** The whole shuffle: the pushes succeed iff every partition and the job fit; then every reducer gets exactly its records
      iff every partition is harmless. */
  method ShuffleThroughServer(outputs: seq<seq<Record>>, pushes: seq<Delivery>, totalReducers: int, threshold: int, batch: int, job: string,
                              enc: Encode, dec: Decode, sha: Digest, trim: Trim)
    returns (pushed: bool, outcomes: seq<Outcome>, ghost runs: seq<seq<Record>>)
    requires job != "" && Codec(enc, dec) && HexDigest(sha, trim) && AllPushed(pushes, |outputs|, Reducers(totalReducers))
    ensures |runs| == |outputs| && forall m :: 0 <= m < |runs| ==> Sorted(runs[m]) && multiset(runs[m]) == multiset(outputs[m])
    ensures pushed <==> Fit(Arrived(pushes, runs, Reducers(totalReducers), enc))
    ensures pushed ==> AllReduced(pushes, runs, Reducers(totalReducers), enc, sha, outcomes)
    ensures pushed ==> (AllRight(outputs, Reducers(totalReducers), outcomes) <==> AllHarmless(pushes, runs, Reducers(totalReducers), enc, sha))
  {
    var R := Reducers(totalReducers);
    var orders, parts;
    orders, parts, runs := MapTasks(outputs, totalReducers, threshold);
    var server := new ShuffleServer();
    var sums;
    pushed, sums := PushInOrder(server, parts, runs, R, job, enc, sha, pushes);
    outcomes := [];
    if pushed {
      var reports := AllReports(orders, parts, runs, R, enc, sha, pushes, sums);
      outcomes := ReduceAll(server, pushes, runs, R, batch, job, reports, enc, dec, sha, trim);
      AllRightIff(outputs, runs, pushes, R, enc, dec, sha, outcomes);
    }
  }

  ghost predicate AllReduced(pushes: seq<Delivery>, runs: seq<seq<Record>>, R: nat, enc: Encode, sha: Digest, outcomes: seq<Outcome>)
    requires R > 0 && InRange(pushes, |runs|, R)
  {
    |outcomes| == R && ReducedSoFar(pushes, runs, R, enc, sha, outcomes)
  }

  ghost predicate AllRight(outputs: seq<seq<Record>>, R: nat, outcomes: seq<Outcome>)
    requires R > 0
  {
    forall p :: 0 <= p < |outcomes| ==> Right(outputs, R, p, outcomes[p])
  }

  ghost predicate AllHarmless(pushes: seq<Delivery>, runs: seq<seq<Record>>, R: nat, enc: Encode, sha: Digest)
    requires R > 0 && InRange(pushes, |runs|, R)
  {
    forall p :: 0 <= p < R ==> Harmless(pushes, runs, R, enc, sha, p)
  }

  lemma AllRightIff(outputs: seq<seq<Record>>, runs: seq<seq<Record>>, pushes: seq<Delivery>, R: nat, enc: Encode, dec: Decode, sha: Digest, outcomes: seq<Outcome>)
    requires R > 0 && AllSorted(runs) && |runs| == |outputs| && AllPushed(pushes, |runs|, R) && Codec(enc, dec)
    requires forall m :: 0 <= m < |runs| ==> multiset(runs[m]) == multiset(outputs[m])
    requires AllReduced(pushes, runs, R, enc, sha, outcomes)
    ensures AllRight(outputs, R, outcomes) <==> AllHarmless(pushes, runs, R, enc, sha)
  {
    forall p | 0 <= p < R ensures Right(outputs, R, p, outcomes[p]) <==> Harmless(pushes, runs, R, enc, sha, p) {
      RightIff(outputs, runs, pushes, R, enc, dec, sha, p, outcomes[p]);
    }
  }

  /** Every report, in commit order. */
  ghost predicate ReportsAre(reports: seq<seq<string>>, runs: seq<seq<Record>>, R: nat, enc: Encode, sha: Digest)
    requires R > 0
  {
    |reports| == |runs| && forall m :: 0 <= m < |runs| ==> reports[m] == Report(runs[m], R, enc, sha)
  }

  method AllReports(orders: seq<seq<int>>, parts: seq<map<int, seq<Record>>>, ghost runs: seq<seq<Record>>, R: nat, ghost enc: Encode, ghost sha: Digest,
                    ghost pushes: seq<Delivery>, sums: map<Delivery, string>)
    returns (reports: seq<seq<string>>)
    requires R > 0 && |orders| == |parts| == |runs| && AllPushed(pushes, |runs|, R) && Summed(sums, pushes, runs, R, enc, sha)
    requires forall m :: 0 <= m < |runs| ==> Written(runs[m], R, parts[m]) && Lists(orders[m], parts[m]) && Strict(orders[m])
    ensures ReportsAre(reports, runs, R, enc, sha)
  {
    reports := [];
    for m := 0 to |orders|
      invariant ReportsAre(reports, runs[..m], R, enc, sha)
    {
      SumsOfTask(pushes, runs, R, enc, sha, sums, m);
      var report := ReportOf(orders[m], parts[m], runs[m], R, enc, sha, m, sums);
      OneMoreReport(reports, runs, R, enc, sha, m, report);
      reports := reports + [report];
    }
    assert runs[..|runs|] == runs;
  }

  lemma OneMoreReport(reports: seq<seq<string>>, runs: seq<seq<Record>>, R: nat, enc: Encode, sha: Digest, m: nat, report: seq<string>)
    requires R > 0 && m < |runs| && ReportsAre(reports, runs[..m], R, enc, sha) && report == Report(runs[m], R, enc, sha)
    ensures ReportsAre(reports + [report], runs[..m + 1], R, enc, sha)
  {
    var more := reports + [report];
    forall i | 0 <= i < m + 1 ensures more[i] == Report(runs[..m + 1][i], R, enc, sha) {
      if i < m { assert more[i] == reports[i] && runs[..m][i] == runs[..m + 1][i]; }
    }
  }

  lemma SumsOfTask(pushes: seq<Delivery>, runs: seq<seq<Record>>, R: nat, enc: Encode, sha: Digest, sums: map<Delivery, string>, m: nat)
    requires R > 0 && AllPushed(pushes, |runs|, R) && Summed(sums, pushes, runs, R, enc, sha) && m < |runs|
    ensures forall p: nat :: p < R ==> Delivery(m, p) in sums && sums[Delivery(m, p)] == sha(Payload(runs[m], R, p, enc))
  {
    forall p: nat | p < R ensures Delivery(m, p) in sums && sums[Delivery(m, p)] == sha(Payload(runs[m], R, p, enc)) {
      PushedOnce(pushes, |runs|, R, m, p);
      var i :| 0 <= i < |pushes| && pushes[i] == Delivery(m, p);
    }
  }

  /** The rows of index p of every report. */
  method AssignedTo(reports: seq<seq<string>>, p: nat, ghost runs: seq<seq<Record>>, R: nat, ghost enc: Encode, ghost sha: Digest) returns (list: seq<string>)
    requires R > 0 && ReportsAre(reports, runs, R, enc, sha)
    ensures list == Expected(runs, R, enc, sha, p)
  {
    list := [];
    for m := 0 to |reports|
      invariant list == Expected(runs[..m], R, enc, sha, p)
    {
      assert runs[..m + 1][..m] == runs[..m];
      if p < |reports[m]| { list := list + [reports[m][p]]; }
    }
    assert runs[..|runs|] == runs;
  }

  method ReduceAll(server: ShuffleServer, ghost pushes: seq<Delivery>, ghost runs: seq<seq<Record>>, R: nat, batch: int, job: string, reports: seq<seq<string>>,
                   ghost enc: Encode, dec: Decode, sha: Digest, trim: Trim)
    returns (outcomes: seq<Outcome>)
    requires R > 0 && AllSorted(runs) && AllPushed(pushes, |runs|, R) && Codec(enc, dec) && HexDigest(sha, trim)
    requires HoldsAll(server, job, Arrived(pushes, runs, R, enc)) && ReportsAre(reports, runs, R, enc, sha)
    ensures AllReduced(pushes, runs, R, enc, sha, outcomes)
  {
    outcomes := [];
    for p := 0 to R
      invariant |outcomes| == p && ReducedSoFar(pushes, runs, R, enc, sha, outcomes)
    {
      var expected := AssignedTo(reports, p, runs, R, enc, sha);
      var o := ReduceOne(server, pushes, runs, R, p, job, expected, enc, dec, sha, trim, batch);
      ReducedMore(pushes, runs, R, enc, sha, outcomes, o);
      outcomes := outcomes + [o];
    }
  }

  ghost predicate ReducedSoFar(pushes: seq<Delivery>, runs: seq<seq<Record>>, R: nat, enc: Encode, sha: Digest, outcomes: seq<Outcome>)
    requires R > 0 && InRange(pushes, |runs|, R) && |outcomes| <= R
  {
    forall p :: 0 <= p < |outcomes| ==> ReducedAs(pushes, runs, R, enc, sha, p, outcomes[p])
  }

  lemma ReducedMore(pushes: seq<Delivery>, runs: seq<seq<Record>>, R: nat, enc: Encode, sha: Digest, outcomes: seq<Outcome>, o: Outcome)
    requires R > 0 && InRange(pushes, |runs|, R) && |outcomes| < R && ReducedSoFar(pushes, runs, R, enc, sha, outcomes)
    requires ReducedAs(pushes, runs, R, enc, sha, |outcomes|, o)
    ensures ReducedSoFar(pushes, runs, R, enc, sha, outcomes + [o])
  {
    var more := outcomes + [o];
    forall p | 0 <= p < |more| ensures ReducedAs(pushes, runs, R, enc, sha, p, more[p]) {
      if p < |outcomes| { assert more[p] == outcomes[p]; }
    }
  }

  // ---------- runs that are harmless, and runs that are not ----------

  /** A map task without a gap reports partition p at position p. */
  lemma GapFreeRow(run: seq<Record>, R: nat, enc: Encode, dec: Decode, sha: Digest, p: nat)
    requires R > 0 && GapFree(run, R) && Codec(enc, dec)
    ensures RowOf(Report(run, R, enc, sha), p) == if Payload(run, R, p, enc) != [] then [sha(Payload(run, R, p, enc))] else []
  {
    GapFreeParts(run, R, p);
  }

  lemma GapFreeParts(run: seq<Record>, R: nat, p: nat)
    requires R > 0 && GapFree(run, R)
    ensures p < |Parts(run, R, R)| <==> OfPartition(run, R, p) != []
    ensures p < |Parts(run, R, R)| ==> Parts(run, R, R)[p] == p
  {
    var parts := Parts(run, R, R);
    PartsAre(run, R);
    GapFreeIff(run, R);
    PositionIsPartition(parts);
    assert p < |parts| ==> parts[p] in parts;
  }

  lemma {:induction false} GapFreeExpected(runs: seq<seq<Record>>, R: nat, enc: Encode, dec: Decode, sha: Digest, p: nat)
    requires R > 0 && Codec(enc, dec) && forall m :: 0 <= m < |runs| ==> GapFree(runs[m], R)
    ensures InOrder(runs, R, enc, sha, p)
  {
    if runs != [] {
      var front, last := runs[..|runs| - 1], runs[|runs| - 1];
      GapFreeExpected(front, R, enc, dec, sha, p);
      GapFreeOneMore(runs, front, last, R, enc, dec, sha, p);
    }
  }

  /** The assigned checksums are the digests of the non-empty payloads in commit order. */
  ghost predicate InOrder(runs: seq<seq<Record>>, R: nat, enc: Encode, sha: Digest, p: nat)
    requires R > 0
  {
    Expected(runs, R, enc, sha, p) == DigestsOf(NonEmpty(Payloads(Writes(runs, R, p, enc))), sha)
  }

  lemma GapFreeOneMore(runs: seq<seq<Record>>, front: seq<seq<Record>>, last: seq<Record>, R: nat, enc: Encode, dec: Decode, sha: Digest, p: nat)
    requires R > 0 && Codec(enc, dec) && GapFree(last, R) && runs == front + [last] && InOrder(front, R, enc, sha, p)
    ensures InOrder(runs, R, enc, sha, p)
  {
    ExpectedMore(front, last, R, enc, sha, p);
    GapFreeRow(last, R, enc, dec, sha, p);
    DigestsMore(front, last, R, enc, sha, p);
  }

  lemma ExpectedMore(front: seq<seq<Record>>, last: seq<Record>, R: nat, enc: Encode, sha: Digest, p: nat)
    requires R > 0
    ensures Expected(front + [last], R, enc, sha, p) == Expected(front, R, enc, sha, p) + RowOf(Report(last, R, enc, sha), p)
  {
    var all := front + [last];
    assert all[..|all| - 1] == front && all[|all| - 1] == last;
  }

  lemma DigestsMore(front: seq<seq<Record>>, last: seq<Record>, R: nat, enc: Encode, sha: Digest, p: nat)
    requires R > 0
    ensures DigestsOf(NonEmpty(Payloads(Writes(front + [last], R, p, enc))), sha)
      == DigestsOf(NonEmpty(Payloads(Writes(front, R, p, enc))), sha)
         + if Payload(last, R, p, enc) != [] then [sha(Payload(last, R, p, enc))] else []
  {
    OneMoreWrite(front, last, R, p, enc);
    OnePayload(Payloads(Writes(front, R, p, enc)), Payload(last, R, p, enc));
    OneMoreDigest(NonEmpty(Payloads(Writes(front, R, p, enc))), Payload(last, R, p, enc), sha);
  }

  lemma OneMoreDigest(blobs: seq<seq<Byte>>, x: seq<Byte>, sha: Digest)
    ensures DigestsOf(blobs + [x], sha) == DigestsOf(blobs, sha) + [sha(x)]
  {
  }

  /** If no map task leaves a gap and every partition's pushes arrive in commit order, every reducer gets its records. */
  lemma GapFreeHarmless(pushes: seq<Delivery>, runs: seq<seq<Record>>, R: nat, enc: Encode, dec: Decode, sha: Digest, p: nat)
    requires R > 0 && p < R && InRange(pushes, |runs|, R) && Codec(enc, dec) && Order(pushes, p) == Upto(|runs|)
    requires forall m :: 0 <= m < |runs| ==> GapFree(runs[m], R)
    ensures Harmless(pushes, runs, R, enc, sha, p)
  {
    ArrivedIs(pushes, runs, R, enc, p);
    PickAll(runs);
    GapFreeExpected(runs, R, enc, dec, sha, p);
    var blobs := Blobs(pushes, runs, R, enc, p);
    assert |DigestsOf(blobs, sha)| == |blobs|;
    forall i | 0 <= i < |blobs| ensures AgreesAt(DigestsOf(blobs, sha), i, blobs[i], sha) {
      assert DigestsOf(blobs, sha)[i] == sha(blobs[i]);
    }
  }

  lemma ExpectedTwo(a: seq<Record>, b: seq<Record>, R: nat, enc: Encode, sha: Digest, p: nat)
    requires R > 0
    ensures Expected([a, b], R, enc, sha, p) == RowOf(Report(a, R, enc, sha), p) + RowOf(Report(b, R, enc, sha), p)
  {
    ExpectedMore([], a, R, enc, sha, p);
    ExpectedMore([a], b, R, enc, sha, p);
    assert [] + [a] == [a] && [a] + [b] == [a, b];
  }

  lemma PayloadsTwo(a: seq<Record>, b: seq<Record>, R: nat, enc: Encode, p: nat)
    requires R > 0
    ensures Payloads(Writes([a, b], R, p, enc)) == [Payload(a, R, p, enc), Payload(b, R, p, enc)]
  {
    OneMoreWrite([], a, R, p, enc);
    OneMoreWrite([a], b, R, p, enc);
    assert [] + [a] == [a] && [a] + [b] == [a, b];
  }

  lemma NonEmptyTwo(x: seq<Byte>, y: seq<Byte>)
    requires y != []
    ensures NonEmpty([x, y]) == if x != [] then [x, y] else [y]
  {
    OnePayload([], x);
    OnePayload([x], y);
    assert [] + [x] == [x] && [x] + [y] == [x, y] && [] + [y] == [y];
  }

  lemma NonEmptyFirst(x: seq<Byte>)
    requires x != []
    ensures NonEmpty([x, []]) == [x]
  {
    OnePayload([], x);
    OnePayload([x], []);
    assert [] + [x] == [x] && [x] + [[]] == [x, []];
  }

  /** The report of a map task with two partitions. */
  lemma PartsOfTwo(run: seq<Record>)
    ensures Parts(run, 2, 2) == (if OfPartition(run, 2, 0) != [] then [0] else []) + (if OfPartition(run, 2, 1) != [] then [1] else [])
  {
    assert Parts(run, 2, 0) == [];
    assert Parts(run, 2, 1) == if OfPartition(run, 2, 0) != [] then [0] else [];
  }

  /** The first task fills both partitions, the second only partition 1. */
  predicate OneGap(a: seq<Record>, b: seq<Record>) {
    OfPartition(a, 2, 0) != [] && OfPartition(a, 2, 1) != [] && OfPartition(b, 2, 0) == [] && OfPartition(b, 2, 1) != []
  }

  lemma OneGapExpected(a: seq<Record>, b: seq<Record>, enc: Encode, sha: Digest)
    requires OneGap(a, b)
    ensures Expected([a, b], 2, enc, sha, 0) == [sha(Payload(a, 2, 0, enc)), sha(Payload(b, 2, 1, enc))]
    ensures Expected([a, b], 2, enc, sha, 1) == [sha(Payload(a, 2, 1, enc))]
  {
    ExpectedTwo(a, b, 2, enc, sha, 0);
    ExpectedTwo(a, b, 2, enc, sha, 1);
    BothRows(a, enc, sha);
    LastRow(b, enc, sha);
  }

  lemma BothRows(run: seq<Record>, enc: Encode, sha: Digest)
    requires OfPartition(run, 2, 0) != [] && OfPartition(run, 2, 1) != []
    ensures Report(run, 2, enc, sha) == [sha(Payload(run, 2, 0, enc)), sha(Payload(run, 2, 1, enc))]
  {
    PartsOfTwo(run);
    assert Parts(run, 2, 2) == [0, 1];
  }

  lemma LastRow(run: seq<Record>, enc: Encode, sha: Digest)
    requires OfPartition(run, 2, 0) == [] && OfPartition(run, 2, 1) != []
    ensures Report(run, 2, enc, sha) == [sha(Payload(run, 2, 1, enc))]
  {
    PartsOfTwo(run);
    assert Parts(run, 2, 2) == [1];
  }

  lemma OneGapStored(a: seq<Record>, b: seq<Record>, enc: Encode, dec: Decode)
    requires OneGap(a, b) && Codec(enc, dec)
    ensures NonEmpty(Payloads(Writes([a, b], 2, 0, enc))) == [Payload(a, 2, 0, enc)]
    ensures NonEmpty(Payloads(Writes([a, b], 2, 1, enc))) == [Payload(a, 2, 1, enc), Payload(b, 2, 1, enc)]
  {
    PayloadsTwo(a, b, 2, enc, 0);
    PayloadsTwo(a, b, 2, enc, 1);
    NonEmptyFirst(Payload(a, 2, 0, enc));
    NonEmptyTwo(Payload(a, 2, 1, enc), Payload(b, 2, 1, enc));
  }

  /** A gap need not do harm: the second task has one, and both reducers get their records. */
  lemma HarmlessGap(pushes: seq<Delivery>, a: seq<Record>, b: seq<Record>, enc: Encode, dec: Decode, sha: Digest, p: nat)
    requires p < 2 && InRange(pushes, 2, 2) && Codec(enc, dec) && Order(pushes, p) == [0, 1] && OneGap(a, b)
    ensures !GapFree(b, 2) && Harmless(pushes, [a, b], 2, enc, sha, p)
  {
    assert 0 < 1 && OfPartition(b, 2, 1) != [] && OfPartition(b, 2, 0) == [];
    StoredTwo(pushes, a, b, 2, enc, p, [0, 1]);
    OneGapAgrees(a, b, enc, dec, sha, p);
  }

  lemma OneGapAgrees(a: seq<Record>, b: seq<Record>, enc: Encode, dec: Decode, sha: Digest, p: nat)
    requires p < 2 && OneGap(a, b) && Codec(enc, dec)
    ensures Expected([a, b], 2, enc, sha, p) != []
    ensures Agrees(Expected([a, b], 2, enc, sha, p), NonEmpty(Payloads(Writes([a, b], 2, p, enc))), sha)
  {
    OneGapExpected(a, b, enc, sha);
    OneGapStored(a, b, enc, dec);
    if p == 0 {
      AgreesShort(Payload(a, 2, 0, enc), sha(Payload(b, 2, 1, enc)), sha);
    } else {
      AgreesLong(Payload(a, 2, 1, enc), Payload(b, 2, 1, enc), sha);
    }
  }

  lemma AgreesShort(x: seq<Byte>, e: string, sha: Digest)
    ensures Agrees([sha(x), e], [x], sha)
  {
  }

  lemma AgreesLong(x: seq<Byte>, y: seq<Byte>, sha: Digest)
    ensures Agrees([sha(x)], [x, y], sha)
  {
    assert AgreesAt([sha(x)], 0, x, sha) && AgreesAt([sha(x)], 1, y, sha);
  }

  /** What partition p holds of two map tasks. */
  lemma StoredTwo(pushes: seq<Delivery>, a: seq<Record>, b: seq<Record>, R: nat, enc: Encode, p: nat, order: seq<nat>)
    requires R > 0 && p < R && InRange(pushes, 2, R) && Order(pushes, p) == order && (order == [0, 1] || order == [1, 0])
    ensures Blobs(pushes, [a, b], R, enc, p) == NonEmpty(Payloads(Writes(if order == [0, 1] then [a, b] else [b, a], R, p, enc)))
  {
    ArrivedIs(pushes, [a, b], R, enc, p);
    PickTwo(a, b);
  }

  lemma PickTwo(a: seq<Record>, b: seq<Record>)
    ensures Below([0, 1], 2) && Pick([a, b], [0, 1]) == [a, b] && Below([1, 0], 2) && Pick([a, b], [1, 0]) == [b, a]
  {
  }

  /** Another arrival order does harm: two outputs of a partition that arrive in the other order than they commit. */
  lemma SwappedPushHarms(pushes: seq<Delivery>, a: seq<Record>, b: seq<Record>, R: nat, enc: Encode, dec: Decode, sha: Digest, trim: Trim)
    requires R > 0 && InRange(pushes, 2, R) && Codec(enc, dec) && HexDigest(sha, trim) && Order(pushes, 0) == [1, 0]
    requires OfPartition(a, R, 0) != [] && OfPartition(b, R, 0) != [] && sha(Payload(a, R, 0, enc)) != sha(Payload(b, R, 0, enc))
    ensures !Harmless(pushes, [a, b], R, enc, sha, 0)
  {
    FirstRow(a, R, enc, sha);
    FirstRow(b, R, enc, sha);
    ExpectedTwo(a, b, R, enc, sha, 0);
    StoredTwo(pushes, a, b, R, enc, 0, [1, 0]);
    PayloadsTwo(b, a, R, enc, 0);
    NonEmptyTwo(Payload(b, R, 0, enc), Payload(a, R, 0, enc));
    assert !AgreesAt(Expected([a, b], R, enc, sha, 0), 0, Payload(b, R, 0, enc), sha);
  }

  lemma FirstRow(run: seq<Record>, R: nat, enc: Encode, sha: Digest)
    requires R > 0 && OfPartition(run, R, 0) != []
    ensures RowOf(Report(run, R, enc, sha), 0) == [sha(Payload(run, R, 0, enc))]
  {
    PartsAre(run, R);
    var parts := Parts(run, R, R);
    var n :| 0 <= n < |parts| && parts[n] == 0;
    StrictAbove(parts, n);
  }

  /** A gap can lose a record: the only record has key "b" and fills partition 1 of two.  Reducer 1 is skipped and reducer 0
      finds nothing stored, so nobody gets the record. */
  lemma GapLosesRecord(pushes: seq<Delivery>, r: Record, enc: Encode, dec: Decode, sha: Digest)
    requires r.key == [98] && AllPushed(pushes, 1, 2) && Codec(enc, dec)
    ensures Expected([[r]], 2, enc, sha, 1) == [] && Blobs(pushes, [[r]], 2, enc, 1) != [] && !Harmless(pushes, [[r]], 2, enc, sha, 1)
    ensures Expected([[r]], 2, enc, sha, 0) == [sha(Payload([r], 2, 1, enc))] && Blobs(pushes, [[r]], 2, enc, 0) == []
  {
    GapExample(r);
    ExpectedMore([], [r], 2, enc, sha, 0);
    ExpectedMore([], [r], 2, enc, sha, 1);
    assert [] + [[r]] == [[r]];
    OnlyTask(pushes, r, enc, dec, 0);
    OnlyTask(pushes, r, enc, dec, 1);
  }

  lemma OnlyTask(pushes: seq<Delivery>, r: Record, enc: Encode, dec: Decode, p: nat)
    requires AllPushed(pushes, 1, 2) && Codec(enc, dec) && p < 2
    ensures Blobs(pushes, [[r]], 2, enc, p) == [] <==> OfPartition([r], 2, p) == []
  {
    OrderBelow(pushes, p, 1, 2);
    BlobsEmptyIff(pushes, [[r]], 2, enc, dec, p);
    var order := Order(pushes, p);
    SameLength(order, Upto(1));
    assert Pick([[r]], order) == [[r]];
    assert [[r]][..0] == [] && Inputs([], 2, p) == [];
  }
}
