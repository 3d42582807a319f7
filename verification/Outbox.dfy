/** The transactional outbox and the relays that drain it, as a state machine over their steps. */
module Outbox {
  import opened Dds

  const DEAD_LETTER := "events.deadletter"

  datatype Row = Row(typ: string, original: Option<string>, retries: nat, delivered: bool, deliveredAt: int, due: int)

  datatype Message = Message(id: nat, typ: string)

  /** One relay's open transaction: the rows it has locked and the broker's answers so far. */
  datatype Batch = Batch(claimed: seq<nat>, outcomes: seq<bool>)

  /** `types`, `done` and `wasted` are history: the type each event was inserted with, the events whose delivery was
      committed, and the publications whose transaction was rolled back or whose publish call reported an error after
      the broker had stored the message. */
  datatype World = World(
    rows: map<nat, Row>,
    batches: map<nat, Batch>,
    broker: seq<Message>,
    now: int,
    types: map<nat, string>,
    done: set<nat>,
    wasted: seq<nat>)

  datatype Event =
    | Insert(id: nat, typ: string)
    | Claim(r: nat, limit: nat, ids: seq<nat>)
    | Publish(r: nat, ok: bool, stored: bool)
    | Commit(r: nat, delay: nat -> nat)
    | Abort(r: nat)
    | Reprocess(id: nat)
    | Purge(cutoff: int)
    | Tick(t: int)

  // ---------- the statements ----------

  predicate LockedBy(b: Batch, id: nat) { id in b.claimed }

  predicate Locked(w: World, id: nat) {
    exists r :: r in w.batches && LockedBy(w.batches[r], id)
  }

  /** WHERE clause of the claim, with SKIP LOCKED. */
  predicate Claimable(w: World, id: nat) {
    && id in w.rows && !w.rows[id].delivered && w.rows[id].typ != DEAD_LETTER && w.rows[id].due <= w.now
    && !Locked(w, id)
  }

  /** The first `limit` claimable rows in id order. */
  ghost predicate FirstDue(w: World, limit: nat, ids: seq<nat>) {
    && |ids| <= limit
    && (forall i :: 0 <= i < |ids| ==> Claimable(w, ids[i]))
    && (forall i, j :: 0 <= i < j < |ids| ==> ids[i] < ids[j])
    && (forall id | Claimable(w, id) && id !in ids :: |ids| == limit && forall i :: 0 <= i < |ids| ==> ids[i] < id)
  }

  /** An undelivered row that is not dead-lettered, whose time has come and that no relay holds. */
  ghost predicate Waiting(w: World, id: nat) {
    && id in w.rows && !w.rows[id].delivered && w.rows[id].typ != "events.deadletter" && w.rows[id].due <= w.now
    && forall r :: r in w.batches ==> id !in w.batches[r].claimed
  }

  /** A relay claims rows in the order of their ids: a row that waits is claimed unless the batch is full of smaller ids, and
      only rows that wait are. */
  lemma ClaimsIff(w: World, limit: nat, ids: seq<nat>, id: nat)
    requires FirstDue(w, limit, ids)
    ensures id in ids ==> Waiting(w, id)
    ensures Waiting(w, id) ==> (id in ids <==> |ids| < limit || exists i :: 0 <= i < |ids| && id <= ids[i])
  {
    assert Claimable(w, id) <==> Waiting(w, id) by { LockedIff(w, id); }
    if id in ids { var i :| 0 <= i < |ids| && ids[i] == id; assert Claimable(w, ids[i]); }
  }

  lemma LockedIff(w: World, id: nat)
    ensures Locked(w, id) <==> exists r :: r in w.batches && id in w.batches[r].claimed
  {
    if r :| r in w.batches && id in w.batches[r].claimed { assert LockedBy(w.batches[r], id); }
  }

  /** Index i of the batch was answered with success. */
  predicate OkAt(b: Batch, i: nat) { i < |b.outcomes| && i < |b.claimed| && b.outcomes[i] }

  predicate OkIn(b: Batch, id: nat) { exists i :: 0 <= i < |b.claimed| && b.claimed[i] == id && OkAt(b, i) }

  function Delivered(row: Row, now: int): Row { row.(delivered := true, deliveredAt := now) }

  /** RecordDeliveryFailures on one row. */
  function Failed(row: Row, max: nat, due: int): Row {
    row.(
      retries := row.retries + 1,
      due := due,
      original := if row.retries + 1 >= max && row.typ != DEAD_LETTER then Some(row.typ) else row.original,
      typ := if row.retries + 1 >= max then DEAD_LETTER else row.typ)
  }

  /** ReprocessEvent on one row. */
  function Reset(row: Row, now: int): Row {
    row.(typ := if row.original.Some? then row.original.value else row.typ, original := None, retries := 0, due := now)
  }

  /** The successfully published ids of a batch, in order. */
  function OkIds(b: Batch, n: nat): seq<nat>
    requires n <= |b.claimed|
  {
    if n == 0 then [] else OkIds(b, n - 1) + if OkAt(b, n - 1) then [b.claimed[n - 1]] else []
  }

  function Settled(w: World, b: Batch, max: nat, delay: nat -> nat): map<nat, Row> {
    map id | id in w.rows ::
      if !LockedBy(b, id) then w.rows[id]
      else if OkIn(b, id) then Delivered(w.rows[id], w.now)
      else Failed(w.rows[id], max, w.now + delay(id))
  }

  // ---------- steps ----------

  ghost predicate Enabled(w: World, e: Event) {
    match e
    case Insert(id, typ) => id !in w.types && typ != DEAD_LETTER
    case Claim(r, limit, ids) => r !in w.batches && ids != [] && FirstDue(w, limit, ids)
    case Publish(r, ok, stored) =>
      && (ok ==> stored) && r in w.batches && |w.batches[r].outcomes| < |w.batches[r].claimed|
      && w.batches[r].claimed[|w.batches[r].outcomes|] in w.rows
    case Commit(r, delay) => r in w.batches && |w.batches[r].outcomes| == |w.batches[r].claimed|
    case Abort(r) => r in w.batches
    case Reprocess(id) => id in w.rows && w.rows[id].typ == DEAD_LETTER
    case Purge(cutoff) => true
    case Tick(t) => t >= w.now
  }

  function Step(w: World, e: Event, max: nat): World
    requires Enabled(w, e)
  {
    match e
    case Insert(id, typ) => w.(rows := w.rows[id := Row(typ, None, 0, false, 0, w.now)], types := w.types[id := typ])
    case Claim(r, limit, ids) => w.(batches := w.batches[r := Batch(ids, [])])
    case Publish(r, ok, stored) =>
      var b := w.batches[r];
      var id := b.claimed[|b.outcomes|];
      w.(batches := w.batches[r := b.(outcomes := b.outcomes + [ok])],
         broker := if stored then w.broker + [Message(id, w.rows[id].typ)] else w.broker,
         wasted := if stored && !ok then w.wasted + [id] else w.wasted)
    case Commit(r, delay) =>
      var b := w.batches[r];
      w.(rows := Settled(w, b, max, delay),
         batches := w.batches - {r},
         done := w.done + set id | id in b.claimed && OkIn(b, id))
    case Abort(r) =>
      w.(batches := w.batches - {r}, wasted := w.wasted + OkIds(w.batches[r], |w.batches[r].claimed|))
    case Reprocess(id) => w.(rows := w.rows[id := Reset(w.rows[id], w.now)])
    case Purge(cutoff) =>
      w.(rows := map id | id in w.rows && !(w.rows[id].delivered && w.rows[id].deliveredAt < cutoff) :: w.rows[id])
    case Tick(t) => w.(now := t)
  }

  predicate Init(w: World) {
    w.rows == map[] && w.batches == map[] && w.broker == [] && w.types == map[] && w.done == {} && w.wasted == []
  }

  /** es leads from w to v. */
  ghost predicate Leads(w: World, es: seq<Event>, v: World, max: nat)
    decreases |es|
  {
    if es == [] then w == v else Enabled(w, es[0]) && Leads(Step(w, es[0], max), es[1..], v, max)
  }

  // ---------- invariants ----------

  /** A row carries the type it was inserted with, or is dead-lettered and remembers it. */
  predicate RowOk(w: World, id: nat, max: nat)
    requires id in w.rows
  {
    var row := w.rows[id];
    && id in w.types && w.types[id] != DEAD_LETTER
    && (row.delivered <==> id in w.done)
    && (if row.typ == DEAD_LETTER then row.original == Some(w.types[id]) && row.retries == max && !row.delivered
        else row.typ == w.types[id] && row.original == None && row.retries < max)
  }

  predicate BatchOk(w: World, b: Batch) {
    && |b.outcomes| <= |b.claimed|
    && (forall i, j :: 0 <= i < j < |b.claimed| ==> b.claimed[i] != b.claimed[j])
    && (forall i :: 0 <= i < |b.claimed| ==> Lockable(w, b.claimed[i]))
  }

  /** A locked row is neither delivered nor dead-lettered. */
  predicate Lockable(w: World, id: nat) {
    id in w.rows && !w.rows[id].delivered && w.rows[id].typ != DEAD_LETTER
  }

  ghost predicate Disjoint(w: World) {
    forall r, q, id | r in w.batches && q in w.batches && LockedBy(w.batches[r], id) && LockedBy(w.batches[q], id) :: r == q
  }

  ghost predicate Pending(w: World, id: nat) {
    exists r :: r in w.batches && OkIn(w.batches[r], id)
  }

  function Sent(broker: seq<Message>, id: nat): nat {
    if broker == [] then 0 else Sent(broker[..|broker| - 1], id) + if broker[|broker| - 1].id == id then 1 else 0
  }

  function Times(ids: seq<nat>, id: nat): nat {
    if ids == [] then 0 else Times(ids[..|ids| - 1], id) + if ids[|ids| - 1] == id then 1 else 0
  }

  /** Every publication of an event is its one committed delivery, one still to be committed, or a wasted one. */
  ghost predicate Counted(w: World, id: nat) {
    Sent(w.broker, id) == Times(w.wasted, id) + (if id in w.done then 1 else 0) + (if Pending(w, id) then 1 else 0)
  }

  ghost predicate Inv(w: World, max: nat) {
    && max > 0
    && (forall id :: id in w.rows ==> RowOk(w, id, max))
    && (forall r :: r in w.batches ==> BatchOk(w, w.batches[r]))
    && Disjoint(w)
    && (forall id :: id in w.types ==> id in w.rows || id in w.done)
    && (forall id :: id in w.done ==> id in w.types)
    && (forall i :: 0 <= i < |w.broker| ==> w.broker[i].id in w.types && w.broker[i].typ == w.types[w.broker[i].id])
    && (forall id: nat :: Counted(w, id))
  }

  // ---------- preservation ----------

  lemma StepRow(w: World, e: Event, max: nat, id: nat)
    requires Inv(w, max) && Enabled(w, e) && id in Step(w, e, max).rows
    ensures RowOk(Step(w, e, max), id, max)
  {
    if id in w.rows { assert RowOk(w, id, max); }
    if e.Commit? {
      var b := w.batches[e.r];
      assert BatchOk(w, b);
      if LockedBy(b, id) {
        var i :| 0 <= i < |b.claimed| && b.claimed[i] == id;
        assert Lockable(w, b.claimed[i]);
      }
    }
  }

  lemma StepBatch(w: World, e: Event, max: nat, r: nat)
    requires Inv(w, max) && Enabled(w, e) && r in Step(w, e, max).batches
    ensures BatchOk(Step(w, e, max), Step(w, e, max).batches[r])
  {
    var v := Step(w, e, max);
    var b := v.batches[r];
    if e.Claim? && e.r == r {
      assert forall i :: 0 <= i < |b.claimed| ==> Claimable(w, b.claimed[i]);
    } else {
      assert BatchOk(w, w.batches[r]);
      forall i | 0 <= i < |b.claimed| ensures Lockable(v, b.claimed[i]) { StillLockable(w, e, max, r, i); }
    }
  }

  /** A row that stays locked is not touched by anyone else. */
  lemma StillLockable(w: World, e: Event, max: nat, r: nat, i: nat)
    requires Inv(w, max) && Enabled(w, e) && r in w.batches && i < |w.batches[r].claimed|
    requires (e.Commit? || e.Abort?) ==> e.r != r
    ensures Lockable(Step(w, e, max), w.batches[r].claimed[i])
  {
    var id := w.batches[r].claimed[i];
    assert BatchOk(w, w.batches[r]) && Lockable(w, w.batches[r].claimed[i]);
    assert RowOk(w, id, max);
    if e.Commit? { assert LockedBy(w.batches[r], id) && !LockedBy(w.batches[e.r], id); }
  }

  lemma StepDisjoint(w: World, e: Event, max: nat)
    requires Inv(w, max) && Enabled(w, e)
    ensures Disjoint(Step(w, e, max))
  {
    if e.Claim? {
      forall q, i | q in w.batches && 0 <= i < |e.ids| ensures !LockedBy(w.batches[q], e.ids[i]) {
        assert Claimable(w, e.ids[i]);
      }
    }
  }

  // ---------- the count of publications ----------

  /** A batch that published `id` has it locked. */
  lemma OkLocked(b: Batch, id: nat)
    ensures OkIn(b, id) ==> LockedBy(b, id)
  {
  }

  /** Only one open batch can have published `id`. */
  lemma OnlyOne(w: World, max: nat, r: nat, id: nat)
    requires Inv(w, max) && r in w.batches && LockedBy(w.batches[r], id)
    ensures Pending(w, id) <==> OkIn(w.batches[r], id)
    ensures id !in w.done
  {
    forall q | q in w.batches && OkIn(w.batches[q], id) ensures q == r { OkLocked(w.batches[q], id); }
    var i :| 0 <= i < |w.batches[r].claimed| && w.batches[r].claimed[i] == id;
    assert BatchOk(w, w.batches[r]) && Lockable(w, w.batches[r].claimed[i]) && RowOk(w, id, max);
  }

  lemma Answered(b: Batch, ok: bool, id: nat)
    requires |b.outcomes| < |b.claimed| && forall i, j :: 0 <= i < j < |b.claimed| ==> b.claimed[i] != b.claimed[j]
    ensures OkIn(b.(outcomes := b.outcomes + [ok]), id) <==> OkIn(b, id) || (ok && b.claimed[|b.outcomes|] == id)
    ensures OkIn(b, id) ==> b.claimed[|b.outcomes|] != id
  {
    var b2, n := b.(outcomes := b.outcomes + [ok]), |b.outcomes|;
    assert forall i: nat | i != n :: OkAt(b2, i) == OkAt(b, i);
    assert OkAt(b2, n) == ok;
  }

  /** Replacing the batch of one relay. */
  lemma PendingWith(w: World, v: World, r: nat, b: Batch, id: nat)
    requires v.batches == w.batches[r := b]
    ensures Pending(v, id) <==> OkIn(b, id) || (exists q :: q in w.batches && q != r && OkIn(w.batches[q], id))
  {
    if OkIn(b, id) { assert r in v.batches && v.batches[r] == b; }
    if q :| q in w.batches && q != r && OkIn(w.batches[q], id) { assert v.batches[q] == w.batches[q]; }
  }

  lemma PendingWithout(w: World, v: World, r: nat, id: nat)
    requires v.batches == w.batches - {r}
    ensures Pending(v, id) <==> exists q :: q in w.batches && q != r && OkIn(w.batches[q], id)
  {
    if q :| q in w.batches && q != r && OkIn(w.batches[q], id) { assert q in v.batches && v.batches[q] == w.batches[q]; }
  }

  predicate OkBefore(b: Batch, n: nat, id: nat)
    requires n <= |b.claimed|
  {
    exists i :: 0 <= i < n && b.claimed[i] == id && OkAt(b, i)
  }

  lemma {:induction false} OkIdsCount(b: Batch, n: nat, id: nat)
    requires n <= |b.claimed| && forall i, j :: 0 <= i < j < |b.claimed| ==> b.claimed[i] != b.claimed[j]
    ensures Times(OkIds(b, n), id) == if OkBefore(b, n, id) then 1 else 0
  {
    if n > 0 {
      OkIdsCount(b, n - 1, id);
      assert OkBefore(b, n, id) <==> OkBefore(b, n - 1, id) || (b.claimed[n - 1] == id && OkAt(b, n - 1));
      var rest := OkIds(b, n - 1);
      var all := rest + [b.claimed[n - 1]];
      assert all[..|all| - 1] == rest && rest + [] == rest;
      assert b.claimed[n - 1] == id ==> !OkBefore(b, n - 1, id);
    }
  }

  lemma {:induction false} TimesAppend(a: seq<nat>, b: seq<nat>, id: nat)
    ensures Times(a + b, id) == Times(a, id) + Times(b, id)
  {
    if b == [] {
      assert a + b == a;
    } else {
      var ab := a + b;
      assert ab[..|ab| - 1] == a + b[..|b| - 1];
      TimesAppend(a, b[..|b| - 1], id);
    }
  }

  lemma PublishCounted(w: World, e: Event, max: nat, id: nat)
    requires Inv(w, max) && Enabled(w, e) && e.Publish?
    ensures Counted(Step(w, e, max), id)
  {
    var v, b := Step(w, e, max), w.batches[e.r];
    var b2 := b.(outcomes := b.outcomes + [e.ok]);
    assert Counted(w, id) && BatchOk(w, b);
    Answered(b, e.ok, id);
    PendingWith(w, v, e.r, b2, id);
    assert w.batches == w.batches[e.r := b];
    PendingWith(w, w, e.r, b, id);
    if e.stored {
      var m := Message(b.claimed[|b.outcomes|], w.rows[b.claimed[|b.outcomes|]].typ);
      assert (w.broker + [m])[..|w.broker|] == w.broker;
      if e.ok && m.id == id { OnlyOne(w, max, e.r, id); }
      if !e.ok { TimesAppend(w.wasted, [m.id], id); }
    }
  }

  lemma CloseCounted(w: World, e: Event, max: nat, id: nat)
    requires Inv(w, max) && Enabled(w, e) && (e.Commit? || e.Abort?)
    ensures Counted(Step(w, e, max), id)
  {
    var v, b := Step(w, e, max), w.batches[e.r];
    assert Counted(w, id) && BatchOk(w, b);
    PendingWithout(w, v, e.r, id);
    assert w.batches == w.batches[e.r := b];
    PendingWith(w, w, e.r, b, id);
    if OkIn(b, id) {
      OkLocked(b, id);
      OnlyOne(w, max, e.r, id);
      assert forall q :: q in w.batches && OkIn(w.batches[q], id) ==> q == e.r by { SoleOwner(w, max, e.r, id); }
    }
    if e.Abort? {
      OkIdsCount(b, |b.claimed|, id);
      assert OkBefore(b, |b.claimed|, id) == OkIn(b, id);
      TimesAppend(w.wasted, OkIds(b, |b.claimed|), id);
    }
  }

  lemma SoleOwner(w: World, max: nat, r: nat, id: nat)
    requires Inv(w, max) && r in w.batches && LockedBy(w.batches[r], id)
    ensures forall q :: q in w.batches && OkIn(w.batches[q], id) ==> q == r
  {
    forall q | q in w.batches && OkIn(w.batches[q], id) ensures q == r { OkLocked(w.batches[q], id); }
  }

  lemma StepCounted(w: World, e: Event, max: nat, id: nat)
    requires Inv(w, max) && Enabled(w, e)
    ensures Counted(Step(w, e, max), id)
  {
    if e.Publish? {
      PublishCounted(w, e, max, id);
    } else if e.Commit? || e.Abort? {
      CloseCounted(w, e, max, id);
    } else {
      assert Counted(w, id);
      if e.Claim? {
        PendingWith(w, Step(w, e, max), e.r, Batch(e.ids, []), id);
      }
    }
  }

  lemma StepHistory(w: World, e: Event, max: nat)
    requires Inv(w, max) && Enabled(w, e)
    ensures var v := Step(w, e, max);
      && (forall id :: id in v.types ==> id in v.rows || id in v.done)
      && (forall id :: id in v.done ==> id in v.types)
  {
    var v := Step(w, e, max);
    if e.Purge? {
      forall id | id in w.rows && id !in v.rows ensures id in w.done { assert RowOk(w, id, max); }
    }
    if e.Commit? {
      forall id | id in w.batches[e.r].claimed ensures id in w.types {
        assert BatchOk(w, w.batches[e.r]);
        var i :| 0 <= i < |w.batches[e.r].claimed| && w.batches[e.r].claimed[i] == id;
        assert Lockable(w, w.batches[e.r].claimed[i]) && RowOk(w, id, max);
      }
    }
  }

  lemma StepBroker(w: World, e: Event, max: nat, i: nat)
    requires Inv(w, max) && Enabled(w, e) && i < |Step(w, e, max).broker|
    ensures var v := Step(w, e, max); v.broker[i].id in v.types && v.broker[i].typ == v.types[v.broker[i].id]
  {
    if e.Publish? && i == |w.broker| {
      var b := w.batches[e.r];
      assert BatchOk(w, b) && Lockable(w, b.claimed[|b.outcomes|]) && RowOk(w, b.claimed[|b.outcomes|], max);
    }
  }

  lemma StepInv(w: World, e: Event, max: nat)
    requires Inv(w, max) && Enabled(w, e)
    ensures Inv(Step(w, e, max), max)
  {
    var v := Step(w, e, max);
    forall id | id in v.rows ensures RowOk(v, id, max) { StepRow(w, e, max, id); }
    forall r | r in v.batches ensures BatchOk(v, v.batches[r]) { StepBatch(w, e, max, r); }
    StepDisjoint(w, e, max);
    StepHistory(w, e, max);
    forall i | 0 <= i < |v.broker| ensures v.broker[i].id in v.types && v.broker[i].typ == v.types[v.broker[i].id] {
      StepBroker(w, e, max, i);
    }
    forall id: nat ensures Counted(v, id) { StepCounted(w, e, max, id); }
  }

  lemma {:induction false} RunInv(w: World, es: seq<Event>, v: World, max: nat)
    requires Inv(w, max) && Leads(w, es, v, max)
    ensures Inv(v, max)
    decreases |es|
  {
    if es != [] {
      StepInv(w, es[0], max);
      RunInv(Step(w, es[0], max), es[1..], v, max);
    }
  }

  lemma InitInv(w: World, max: nat)
    requires Init(w) && max > 0
    ensures Inv(w, max)
  {
  }

  // ---------- what holds in every run ----------

  /** For any number of relays in any interleaving, crashes and rollbacks included: no two open batches hold the same
      row; an event is never lost, it is in the table or its delivery was committed; every message carries the type
      the event was inserted with; and an event was published exactly once for its committed delivery, plus once per
      rolled-back transaction that had published it, plus once per publish call that failed after the broker had stored
      the message, plus once if a transaction that published it is still open. */
  lemma DeliveryAccounted(w: World, es: seq<Event>, v: World, max: nat, id: nat)
    requires Init(w) && max > 0 && Leads(w, es, v, max)
    ensures Disjoint(v)
    ensures id in v.types ==> id in v.rows || id in v.done
    ensures id in v.done || (id in v.rows && v.rows[id].delivered) ==> Sent(v.broker, id) >= 1
    ensures forall i :: 0 <= i < |v.broker| ==> v.broker[i].id in v.types && v.broker[i].typ == v.types[v.broker[i].id]
    ensures Counted(v, id)
  {
    InitInv(w, max);
    RunInv(w, es, v, max);
    assert Counted(v, id);
    if id in v.rows { assert RowOk(v, id, max); }
  }

  /** Dead-lettering and reprocessing undo each other: after Reprocess the row has the type the event was inserted
      with and a full set of retries, and while it is dead-lettered no relay can claim it. */
  lemma ReprocessRestores(w: World, es: seq<Event>, v: World, max: nat, id: nat)
    requires Init(w) && max > 0 && Leads(w, es, v, max)
    requires id in v.rows && v.rows[id].typ == DEAD_LETTER
    ensures id in v.types && !Claimable(v, id) && !Locked(v, id) && !v.rows[id].delivered && v.rows[id].retries == max
    ensures var row := Step(v, Reprocess(id), max).rows[id];
      row.typ == v.types[id] != DEAD_LETTER && row.original == None && row.retries == 0 && !row.delivered && row.due == v.now
  {
    InitInv(w, max);
    RunInv(w, es, v, max);
    assert RowOk(v, id, max);
    forall r | r in v.batches ensures !LockedBy(v.batches[r], id) {
      var b := v.batches[r];
      assert BatchOk(v, b);
      assert forall i :: 0 <= i < |b.claimed| ==> Lockable(v, b.claimed[i]);
    }
  }

  /** The event wastes no publication: it is neither a rollback nor a publish that failed after the broker stored it. */
  predicate Clean(e: Event) { !e.Abort? && (e.Publish? && e.stored ==> e.ok) }

  /** Without wasted publications every event is published at most once. */
  lemma {:induction false} NoAbortNoDuplicate(w: World, es: seq<Event>, v: World, max: nat, id: nat)
    requires Init(w) && max > 0 && Leads(w, es, v, max) && forall i :: 0 <= i < |es| ==> Clean(es[i])
    ensures Sent(v.broker, id) <= 1
  {
    DeliveryAccounted(w, es, v, max, id);
    NoWaste(w, es, v, max);
    InitInv(w, max);
    RunInv(w, es, v, max);
    if Pending(v, id) {
      var r :| r in v.batches && OkIn(v.batches[r], id);
      OkLocked(v.batches[r], id);
      OnlyOne(v, max, r, id);
    }
  }

  lemma {:induction false} NoWaste(w: World, es: seq<Event>, v: World, max: nat)
    requires Leads(w, es, v, max) && forall i :: 0 <= i < |es| ==> Clean(es[i])
    ensures v.wasted == w.wasted
    decreases |es|
  {
    if es != [] {
      assert forall i :: 0 <= i < |es[1..]| ==> es[1..][i] == es[i + 1];
      NoWaste(Step(w, es[0], max), es[1..], v, max);
    }
  }

  // ---------- the relay ----------

  /** What happens at each claimed event: the broker accepts it, rejects it, or stores it while the call reports an error;
      or the relay is shut down first. */
  datatype Answer = Accepted | Rejected | Unheard | Cancelled

  function PublishOf(r: nat, x: Answer): Event { Publish(r, x == Accepted, x == Accepted || x == Unheard) }

  lemma {:induction false} LeadsAppend(w: World, es: seq<Event>, v: World, e: Event, max: nat)
    requires Leads(w, es, v, max) && Enabled(v, e)
    ensures Leads(w, es + [e], Step(v, e, max), max)
    decreases |es|
  {
    if es == [] {
      assert (es + [e])[1..] == [];
    } else {
      LeadsAppend(Step(w, es[0], max), es[1..], v, e, max);
      assert (es + [e])[1..] == es[1..] + [e];
    }
  }

  /** What a relay's answer does to a claimed row. */
  function Settle(row: Row, accepted: bool, max: nat, now: int, due: int): Row {
    if accepted then Delivered(row, now) else Failed(row, max, due)
  }

  /** Relay r has claimed `ids` in w and got the first n answers. */
  ghost predicate Halfway(w: World, v: World, r: nat, ids: seq<nat>, answers: nat -> Answer, n: nat)
    requires n <= |ids|
  {
    && v.rows == w.rows && v.now == w.now && r in v.batches && v.batches == w.batches[r := v.batches[r]]
    && v.batches[r].claimed == ids && |v.batches[r].outcomes| == n
    && forall i :: 0 <= i < n ==> answers(ids[i]) != Cancelled && v.batches[r].outcomes[i] == (answers(ids[i]) == Accepted)
  }

  lemma PublishNext(w: World, v: World, r: nat, ids: seq<nat>, answers: nat -> Answer, n: nat, max: nat)
    requires n < |ids| && Halfway(w, v, r, ids, answers, n) && answers(ids[n]) != Cancelled && ids[n] in w.rows
    ensures Enabled(v, PublishOf(r, answers(ids[n])))
    ensures Halfway(w, Step(v, PublishOf(r, answers(ids[n])), max), r, ids, answers, n + 1)
  {
  }

  /** The publishing loop; it stops where the relay is shut down. */
  method PublishAll(ghost w: World, ghost es0: seq<Event>, v0: World, r: nat, ids: seq<nat>, answers: nat -> Answer, max: nat)
    returns (v: World, cancelled: bool, ghost es: seq<Event>, ghost n: nat)
    requires Inv(v0, max) && Leads(w, es0, v0, max) && Halfway(w, v0, r, ids, answers, 0)
    requires forall i :: 0 <= i < |ids| ==> ids[i] in w.rows
    ensures Inv(v, max) && Leads(w, es, v, max) && n <= |ids| && Halfway(w, v, r, ids, answers, n)
    ensures if cancelled then n < |ids| && answers(ids[n]) == Cancelled else n == |ids|
  {
    v, es := v0, es0;
    for k := 0 to |ids|
      invariant Inv(v, max) && Leads(w, es, v, max) && Halfway(w, v, r, ids, answers, k)
    {
      if answers(ids[k]) == Cancelled { return v, true, es, k; }
      PublishNext(w, v, r, ids, answers, k, max);
      v, es := StepBy(w, es, v, PublishOf(r, answers(ids[k])), max);
    }
    return v, false, es, |ids|;
  }

  /** processBatch: claim, publish each claimed event in order, then commit all outcomes or roll back.  It is one of
      the runs of the state machine, so everything proved of those holds of it. */
  method ProcessBatch(w: World, r: nat, limit: nat, ids: seq<nat>, answers: nat -> Answer, commitOk: bool, delay: nat -> nat, max: nat)
    returns (v: World, ok: bool, ghost es: seq<Event>)
    requires Inv(w, max) && r !in w.batches && FirstDue(w, limit, ids)
    ensures Leads(w, es, v, max) && v.batches == w.batches
    ensures ok <==> ids == [] || (commitOk && forall i :: 0 <= i < |ids| ==> answers(ids[i]) != Cancelled)
    ensures !ok ==> v.rows == w.rows
    ensures ok ==> RowsAnswered(w, v, ids, answers, delay, max)
  {
    if |ids| == 0 { return w, true, []; }
    v, es := ClaimBatch(w, r, limit, ids, answers, max);
    var cancelled;
    ghost var n;
    v, cancelled, es, n := PublishAll(w, es, v, r, ids, answers, max);
    ok := !cancelled && commitOk;
    v, es := CloseBatch(w, es, v, r, ids, answers, delay, ok, max, n);
  }

  method ClaimBatch(w: World, r: nat, limit: nat, ids: seq<nat>, ghost answers: nat -> Answer, max: nat)
    returns (v: World, ghost es: seq<Event>)
    requires Inv(w, max) && r !in w.batches && ids != [] && FirstDue(w, limit, ids)
    ensures Inv(v, max) && Leads(w, es, v, max) && Halfway(w, v, r, ids, answers, 0)
    ensures forall i :: 0 <= i < |ids| ==> ids[i] in w.rows
  {
    assert forall i :: 0 <= i < |ids| ==> Claimable(w, ids[i]);
    v, es := StepBy(w, [], w, Claim(r, limit, ids), max);
  }

  method CloseBatch(ghost w: World, ghost es0: seq<Event>, v0: World, r: nat, ghost ids: seq<nat>, ghost answers: nat -> Answer,
                    delay: nat -> nat, commit: bool, max: nat, ghost n: nat)
    returns (v: World, ghost es: seq<Event>)
    requires Inv(v0, max) && Leads(w, es0, v0, max) && r !in w.batches && n <= |ids| && Halfway(w, v0, r, ids, answers, n)
    requires commit ==> n == |ids|
    ensures Leads(w, es, v, max) && v.batches == w.batches
    ensures if commit then RowsAnswered(w, v, ids, answers, delay, max) else v.rows == w.rows
  {
    assert w.batches == w.batches[r := v0.batches[r]] - {r};
    if commit {
      CommitAnswers(w, v0, r, ids, answers, delay, max);
      v, es := StepBy(w, es0, v0, Commit(r, delay), max);
    } else {
      v, es := StepBy(w, es0, v0, Abort(r), max);
    }
  }

  ghost predicate RowsAnswered(w: World, v: World, ids: seq<nat>, answers: nat -> Answer, delay: nat -> nat, max: nat) {
    forall i | 0 <= i < |ids| :: RowAnswered(w, v, ids[i], answers, delay, max)
  }

  /** An accepted event is marked delivered; any other is charged a retry and put off, or dead-lettered. */
  ghost predicate RowAnswered(w: World, v: World, id: nat, answers: nat -> Answer, delay: nat -> nat, max: nat) {
    && id in w.rows && id in v.rows
    && v.rows[id] == Settle(w.rows[id], answers(id) == Accepted, max, w.now, w.now + delay(id))
  }

  lemma CommitAnswers(w: World, v: World, r: nat, ids: seq<nat>, answers: nat -> Answer, delay: nat -> nat, max: nat)
    requires Halfway(w, v, r, ids, answers, |ids|) && r in v.batches && BatchOk(v, v.batches[r])
    ensures Enabled(v, Commit(r, delay))
    ensures RowsAnswered(w, Step(v, Commit(r, delay), max), ids, answers, delay, max)
  {
    var b, after := v.batches[r], Step(v, Commit(r, delay), max);
    forall i | 0 <= i < |ids| ensures RowAnswered(w, after, ids[i], answers, delay, max) {
      assert Lockable(v, b.claimed[i]) && LockedBy(b, b.claimed[i]);
      assert OkAt(b, i) == b.outcomes[i];
      assert OkIn(b, ids[i]) == b.outcomes[i];
    }
  }

  method StepBy(ghost w: World, ghost es: seq<Event>, v: World, e: Event, max: nat) returns (v2: World, ghost es2: seq<Event>)
    requires Leads(w, es, v, max) && Enabled(v, e) && Inv(v, max)
    ensures v2 == Step(v, e, max) && es2 == es + [e] && Leads(w, es2, v2, max) && Inv(v2, max)
  {
    LeadsAppend(w, es, v, e, max);
    StepInv(v, e, max);
    v2 := Step(v, e, max);
    es2 := es + [e];
  }
}
