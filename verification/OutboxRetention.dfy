/** Which rows of the outbox table a purge removes, over every continuation of a run. */
module OutboxRetention {
  import opened Dds
  import opened Outbox

  /** The event deletes rows delivered at time `at`. */
  predicate Reaches(e: Event, at: int) { e.Purge? && e.cutoff > at }

  predicate PurgedIn(es: seq<Event>, at: int) { exists i :: 0 <= i < |es| && Reaches(es[i], at) }

  lemma PurgedFirst(es: seq<Event>, at: int)
    requires es != []
    ensures PurgedIn(es, at) <==> Reaches(es[0], at) || PurgedIn(es[1..], at)
  {
    if i :| 0 <= i < |es[1..]| && Reaches(es[1..][i], at) { assert Reaches(es[i + 1], at); }
    if i :| 0 <= i < |es| && Reaches(es[i], at) { assert i == 0 || Reaches(es[1..][i - 1], at); }
  }

  /** A delivered row is left alone by every step but a purge that reaches it. */
  lemma DeliveredStep(w: World, e: Event, max: nat, id: nat)
    requires Inv(w, max) && Enabled(w, e) && id in w.rows && w.rows[id].delivered
    ensures var v := Step(w, e, max);
      && (id in v.rows <==> !Reaches(e, w.rows[id].deliveredAt))
      && (id in v.rows ==> v.rows[id] == w.rows[id])
  {
    assert RowOk(w, id, max);
    if e.Commit? && LockedBy(w.batches[e.r], id) { OnlyOne(w, max, e.r, id); }
  }

  /** A row that is gone does not come back. */
  lemma {:induction false} GoneStays(w: World, es: seq<Event>, v: World, max: nat, id: nat)
    requires Leads(w, es, v, max) && id in w.types && id !in w.rows
    ensures id !in v.rows
    decreases |es|
  {
    if es != [] { GoneStays(Step(w, es[0], max), es[1..], v, max, id); }
  }

  lemma {:induction false} KeptIff(w: World, es: seq<Event>, v: World, max: nat, id: nat)
    requires Inv(w, max) && Leads(w, es, v, max) && id in w.rows && w.rows[id].delivered
    ensures id in v.rows <==> !PurgedIn(es, w.rows[id].deliveredAt)
    ensures id in v.rows ==> v.rows[id] == w.rows[id]
    decreases |es|
  {
    if es != [] {
      var u := Step(w, es[0], max);
      assert RowOk(w, id, max);
      DeliveredStep(w, es[0], max, id);
      StepInv(w, es[0], max);
      PurgedFirst(es, w.rows[id].deliveredAt);
      if id in u.rows { KeptIff(u, es[1..], v, max, id); } else { GoneStays(u, es[1..], v, max, id); }
    }
  }

  /** After the commit that delivered an event, its row stays, as delivered at the time of that commit, exactly until a
      purge with a later cutoff. */
  lemma DeliveredUntilPurged(w: World, r: nat, delay: nat -> nat, es: seq<Event>, v: World, max: nat, id: nat)
    requires Inv(w, max) && Enabled(w, Commit(r, delay)) && OkIn(w.batches[r], id)
    requires Leads(Step(w, Commit(r, delay), max), es, v, max)
    ensures id in v.rows <==> forall i :: 0 <= i < |es| && es[i].Purge? ==> es[i].cutoff <= w.now
    ensures id in v.rows ==> v.rows[id].delivered && v.rows[id].deliveredAt == w.now
    ensures id in v.done
  {
    var u := Step(w, Commit(r, delay), max);
    CommitMarks(w, r, delay, max, id);
    StepInv(w, Commit(r, delay), max);
    KeptIff(u, es, v, max, id);
    DoneStays(u, es, v, max, id);
    assert forall i :: 0 <= i < |es| ==> (Reaches(es[i], w.now) <==> es[i].Purge? && es[i].cutoff > w.now);
  }

  lemma CommitMarks(w: World, r: nat, delay: nat -> nat, max: nat, id: nat)
    requires Inv(w, max) && Enabled(w, Commit(r, delay)) && OkIn(w.batches[r], id)
    ensures var u := Step(w, Commit(r, delay), max); id in u.rows && u.rows[id].delivered && u.rows[id].deliveredAt == w.now && id in u.done
  {
    var b := w.batches[r];
    assert BatchOk(w, b);
    var i :| 0 <= i < |b.claimed| && b.claimed[i] == id && OkAt(b, i);
    assert Lockable(w, b.claimed[i]) && LockedBy(b, id);
  }

  lemma {:induction false} DoneStays(w: World, es: seq<Event>, v: World, max: nat, id: nat)
    requires Leads(w, es, v, max) && id in w.done
    ensures id in v.done
    decreases |es|
  {
    if es != [] { DoneStays(Step(w, es[0], max), es[1..], v, max, id); }
  }

  // ---------- when a row is claimed again ----------

  /** A new event waits for a relay at once. */
  lemma InsertWaits(w: World, id: nat, typ: string, max: nat)
    requires Inv(w, max) && Enabled(w, Insert(id, typ))
    ensures var v := Step(w, Insert(id, typ), max); Waiting(v, id) && v.rows[id].typ == typ && v.rows[id].retries == 0
  {
    forall r | r in w.batches ensures id !in w.batches[r].claimed {
      var b := w.batches[r];
      assert BatchOk(w, b);
      forall i | 0 <= i < |b.claimed| ensures b.claimed[i] != id { assert Lockable(w, b.claimed[i]) && RowOk(w, b.claimed[i], max); }
    }
  }

  /** After a commit that did not deliver it, a claimed event waits again exactly once its delay has passed, unless this was its last
      allowed failure, which dead-letters it under its own type. */
  lemma FailureBacksOff(w: World, r: nat, delay: nat -> nat, max: nat, id: nat, t: int)
    requires Inv(w, max) && Enabled(w, Commit(r, delay)) && id in w.batches[r].claimed && !OkIn(w.batches[r], id) && t >= w.now
    ensures var was, u := w.rows[id], Step(w, Commit(r, delay), max);
      && id in w.rows && id in u.rows && u.rows[id].retries == was.retries + 1 && !u.rows[id].delivered
      && (Waiting(u.(now := t), id) <==> was.retries + 1 < max && t >= w.now + delay(id))
      && (was.retries + 1 < max ==> u.rows[id].typ == was.typ)
      && (was.retries + 1 >= max ==> u.rows[id].typ == "events.deadletter" && u.rows[id].original == Some(was.typ))
  {
    var b, u := w.batches[r], Step(w, Commit(r, delay), max);
    assert BatchOk(w, b);
    var i :| 0 <= i < |b.claimed| && b.claimed[i] == id;
    assert Lockable(w, b.claimed[i]) && RowOk(w, id, max) && LockedBy(b, id);
    forall q | q in u.batches ensures id !in u.batches[q].claimed { assert LockedBy(w.batches[q], id) ==> q == r; }
  }

  // ---------- what is never purged ----------

  /** No purge removes a row whose delivery was not committed: an inserted event whose delivery has not been committed by the
      end of a run is still in the table, undelivered. */
  lemma UndeliveredKept(w: World, es: seq<Event>, v: World, max: nat, id: nat)
    requires Inv(w, max) && Leads(w, es, v, max) && id in w.types && id !in v.done
    ensures id in v.rows && !v.rows[id].delivered
  {
    TypesStay(w, es, v, max, id);
    RunInv(w, es, v, max);
    assert RowOk(v, id, max);
  }

  lemma {:induction false} TypesStay(w: World, es: seq<Event>, v: World, max: nat, id: nat)
    requires Leads(w, es, v, max) && id in w.types
    ensures id in v.types
    decreases |es|
  {
    if es != [] { TypesStay(Step(w, es[0], max), es[1..], v, max, id); }
  }
}
