/** The token bucket and the per-user limiter with idle eviction.  Times are seconds on a monotonic clock. */
module RateLimit {
  datatype Bucket = Bucket(tokens: real, last: real)

  // ---------- one bucket ----------

  function Fresh(rps: real, now: real): Bucket { Bucket(rps, now) }

  function Capped(x: real, cap: real): real { if x > cap then cap else x }

  /** The tokens present at `now`; capacity and refill rate are both `rps`. */
  function Filled(b: Bucket, rps: real, now: real): real { Capped(b.tokens + rps * (now - b.last), rps) }

  predicate Allows(b: Bucket, rps: real, now: real) { Filled(b, rps, now) >= 1.0 }

  function Next(b: Bucket, rps: real, now: real): Bucket {
    Bucket(if Allows(b, rps, now) then Filled(b, rps, now) - 1.0 else Filled(b, rps, now), now)
  }

  class TokenBucketLimiter {
    var tokens: real
    const capacity: real
    const refillRate: real
    var lastRefill: real

    function State(): Bucket
      reads this
    {
      Bucket(tokens, lastRefill)
    }

    constructor (requestsPerSecond: real, now: real)
      ensures State() == Fresh(requestsPerSecond, now) && capacity == refillRate == requestsPerSecond
    {
      tokens, capacity, refillRate, lastRefill := requestsPerSecond, requestsPerSecond, requestsPerSecond, now;
    }

    method Allow(now: real) returns (ok: bool)
      requires capacity == refillRate
      modifies this
      ensures ok == Allows(old(State()), capacity, now) && State() == Next(old(State()), capacity, now)
    {
      var elapsed := now - lastRefill;
      lastRefill := now;
      tokens := tokens + refillRate * elapsed;
      if tokens > capacity { tokens := capacity; }
      if tokens >= 1.0 {
        tokens := tokens - 1.0;
        return true;
      }
      return false;
    }
  }

  /** Between empty and full. */
  predicate Sane(b: Bucket, rps: real) { 0.0 <= b.tokens <= rps }

  predicate Ordered(times: seq<real>, from: real) {
    times == [] || (from <= times[0] && Ordered(times[1..], times[0]))
  }

  /** The tokens gained before each request. */
  function Gains(rps: real, last: real, times: seq<real>): seq<real>
    decreases |times|
  {
    if times == [] then [] else [rps * (times[0] - last)] + Gains(rps, times[0], times[1..])
  }

  /** How many requests pass, given the tokens gained before each. */
  function Passed(tokens: real, cap: real, gains: seq<real>): nat
    decreases |gains|
  {
    if gains == [] then 0
    else
      var filled := Capped(tokens + gains[0], cap);
      if filled >= 1.0 then 1 + Passed(filled - 1.0, cap, gains[1..]) else Passed(filled, cap, gains[1..])
  }

  /** How many of the requests at these times are allowed. */
  function Allowed(b: Bucket, rps: real, times: seq<real>): nat {
    Passed(b.tokens, rps, Gains(rps, b.last, times))
  }

  lemma GainsSplit(rps: real, last: real, times: seq<real>)
    requires times != []
    ensures var gains := Gains(rps, last, times);
      gains != [] && gains[0] == rps * (times[0] - last) && gains[1..] == Gains(rps, times[0], times[1..])
  {
  }

  /** One request after the other, each answered by Allows and leaving the bucket in state Next. */
  lemma AllowedStep(b: Bucket, rps: real, times: seq<real>)
    requires times != []
    ensures Allowed(b, rps, times) == (if Allows(b, rps, times[0]) then 1 else 0) + Allowed(Next(b, rps, times[0]), rps, times[1..])
  {
    GainsSplit(rps, b.last, times);
    assert Capped(b.tokens + Gains(rps, b.last, times)[0], rps) == Filled(b, rps, times[0]);
  }

  lemma Grows(rps: real, dt: real)
    requires rps >= 0.0 && dt >= 0.0
    ensures rps * dt >= 0.0
  {
  }

  lemma NextSane(b: Bucket, rps: real, now: real)
    requires rps >= 0.0 && Sane(b, rps) && b.last <= now
    ensures Sane(Next(b, rps, now), rps) && Next(b, rps, now).last == now
    ensures (if Allows(b, rps, now) then 1.0 else 0.0) + Next(b, rps, now).tokens == Filled(b, rps, now) <= rps
    ensures Filled(b, rps, now) >= 0.0
  {
    Grows(rps, now - b.last);
  }

  function Least(n: nat, k: int): int { if n <= k then n else k }

  /** Of any number of requests at one instant as many pass as there are whole tokens. */
  lemma {:induction false} BurstPasses(b: Bucket, rps: real, now: real, times: seq<real>)
    requires rps >= 0.0 && Sane(b, rps) && b.last <= now && forall i :: 0 <= i < |times| ==> times[i] == now
    ensures Filled(b, rps, now) >= 0.0 && Allowed(b, rps, times) == Least(|times|, Filled(b, rps, now).Floor)
    decreases |times|
  {
    AtOnce(b, rps, now);
    if times != [] {
      AllowedStep(b, rps, times);
      BurstPasses(Next(b, rps, now), rps, now, times[1..]);
      OneLess(Filled(b, rps, now));
    }
  }

  /** No tokens come in between two requests at one instant. */
  lemma AtOnce(b: Bucket, rps: real, now: real)
    requires rps >= 0.0 && Sane(b, rps) && b.last <= now
    ensures var f, next := Filled(b, rps, now), Next(b, rps, now);
      f >= 0.0 && Sane(next, rps) && next.last == now && Filled(next, rps, now) == if f >= 1.0 then f - 1.0 else f
  {
    NextSane(b, rps, now);
  }

  lemma OneLess(x: real)
    requires x >= 0.0
    ensures if x >= 1.0 then x.Floor == (x - 1.0).Floor + 1 >= 1 else x.Floor == 0
  {
  }

  /** A client that was idle for a second has all its tokens back. */
  lemma IdleSecondFills(b: Bucket, rps: real, now: real)
    requires rps >= 0.0 && Sane(b, rps) && now - b.last >= 1.0
    ensures Filled(b, rps, now) == rps
  {
    assert rps * (now - b.last) == rps + rps * (now - b.last - 1.0);
    Grows(rps, now - b.last - 1.0);
  }

  function Total(gains: seq<real>): real {
    if gains == [] then 0.0 else gains[0] + Total(gains[1..])
  }

  /** Requests that pass are paid for by the tokens present at the first one and the tokens gained since. */
  lemma {:induction false} PassedPaid(tokens: real, cap: real, gains: seq<real>)
    requires tokens >= 0.0 && cap >= 0.0 && gains != [] && forall i :: 0 <= i < |gains| ==> gains[i] >= 0.0
    ensures Passed(tokens, cap, gains) as real <= cap + Total(gains[1..])
    ensures Passed(tokens, cap, gains) as real <= tokens + Total(gains)
    decreases |gains|
  {
    var filled, rest := Capped(tokens + gains[0], cap), gains[1..];
    var left := if filled >= 1.0 then filled - 1.0 else filled;
    if rest != [] { PassedPaid(left, cap, rest); }
  }

  lemma {:induction false} GainsPositive(rps: real, last: real, times: seq<real>)
    requires rps >= 0.0 && Ordered(times, last)
    ensures forall i :: 0 <= i < |Gains(rps, last, times)| ==> Gains(rps, last, times)[i] >= 0.0
    decreases |times|
  {
    if times != [] {
      GainsSplit(rps, last, times);
      GainsPositive(rps, times[0], times[1..]);
      Grows(rps, times[0] - last);
    }
  }

  /** The tokens gained add up to rate times duration. */
  lemma {:induction false} GainsTotal(rps: real, last: real, times: seq<real>, end: real)
    requires end == if times == [] then last else times[|times| - 1]
    ensures Total(Gains(rps, last, times)) == rps * (end - last)
    decreases |times|
  {
    if times == [] {
      assert rps * (end - last) == 0.0;
    } else {
      var t := times[0];
      GainsSplit(rps, last, times);
      GainsTotal(rps, t, times[1..], end);
      Spans(rps, last, t, end);
    }
  }

  lemma Spans(rps: real, a: real, b: real, c: real)
    ensures rps * (c - a) == rps * (b - a) + rps * (c - b)
  {
  }

  /** In any stretch of requests, from any reachable state of the bucket, at most rps + rps * T pass, where T is the
      time from the first request to the last. */
  lemma WindowBound(b: Bucket, rps: real, times: seq<real>, end: real)
    requires rps >= 0.0 && Sane(b, rps) && times != [] && Ordered(times, b.last) && end == times[|times| - 1]
    ensures Allowed(b, rps, times) as real <= rps + rps * (end - times[0])
  {
    var gains := Gains(rps, b.last, times);
    SinceFirst(rps, b.last, times, end);
    PassedPaid(b.tokens, rps, gains);
  }

  lemma SinceFirst(rps: real, last: real, times: seq<real>, end: real)
    requires rps >= 0.0 && times != [] && Ordered(times, last) && end == times[|times| - 1]
    ensures var gains := Gains(rps, last, times);
      gains != [] && Total(gains[1..]) == rps * (end - times[0]) && forall i :: 0 <= i < |gains| ==> gains[i] >= 0.0
  {
    GainsTail(rps, last, times);
    GainsPositive(rps, last, times);
    GainsTotal(rps, times[0], times[1..], end);
  }

  lemma GainsTail(rps: real, last: real, times: seq<real>)
    requires times != []
    ensures Gains(rps, last, times) != [] && Gains(rps, last, times)[1..] == Gains(rps, times[0], times[1..])
  {
    GainsSplit(rps, last, times);
  }

  /** Each request comes at least 1/rps after the one before. */
  predicate Spaced(rps: real, times: seq<real>) {
    |times| < 2 || (rps * (times[1] - times[0]) >= 1.0 && Spaced(rps, times[1..]))
  }

  /** Requests at least 1/rps apart, from a bucket with a token, are never refused. */
  lemma {:induction false} SteadyNeverRefused(b: Bucket, rps: real, times: seq<real>)
    requires rps >= 1.0 && Sane(b, rps) && Ordered(times, b.last)
    requires (times != [] ==> Allows(b, rps, times[0])) && Spaced(rps, times)
    ensures Allowed(b, rps, times) == |times|
    decreases |times|
  {
    if times != [] {
      var next, rest := Next(b, rps, times[0]), times[1..];
      AllowedStep(b, rps, times);
      NextSane(b, rps, times[0]);
      if rest != [] { TokenBack(next, rps, rest[0]); }
      SteadyNeverRefused(next, rps, rest);
    }
  }

  lemma TokenBack(b: Bucket, rps: real, now: real)
    requires rps >= 1.0 && Sane(b, rps) && rps * (now - b.last) >= 1.0
    ensures Allows(b, rps, now)
  {
  }

  /** With less than one request per second the bucket never holds a whole token: everything is refused. */
  lemma {:induction false} BelowOneRefusesAll(b: Bucket, rps: real, times: seq<real>)
    requires rps < 1.0
    ensures Allowed(b, rps, times) == 0
    decreases |times|
  {
    if times != [] {
      AllowedStep(b, rps, times);
      BelowOneRefusesAll(Next(b, rps, times[0]), rps, times[1..]);
    }
  }

  /** A configured rate serves a new client, at whatever time it comes, exactly when it is at least one. */
  lemma FreshAllowsIff(rps: real, now: real, later: real)
    requires rps >= 0.0 && now <= later
    ensures Allows(Fresh(rps, now), rps, later) <==> rps >= 1.0
  {
    Grows(rps, later - now);
  }

  /** From any reachable state, some future request passes exactly when the rate is at least one. */
  lemma ServesIff(b: Bucket, rps: real)
    requires rps >= 0.0 && Sane(b, rps)
    ensures (exists times :: Ordered(times, b.last) && Allowed(b, rps, times) > 0) <==> rps >= 1.0
  {
    forall times ensures rps < 1.0 ==> Allowed(b, rps, times) == 0 {
      if rps < 1.0 { BelowOneRefusesAll(b, rps, times); }
    }
    if rps >= 1.0 {
      var later := b.last + 1.0;
      assert [later][1..] == [] && Ordered([later], b.last);
      IdleIsFresh(b, rps, later);
      AllowedStep(b, rps, [later]);
    }
  }

  // ---------- per-user limiter ----------

  datatype Entry = Entry(bucket: Bucket, lastSeen: real)
  type Limiters = map<string, Entry>

  datatype Event = Request(user: string, now: real) | Cleanup(now: real)

  /** The bucket a request is judged by: the user's, or a fresh one. */
  function BucketOf(ls: Limiters, user: string, rps: real, now: real): Bucket {
    if user in ls then ls[user].bucket else Fresh(rps, now)
  }

  function Served(ls: Limiters, user: string, rps: real, now: real): Limiters {
    ls[user := Entry(Next(BucketOf(ls, user, rps, now), rps, now), now)]
  }

  function Swept(ls: Limiters, ttl: real, now: real): Limiters {
    map u | u in ls && !(ls[u].lastSeen < now - ttl) :: ls[u]
  }

  class PerUserLimiter {
    var limiters: Limiters
    const requestsPerSecond: real
    const idleTTL: real

    constructor (rps: real, ttl: real)
      ensures limiters == map[] && requestsPerSecond == rps && idleTTL == if ttl <= 0.0 then 600.0 else ttl
    {
      limiters, requestsPerSecond, idleTTL := map[], rps, if ttl <= 0.0 then 600.0 else ttl;
    }

    method Serve(user: string, now: real) returns (ok: bool)
      modifies this
      ensures ok == Allows(BucketOf(old(limiters), user, requestsPerSecond, now), requestsPerSecond, now)
      ensures limiters == Served(old(limiters), user, requestsPerSecond, now)
    {
      if user !in limiters {
        limiters := limiters[user := Entry(Fresh(requestsPerSecond, now), now)];
      } else {
        limiters := limiters[user := limiters[user].(lastSeen := now)];
      }
      var b := limiters[user].bucket;
      ok := Allows(b, requestsPerSecond, now);
      limiters := limiters[user := limiters[user].(bucket := Next(b, requestsPerSecond, now))];
    }

    /** One tick of the cleanup goroutine. */
    method Sweep(now: real)
      modifies this
      ensures limiters == Swept(old(limiters), idleTTL, now)
      ensures forall u :: u in limiters <==> u in old(limiters) && now - old(limiters)[u].lastSeen <= idleTTL
    {
      var cutoff := now - idleTTL;
      var todo := limiters.Keys;
      ghost var before := limiters;
      while todo != {}
        invariant todo <= before.Keys
        invariant limiters == map u | u in before && (u in todo || !(before[u].lastSeen < cutoff)) :: before[u]
        decreases |todo|
      {
        var u :| u in todo;
        todo := todo - {u};
        if limiters[u].lastSeen < cutoff { limiters := limiters - {u}; }
      }
    }
  }

  // ---------- eviction cannot be observed ----------

  function Decision(ls: Limiters, e: Event, rps: real): bool {
    e.Request? && Allows(BucketOf(ls, e.user, rps, e.now), rps, e.now)
  }

  function Step(ls: Limiters, e: Event, rps: real, ttl: real): Limiters {
    match e
    case Request(user, now) => Served(ls, user, rps, now)
    case Cleanup(now) => Swept(ls, ttl, now)
  }

  /** The answers to a sequence of requests, with or without eviction. */
  function Answers(ls: Limiters, es: seq<Event>, rps: real, ttl: real, evict: bool): seq<bool>
    decreases |es|
  {
    if es == [] then []
    else
      [Decision(ls, es[0], rps)]
      + Answers(if evict || es[0].Request? then Step(ls, es[0], rps, ttl) else ls, es[1..], rps, ttl, evict)
  }

  predicate InTime(es: seq<Event>, from: real) {
    es == [] || (from <= es[0].now && InTime(es[1..], es[0].now))
  }

  /** `ls` is `full` without some users that have been idle long enough for their buckets to be full again. */
  ghost predicate Pruned(ls: Limiters, full: Limiters, rps: real, clock: real) {
    && (forall u :: u in ls ==> u in full && ls[u] == full[u])
    && (forall u :: u in full ==> EntryOk(full[u], rps, clock))
    && (forall u :: u in full && u !in ls ==> clock - full[u].lastSeen >= 1.0)
  }

  predicate EntryOk(e: Entry, rps: real, clock: real) {
    e.lastSeen == e.bucket.last <= clock && Sane(e.bucket, rps)
  }

  /** A bucket that has been idle for a second is as good as a fresh one. */
  lemma IdleIsFresh(b: Bucket, rps: real, now: real)
    requires rps >= 0.0 && Sane(b, rps) && now - b.last >= 1.0
    ensures Filled(b, rps, now) == rps == Filled(Fresh(rps, now), rps, now)
    ensures Next(b, rps, now) == Next(Fresh(rps, now), rps, now)
  {
    Grows(rps, now - b.last - 1.0);
    assert rps * (now - b.last) == rps * (now - b.last - 1.0) + rps;
    assert rps * (now - now) == 0.0;
  }

  lemma FreshSane(rps: real, now: real)
    requires rps >= 0.0
    ensures Sane(Fresh(rps, now), rps)
  {
  }

  lemma RequestAgrees(ls: Limiters, full: Limiters, user: string, now: real, rps: real, clock: real)
    requires rps >= 0.0 && Pruned(ls, full, rps, clock) && clock <= now
    ensures Allows(BucketOf(ls, user, rps, now), rps, now) == Allows(BucketOf(full, user, rps, now), rps, now)
    ensures Pruned(Served(ls, user, rps, now), Served(full, user, rps, now), rps, now)
  {
    if user in full {
      assert EntryOk(full[user], rps, clock);
      if user !in ls { IdleIsFresh(full[user].bucket, rps, now); }
    }
    FreshSane(rps, now);
    NextSane(BucketOf(full, user, rps, now), rps, now);
  }

  lemma CleanupAgrees(ls: Limiters, full: Limiters, now: real, rps: real, ttl: real, clock: real)
    requires Pruned(ls, full, rps, clock) && clock <= now && ttl >= 1.0
    ensures Pruned(Swept(ls, ttl, now), full, rps, now)
  {
    forall u | u in full ensures EntryOk(full[u], rps, now) { assert EntryOk(full[u], rps, clock); }
  }

  lemma {:induction false} EvictionFrom(ls: Limiters, full: Limiters, es: seq<Event>, rps: real, ttl: real, clock: real)
    requires rps >= 0.0 && ttl >= 1.0 && Pruned(ls, full, rps, clock) && InTime(es, clock)
    ensures Answers(ls, es, rps, ttl, true) == Answers(full, es, rps, ttl, false)
    decreases |es|
  {
    if es != [] {
      var e := es[0];
      if e.Request? {
        RequestAgrees(ls, full, e.user, e.now, rps, clock);
        EvictionFrom(Step(ls, e, rps, ttl), Step(full, e, rps, ttl), es[1..], rps, ttl, e.now);
      } else {
        CleanupAgrees(ls, full, e.now, rps, ttl, clock);
        EvictionFrom(Step(ls, e, rps, ttl), full, es[1..], rps, ttl, e.now);
      }
    }
  }

  /** If the idle limit is at least a second, no sequence of requests and cleanups can tell that users are evicted. */
  lemma EvictionInvisible(es: seq<Event>, rps: real, ttl: real, start: real)
    requires rps >= 0.0 && ttl >= 1.0 && InTime(es, start)
    ensures Answers(map[], es, rps, ttl, true) == Answers(map[], es, rps, ttl, false)
  {
    EvictionFrom(map[], map[], es, rps, ttl, start);
  }

  // ---------- when eviction can be observed ----------

  predicate Differ(ls: Limiters, full: Limiters, es: seq<Event>, rps: real, ttl: real) {
    Answers(ls, es, rps, ttl, true) != Answers(full, es, rps, ttl, false)
  }

  function Kept(ls: Limiters, e: Event, rps: real, ttl: real): Limiters {
    if e.Request? then Step(ls, e, rps, ttl) else ls
  }

  /** A difference after an event is a difference before it. */
  lemma DifferBefore(ls: Limiters, full: Limiters, e: Event, es: seq<Event>, rps: real, ttl: real)
    requires Differ(Step(ls, e, rps, ttl), Kept(full, e, rps, ttl), es, rps, ttl)
    ensures Differ(ls, full, [e] + es, rps, ttl)
  {
    assert ([e] + es)[1..] == es;
    var x, y := Answers(ls, [e] + es, rps, ttl, true), Answers(full, [e] + es, rps, ttl, false);
    assert x[1..] == Answers(Step(ls, e, rps, ttl), es, rps, ttl, true);
    assert y[1..] == Answers(Kept(full, e, rps, ttl), es, rps, ttl, false);
  }

  lemma DifferNow(ls: Limiters, full: Limiters, e: Event, rps: real, ttl: real)
    requires Decision(ls, e, rps) != Decision(full, e, rps)
    ensures Differ(ls, full, [e], rps, ttl)
  {
    assert Answers(ls, [e], rps, ttl, true)[0] != Answers(full, [e], rps, ttl, false)[0];
  }

  lemma InTimeCons(e: Event, es: seq<Event>, from: real)
    requires from <= e.now && InTime(es, e.now)
    ensures InTime([e] + es, from)
  {
    assert ([e] + es)[1..] == es;
  }

  /** The user's bucket was last touched at `now` and holds x tokens. */
  predicate Holds(ls: Limiters, user: string, x: real, now: real) {
    user in ls && ls[user].bucket == Bucket(x, now) && ls[user].lastSeen == now
  }

  lemma ServedHolds(ls: Limiters, user: string, rps: real, now: real, x: real)
    requires x == Filled(BucketOf(ls, user, rps, now), rps, now)
    ensures Decision(ls, Request(user, now), rps) == (x >= 1.0)
    ensures Holds(Served(ls, user, rps, now), user, if x >= 1.0 then x - 1.0 else x, now)
  {
  }

  lemma FilledAtOnce(x: real, rps: real, now: real)
    requires x <= rps
    ensures Filled(Bucket(x, now), rps, now) == x
  {
    assert rps * (now - now) == 0.0;
  }

  /** The time in which `d` tokens are gained. */
  lemma WaitFor(rps: real, d: real) returns (wait: real)
    requires rps >= 1.0 && d >= 0.0
    ensures wait >= 0.0 && rps * wait == d
  {
    wait := d / rps;
  }

  /** Two buckets of different contents answer some sequence of requests differently. */
  lemma {:induction false} TellApart(ls: Limiters, full: Limiters, user: string, rps: real, ttl: real, now: real, y: real, x: real)
    returns (es: seq<Event>)
    requires rps >= 1.0 && Holds(ls, user, y, now) && Holds(full, user, x, now) && 0.0 <= x < y <= rps
    ensures InTime(es, now) && Differ(ls, full, es, rps, ttl)
    decreases y.Floor
  {
    if y < 1.0 {
      var wait := WaitFor(rps, 1.0 - y);
      es := [Request(user, now + wait)];
      DifferNow(ls, full, es[0], rps, ttl);
    } else {
      FilledAtOnce(y, rps, now);
      FilledAtOnce(x, rps, now);
      var e := Request(user, now);
      if x < 1.0 {
        es := [e];
        DifferNow(ls, full, e, rps, ttl);
      } else {
        ServedHolds(ls, user, rps, now, y);
        ServedHolds(full, user, rps, now, x);
        var rest := TellApart(Served(ls, user, rps, now), Served(full, user, rps, now), user, rps, ttl, now, y - 1.0, x - 1.0);
        es := [e] + rest;
        DifferBefore(ls, full, e, rest, rps, ttl);
        InTimeCons(e, rest, now);
      }
    }
  }

  lemma SweptAway(ls: Limiters, user: string, ttl: real, now: real, later: real, x: real)
    requires Holds(ls, user, x, now) && ttl < later - now
    ensures user !in Swept(ls, ttl, later)
  {
  }

  /** An empty bucket that is swept before it is full again. */
  lemma EmptyVisible(ls: Limiters, user: string, rps: real, ttl: real, now: real) returns (es: seq<Event>)
    requires rps >= 1.0 && 0.0 < ttl < 1.0 && Holds(ls, user, 0.0, now)
    ensures InTime(es, now) && Differ(ls, ls, es, rps, ttl)
  {
    var d := (ttl + 1.0) / 2.0;
    var later := now + d;
    var gone, sweep := Swept(ls, ttl, later), Cleanup(later);
    SweptAway(ls, user, ttl, now, later, 0.0);
    var rest := FreshAgainst(gone, ls, user, rps, ttl, now, d);
    DifferBefore(ls, ls, sweep, rest, rps, ttl);
    InTimeCons(sweep, rest, now);
    es := [sweep] + rest;
  }

  /** A fresh bucket against one that has refilled for less than a second. */
  lemma FreshAgainst(gone: Limiters, ls: Limiters, user: string, rps: real, ttl: real, now: real, d: real) returns (es: seq<Event>)
    requires rps >= 1.0 && 0.0 < d < 1.0 && user !in gone && Holds(ls, user, 0.0, now)
    ensures InTime(es, now + d) && Differ(gone, ls, es, rps, ttl)
  {
    var later := now + d;
    var e, x := Request(user, later), rps * d;
    LessThan(rps, d);
    assert Filled(ls[user].bucket, rps, later) == x;
    FilledAtOnce(rps, rps, later);
    ServedHolds(gone, user, rps, later, rps);
    ServedHolds(ls, user, rps, later, x);
    if x < 1.0 {
      es := [e];
      DifferNow(gone, ls, e, rps, ttl);
    } else {
      var rest := TellApart(Served(gone, user, rps, later), Served(ls, user, rps, later), user, rps, ttl, later, rps - 1.0, x - 1.0);
      es := [e] + rest;
      DifferBefore(gone, ls, e, rest, rps, ttl);
      InTimeCons(e, rest, later);
    }
  }

  lemma LessThan(rps: real, d: real)
    requires rps >= 1.0 && 0.0 < d < 1.0
    ensures 0.0 < rps * d < rps
  {
  }

  /** Requests that drain the bucket to the last token, then wait for the sweep. */
  lemma {:induction false} DrainVisible(ls: Limiters, user: string, rps: real, ttl: real, now: real, y: real) returns (es: seq<Event>)
    requires rps >= 1.0 && 0.0 < ttl < 1.0 && Holds(ls, user, y, now) && 0.0 <= y <= rps
    ensures InTime(es, now) && Differ(ls, ls, es, rps, ttl)
    decreases y.Floor, y > 0.0
  {
    if y == 0.0 {
      es := EmptyVisible(ls, user, rps, ttl, now);
    } else {
      var wait := WaitFor(rps, if y < 1.0 then 1.0 - y else 0.0);
      var later := now + wait;
      var e, left := Request(user, later), if y < 1.0 then 0.0 else y - 1.0;
      assert Filled(ls[user].bucket, rps, later) == left + 1.0;
      ServedHolds(ls, user, rps, later, left + 1.0);
      var rest := DrainVisible(Served(ls, user, rps, later), user, rps, ttl, later, left);
      es := [e] + rest;
      DifferBefore(ls, ls, e, rest, rps, ttl);
      InTimeCons(e, rest, now);
    }
  }

  /** Below a second, at any rate that serves at all, some sequence of requests and cleanups tells that a user was evicted. */
  lemma ShortIdleVisible(rps: real, ttl: real, user: string, start: real) returns (es: seq<Event>)
    requires rps >= 1.0 && 0.0 < ttl < 1.0
    ensures InTime(es, start) && Differ(map[], map[], es, rps, ttl)
  {
    var e := Request(user, start);
    FilledAtOnce(rps, rps, start);
    ServedHolds(map[], user, rps, start, rps);
    var rest := DrainVisible(Served(map[], user, rps, start), user, rps, ttl, start, rps - 1.0);
    es := [e] + rest;
    DifferBefore(map[], map[], e, rest, rps, ttl);
    InTimeCons(e, rest, start);
  }

  /** A rate below one refuses everything, with or without eviction. */
  lemma {:induction false} BelowOneInvisible(ls: Limiters, full: Limiters, es: seq<Event>, rps: real, ttl: real)
    requires rps < 1.0
    ensures !Differ(ls, full, es, rps, ttl)
    decreases |es|
  {
    if es != [] { BelowOneInvisible(Step(ls, es[0], rps, ttl), Kept(full, es[0], rps, ttl), es[1..], rps, ttl); }
  }

  /** Eviction is invisible exactly when the idle limit is at least a second, or the rate serves nobody anyway. */
  lemma EvictionInvisibleIff(rps: real, ttl: real, start: real)
    requires rps >= 0.0 && ttl > 0.0
    ensures (forall es :: InTime(es, start) ==> !Differ(map[], map[], es, rps, ttl)) <==> ttl >= 1.0 || rps < 1.0
  {
    if ttl >= 1.0 {
      forall es | InTime(es, start) ensures !Differ(map[], map[], es, rps, ttl) { EvictionInvisible(es, rps, ttl, start); }
    } else if rps < 1.0 {
      forall es ensures !Differ(map[], map[], es, rps, ttl) { BelowOneInvisible(map[], map[], es, rps, ttl); }
    } else {
      var es := ShortIdleVisible(rps, ttl, "", start);
    }
  }
}
