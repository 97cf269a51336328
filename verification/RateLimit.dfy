/** The fixed-window rate limiter: counters in a key store, one per client and aligned bucket, each set
    to expire one window after its first hit. */
module RateLimit {
  import opened Types

  const SECOND: nat := 1_000_000

  /** The counter "rate:client:bucket". */
  datatype Slot = Slot(client: string, bucket: nat)

  datatype Counter = Counter(count: nat, expires: Option<int>)

  type Store = map<Slot, Counter>

  /** One call of Allow: `at` is when the client of the store read the clock, `served` when the store
      ran its INCR; `expired` is when the store ran the EXPIRE that may follow, if it took effect. Calls
      of others may be served in between; the counter has no expiry until then, so it makes no difference
      that the model sets the expiry, reckoned from `expired`, along with the INCR. */
  datatype Call = Call(client: string, at: nat, served: nat, incr: Fate, expired: Option<nat>)

  /** The window in whole seconds, as both the bucket computation and EXPIRE truncate it. */
  function Seconds(window: nat): nat { window / SECOND }

  function Bucket(at: nat, seconds: nat): nat
    requires seconds > 0
  {
    at / SECOND / seconds
  }

  function SlotOf(c: Call, seconds: nat): Slot
    requires seconds > 0
  {
    Slot(c.client, Bucket(c.at, seconds))
  }

  function End(bucket: nat, seconds: nat): nat { (bucket + 1) * seconds * SECOND }

  lemma BucketBounds(at: nat, seconds: nat)
    requires seconds > 0
    ensures Bucket(at, seconds) * seconds * SECOND <= at < End(Bucket(at, seconds), seconds)
  {
    var s, b := at / SECOND, at / SECOND / seconds;
    assert b * seconds <= s < (b + 1) * seconds;
  }

  // ----- The store -----

  /** What has not expired. The store forgets the rest for good. */
  function Alive(s: Store, now: int): Store {
    map k | k in s && (s[k].expires.Some? ==> now < s[k].expires.value) :: s[k]
  }

  function CountAt(s: Store, k: Slot): nat { if k in s then s[k].count else 0 }

  function AfterIncr(s: Store, k: Slot, now: int): Store {
    var a := Alive(s, now);
    a[k := if k in a then a[k].(count := a[k].count + 1) else Counter(1, None)]
  }

  function AfterExpire(s: Store, k: Slot, at: int): Store {
    if k in s then s[k := s[k].(expires := Some(at))] else s
  }

  predicate Counted(c: Call) { c.incr.Fails? ==> c.incr.landed }

  function AfterCall(s: Store, c: Call, seconds: nat): Store
    requires seconds > 0
  {
    var k := SlotOf(c, seconds);
    if !Counted(c) then Alive(s, c.served)
    else
      var s' := AfterIncr(s, k, c.served);
      if c.incr.Runs? && s'[k].count == 1 && c.expired.Some? then AfterExpire(s', k, c.expired.value + seconds * SECOND) else s'
  }

  function StoreAfter(cs: seq<Call>, seconds: nat): Store
    requires seconds > 0
  {
    if cs == [] then map[] else AfterCall(StoreAfter(cs[..|cs| - 1], seconds), cs[|cs| - 1], seconds)
  }

  /** Call i of a history is let through. */
  predicate Granted(cs: seq<Call>, i: nat, limit: int, seconds: nat)
    requires i < |cs| && seconds > 0
  {
    cs[i].incr.Runs? && CountAt(StoreAfter(cs[..i + 1], seconds), SlotOf(cs[i], seconds)) <= limit
  }

  class Redis {
    var counters: Store

    constructor ()
      ensures counters == map[]
    {
      counters := map[];
    }

    method Incr(k: Slot, now: int) returns (count: nat)
      modifies this
      ensures counters == AfterIncr(old(counters), k, now)
      ensures count == CountAt(counters, k) && count > 0
      ensures var alive := k in old(counters) && (old(counters)[k].expires.None? || now < old(counters)[k].expires.value);
              counters[k] == Counter(count, if alive then old(counters)[k].expires else None)
              && count == if alive then old(counters)[k].count + 1 else 1
    {
      counters := map x | x in counters && (counters[x].expires.None? || now < counters[x].expires.value) :: counters[x];
      var before := if k in counters then counters[k] else Counter(0, None);
      count := before.count + 1;
      counters := counters[k := before.(count := count)];
    }

    method Expire(k: Slot, at: int)
      modifies this
      ensures counters == AfterExpire(old(counters), k, at)
    {
      if k in counters {
        counters := counters[k := counters[k].(expires := Some(at))];
      }
    }

    /** An INCR that does not arrive; time passes all the same. */
    method Miss(now: int)
      modifies this
      ensures counters == Alive(old(counters), now)
    {
      counters := map x | x in counters && (counters[x].expires.None? || now < counters[x].expires.value) :: counters[x];
    }
  }

  class RateLimiter {
    const client: Redis
    const limit: int
    const window: nat

    constructor (client: Redis, limit: int, window: nat)
      ensures this.client == client && this.limit == limit && this.window == window
    {
      this.client, this.limit, this.window := client, limit, window;
    }

    /** A window under one second divides by zero. Continuing the history `cs` with call `c` grants `c`
        or not as the history says, and reports what is left of the limit. */
    method Allow(c: Call, ghost cs: seq<Call>) returns (r: Result<(bool, nat), Error>)
      requires window >= SECOND
      requires client.counters == StoreAfter(cs, Seconds(window))
      modifies client
      ensures client.counters == StoreAfter(cs + [c], Seconds(window))
      ensures r.Ok? <==> c.incr.Runs?
      ensures r.Ok? ==> r.value.0 == Granted(cs + [c], |cs|, limit, Seconds(window))
      ensures r.Ok? ==>
        var left := limit - CountAt(client.counters, SlotOf(c, Seconds(window)));
        r.value.1 == if left < 0 then 0 else left
      ensures r.Ok? && window % 1_000_000 == 0 && Ordered(cs + [c]) && ServedInWindow(cs + [c], window) ==>
        var hits := HitsIn(cs + [c], c.client, c.at / window * window, c.at / window * window + window);
        r.value == (hits <= limit, if limit < hits then 0 else limit - hits)
    {
      var count := Hit(c, cs);
      if c.incr.Fails? { return Err(Unavailable); }
      if window % 1_000_000 == 0 && Ordered(cs + [c]) && ServedInWindow(cs + [c], window) {
        CountIsHitsInWindow(cs, c, window);
      }
      var remaining := limit - count;
      if remaining < 0 {
        remaining := 0;
      }
      r := Ok((count <= limit, remaining));
    }

    /** INCR, and EXPIRE on the first hit. */
    method Hit(c: Call, ghost cs: seq<Call>) returns (count: nat)
      requires window >= SECOND
      requires client.counters == StoreAfter(cs, Seconds(window))
      modifies client
      ensures client.counters == StoreAfter(cs + [c], Seconds(window))
      ensures c.incr.Runs? ==>
        && count == CountAt(client.counters, SlotOf(c, Seconds(window)))
        && forall m :: Granted(cs + [c], |cs|, m, Seconds(window)) <==> count <= m
    {
      assert (cs + [c])[..|cs|] == cs && (cs + [c])[..|cs| + 1] == cs + [c];
      var seconds := window / SECOND;
      var k := Slot(c.client, c.at / SECOND / seconds);
      count := 0;
      if c.incr.Fails? {
        if c.incr.landed {
          count := client.Incr(k, c.served);
        } else {
          client.Miss(c.served);
        }
        return;
      }
      count := client.Incr(k, c.served);
      if count == 1 && c.expired.Some? {
        client.Expire(k, c.expired.value + seconds * SECOND);
      }
    }
  }

  // ----- Histories -----

  /** Calls in the order the store serves them; a call's EXPIRE runs after its INCR. */
  predicate Ordered(cs: seq<Call>) {
    && (forall i, j :: 0 <= i < j < |cs| ==> cs[i].served <= cs[j].served)
    && (forall i :: 0 <= i < |cs| && cs[i].expired.Some? ==> cs[i].served <= cs[i].expired.value)
  }

  predicate IsHit(c: Call, k: Slot, seconds: nat)
    requires seconds > 0
  {
    Counted(c) && SlotOf(c, seconds) == k
  }

  function Hits(cs: seq<Call>, k: Slot, seconds: nat): nat
    requires seconds > 0
  {
    if cs == [] then 0
    else
      var last := cs[|cs| - 1];
      Hits(cs[..|cs| - 1], k, seconds) + if IsHit(last, k, seconds) then 1 else 0
  }

  /** How many calls were let through by one counter. */
  function Grants(cs: seq<Call>, k: Slot, limit: int, seconds: nat): nat
    requires seconds > 0
  {
    if cs == [] then 0
    else
      Grants(cs[..|cs| - 1], k, limit, seconds)
      + if SlotOf(cs[|cs| - 1], seconds) == k && Granted(cs, |cs| - 1, limit, seconds) then 1 else 0
  }

  function FirstHit(cs: seq<Call>, k: Slot, seconds: nat): Option<Call>
    requires seconds > 0
  {
    if cs == [] then None
    else
      var before, last := FirstHit(cs[..|cs| - 1], k, seconds), cs[|cs| - 1];
      if before.Some? then before else if IsHit(last, k, seconds) then Some(last) else None
  }

  /** When the counter of the slot expires: one window after the EXPIRE of its first hit ran, if it took
      effect, else never. */
  function Expiry(cs: seq<Call>, k: Slot, seconds: nat): Option<int>
    requires seconds > 0
  {
    var first := FirstHit(cs, k, seconds);
    if first.Some? && first.value.incr.Runs? && first.value.expired.Some? then Some(first.value.expired.value + seconds * SECOND)
    else None
  }

  predicate Before(now: int, expiry: Option<int>) { expiry.Some? ==> now < expiry.value }

  /** What the store holds for the slot: all hits until the expiry, and fewer from then on. */
  predicate SlotOk(s: Store, k: Slot, hits: nat, expiry: Option<int>, now: int) {
    if Before(now, expiry)
    then CountAt(s, k) == hits && (k in s <==> hits > 0) && (k in s ==> s[k].expires == expiry)
    else CountAt(s, k) < hits
  }

  lemma CallKeepsSlot(s: Store, c: Call, k: Slot, hits: nat, expiry: Option<int>, before: int, seconds: nat)
    requires seconds > 0 && before <= c.served && (hits == 0 ==> expiry.None?)
    requires c.expired.Some? ==> c.served <= c.expired.value
    requires SlotOk(s, k, hits, expiry, before)
    ensures var hit := IsHit(c, k, seconds);
            var expiry' := if hits == 0 && hit && c.incr.Runs? && c.expired.Some? then Some(c.expired.value + seconds * SECOND) else expiry;
            SlotOk(AfterCall(s, c, seconds), k, hits + if hit then 1 else 0, expiry', c.served)
  {
    if SlotOf(c, seconds) != k {
      assert k in AfterCall(s, c, seconds) <==> k in Alive(s, c.served);
    }
  }

  lemma {:induction false} NoHitNoFirst(cs: seq<Call>, k: Slot, seconds: nat)
    requires seconds > 0
    ensures FirstHit(cs, k, seconds).Some? <==> Hits(cs, k, seconds) > 0
  {
    if cs != [] { NoHitNoFirst(cs[..|cs| - 1], k, seconds); }
  }

  lemma FrontIsOrdered(cs: seq<Call>)
    requires Ordered(cs) && cs != []
    ensures Ordered(cs[..|cs| - 1])
  {
  }

  lemma {:induction false} SlotAfterCalls(cs: seq<Call>, k: Slot, seconds: nat)
    requires seconds > 0 && Ordered(cs) && cs != []
    ensures SlotOk(StoreAfter(cs, seconds), k, Hits(cs, k, seconds), Expiry(cs, k, seconds), cs[|cs| - 1].served)
  {
    var front, last := cs[..|cs| - 1], cs[|cs| - 1];
    NoHitNoFirst(front, k, seconds);
    FrontIsOrdered(cs);
    if front != [] {
      SlotAfterCalls(front, k, seconds);
      CallKeepsSlot(StoreAfter(front, seconds), last, k, Hits(front, k, seconds), Expiry(front, k, seconds), front[|front| - 1].served, seconds);
    } else {
      CallKeepsSlot(map[], last, k, 0, None, last.served, seconds);
    }
  }

  /** Exactly when the count is right: the counter holds every hit of its slot while the last call is
      served before the expiry, and misses some as soon as one is served at or after it. */
  lemma CountersCountHits(cs: seq<Call>, k: Slot, seconds: nat)
    requires seconds > 0 && Ordered(cs) && cs != []
    ensures SlotOk(StoreAfter(cs, seconds), k, Hits(cs, k, seconds), Expiry(cs, k, seconds), cs[|cs| - 1].served)
    ensures CountAt(StoreAfter(cs, seconds), k) == Hits(cs, k, seconds)
            <==> Before(cs[|cs| - 1].served, Expiry(cs, k, seconds))
  {
    SlotAfterCalls(cs, k, seconds);
  }

  /** Call i is served while the counter of its slot is alive. */
  predicate InTimeAt(cs: seq<Call>, i: nat, seconds: nat)
    requires seconds > 0 && i < |cs|
  {
    Before(cs[i].served, Expiry(cs[..i + 1], SlotOf(cs[i], seconds), seconds))
  }

  predicate InTime(cs: seq<Call>, k: Slot, seconds: nat)
    requires seconds > 0
  {
    forall i :: 0 <= i < |cs| && SlotOf(cs[i], seconds) == k ==> InTimeAt(cs, i, seconds)
  }

  /** Every call of the client is in time. */
  predicate ClientInTime(cs: seq<Call>, client: string, seconds: nat)
    requires seconds > 0
  {
    forall i :: 0 <= i < |cs| && cs[i].client == client ==> InTimeAt(cs, i, seconds)
  }

  lemma PrefixIsFine(cs: seq<Call>, i: nat, k: Slot, seconds: nat)
    requires seconds > 0 && Ordered(cs) && i <= |cs|
    ensures Ordered(cs[..i]) && (InTime(cs, k, seconds) ==> InTime(cs[..i], k, seconds))
  {
    if InTime(cs, k, seconds) {
      forall n | 0 <= n < i && SlotOf(cs[..i][n], seconds) == k ensures InTimeAt(cs[..i], n, seconds) {
        assert InTimeAt(cs, n, seconds) && cs[..i][..n + 1] == cs[..n + 1];
      }
    }
  }

  /** A call in time is let through exactly when it is among the first `limit` hits of its client in its
      bucket. A late call is judged by fewer hits than there were. */
  lemma GrantedIsEarly(cs: seq<Call>, i: nat, limit: int, seconds: nat)
    requires seconds > 0 && Ordered(cs) && i < |cs|
    ensures var k := SlotOf(cs[i], seconds);
            if InTimeAt(cs, i, seconds)
            then Granted(cs, i, limit, seconds) <==> cs[i].incr.Runs? && Hits(cs[..i + 1], k, seconds) <= limit
            else CountAt(StoreAfter(cs[..i + 1], seconds), k) < Hits(cs[..i + 1], k, seconds)
  {
    PrefixIsFine(cs, i + 1, SlotOf(cs[i], seconds), seconds);
    CountersCountHits(cs[..i + 1], SlotOf(cs[i], seconds), seconds);
  }

  /** The first late hit finds the counter gone and starts it anew, so that it passes whatever the number
      of hits before it. */
  lemma LateCallStartsAnew(cs: seq<Call>, limit: int, seconds: nat)
    requires seconds > 0 && Ordered(cs) && |cs| > 1
    requires var k := SlotOf(cs[|cs| - 1], seconds);
             && IsHit(cs[|cs| - 1], k, seconds) && !InTimeAt(cs, |cs| - 1, seconds)
             && Before(cs[|cs| - 2].served, Expiry(cs[..|cs| - 1], k, seconds))
    ensures CountAt(StoreAfter(cs, seconds), SlotOf(cs[|cs| - 1], seconds)) == 1
    ensures Granted(cs, |cs| - 1, limit, seconds) <==> cs[|cs| - 1].incr.Runs? && 1 <= limit
  {
    var front, last, k := cs[..|cs| - 1], cs[|cs| - 1], SlotOf(cs[|cs| - 1], seconds);
    CountersCountHits(front, k, seconds);
    assert cs[..|cs| - 1 + 1] == cs;
    NoHitNoFirst(front, k, seconds);
    assert k !in Alive(StoreAfter(front, seconds), last.served);
  }

  /** The store serves each call before its bucket ends, by the clock the bucket was read from. */
  predicate Prompt(cs: seq<Call>, seconds: nat)
    requires seconds > 0
  {
    forall i :: 0 <= i < |cs| ==> cs[i].at <= cs[i].served < End(Bucket(cs[i].at, seconds), seconds)
  }

  lemma {:induction false} FirstHitIsIn(cs: seq<Call>, k: Slot, seconds: nat)
    requires seconds > 0 && FirstHit(cs, k, seconds).Some?
    ensures FirstHit(cs, k, seconds).value in cs && IsHit(FirstHit(cs, k, seconds).value, k, seconds)
  {
    if FirstHit(cs[..|cs| - 1], k, seconds).Some? { FirstHitIsIn(cs[..|cs| - 1], k, seconds); }
  }

  /** A counter set to expire one window after its first hit cannot expire inside its bucket: prompt calls
      are in time. */
  lemma PromptCallsAreInTime(cs: seq<Call>, client: string, seconds: nat)
    requires seconds > 0 && Ordered(cs) && Prompt(cs, seconds)
    ensures ClientInTime(cs, client, seconds)
  {
    forall i | 0 <= i < |cs| ensures InTimeAt(cs, i, seconds) {
      var k := SlotOf(cs[i], seconds);
      var first := FirstHit(cs[..i + 1], k, seconds);
      if first.Some? {
        FirstHitIsIn(cs[..i + 1], k, seconds);
        BucketBounds(first.value.at, seconds);
        assert (k.bucket + 1) * seconds == k.bucket * seconds + seconds;
      }
    }
  }

  function Bound(limit: int): nat { if limit < 0 then 0 else limit }

  /** A bucket lets through as many of its hits as the limit, no more; and when no INCR fails it lets
      through exactly the smaller of both. */
  lemma {:induction false} BucketAdmitsTheLimit(cs: seq<Call>, k: Slot, limit: int, seconds: nat)
    requires seconds > 0 && Ordered(cs) && InTime(cs, k, seconds)
    ensures Grants(cs, k, limit, seconds) <= Min(Hits(cs, k, seconds), Bound(limit))
    ensures (forall i :: 0 <= i < |cs| ==> cs[i].incr.Runs?) ==>
              Grants(cs, k, limit, seconds) == Min(Hits(cs, k, seconds), Bound(limit))
  {
    if cs != [] {
      PrefixIsFine(cs, |cs| - 1, k, seconds);
      BucketAdmitsTheLimit(cs[..|cs| - 1], k, limit, seconds);
      if SlotOf(cs[|cs| - 1], seconds) == k {
        assert InTimeAt(cs, |cs| - 1, seconds);
        GrantedIsEarly(cs, |cs| - 1, limit, seconds);
      }
      assert cs[..|cs|] == cs;
    }
  }

  /** How many calls of a client are let through whose clock reading falls in [from, to). */
  function Admitted(cs: seq<Call>, client: string, from: int, to: int, limit: int, seconds: nat): nat
    requires seconds > 0
  {
    if cs == [] then 0
    else
      var last := cs[|cs| - 1];
      Admitted(cs[..|cs| - 1], client, from, to, limit, seconds)
      + if last.client == client && from <= last.at < to && Granted(cs, |cs| - 1, limit, seconds) then 1 else 0
  }

  lemma {:induction false} TwoBucketsCover(cs: seq<Call>, client: string, from: nat, limit: int, seconds: nat)
    requires seconds > 0
    ensures var b := Bucket(from, seconds);
            Admitted(cs, client, from, from + seconds * SECOND, limit, seconds)
              <= Grants(cs, Slot(client, b), limit, seconds) + Grants(cs, Slot(client, b + 1), limit, seconds)
    ensures (forall i :: 0 <= i < |cs| ==> from <= cs[i].at < from + seconds * SECOND) ==>
              var b := Bucket(from, seconds);
              Admitted(cs, client, from, from + seconds * SECOND, limit, seconds)
                == Grants(cs, Slot(client, b), limit, seconds) + Grants(cs, Slot(client, b + 1), limit, seconds)
  {
    if cs != [] {
      var last := cs[|cs| - 1];
      TwoBucketsCover(cs[..|cs| - 1], client, from, limit, seconds);
      if from <= last.at < from + seconds * SECOND { NextBucketAtMost(from, last.at, seconds); }
    }
  }

  lemma NextBucketAtMost(from: nat, at: nat, seconds: nat)
    requires seconds > 0 && from <= at < from + seconds * SECOND
    ensures Bucket(at, seconds) == Bucket(from, seconds) || Bucket(at, seconds) == Bucket(from, seconds) + 1
  {
    var a, b := Bucket(from, seconds), Bucket(at, seconds);
    BucketBounds(from, seconds);
    BucketBounds(at, seconds);
    assert (a + 2) * seconds == (a + 1) * seconds + seconds;
    MulOrder(a, b + 1, seconds);
    MulOrder(b, a + 2, seconds);
  }

  lemma MulOrder(a: nat, b: nat, n: nat)
    requires a * n < b * n
    ensures a < b
  {
    if b <= a { MulMonotone(b, a, n); }
  }

  lemma MulMonotone(a: nat, b: nat, n: nat)
    requires a <= b
    ensures a * n <= b * n
  {
  }

  /** Over any stretch one window long, aligned or not, a client gets at most twice the limit through. */
  lemma AnyWindowAdmitsTwiceTheLimit(cs: seq<Call>, client: string, from: nat, limit: int, seconds: nat)
    requires seconds > 0 && Ordered(cs) && ClientInTime(cs, client, seconds)
    ensures Admitted(cs, client, from, from + seconds * SECOND, limit, seconds) <= 2 * Bound(limit)
  {
    var b := Bucket(from, seconds);
    assert InTime(cs, Slot(client, b), seconds) && InTime(cs, Slot(client, b + 1), seconds);
    TwoBucketsCover(cs, client, from, limit, seconds);
    BucketAdmitsTheLimit(cs, Slot(client, b), limit, seconds);
    BucketAdmitsTheLimit(cs, Slot(client, b + 1), limit, seconds);
  }

  // ----- The bounds are sharp -----

  function Burst(client: string, at: nat, n: nat): seq<Call> {
    seq(n, i => Call(client, at, at, Runs, Some(at)))
  }

  lemma {:induction false} BurstHits(front: seq<Call>, client: string, at: nat, n: nat, k: Slot, seconds: nat)
    requires seconds > 0
    ensures Hits(front + Burst(client, at, n), k, seconds)
         == Hits(front, k, seconds) + if k == Slot(client, Bucket(at, seconds)) then n else 0
  {
    if n == 0 {
      assert front + Burst(client, at, 0) == front;
    } else {
      var cs := front + Burst(client, at, n);
      assert cs[..|cs| - 1] == front + Burst(client, at, n - 1);
      BurstHits(front, client, at, n - 1, k, seconds);
    }
  }

  lemma EdgeBuckets(seconds: nat)
    requires seconds > 0
    ensures Bucket(seconds * SECOND - 1, seconds) == 0 && Bucket(seconds * SECOND, seconds) == 1
    ensures End(0, seconds) == seconds * SECOND && End(1, seconds) == 2 * seconds * SECOND
  {
    assert (seconds * SECOND - 1) / SECOND == seconds - 1;
    assert seconds * SECOND / SECOND == seconds;
  }

  /** `limit` calls in the last tick before the edge of two buckets and as many in the tick after. */
  function TwoBursts(client: string, limit: nat, edge: nat): (cs: seq<Call>)
    requires edge > 0
    ensures forall i :: 0 <= i < |cs| ==>
      cs[i].incr.Runs? && cs[i].at == cs[i].served == if i < limit then edge - 1 else edge
  {
    Burst(client, edge - 1, limit) + Burst(client, edge, limit)
  }

  predicate IsEdge(edge: nat, seconds: nat) {
    seconds > 0 && edge > 0 && Bucket(edge - 1, seconds) == 0 && Bucket(edge, seconds) == 1
  }

  lemma TwoBurstsArePrompt(client: string, limit: nat, edge: nat, seconds: nat)
    requires IsEdge(edge, seconds)
    ensures var cs := TwoBursts(client, limit, edge); Ordered(cs) && Prompt(cs, seconds)
  {
    var cs := TwoBursts(client, limit, edge);
    forall i | 0 <= i < |cs| ensures cs[i].served < End(Bucket(cs[i].at, seconds), seconds) {
      BucketBounds(cs[i].at, seconds);
    }
  }

  lemma TwoBurstsHitBoth(client: string, limit: nat, edge: nat, seconds: nat, b: nat)
    requires IsEdge(edge, seconds) && b < 2
    ensures Hits(TwoBursts(client, limit, edge), Slot(client, b), seconds) == limit
  {
    var early, k := Burst(client, edge - 1, limit), Slot(client, b);
    BurstHits([], client, edge - 1, limit, k, seconds);
    assert [] + early == early;
    BurstHits(early, client, edge, limit, k, seconds);
  }

  lemma TwoBurstsFillBoth(client: string, limit: nat, edge: nat, seconds: nat, b: nat)
    requires IsEdge(edge, seconds) && b < 2
    ensures Grants(TwoBursts(client, limit, edge), Slot(client, b), limit, seconds) == limit
  {
    TwoBurstsHitBoth(client, limit, edge, seconds, b);
    TwoBurstsArePrompt(client, limit, edge, seconds);
    PromptCallsAreInTime(TwoBursts(client, limit, edge), client, seconds);
    assert InTime(TwoBursts(client, limit, edge), Slot(client, b), seconds);
    BucketAdmitsTheLimit(TwoBursts(client, limit, edge), Slot(client, b), limit, seconds);
  }

  /** A client that spends its limit just before a bucket ends and again just after gets twice the limit
      through within two clock ticks. */
  lemma TwiceTheLimitIsReached(client: string, limit: nat, seconds: nat) returns (cs: seq<Call>, from: nat)
    requires seconds > 0
    ensures Ordered(cs) && Prompt(cs, seconds)
    ensures Admitted(cs, client, from, from + seconds * SECOND, limit, seconds) == 2 * limit
  {
    EdgeBuckets(seconds);
    var edge := seconds * SECOND;
    from, cs := edge - 1, TwoBursts(client, limit, edge);
    TwoBurstsArePrompt(client, limit, edge, seconds);
    TwoBucketsCover(cs, client, from, limit, seconds);
    TwoBurstsFillBoth(client, limit, edge, seconds, 0);
    TwoBurstsFillBoth(client, limit, edge, seconds, 1);
  }

  // ----- In terms of the configured window -----

  /** The aligned stretch of a window of whole seconds that contains the time is its bucket. */
  lemma BucketIsAligned(at: nat, window: nat)
    requires window >= 1_000_000 && window % 1_000_000 == 0
    ensures Seconds(window) > 0 && Seconds(window) * 1_000_000 == window
    ensures Bucket(at, Seconds(window)) == at / window
    ensures at / window * window <= at < at / window * window + window
  {
    var s, b := Seconds(window), Bucket(at, Seconds(window));
    BucketBounds(at, s);
    assert b * s * SECOND == b * window && (b + 1) * s * SECOND == b * window + window by {
      assert b * (s * SECOND) == b * s * SECOND && (b + 1) * (s * SECOND) == (b + 1) * s * SECOND;
    }
    QuotientIs(at, window, b);
  }

  lemma QuotientIs(n: nat, d: nat, q: nat)
    requires d > 0 && q * d <= n < q * d + d
    ensures n / d == q
  {
    var r := n / d;
    assert r * d <= n < r * d + d;
    if r < q { MulMonotone(r + 1, q, d); } else if q < r { MulMonotone(q + 1, r, d); }
  }

  /** Two calls share a counter exactly when they are of one client and in one aligned window. */
  lemma SharedCounterExactly(a: Call, b: Call, window: nat)
    requires window >= 1_000_000 && window % 1_000_000 == 0
    ensures Seconds(window) > 0
    ensures SlotOf(a, Seconds(window)) == SlotOf(b, Seconds(window)) <==> a.client == b.client && a.at / window == b.at / window
  {
    BucketIsAligned(a.at, window);
    BucketIsAligned(b.at, window);
  }

  /** A counter expires one window after the EXPIRE of its first hit ran. */
  lemma ExpiryIsOneWindowLater(cs: seq<Call>, k: Slot, window: nat)
    requires window >= 1_000_000 && window % 1_000_000 == 0
    ensures Seconds(window) > 0
    ensures Expiry(cs, k, Seconds(window)).Some? ==>
      var first := FirstHit(cs, k, Seconds(window));
      && first.Some? && first.value.incr.Runs? && first.value.expired.Some?
      && Expiry(cs, k, Seconds(window)).value == first.value.expired.value + window
  {
    BucketIsAligned(0, window);
  }

  /** Hits of a client whose clock reading falls in [from, to), whatever counter they went to. */
  function HitsIn(cs: seq<Call>, client: string, from: int, to: int): nat {
    if cs == [] then 0
    else
      var last := cs[|cs| - 1];
      HitsIn(cs[..|cs| - 1], client, from, to)
      + if last.client == client && from <= last.at < to && (last.incr.Runs? || last.incr.landed) then 1 else 0
  }

  /** The store serves each call before its aligned window ends, and not before it was made. */
  predicate ServedInWindow(cs: seq<Call>, window: nat)
    requires window > 0
  {
    forall i :: 0 <= i < |cs| ==> cs[i].at <= cs[i].served < cs[i].at / window * window + window
  }

  lemma {:induction false} SlotHitsAreWindowHits(cs: seq<Call>, client: string, b: nat, window: nat)
    requires window >= 1_000_000 && window % 1_000_000 == 0
    ensures Seconds(window) > 0
    ensures Hits(cs, Slot(client, b), Seconds(window)) == HitsIn(cs, client, b * window, b * window + window)
  {
    BucketIsAligned(0, window);
    if cs != [] {
      SlotHitsAreWindowHits(cs[..|cs| - 1], client, b, window);
      InWindowExactly(cs[|cs| - 1].at, b, window);
    }
  }

  lemma InWindowExactly(at: nat, b: nat, window: nat)
    requires window >= 1_000_000 && window % 1_000_000 == 0
    ensures Seconds(window) > 0
    ensures Bucket(at, Seconds(window)) == b <==> b * window <= at < b * window + window
  {
    BucketIsAligned(at, window);
    if b * window <= at < b * window + window { QuotientIs(at, window, b); }
  }

  lemma {:induction false} SlotGrantsAreWindowGrants(cs: seq<Call>, client: string, b: nat, limit: int, window: nat)
    requires window >= 1_000_000 && window % 1_000_000 == 0
    ensures Seconds(window) > 0
    ensures Grants(cs, Slot(client, b), limit, Seconds(window))
         == Admitted(cs, client, b * window, b * window + window, limit, Seconds(window))
  {
    BucketIsAligned(0, window);
    if cs != [] {
      SlotGrantsAreWindowGrants(cs[..|cs| - 1], client, b, limit, window);
      InWindowExactly(cs[|cs| - 1].at, b, window);
    }
  }

  lemma ServedInWindowIsPrompt(cs: seq<Call>, window: nat)
    requires window >= 1_000_000 && window % 1_000_000 == 0 && ServedInWindow(cs, window)
    ensures Seconds(window) > 0 && Prompt(cs, Seconds(window))
  {
    BucketIsAligned(0, window);
    var s := Seconds(window);
    forall i | 0 <= i < |cs| ensures cs[i].at <= cs[i].served < End(Bucket(cs[i].at, s), s) {
      var b := Bucket(cs[i].at, s);
      BucketIsAligned(cs[i].at, window);
      assert (b + 1) * (s * SECOND) == (b + 1) * s * SECOND && (b + 1) * window == b * window + window;
    }
  }

  lemma CountIsHitsInWindow(cs: seq<Call>, c: Call, window: nat)
    requires window >= 1_000_000 && window % 1_000_000 == 0
    requires Ordered(cs + [c]) && ServedInWindow(cs + [c], window) && c.incr.Runs?
    ensures Seconds(window) > 0
    ensures CountAt(StoreAfter(cs + [c], Seconds(window)), SlotOf(c, Seconds(window)))
         == HitsIn(cs + [c], c.client, c.at / window * window, c.at / window * window + window)
  {
    var all, s := cs + [c], Seconds(window);
    ServedInWindowIsPrompt(all, window);
    PromptCallsAreInTime(all, c.client, s);
    assert InTimeAt(all, |cs|, s) && all[..|cs| + 1] == all;
    CountersCountHits(all, SlotOf(c, s), s);
    BucketIsAligned(c.at, window);
    SlotHitsAreWindowHits(all, c.client, c.at / window, window);
  }

  /** With the configured window: each aligned window lets through exactly its first `limit` calls of a
      client in time, when no INCR fails. */
  lemma AlignedWindowAdmitsTheLimit(cs: seq<Call>, client: string, b: nat, limit: int, window: nat)
    requires window >= 1_000_000 && window % 1_000_000 == 0
    requires Ordered(cs) && ServedInWindow(cs, window) && forall i :: 0 <= i < |cs| ==> cs[i].incr.Runs?
    ensures Seconds(window) > 0
    ensures Admitted(cs, client, b * window, b * window + window, limit, Seconds(window))
         == Min(HitsIn(cs, client, b * window, b * window + window), if limit < 0 then 0 else limit)
  {
    BucketIsAligned(0, window);
    ServedInWindowIsPrompt(cs, window);
    PromptCallsAreInTime(cs, client, Seconds(window));
    assert InTime(cs, Slot(client, b), Seconds(window));
    BucketAdmitsTheLimit(cs, Slot(client, b), limit, Seconds(window));
    SlotHitsAreWindowHits(cs, client, b, window);
    SlotGrantsAreWindowGrants(cs, client, b, limit, window);
  }

  /** And any stretch as long as the configured window, aligned or not, at most twice as many. */
  lemma AnyConfiguredWindowAdmitsTwiceTheLimit(cs: seq<Call>, client: string, from: nat, limit: int, window: nat)
    requires window >= 1_000_000 && window % 1_000_000 == 0
    requires Ordered(cs) && ServedInWindow(cs, window)
    ensures Seconds(window) > 0
    ensures Admitted(cs, client, from, from + window, limit, Seconds(window)) <= 2 * (if limit < 0 then 0 else limit)
  {
    BucketIsAligned(0, window);
    ServedInWindowIsPrompt(cs, window);
    PromptCallsAreInTime(cs, client, Seconds(window));
    AnyWindowAdmitsTwiceTheLimit(cs, client, from, limit, Seconds(window));
  }
}
