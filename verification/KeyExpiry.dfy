/** The token bucket in the store the gateways share, where every request renews the expiry of
    its key: what expiry changes, and exactly when it changes nothing. */
module KeyExpiry {
  import opened Common
  import opened RateLimit

  /** PEXPIRE in seconds: burst / rate rounded up to whole milliseconds, at least one. */
  function TimeToLive(c: Limits): (ttl: real)
    requires Proper(c)
    ensures ttl > 0.0 && TimeFor(c, c.burst as real) <= ttl < TimeFor(c, c.burst as real) + 0.001
    ensures Gain(c, ttl) >= c.burst as real
  {
    var ms := Ceil(TimeFor(c, c.burst as real) * 1000.0);
    var ttl := (if ms < 1 then 1 else ms) as real / 1000.0;
    GainOrders(c, 0.0, TimeFor(c, c.burst as real));
    assert ttl >= TimeFor(c, c.burst as real);
    GainOrders(c, ttl, TimeFor(c, c.burst as real));
    ttl
  }

  /** The stored hash and the time at which its key expires. */
  datatype Stored = Stored(bucket: Bucket, expires: real)

  /** What the script reads: an expired key is gone. */
  function Visible(key: Option<Stored>, now: real): Option<Bucket> {
    if key.Some? && now < key.value.expires then Some(key.value.bucket) else None
  }

  /** The script on one key. */
  function ScriptOn(c: Limits, key: Option<Stored>, now: real): (Decision, Stored)
    requires Proper(c)
  {
    var (d, b) := ConsumeOn(c, Visible(key, now), now);
    (d, Stored(b, now + TimeToLive(c)))
  }

  function KeyOf(store: map<Identity, Stored>, id: Identity): Option<Stored> {
    if id in store then Some(store[id]) else None
  }

  /** The limiter over the expiring store; the digest of an identity stands for the identity. */
  class RedisRateLimiter {
    const c: Limits
    var store: map<Identity, Stored>

    constructor (c: Limits)
      requires Proper(c)
      ensures this.c == c && store == map[]
    {
      this.c, store := c, map[];
    }

    /** The script, at the time the server reads. */
    method Consume(id: Identity, now: real) returns (d: Decision)
      requires Proper(c)
      modifies this
      ensures var r := ScriptOn(c, KeyOf(old(store), id), now);
              d == r.0 && store == old(store)[id := r.1]
    {
      var tokens, updated := c.burst as real, now;
      if id in store && now < store[id].expires {
        tokens, updated := store[id].bucket.tokens, store[id].bucket.updated;
      }
      tokens := Least(c.burst as real, tokens + Gain(c, Greatest(0.0, now - updated)));
      var allowed, retry := false, 0;
      if tokens >= 1.0 {
        tokens := tokens - 1.0;
        allowed := true;
      } else {
        retry := Ceil(TimeFor(c, 1.0 - tokens));
      }
      store := store[id := Stored(Bucket(tokens, Greatest(updated, now)), now + TimeToLive(c))];
      return Decision(allowed, tokens.Floor, retry);
    }
  }

  // ---------- runs of one key ----------

  /** The key after the first i of the readings. */
  function KeyAfter(c: Limits, key: Option<Stored>, clocks: seq<real>, i: nat): Option<Stored>
    requires Proper(c) && i <= |clocks|
  {
    if i == 0 then key else Some(ScriptOn(c, KeyAfter(c, key, clocks, i - 1), clocks[i - 1]).1)
  }

  function KeyRun(c: Limits, key: Option<Stored>, clocks: seq<real>): (ds: seq<Decision>)
    requires Proper(c)
    ensures |ds| == |clocks|
  {
    seq(|clocks|, i requires 0 <= i < |clocks| => ScriptOn(c, KeyAfter(c, key, clocks, i), clocks[i]).0)
  }

  lemma {:induction false} KeyAfterFirst(c: Limits, key: Option<Stored>, clocks: seq<real>, i: nat)
    requires Proper(c) && i < |clocks|
    ensures KeyAfter(c, key, clocks, i + 1) == KeyAfter(c, Some(ScriptOn(c, key, clocks[0]).1), clocks[1..], i)
  {
    hide ScriptOn;
    if i > 0 {
      KeyAfterFirst(c, key, clocks, i - 1);
    }
  }

  lemma {:induction false} KeyRunFirst(c: Limits, key: Option<Stored>, clocks: seq<real>)
    requires Proper(c) && clocks != []
    ensures var (d, k) := ScriptOn(c, key, clocks[0]);
            KeyRun(c, key, clocks) == [d] + KeyRun(c, Some(k), clocks[1..])
  {
    hide ScriptOn;
    forall i | 0 <= i < |clocks| - 1
      ensures KeyAfter(c, key, clocks, i + 1) == KeyAfter(c, Some(ScriptOn(c, key, clocks[0]).1), clocks[1..], i)
    {
      KeyAfterFirst(c, key, clocks, i);
    }
  }

  /** Whatever the clock does, the stored tokens stay between zero and burst. */
  lemma {:induction false} StoredTokensStayInRange(c: Limits, clocks: seq<real>, i: nat)
    requires Proper(c) && 0 < i <= |clocks|
    ensures InRange(c, KeyAfter(c, None, clocks, i).value.bucket)
  {
    hide Gain, TimeToLive, ConsumeOn, InRange;
    var now := clocks[i - 1];
    NewIsFull(c, now);
    FullInRange(c, now);
    if i > 1 {
      StoredTokensStayInRange(c, clocks, i - 1);
      OneRequest(c, KeyAfter(c, None, clocks, i - 1).value.bucket, now);
    }
    OneRequest(c, Bucket(c.burst as real, now), now);
  }

  // ---------- when expiry changes nothing ----------

  /** A key is gone at a reading only if its bucket would be full by then. The expiry is set by
      the reading before, the stored time is the highest reading. */
  predicate ExpiresFull(c: Limits, clocks: seq<real>)
    requires Proper(c)
  {
    forall i | 0 < i < |clocks| && clocks[i] >= clocks[i - 1] + TimeToLive(c) ::
      Gain(c, clocks[i] - Highest(clocks, i - 1)) >= c.burst as real
  }

  /** A full bucket is as good as a new one. */
  lemma FullIsNew(c: Limits, b: Bucket, now: real)
    requires Proper(c) && InRange(c, b) && Gain(c, now - b.updated) >= c.burst as real
    ensures ConsumeOn(c, Some(b), now) == ConsumeOn(c, None, now)
  {
    hide Gain;
    GainOrders(c, 0.0, now - b.updated);
    GainOrders(c, 0.0, 0.0);
  }

  lemma {:induction false} KeyIsKept(c: Limits, clocks: seq<real>, i: nat)
    requires Proper(c) && ExpiresFull(c, clocks) && i <= |clocks|
    ensures var key, b := KeyAfter(c, None, clocks, i), After(c, None, clocks, i);
            if i == 0 then key.None? && b.None? else key == Some(Stored(b.value, clocks[i - 1] + TimeToLive(c)))
    ensures i < |clocks| ==>
              ConsumeOn(c, Visible(KeyAfter(c, None, clocks, i), clocks[i]), clocks[i])
              == ConsumeOn(c, After(c, None, clocks, i), clocks[i])
  {
    hide Gain, ConsumeOn, TimeToLive;
    if i > 0 {
      KeyIsKept(c, clocks, i - 1);
      TokensStayInRange(c, clocks, i);
      if i < |clocks| && clocks[i] >= clocks[i - 1] + TimeToLive(c) {
        FullIsNew(c, After(c, None, clocks, i).value, clocks[i]);
      }
    }
  }

  /** On such readings the expiring key decides like the bucket that is kept for good. */
  lemma {:induction false} KeyDecidesAlike(c: Limits, clocks: seq<real>)
    requires Proper(c) && ExpiresFull(c, clocks)
    ensures KeyRun(c, None, clocks) == Decisions(c, None, clocks)
  {
    hide ConsumeOn, KeyAfter, After, TimeToLive, ExpiresFull;
    forall i | 0 <= i < |clocks| ensures KeyRun(c, None, clocks)[i] == Decisions(c, None, clocks)[i] {
      KeyIsKept(c, clocks, i);
    }
  }

  // ---------- how far the clock may go back ----------

  /** No reading lies more than lag behind the highest one so far. */
  predicate LagsAtMost(clocks: seq<real>, lag: real) {
    forall i | 0 <= i < |clocks| :: clocks[i] >= Highest(clocks, i) - lag
  }

  /** Rounding the time to live up leaves room for the lag. */
  predicate Absorbs(c: Limits, lag: real)
    requires Proper(c)
  {
    Gain(c, TimeToLive(c) - lag) >= c.burst as real
  }

  lemma {:induction false} TickingDoesNotLag(clocks: seq<real>, i: nat)
    requires Ticking(clocks) && i < |clocks|
    ensures Highest(clocks, i) == clocks[i]
  {
    if i > 0 {
      TickingDoesNotLag(clocks, i - 1);
    }
  }

  lemma {:induction false} HighestIsHighest(clocks: seq<real>, i: nat, top: real)
    requires i < |clocks| && forall k | 0 <= k <= i :: clocks[k] <= top
    ensures Highest(clocks, i) <= top
  {
    if i > 0 {
      HighestIsHighest(clocks, i - 1, top);
    }
  }

  lemma {:induction false} AbsorbedLagExpiresFull(c: Limits, clocks: seq<real>, lag: real)
    requires Proper(c) && LagsAtMost(clocks, lag) && Absorbs(c, lag)
    ensures ExpiresFull(c, clocks)
  {
    hide Gain, TimeToLive, Highest;
    var ttl := TimeToLive(c);
    forall i | 0 < i < |clocks| && clocks[i] >= clocks[i - 1] + ttl
      ensures Gain(c, clocks[i] - Highest(clocks, i - 1)) >= c.burst as real
    {
      assert clocks[i - 1] >= Highest(clocks, i - 1) - lag;
      GainOrders(c, clocks[i] - Highest(clocks, i - 1), ttl - lag);
    }
  }

  /** The first of the requests, on a key that is gone. */
  lemma OpensFull(c: Limits, key: Option<Stored>, now: real)
    requires Proper(c) && Visible(key, now).None?
    ensures ScriptOn(c, key, now).0.allowed
    ensures ScriptOn(c, key, now).1 == Stored(Bucket((c.burst - 1) as real, now), now + TimeToLive(c))
  {
    hide TimeToLive, Gain;
    GainOrders(c, 0.0, 0.0);
  }

  /** A later one, at the same time. */
  lemma SpendsOne(c: Limits, m: nat, now: real)
    requires Proper(c) && 1 <= m <= c.burst
    ensures var r := ScriptOn(c, Some(Stored(Bucket(m as real, now), now + TimeToLive(c))), now);
            r.0.allowed && r.1 == Stored(Bucket((m - 1) as real, now), now + TimeToLive(c))
  {
    hide TimeToLive, Gain;
    GainOrders(c, 0.0, 0.0);
  }

  /** n requests at one time, on a key that is gone: as many are allowed as the burst holds. */
  lemma {:induction false} WholeBurst(c: Limits, clocks: seq<real>, i: nat, n: nat)
    requires Proper(c) && n <= c.burst && i + n <= |clocks|
    requires 0 < n && (forall k | i <= k < i + n :: clocks[k] == clocks[i])
    requires Visible(KeyAfter(c, None, clocks, i), clocks[i]).None?
    ensures Admitted(KeyRun(c, None, clocks), i, i + n) == n
    ensures KeyAfter(c, None, clocks, i + n)
         == Some(Stored(Bucket((c.burst - n) as real, clocks[i]), clocks[i] + TimeToLive(c)))
  {
    hide TimeToLive, ScriptOn, Visible;
    var ds := KeyRun(c, None, clocks);
    if n == 1 {
      OpensFull(c, KeyAfter(c, None, clocks, i), clocks[i]);
      assert Admitted(ds, i, i) == 0;
    } else {
      WholeBurst(c, clocks, i, n - 1);
      assert clocks[i + n - 1] == clocks[i];
      SpendsOne(c, c.burst - n + 1, clocks[i]);
    }
  }

  /** The clock falls behind by lag after the burst is spent: the denied request brings the
      expiry forward, and at that expiry a second burst is there too soon. */
  function Setback(c: Limits, lag: real): (clocks: seq<real>)
    requires Proper(c)
    ensures |clocks| == 2 * c.burst + 1
  {
    seq(2 * c.burst + 1, i => if i < c.burst then 0.0 else if i == c.burst then -lag else TimeToLive(c) - lag)
  }

  lemma {:induction false} SetbackLags(c: Limits, lag: real)
    requires Proper(c) && 0.0 <= lag
    ensures LagsAtMost(Setback(c, lag), lag)
    ensures Highest(Setback(c, lag), 0) == 0.0
    ensures Highest(Setback(c, lag), 2 * c.burst) <= Greatest(0.0, TimeToLive(c) - lag)
  {
    hide TimeToLive, Highest;
    var clocks := Setback(c, lag);
    var top := Greatest(0.0, TimeToLive(c) - lag);
    forall i | 0 <= i < |clocks| ensures clocks[i] >= Highest(clocks, i) - lag {
      HighestIsHighest(clocks, i, if i <= c.burst then 0.0 else top);
    }
    HighestIsHighest(clocks, 0, 0.0);
    HighestAtLeast(clocks);
    HighestIsHighest(clocks, 2 * c.burst, top);
  }

  lemma HighestAtLeast(clocks: seq<real>)
    requires clocks != []
    ensures Highest(clocks, 0) == clocks[0]
  {
  }

  lemma FallsBack(c: Limits, lag: real)
    requires Proper(c) && 0.0 <= lag
    ensures ScriptOn(c, Some(Stored(Bucket(0.0, 0.0), TimeToLive(c))), -lag).1
         == Stored(Bucket(0.0, 0.0), TimeToLive(c) - lag)
  {
    hide TimeToLive, Gain;
    GainOrders(c, 0.0, 0.0);
  }

  lemma {:induction false} SetbackAdmits(c: Limits, lag: real)
    requires Proper(c) && 0.0 <= lag
    ensures Admitted(KeyRun(c, None, Setback(c, lag)), 0, 2 * c.burst + 1) >= 2 * c.burst
  {
    hide TimeToLive, ScriptOn, KeyRun, Admitted;
    var clocks, n := Setback(c, lag), c.burst;
    var ds := KeyRun(c, None, clocks);
    WholeBurst(c, clocks, 0, n);
    FallsBack(c, lag);
    assert KeyAfter(c, None, clocks, n + 1) == Some(Stored(Bucket(0.0, 0.0), TimeToLive(c) - lag));
    assert clocks[n + 1] == TimeToLive(c) - lag;
    WholeBurst(c, clocks, n + 1, n);
    AdmittedAdds(ds, 0, n, n + 1);
    AdmittedAdds(ds, 0, n + 1, 2 * n + 1);
  }

  lemma SetbackBreaksTheBound(c: Limits, lag: real)
    requires Proper(c) && 0.0 <= lag && !Absorbs(c, lag)
    ensures !Bounded(c, Setback(c, lag), KeyRun(c, None, Setback(c, lag)))
  {
    hide TimeToLive, Gain, Highest, KeyRun, Setback;
    var clocks := Setback(c, lag);
    SetbackLags(c, lag);
    SetbackAdmits(c, lag);
    var rise := Highest(clocks, 2 * c.burst) - Highest(clocks, 0);
    GainOrders(c, rise, Greatest(0.0, TimeToLive(c) - lag));
    GainOrders(c, 0.0, 0.0);
    assert Admitted(KeyRun(c, None, clocks), 0, 2 * c.burst + 1) as real > c.burst as real + Gain(c, rise);
  }

  /** The bound on the expiring key holds for every sequence of readings that lags at most lag. */
  ghost predicate BoundedWithin(c: Limits, lag: real)
    requires Proper(c)
  {
    forall clocks | LagsAtMost(clocks, lag) :: Bounded(c, clocks, KeyRun(c, None, clocks))
  }

  /** Likewise: expiry changes no decision. */
  ghost predicate UnchangedWithin(c: Limits, lag: real)
    requires Proper(c)
  {
    forall clocks | LagsAtMost(clocks, lag) :: KeyRun(c, None, clocks) == Decisions(c, None, clocks)
  }

  /** The exact condition: both hold if and only if the rounding of the time to live absorbs the
      lag, which is less than a millisecond of it. */
  lemma {:induction false} ExpiryIsSafeExactlyWhen(c: Limits, lag: real)
    requires Proper(c) && 0.0 <= lag
    ensures BoundedWithin(c, lag) <==> Absorbs(c, lag)
    ensures UnchangedWithin(c, lag) <==> Absorbs(c, lag)
  {
    hide Gain, Absorbs, Bounded, KeyRun, Decisions, LagsAtMost, Setback;
    if Absorbs(c, lag) {
      forall clocks | LagsAtMost(clocks, lag)
        ensures KeyRun(c, None, clocks) == Decisions(c, None, clocks) && Bounded(c, clocks, KeyRun(c, None, clocks))
      {
        AbsorbedLagExpiresFull(c, clocks, lag);
        KeyDecidesAlike(c, clocks);
        RequestsAreBounded(c, clocks);
      }
    } else {
      SetbackLags(c, lag);
      SetbackBreaksTheBound(c, lag);
      RequestsAreBounded(c, Setback(c, lag));
    }
  }

  /** A steady clock is always absorbed, a lag of a millisecond never is. */
  lemma AbsorbedLags(c: Limits, lag: real)
    requires Proper(c)
    ensures lag <= 0.0 ==> Absorbs(c, lag)
    ensures Absorbs(c, lag) ==> lag <= TimeToLive(c) - TimeFor(c, c.burst as real) < 0.001
  {
    hide Gain, TimeToLive;
    GainOrders(c, TimeToLive(c) - lag, TimeToLive(c));
    GainOrders(c, TimeToLive(c) - lag, TimeFor(c, c.burst as real));
  }

  // ---------- many identities ----------

  datatype Request = Request(id: Identity, now: real)

  function RedisRun(c: Limits, store: map<Identity, Stored>, requests: seq<Request>): (ds: seq<Decision>)
    requires Proper(c)
    ensures |ds| == |requests|
    decreases |requests|
  {
    if requests == [] then []
    else
      var (d, key) := ScriptOn(c, KeyOf(store, requests[0].id), requests[0].now);
      [d] + RedisRun(c, store[requests[0].id := key], requests[1..])
  }

  function ReadingsOf(id: Identity, requests: seq<Request>): seq<real> {
    if requests == [] then []
    else (if requests[0].id == id then [requests[0].now] else []) + ReadingsOf(id, requests[1..])
  }

  /** What an identity is told in a run. */
  function ToldTo(id: Identity, requests: seq<Request>, ds: seq<Decision>): seq<Decision>
    requires |requests| == |ds|
  {
    if requests == [] then []
    else (if requests[0].id == id then [ds[0]] else []) + ToldTo(id, requests[1..], ds[1..])
  }

  /** Identities do not affect one another: each is told what its key alone would say. */
  lemma {:induction false} IdentitiesAreSeparate(c: Limits, store: map<Identity, Stored>, requests: seq<Request>,
                                                 id: Identity)
    requires Proper(c)
    ensures ToldTo(id, requests, RedisRun(c, store, requests)) == KeyRun(c, KeyOf(store, id), ReadingsOf(id, requests))
    decreases |requests|
  {
    hide ScriptOn, KeyRun;
    if requests == [] {
      assert |KeyRun(c, KeyOf(store, id), [])| == 0;
    } else {
      var q, rest := requests[0], requests[1..];
      var (d, key) := ScriptOn(c, KeyOf(store, q.id), q.now);
      IdentitiesAreSeparate(c, store[q.id := key], rest, id);
      var ds := RedisRun(c, store, requests);
      assert ds[0] == d && ds[1..] == RedisRun(c, store[q.id := key], rest);
      if q.id == id {
        var readings := ReadingsOf(id, requests);
        assert readings == [q.now] + ReadingsOf(id, rest) && readings[1..] == ReadingsOf(id, rest);
        KeyRunFirst(c, KeyOf(store, id), readings);
        assert ToldTo(id, requests, ds) == [d] + ToldTo(id, rest, ds[1..]);
      } else {
        assert ReadingsOf(id, requests) == ReadingsOf(id, rest);
        assert ToldTo(id, requests, ds) == ToldTo(id, rest, ds[1..]);
      }
    }
  }

  /** The bound for the shared store: between any two requests of an identity, whatever other
      identities do, if its readings lag no more than the time to live absorbs. */
  lemma {:induction false} RedisRequestsAreBounded(c: Limits, requests: seq<Request>, id: Identity, lag: real)
    requires Proper(c) && Absorbs(c, lag) && LagsAtMost(ReadingsOf(id, requests), lag)
    ensures var ds := ToldTo(id, requests, RedisRun(c, map[], requests));
            |ds| == |ReadingsOf(id, requests)| && Bounded(c, ReadingsOf(id, requests), ds)
  {
    hide Absorbs, Bounded, KeyRun, LagsAtMost, RedisRun;
    var clocks := ReadingsOf(id, requests);
    IdentitiesAreSeparate(c, map[], requests, id);
    AbsorbedLagExpiresFull(c, clocks, lag);
    KeyDecidesAlike(c, clocks);
    RequestsAreBounded(c, clocks);
  }

  lemma {:induction false} TickingIsSafe(c: Limits, clocks: seq<real>)
    requires Proper(c) && Ticking(clocks)
    ensures Absorbs(c, 0.0) && LagsAtMost(clocks, 0.0)
  {
    AbsorbedLags(c, 0.0);
    forall i | 0 <= i < |clocks| ensures clocks[i] >= Highest(clocks, i) - 0.0 {
      TickingDoesNotLag(clocks, i);
    }
  }

  /** On a clock that does not run backwards the shared store decides like buckets that are kept
      for good, and obeys the bound. */
  lemma {:induction false} SteadyClockIsSafe(c: Limits, requests: seq<Request>, id: Identity)
    requires Proper(c) && Ticking(ReadingsOf(id, requests))
    ensures var clocks, ds := ReadingsOf(id, requests), ToldTo(id, requests, RedisRun(c, map[], requests));
            ds == Decisions(c, None, clocks) && Bounded(c, clocks, ds)
  {
    hide Absorbs, Bounded, KeyRun, LagsAtMost, RedisRun, Decisions;
    var clocks := ReadingsOf(id, requests);
    TickingIsSafe(c, clocks);
    RedisRequestsAreBounded(c, requests, id, 0.0);
    IdentitiesAreSeparate(c, map[], requests, id);
    AbsorbedLagExpiresFull(c, clocks, 0.0);
    KeyDecidesAlike(c, clocks);
  }

  /** On such a clock an attempt that is denied, anywhere, changes no other decision, although it
      renews the expiry. */
  lemma {:induction false} DeniedAttemptsLeaveNoTrace(c: Limits, before: seq<real>, now: real, rest: seq<real>)
    requires Proper(c) && Ticking(before + [now] + rest)
    requires !KeyRun(c, None, before + [now] + rest)[|before|].allowed
    ensures var with, without := KeyRun(c, None, before + [now] + rest), KeyRun(c, None, before + rest);
            without == with[..|before|] + with[|before| + 1..]
  {
    hide KeyRun, Decisions, Absorbs, ExpiresFull, LagsAtMost;
    var all, fewer := before + [now] + rest, before + rest;
    assert Ticking(fewer) by {
      assert forall i | 0 <= i < |before| :: fewer[i] == all[i];
      assert forall i | |before| <= i < |fewer| :: fewer[i] == all[i + 1];
    }
    TickingIsSafe(c, all);
    TickingIsSafe(c, fewer);
    AbsorbedLagExpiresFull(c, all, 0.0);
    AbsorbedLagExpiresFull(c, fewer, 0.0);
    KeyDecidesAlike(c, all);
    KeyDecidesAlike(c, fewer);
    DeniedAttemptsChangeNothing(c, None, before, now, rest);
  }

  // ---------- both limiters ----------

  function FakeRun(c: Limits, buckets: map<Identity, Bucket>, requests: seq<Request>): seq<Decision>
    requires Proper(c)
    decreases |requests|
  {
    if requests == [] then []
    else
      var (d, b) := ConsumeOn(c, Lookup(buckets, requests[0].id), requests[0].now);
      [d] + FakeRun(c, buckets[requests[0].id := b], requests[1..])
  }

  /** Nothing newer than the clock is stored, and a key lives for the time to live from the
      last request on it. */
  predicate Matches(c: Limits, store: map<Identity, Stored>, buckets: map<Identity, Bucket>, clock: real)
    requires Proper(c)
  {
    && store.Keys == buckets.Keys
    && forall id | id in store ::
         && store[id].bucket == buckets[id] && InRange(c, buckets[id])
         && buckets[id].updated <= clock && store[id].expires == buckets[id].updated + TimeToLive(c)
  }

  /** Both limiters decide alike on one request, and still match afterwards. */
  lemma {:induction false} OneRequestMatches(c: Limits, store: map<Identity, Stored>,
                                             buckets: map<Identity, Bucket>, q: Request, clock: real)
    requires Proper(c) && Matches(c, store, buckets, clock) && clock <= q.now
    ensures var (d, b) := ConsumeOn(c, Lookup(buckets, q.id), q.now);
            && ScriptOn(c, KeyOf(store, q.id), q.now) == (d, Stored(b, q.now + TimeToLive(c)))
            && Matches(c, store[q.id := Stored(b, q.now + TimeToLive(c))], buckets[q.id := b], q.now)
  {
    hide ConsumeOn, TimeToLive, InRange, Gain;
    var kept := Lookup(buckets, q.id);
    if kept.Some? {
      if Visible(KeyOf(store, q.id), q.now).None? {
        GainOrders(c, q.now - kept.value.updated, TimeToLive(c));
        FullIsNew(c, kept.value, q.now);
      }
      OneRequest(c, kept.value, q.now);
    } else {
      NewIsFull(c, q.now);
      FullInRange(c, q.now);
      OneRequest(c, Bucket(c.burst as real, q.now), q.now);
    }
    UpdatedByThen(c, kept, q.now);
  }

  /** Refinement: on a clock that does not run backwards, dropping expired keys changes no
      decision for any sequence of requests of any number of identities. */
  lemma {:induction false} ExpiryChangesNothing(c: Limits, store: map<Identity, Stored>,
                                                buckets: map<Identity, Bucket>, requests: seq<Request>, clock: real)
    requires Proper(c) && Matches(c, store, buckets, clock)
    requires forall i | 0 <= i < |requests| :: clock <= requests[i].now
    requires forall i, j | 0 <= i < j < |requests| :: requests[i].now <= requests[j].now
    ensures RedisRun(c, store, requests) == FakeRun(c, buckets, requests)
    decreases |requests|
  {
    hide ConsumeOn, ScriptOn, TimeToLive, Matches, KeyOf, Lookup;
    if requests != [] {
      var q := requests[0];
      OneRequestMatches(c, store, buckets, q, clock);
      var (d, b) := ConsumeOn(c, Lookup(buckets, q.id), q.now);
      ExpiryChangesNothing(c, store[q.id := Stored(b, q.now + TimeToLive(c))], buckets[q.id := b],
                           requests[1..], q.now);
    }
  }

  // ---------- what goes wrong on a clock that runs backwards ----------

  lemma {:induction false} WholeSeconds(n: nat)
    requires n >= 1
    ensures TimeToLive(Limits(1.0, n)) == n as real && Gain(Limits(1.0, n), 0.0) == 0.0
  {
    var x := n as real;
    assert TimeFor(Limits(1.0, n), x) == x;
    assert x * 1000.0 == (n * 1000) as real;
    assert Ceil((n * 1000) as real) == n * 1000;
  }

  /** An empty bucket and a clock that lags: denied, with one second told. */
  lemma {:induction false} StaysEmpty(n: nat, updated: real, expires: real, now: real)
    requires n >= 1 && now <= updated && now < expires
    ensures ScriptOn(Limits(1.0, n), Some(Stored(Bucket(0.0, updated), expires)), now)
         == (Decision(false, 0, 1), Stored(Bucket(0.0, updated), now + n as real))
  {
    hide TimeToLive, Gain;
    WholeSeconds(n);
    assert TimeFor(Limits(1.0, n), 1.0) == 1.0;
  }

  /** A clock that goes back: the second request is denied but brings the expiry forward to 51,
      so the third finds no key. Two requests are allowed against a bound of one. */
  lemma {:induction false} SetbackAllowsTooMany()
    ensures var c, clocks := Limits(1.0, 1), [100.0, 50.0, 51.0];
            var ds := KeyRun(c, None, clocks);
            && ds[0].allowed && !ds[1].allowed && ds[2].allowed
            && Admitted(ds, 0, 3) == 2 && Gain(c, Highest(clocks, 2) - Highest(clocks, 0)) == 0.0
            && !Bounded(c, clocks, ds)
  {
    hide TimeToLive, Gain, ScriptOn;
    var c, clocks := Limits(1.0, 1), [100.0, 50.0, 51.0];
    WholeSeconds(1);
    OpensFull(c, None, 100.0);
    StaysEmpty(1, 100.0, 101.0, 50.0);
    OpensFull(c, Some(Stored(Bucket(0.0, 100.0), 51.0)), 51.0);
    assert KeyAfter(c, None, clocks, 1) == Some(Stored(Bucket(0.0, 100.0), 101.0));
    assert KeyAfter(c, None, clocks, 2) == Some(Stored(Bucket(0.0, 100.0), 51.0));
    var ds := KeyRun(c, None, clocks);
    assert Admitted(ds, 0, 1) == 1 && Admitted(ds, 0, 2) == 1 && Admitted(ds, 0, 3) == 2;
    assert Highest(clocks, 1) == 100.0 && Highest(clocks, 2) == 100.0;
    assert Admitted(ds, 0, 3) as real > c.burst as real + Gain(c, Highest(clocks, 2) - Highest(clocks, 0));
  }

  // ---------- the delay told to a denied caller ----------

  /** When an undisturbed bucket allows again: exactly when the missing tokens, and the time by
      which the clock lags behind the bucket, have been made up. */
  lemma AllowsAgain(c: Limits, b: Bucket, now: real, delay: real)
    requires Proper(c) && b.tokens < 1.0 && now <= b.updated && 0.0 <= delay
    ensures Allows(c, Some(b), now + delay) <==> delay >= TimeFor(c, 1.0 - b.tokens) + (b.updated - now)
  {
    hide Gain;
    var wait := TimeFor(c, 1.0 - b.tokens);
    var passed := Greatest(0.0, now + delay - b.updated);
    GainOrders(c, 0.0, wait);
    GainOrders(c, passed, wait);
  }

  predicate KeyAllows(c: Limits, key: Stored, now: real)
    requires Proper(c)
  {
    ScriptOn(c, Some(key), now).0.allowed
  }

  /** The time the missing tokens take. */
  function Wait(c: Limits, b: Bucket, now: real): real
    requires Proper(c)
  {
    TimeFor(c, 1.0 - Refilled(c, b, now))
  }

  /** By how much the clock lags behind the bucket. */
  function Lag(b: Bucket, now: real): real { Greatest(0.0, b.updated - now) }

  /** A denied caller who comes back undisturbed is allowed once the wait and the lag are over,
      or once the key has expired. */
  lemma {:induction false} AllowedOnceOver(c: Limits, key: Stored, now: real, delay: real)
    requires Proper(c) && !KeyAllows(c, key, now) && 0.0 <= delay
    ensures KeyAllows(c, ScriptOn(c, Some(key), now).1, now + delay)
       <==> delay >= Least(Wait(c, key.bucket, now) + Lag(key.bucket, now), TimeToLive(c))
  {
    hide Gain, TimeToLive;
    NewIsAllowed(c, now);
    assert now < key.expires;
    if delay < TimeToLive(c) {
      AllowsAgain(c, ScriptOn(c, Some(key), now).1.bucket, now, delay);
    } else {
      NewIsAllowed(c, now + delay);
    }
  }

  /** The least whole number of seconds after which the caller is allowed. */
  ghost predicate DelayIsLeast(c: Limits, key: Stored, now: real, retry: int)
    requires Proper(c)
  {
    forall delay: nat :: AllowsLater(c, key, now, delay) <==> delay >= retry
  }

  predicate AllowsLater(c: Limits, key: Stored, now: real, delay: nat)
    requires Proper(c)
  {
    KeyAllows(c, key, now + delay as real)
  }

  /** For any stored key and any clock, the delay told is right if and only if the lag, cut short
      by the expiry, does not carry the wait past a whole second. */
  lemma {:induction false} RetryIsLeastExactlyWhen(c: Limits, key: Stored, now: real)
    requires Proper(c) && !KeyAllows(c, key, now)
    ensures var (d, later) := ScriptOn(c, Some(key), now);
            var wait := Wait(c, key.bucket, now);
            DelayIsLeast(c, later, now, d.retry)
            <==> Ceil(Least(wait + Lag(key.bucket, now), TimeToLive(c))) == Ceil(wait)
  {
    hide Gain, TimeToLive, KeyAllows;
    var (d, later) := ScriptOn(c, Some(key), now);
    var wait := Wait(c, key.bucket, now);
    var total := Least(wait + Lag(key.bucket, now), TimeToLive(c));
    DeniedWaits(c, key, now);
    var least: nat := Ceil(total);
    forall delay: nat ensures AllowsLater(c, later, now, delay) <==> delay >= least {
      AllowedOnceOver(c, key, now, delay as real);
    }
    var retry: nat := d.retry;
    assert AllowsLater(c, later, now, least) && (AllowsLater(c, later, now, retry) <==> retry >= least);
  }

  lemma DeniedWaits(c: Limits, key: Stored, now: real)
    requires Proper(c) && !KeyAllows(c, key, now)
    ensures Wait(c, key.bucket, now) > 0.0
    ensures ScriptOn(c, Some(key), now).0.retry == Ceil(Wait(c, key.bucket, now)) >= 1
  {
    hide Gain, TimeToLive;
    NewIsAllowed(c, now);
    GainOrders(c, 0.0, Wait(c, key.bucket, now));
  }

  /** In particular it is right whenever the clock does not lag behind the bucket. */
  lemma {:induction false} RetryIsLeast(c: Limits, key: Stored, now: real)
    requires Proper(c) && !KeyAllows(c, key, now) && InRange(c, key.bucket) && key.bucket.updated <= now
    ensures var (d, later) := ScriptOn(c, Some(key), now);
            d.retry >= 1 && DelayIsLeast(c, later, now, d.retry)
  {
    hide TimeToLive, DelayIsLeast;
    RetryIsLeastExactlyWhen(c, key, now);
    DeniedWaits(c, key, now);
    WaitWithinLife(c, key.bucket, now);
  }

  lemma WaitWithinLife(c: Limits, b: Bucket, now: real)
    requires Proper(c) && InRange(c, b)
    ensures Wait(c, b, now) <= TimeToLive(c)
  {
    hide Gain, TimeToLive;
    GainOrders(c, 0.0, Greatest(0.0, now - b.updated));
    GainOrders(c, Wait(c, b, now), TimeToLive(c));
  }

  /** A clock that goes back by a second: the delay told is one second, but a second later the
      bucket has gained nothing and the key is still there. */
  lemma {:induction false} RetryCanBeTooShort()
    ensures var c := Limits(1.0, 2);
            var ds := KeyRun(c, None, [100.0, 100.0, 99.0, 100.0]);
            ds[0].allowed && ds[1].allowed && !ds[2].allowed && ds[2].retry == 1 && !ds[3].allowed
  {
    hide TimeToLive, ScriptOn;
    var c, clocks := Limits(1.0, 2), [100.0, 100.0, 99.0, 100.0];
    WholeSeconds(2);
    OpensFull(c, None, 100.0);
    SpendsOne(c, 1, 100.0);
    StaysEmpty(2, 100.0, 102.0, 99.0);
    StaysEmpty(2, 100.0, 101.0, 100.0);
    assert KeyAfter(c, None, clocks, 1) == Some(Stored(Bucket(1.0, 100.0), 102.0));
    assert KeyAfter(c, None, clocks, 2) == Some(Stored(Bucket(0.0, 100.0), 102.0));
    assert KeyAfter(c, None, clocks, 3) == Some(Stored(Bucket(0.0, 100.0), 101.0));
  }
}
