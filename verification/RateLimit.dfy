/** The token bucket, over exact real arithmetic, and the limiter that keeps its buckets for good. */
module RateLimit {
  import opened Common

  /** Requests per second and burst, as the gateway settings constrain them. */
  datatype Limits = Limits(rate: real, burst: nat)

  predicate Proper(c: Limits) { c.rate > 0.0 && c.burst >= 1 }

  datatype Bucket = Bucket(tokens: real, updated: real)

  datatype Decision = Decision(allowed: bool, remaining: int, retry: int)

  function Least(a: real, b: real): real { if a <= b then a else b }

  function Greatest(a: real, b: real): real { if a >= b then a else b }

  function Ceil(x: real): (n: int)
    ensures x <= n as real < x + 1.0
  {
    -((-x).Floor)
  }

  /** A missing bucket is full. */
  function Opened(c: Limits, state: Option<Bucket>, now: real): Bucket {
    if state.Some? then state.value else Bucket(c.burst as real, now)
  }

  /** The tokens that a stretch of time brings. */
  function Gain(c: Limits, seconds: real): real { seconds * c.rate }

  lemma GainAdds(c: Limits, x: real, y: real)
    ensures Gain(c, x + y) == Gain(c, x) + Gain(c, y)
  {
  }

  lemma GainOrders(c: Limits, x: real, y: real)
    requires Proper(c)
    ensures x < y <==> Gain(c, x) < Gain(c, y)
    ensures Gain(c, 0.0) == 0.0
  {
    if x < y {
      assert (y - x) * c.rate > 0.0;
    } else if y < x {
      assert (x - y) * c.rate > 0.0;
    }
  }

  /** The time after which the tokens have been gained. */
  function TimeFor(c: Limits, tokens: real): (seconds: real)
    requires Proper(c)
    ensures Gain(c, seconds) == tokens
  {
    tokens / c.rate
  }

  function Refilled(c: Limits, b: Bucket, now: real): real {
    Least(c.burst as real, b.tokens + Gain(c, Greatest(0.0, now - b.updated)))
  }

  function ConsumeOn(c: Limits, state: Option<Bucket>, now: real): (Decision, Bucket)
    requires Proper(c)
  {
    var b := Opened(c, state, now);
    var tokens := Refilled(c, b, now);
    var updated := Greatest(b.updated, now);
    if tokens >= 1.0
    then (Decision(true, (tokens - 1.0).Floor, 0), Bucket(tokens - 1.0, updated))
    else (Decision(false, tokens.Floor, Ceil(TimeFor(c, 1.0 - tokens))), Bucket(tokens, updated))
  }

  function Allows(c: Limits, state: Option<Bucket>, now: real): bool
    requires Proper(c)
  {
    ConsumeOn(c, state, now).0.allowed
  }

  predicate InRange(c: Limits, b: Bucket) { 0.0 <= b.tokens <= c.burst as real }

  // ---------- runs of one bucket ----------

  /** The state after the first i of the readings. */
  function After(c: Limits, state: Option<Bucket>, clocks: seq<real>, i: nat): Option<Bucket>
    requires Proper(c) && i <= |clocks|
  {
    if i == 0 then state else Some(ConsumeOn(c, After(c, state, clocks, i - 1), clocks[i - 1]).1)
  }

  /** The decisions on a list of readings. */
  function Decisions(c: Limits, state: Option<Bucket>, clocks: seq<real>): (ds: seq<Decision>)
    requires Proper(c)
    ensures |ds| == |clocks|
  {
    seq(|clocks|, i requires 0 <= i < |clocks| => ConsumeOn(c, After(c, state, clocks, i), clocks[i]).0)
  }

  lemma {:induction false} AfterFirst(c: Limits, state: Option<Bucket>, clocks: seq<real>, i: nat)
    requires Proper(c) && i < |clocks|
    ensures After(c, state, clocks, i + 1) == After(c, Some(ConsumeOn(c, state, clocks[0]).1), clocks[1..], i)
  {
    hide ConsumeOn;
    if i > 0 {
      AfterFirst(c, state, clocks, i - 1);
    }
  }

  lemma {:induction false} DecisionsFirst(c: Limits, state: Option<Bucket>, clocks: seq<real>)
    requires Proper(c) && clocks != []
    ensures var (d, b) := ConsumeOn(c, state, clocks[0]);
            Decisions(c, state, clocks) == [d] + Decisions(c, Some(b), clocks[1..])
  {
    hide ConsumeOn;
    forall i | 0 <= i < |clocks| - 1
      ensures After(c, state, clocks, i + 1) == After(c, Some(ConsumeOn(c, state, clocks[0]).1), clocks[1..], i)
    {
      AfterFirst(c, state, clocks, i);
    }
  }

  function Highest(clocks: seq<real>, i: nat): real
    requires i < |clocks|
  {
    if i == 0 then clocks[0] else Greatest(Highest(clocks, i - 1), clocks[i])
  }

  /** The number of allowed requests among those from i to j - 1. */
  function Admitted(ds: seq<Decision>, i: nat, j: nat): nat
    requires i <= j <= |ds|
    decreases j
  {
    if i == j then 0 else Admitted(ds, i, j - 1) + if ds[j - 1].allowed then 1 else 0
  }

  lemma {:induction false} AdmittedAdds(ds: seq<Decision>, i: nat, j: nat, k: nat)
    requires i <= j <= k <= |ds|
    ensures Admitted(ds, i, k) == Admitted(ds, i, j) + Admitted(ds, j, k)
    decreases k
  {
    if j < k {
      AdmittedAdds(ds, i, j, k - 1);
    }
  }

  /** At most burst plus rate times the advance of the highest reading, between any two
      requests, both included. */
  ghost predicate Bounded(c: Limits, clocks: seq<real>, ds: seq<Decision>)
    requires |ds| == |clocks|
  {
    forall i, j | 0 <= i < j <= |ds| ::
      Admitted(ds, i, j) as real <= c.burst as real + Gain(c, Highest(clocks, j - 1) - Highest(clocks, i))
  }

  /** n requests at a reading no later than the bucket. */
  function AtOnce(c: Limits, b: Bucket, now: real, n: nat): Bucket
    requires Proper(c)
  {
    if n == 0 then b else ConsumeOn(c, Some(AtOnce(c, b, now, n - 1)), now).1
  }

  lemma {:induction false} AtOnceSpends(c: Limits, b: Bucket, now: real, n: nat)
    requires Proper(c) && InRange(c, b) && now <= b.updated && n as real <= b.tokens
    ensures AtOnce(c, b, now, n) == Bucket(b.tokens - n as real, b.updated)
  {
    hide Gain;
    GainOrders(c, 0.0, 0.0);
    if n > 0 {
      AtOnceSpends(c, b, now, n - 1);
    }
  }

  /** What a caller is told to have left is exact, whether the request was allowed or not: of further
      requests at the same reading, that many are allowed and the next one is not. */
  lemma {:induction false} RemainingIsExact(c: Limits, state: Option<Bucket>, now: real, n: nat)
    requires Proper(c) && (state.Some? ==> InRange(c, state.value))
    ensures var (d, b) := ConsumeOn(c, state, now);
            && 0 <= d.remaining < c.burst
            && (n < d.remaining ==> Allows(c, Some(AtOnce(c, b, now, n)), now))
            && (n == d.remaining ==> !Allows(c, Some(AtOnce(c, b, now, n)), now))
  {
    hide Gain;
    var (d, b) := ConsumeOn(c, state, now);
    GainOrders(c, 0.0, 0.0);
    ConsumedInRange(c, state, now);
    if n <= d.remaining {
      AtOnceSpends(c, b, now, n);
    }
  }

  lemma ConsumedInRange(c: Limits, state: Option<Bucket>, now: real)
    requires Proper(c) && (state.Some? ==> InRange(c, state.value))
    ensures var (d, b) := ConsumeOn(c, state, now);
            && InRange(c, b) && now <= b.updated && d.remaining == b.tokens.Floor && b.tokens < c.burst as real
  {
    hide Gain;
    var o := Opened(c, state, now);
    GainOrders(c, 0.0, Greatest(0.0, now - o.updated));
  }

  // ---------- how many requests a kept bucket allows ----------

  /** What one request spends is bounded by what the bucket held and what it gained. */
  lemma OneRequest(c: Limits, b: Bucket, now: real)
    requires Proper(c) && InRange(c, b)
    ensures var (d, b') := ConsumeOn(c, Some(b), now);
            && InRange(c, b')
            && (if d.allowed then 1.0 else 0.0) + b'.tokens <= b.tokens + Gain(c, b'.updated - b.updated)
            && (if d.allowed then 1.0 else 0.0) + b'.tokens <= c.burst as real
  {
    hide Gain;
    var passed := Greatest(0.0, now - b.updated);
    GainOrders(c, 0.0, passed);
    assert passed == Greatest(b.updated, now) - b.updated;
  }

  lemma NewIsFull(c: Limits, now: real)
    requires Proper(c)
    ensures ConsumeOn(c, None, now) == ConsumeOn(c, Some(Bucket(c.burst as real, now)), now)
  {
  }

  /** Tokens stay between zero and burst, and the stored time is the highest reading so far. */
  lemma {:induction false} TokensStayInRange(c: Limits, clocks: seq<real>, i: nat)
    requires Proper(c) && 0 < i <= |clocks|
    ensures InRange(c, After(c, None, clocks, i).value)
    ensures After(c, None, clocks, i).value.updated == Highest(clocks, i - 1)
  {
    hide Gain;
    if i > 1 {
      TokensStayInRange(c, clocks, i - 1);
      OneRequest(c, After(c, None, clocks, i - 1).value, clocks[i - 1]);
    } else {
      NewIsFull(c, clocks[0]);
      OneRequest(c, Bucket(c.burst as real, clocks[0]), clocks[0]);
    }
  }

  lemma {:induction false} AllowedAfter(c: Limits, clocks: seq<real>, i: nat, j: nat)
    requires Proper(c) && 0 < i <= j <= |clocks|
    ensures Admitted(Decisions(c, None, clocks), i, j) as real + After(c, None, clocks, j).value.tokens
         <= After(c, None, clocks, i).value.tokens + Gain(c, Highest(clocks, j - 1) - Highest(clocks, i - 1))
    decreases j
  {
    hide Gain, ConsumeOn;
    TokensStayInRange(c, clocks, i);
    GainOrders(c, 0.0, 0.0);
    if i < j {
      AllowedAfter(c, clocks, i, j - 1);
      TokensStayInRange(c, clocks, j - 1);
      TokensStayInRange(c, clocks, j);
      OneRequest(c, After(c, None, clocks, j - 1).value, clocks[j - 1]);
      var h, m, l := Highest(clocks, j - 1), Highest(clocks, j - 2), Highest(clocks, i - 1);
      GainAdds(c, h - m, m - l);
      assert h - m + (m - l) == h - l;
    }
  }

  lemma FirstOfRange(c: Limits, clocks: seq<real>, i: nat)
    requires Proper(c) && i < |clocks|
    ensures (if Decisions(c, None, clocks)[i].allowed then 1.0 else 0.0) + After(c, None, clocks, i + 1).value.tokens
         <= c.burst as real
  {
    hide Gain, ConsumeOn;
    if i == 0 {
      NewIsFull(c, clocks[0]);
      FullInRange(c, clocks[0]);
      OneRequest(c, Bucket(c.burst as real, clocks[0]), clocks[0]);
    } else {
      TokensStayInRange(c, clocks, i);
      OneRequest(c, After(c, None, clocks, i).value, clocks[i]);
    }
  }

  lemma FullInRange(c: Limits, now: real)
    ensures InRange(c, Bucket(c.burst as real, now))
  {
  }

  /** The bound for a bucket that is kept for good, also when the clock goes backwards. */
  lemma {:induction false} RequestsAreBounded(c: Limits, clocks: seq<real>)
    requires Proper(c)
    ensures Bounded(c, clocks, Decisions(c, None, clocks))
  {
    hide Gain, ConsumeOn, Decisions;
    var ds := Decisions(c, None, clocks);
    forall i, j | 0 <= i < j <= |ds|
      ensures Admitted(ds, i, j) as real <= c.burst as real + Gain(c, Highest(clocks, j - 1) - Highest(clocks, i))
    {
      AllowedAfter(c, clocks, i + 1, j);
      TokensStayInRange(c, clocks, j);
      AdmittedAdds(ds, i, i + 1, j);
      FirstOfRange(c, clocks, i);
    }
  }

  // ---------- attempts that were denied ----------

  lemma {:induction false} DeniedLeavesNoTrace(c: Limits, b: Bucket, now: real, later: real)
    requires Proper(c) && !Allows(c, Some(b), now) && b.updated <= now <= later
    ensures ConsumeOn(c, Some(ConsumeOn(c, Some(b), now).1), later) == ConsumeOn(c, Some(b), later)
  {
    hide Gain;
    var b' := ConsumeOn(c, Some(b), now).1;
    GainOrders(c, 0.0, now - b.updated);
    GainOrders(c, 0.0, later - now);
    GainAdds(c, now - b.updated, later - now);
    assert now - b.updated + (later - now) == later - b.updated;
    assert Refilled(c, b', later) == Refilled(c, b, later);
  }

  predicate Ticking(clocks: seq<real>) {
    forall i, j | 0 <= i < j < |clocks| :: clocks[i] <= clocks[j]
  }

  predicate NotAfter(state: Option<Bucket>, clocks: seq<real>) {
    state.Some? && clocks != [] ==> state.value.updated <= clocks[0]
  }

  lemma UpdatedByThen(c: Limits, state: Option<Bucket>, now: real)
    requires Proper(c) && NotAfter(state, [now])
    ensures ConsumeOn(c, state, now).1.updated == now
  {
  }

  lemma NewIsAllowed(c: Limits, now: real)
    requires Proper(c)
    ensures Allows(c, None, now)
  {
  }

  /** The denied attempt comes first. */
  lemma {:induction false} DropDenied(c: Limits, state: Option<Bucket>, now: real, rest: seq<real>)
    requires Proper(c) && Ticking([now] + rest) && NotAfter(state, [now])
    requires !Allows(c, state, now)
    ensures Decisions(c, Some(ConsumeOn(c, state, now).1), rest) == Decisions(c, state, rest)
  {
    hide ConsumeOn, Decisions;
    if rest != [] {
      assert ([now] + rest)[0] <= ([now] + rest)[1];
      NewIsAllowed(c, now);
      assert state.Some?;
      DecisionsFirst(c, Some(ConsumeOn(c, state, now).1), rest);
      DecisionsFirst(c, state, rest);
      DeniedLeavesNoTrace(c, state.value, now, rest[0]);
    } else {
      assert |Decisions(c, Some(ConsumeOn(c, state, now).1), rest)| == 0 == |Decisions(c, state, rest)|;
    }
  }

  /** A kept bucket on a clock that does not run backwards: a denied attempt anywhere changes no
      other decision. */
  lemma {:induction false} DeniedAttemptsChangeNothing(c: Limits, state: Option<Bucket>, before: seq<real>,
                                                       now: real, rest: seq<real>)
    requires Proper(c) && Ticking(before + [now] + rest) && NotAfter(state, before + [now] + rest)
    requires !Decisions(c, state, before + [now] + rest)[|before|].allowed
    ensures var with, without := Decisions(c, state, before + [now] + rest), Decisions(c, state, before + rest);
            without == with[..|before|] + with[|before| + 1..]
    decreases |before|
  {
    hide ConsumeOn, Decisions;
    var all := before + [now] + rest;
    DecisionsFirst(c, state, all);
    if before == [] {
      assert all == [now] + rest && all[1..] == rest && before + rest == rest;
      DropDenied(c, state, now, rest);
    } else {
      var (d, b) := ConsumeOn(c, state, before[0]);
      DecisionsFirst(c, state, before + rest);
      assert all[0] == before[0] && all[1..] == before[1..] + [now] + rest;
      assert (before + rest)[1..] == before[1..] + rest;
      UpdatedByThen(c, state, all[0]);
      assert all[0] <= all[1];
      DeniedAttemptsChangeNothing(c, Some(b), before[1..], now, rest);
      var with := Decisions(c, Some(b), all[1..]);
      assert ([d] + with)[..|before|] == [d] + with[..|before| - 1];
      assert ([d] + with)[|before| + 1..] == with[|before|..];
    }
  }

  // ---------- the program without expiry ----------

  datatype Identity = Identity(tenant: string, user: string)

  function Lookup(buckets: map<Identity, Bucket>, id: Identity): Option<Bucket> {
    if id in buckets then Some(buckets[id]) else None
  }

  /** The same bucket without expiry. */
  class FakeRateLimiter {
    const c: Limits
    var buckets: map<Identity, Bucket>

    constructor (c: Limits)
      requires Proper(c)
      ensures this.c == c && buckets == map[]
    {
      this.c, buckets := c, map[];
    }

    method Consume(id: Identity, now: real) returns (d: Decision)
      requires Proper(c)
      modifies this
      ensures var r := ConsumeOn(c, Lookup(old(buckets), id), now);
              d == r.0 && buckets == old(buckets)[id := r.1]
    {
      var b := if id in buckets then buckets[id] else Bucket(c.burst as real, now);
      var tokens := Least(c.burst as real, b.tokens + Gain(c, Greatest(0.0, now - b.updated)));
      var allowed := tokens >= 1.0;
      var retry := if allowed then 0 else Ceil(TimeFor(c, 1.0 - tokens));
      tokens := tokens - if allowed then 1.0 else 0.0;
      buckets := buckets[id := Bucket(tokens, Greatest(b.updated, now))];
      return Decision(allowed, tokens.Floor, retry);
    }
  }
}
