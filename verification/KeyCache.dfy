/** The signing-key cache of the gateway: which keys of a JWK Set are taken (section 5 of
    RFC 7517), and when the set is fetched again. */
module KeyCache {
  import opened Common

  /** The members of a JWK that the gateway looks at. material stands for the public key;
      strong says that it parses as an RSA key of at least 2048 bits. */
  datatype Jwk = Jwk(kty: string, alg: Option<string>, use: Option<string>, keyOps: Option<seq<string>>,
                     kid: Option<string>, strong: bool, private: bool, material: string)

  /** Meant for RS256 verification; other items of the set are passed over. */
  predicate Usable(item: Jwk) {
    && item.kty == "RSA" && (item.alg.Some? ==> item.alg.value == "RS256")
    && (item.use.Some? ==> item.use.value == "sig")
    && (item.keyOps.Some? ==> "verify" in item.keyOps.value)
  }

  predicate Acceptable(item: Jwk) {
    item.strong && item.kid.Some? && item.kid.value != "" && !item.private
  }

  /** One usable key at least, every usable key acceptable, and no identifier used twice. */
  predicate ProperSet(items: seq<Jwk>) {
    && (exists i | 0 <= i < |items| :: Usable(items[i]))
    && (forall i | 0 <= i < |items| && Usable(items[i]) :: Acceptable(items[i]))
    && (forall i, j | 0 <= i < j < |items| && Usable(items[i]) && Usable(items[j]) :: items[i].kid != items[j].kid)
  }

  predicate Offers(items: seq<Jwk>, kid: string) {
    exists item | item in items :: Usable(item) && item.kid == Some(kid)
  }

  /** The map holds the usable keys among the items under their identifiers, and nothing else. */
  predicate KeysOf(items: seq<Jwk>, keys: map<string, string>) {
    && (forall i | 0 <= i < |items| && Usable(items[i]) ::
          Acceptable(items[i]) && items[i].kid.value in keys && keys[items[i].kid.value] == items[i].material)
    && (forall kid | kid in keys :: Offers(items, kid))
  }

  predicate DistinctIds(items: seq<Jwk>) {
    forall i, j | 0 <= i < j < |items| && Usable(items[i]) && Usable(items[j]) :: items[i].kid != items[j].kid
  }

  /** One more item: passed over, taken under a new identifier, or the end of the set's chances. */
  lemma {:induction false} OneMoreItem(items: seq<Jwk>, n: nat, keys: map<string, string>)
    requires n < |items| && KeysOf(items[..n], keys) && DistinctIds(items[..n])
    ensures var item := items[n];
            var next := items[..n + 1];
            && (!Usable(item) ==> KeysOf(next, keys) && DistinctIds(next))
            && (Usable(item) && Acceptable(item) && item.kid.value !in keys ==>
                  KeysOf(next, keys[item.kid.value := item.material]) && DistinctIds(next))
            && (Usable(item) && (!Acceptable(item) || item.kid.value in keys) ==> !ProperSet(items))
  {
    hide Offers, Usable, Acceptable;
    var item, next := items[n], items[..n + 1];
    assert next == items[..n] + [item];
    forall kid | Offers(items[..n], kid) || (Usable(item) && item.kid == Some(kid)) ensures Offers(next, kid) {
      OffersMore(items[..n], item, kid);
    }
    if Usable(item) && Acceptable(item) {
      AcceptableHasId(item);
      if item.kid.value in keys {
        var i := Earlier(items, n, item.kid.value);
        assert items[i].kid == items[n].kid;
      }
    }
    assert forall i | 0 <= i < n :: items[..n][i] == items[i];
  }

  lemma OffersMore(items: seq<Jwk>, item: Jwk, kid: string)
    requires Offers(items, kid) || (Usable(item) && item.kid == Some(kid))
    ensures Offers(items + [item], kid)
  {
    if Offers(items, kid) {
      var known :| known in items && Usable(known) && known.kid == Some(kid);
      assert known in items + [item];
    } else {
      assert item in items + [item];
    }
  }

  lemma AcceptableHasId(item: Jwk)
    requires Acceptable(item)
    ensures item.kid.Some?
  {
  }

  lemma Earlier(items: seq<Jwk>, n: nat, kid: string) returns (i: nat)
    requires n <= |items| && Offers(items[..n], kid)
    ensures i < n && Usable(items[i]) && items[i].kid == Some(kid)
  {
    var item :| item in items[..n] && Usable(item) && item.kid == Some(kid);
    i :| 0 <= i < n && items[i] == item;
  }

  lemma AllItems(items: seq<Jwk>, keys: map<string, string>)
    requires KeysOf(items, keys) && DistinctIds(items)
    ensures ProperSet(items) <==> keys != map[]
  {
    if keys != map[] {
      var kid :| kid in keys;
      assert items[..|items|] == items;
      var i := Earlier(items, |items|, kid);
    }
  }

  /** signing_keys: succeeds exactly on proper sets. */
  method SigningKeys(items: seq<Jwk>) returns (r: Option<map<string, string>>)
    ensures r.Some? <==> ProperSet(items)
    ensures r.Some? ==> KeysOf(items, r.value)
  {
    hide KeysOf, DistinctIds, ProperSet;
    var result: map<string, string> := map[];
    NoItems(items);
    for n := 0 to |items|
      invariant KeysOf(items[..n], result) && DistinctIds(items[..n])
    {
      var item := items[n];
      OneMoreItem(items, n, result);
      if Usable(item) {
        if !item.strong || item.kid.None? || item.kid.value == "" || item.kid.value in result || item.private {
          return None;
        }
        result := result[item.kid.value := item.material];
      }
    }
    assert items[..|items|] == items;
    AllItems(items, result);
    return if result == map[] then None else Some(result);
  }

  lemma NoItems(items: seq<Jwk>)
    ensures KeysOf(items[..0], map[]) && DistinctIds(items[..0])
  {
  }

  /** Only keys for verifying RS256 signatures are taken: none for encryption, of another algorithm
      or type, without the verify operation, private, weak or without an identifier. */
  lemma OnlySignatureKeysAreTaken(items: seq<Jwk>, keys: map<string, string>, kid: string)
    requires ProperSet(items) && KeysOf(items, keys) && kid in keys
    ensures exists item | item in items ::
              && item.kid == Some(kid) && kid != "" && keys[kid] == item.material
              && item.kty == "RSA" && (item.alg == None || item.alg == Some("RS256"))
              && (item.use == None || item.use == Some("sig"))
              && (item.keyOps.Some? ==> "verify" in item.keyOps.value) && item.strong && !item.private
  {
    assert items[..|items|] == items;
    var i := Earlier(items, |items|, kid);
    assert items[i] in items;
  }

  /** All of them are taken, and if one of them is weak, private or without an identifier, or two
      share one, or there is none, the set is refused. */
  lemma EverySignatureKeyIsTaken(items: seq<Jwk>, keys: map<string, string>, item: Jwk)
    requires ProperSet(items) && KeysOf(items, keys) && item in items
    requires item.kty == "RSA" && (item.alg == None || item.alg == Some("RS256"))
    requires (item.use == None || item.use == Some("sig")) && (item.keyOps.Some? ==> "verify" in item.keyOps.value)
    ensures item.strong && !item.private && item.kid.Some? && item.kid.value != ""
    ensures item.kid.value in keys && keys[item.kid.value] == item.material
  {
    var i :| 0 <= i < |items| && items[i] == item;
    assert Usable(items[i]);
  }

  // ---------- the cache ----------

  /** Settings validation keeps the cache lifetime at or above the refresh interval. */
  datatype Settings = Settings(refresh: real, lifetime: real)

  predicate ValidSettings(c: Settings) { 0.0 < c.refresh <= c.lifetime }

  /** None stands for minus infinity. */
  datatype Cache = Cache(keys: map<string, string>, expires: Option<real>, nextRefresh: Option<real>)

  const COLD := Cache(map[], None, None)

  predicate Reached(t: Option<real>, now: real) { t.None? || now >= t.value }

  /** One call under the lock: the clock on entry, what a fetch would give, the clock after
      the fetch, and the clock at the last test. */
  datatype Call = Call(kid: string, now: real, fetched: Option<map<string, string>>, loaded: real, tested: real)

  datatype Answer = Found(key: string) | InvalidToken | FetchFailed

  predicate Fetches(s: Cache, call: Call) {
    (call.kid !in s.keys || Reached(s.expires, call.now)) && Reached(s.nextRefresh, call.now)
  }

  function KeyOn(c: Settings, s: Cache, call: Call): (Cache, Answer) {
    var s1 := if Fetches(s, call) then s.(nextRefresh := Some(call.now + c.refresh)) else s;
    if Fetches(s, call) && call.fetched.None? then (s1, FetchFailed)
    else
      var s2 := if !Fetches(s, call) then s1
                else s1.(keys := call.fetched.value, expires := Some(call.loaded + c.lifetime));
      (s2, if Reached(s2.expires, call.tested) || call.kid !in s2.keys then InvalidToken else Found(s2.keys[call.kid]))
  }

  class Authenticator {
    const c: Settings
    var keys: map<string, string>
    var expires: Option<real>
    var nextRefresh: Option<real>

    constructor (c: Settings)
      ensures this.c == c && Value() == COLD
    {
      this.c, keys, expires, nextRefresh := c, map[], None, None;
    }

    function Value(): Cache
      reads this
    {
      Cache(keys, expires, nextRefresh)
    }

    /** key. The refresh is postponed before the fetch, so a failed fetch is not repeated at once. */
    method Key(call: Call) returns (a: Answer)
      modifies this
      ensures (Value(), a) == KeyOn(c, old(Value()), call)
    {
      if (call.kid !in keys || Reached(expires, call.now)) && Reached(nextRefresh, call.now) {
        nextRefresh := Some(call.now + c.refresh);
        if call.fetched.None? {
          return FetchFailed;
        }
        keys := call.fetched.value;
        expires := Some(call.loaded + c.lifetime);
      }
      if Reached(expires, call.tested) || call.kid !in keys {
        return InvalidToken;
      }
      return Found(keys[call.kid]);
    }
  }

  // ---------- runs ----------

  /** The cache with its history: the start of every fetch, and the last successful fetch with
      the time it completed. */
  datatype World = World(s: Cache, starts: seq<real>, last: Option<(map<string, string>, real)>, lastOk: bool,
                         clock: real)

  function Step(c: Settings, w: World, call: Call): World {
    var fetches := Fetches(w.s, call);
    World(KeyOn(c, w.s, call).0,
          if fetches then w.starts + [call.now] else w.starts,
          if fetches && call.fetched.Some? then Some((call.fetched.value, call.loaded)) else w.last,
          if fetches then call.fetched.Some? else w.lastOk,
          call.tested)
  }

  /** The clock does not run backwards within or between calls. */
  predicate InTime(w: World, call: Call) { w.clock <= call.now <= call.loaded <= call.tested }

  predicate Run(c: Settings, worlds: seq<World>, calls: seq<Call>) {
    && |worlds| == |calls| + 1
    && worlds[0].s == COLD && worlds[0].starts == [] && worlds[0].last.None? && !worlds[0].lastOk
    && forall i | 0 <= i < |calls| :: InTime(worlds[i], calls[i]) && worlds[i + 1] == Step(c, worlds[i], calls[i])
  }

  predicate Sound(c: Settings, w: World) {
    && Spaced(w.starts, c.refresh)
    && w.s.nextRefresh == (if w.starts == [] then None else Some(w.starts[|w.starts| - 1] + c.refresh))
    && (w.starts != [] ==> w.starts[|w.starts| - 1] <= w.clock)
    && (if w.last.None? then w.s.keys == map[] && w.s.expires.None? && !w.lastOk
        else
          && w.s.keys == w.last.value.0 && w.s.expires == Some(w.last.value.1 + c.lifetime)
          && w.last.value.1 <= w.clock)
    && (w.lastOk ==> w.starts != [] && w.last.Some? && w.starts[|w.starts| - 1] <= w.last.value.1)
  }

  lemma {:induction false} SoundAt(c: Settings, worlds: seq<World>, calls: seq<Call>, i: nat)
    requires ValidSettings(c) && Run(c, worlds, calls) && i < |worlds|
    ensures Sound(c, worlds[i])
  {
    if i > 0 {
      SoundAt(c, worlds, calls, i - 1);
      assert InTime(worlds[i - 1], calls[i - 1]) && worlds[i] == Step(c, worlds[i - 1], calls[i - 1]);
    }
  }

  /** Arbitrary identifiers and failing fetches do not amplify traffic: in every run, n fetches
      take at least (n - 1) * refresh from the first start to the last. */
  lemma FetchesAreSpaced(c: Settings, worlds: seq<World>, calls: seq<Call>, n: nat, i: nat, j: nat)
    requires ValidSettings(c) && Run(c, worlds, calls) && n < |worlds| && i <= j < |worlds[n].starts|
    ensures worlds[n].starts[j] - worlds[n].starts[i] >= c.refresh * (j - i) as real
  {
    SoundAt(c, worlds, calls, n);
    SpacedApart(worlds[n].starts, c.refresh, i, j);
  }

  /** What every call does and answers, read off the history: it fetches if and only if the last
      fetched set lacks the identifier or has expired and the last start lies at least the refresh
      interval back; it fails if and only if its own fetch fails; and otherwise it is answered with
      a key if and only if the last successful fetch, its own included, offers the identifier and
      completed less than the cache lifetime before. */
  lemma AnswersExactlyWhen(c: Settings, worlds: seq<World>, calls: seq<Call>, i: nat)
    requires ValidSettings(c) && Run(c, worlds, calls) && i < |calls|
    ensures var w, v, call := worlds[i], worlds[i + 1], calls[i];
            var a := KeyOn(c, w.s, call).1;
            var fetches := |v.starts| > |w.starts|;
            && (fetches <==>
                  && (w.last.None? || call.kid !in w.last.value.0 || call.now - w.last.value.1 >= c.lifetime)
                  && (w.starts == [] || call.now - w.starts[|w.starts| - 1] >= c.refresh))
            && v.starts == (if fetches then w.starts + [call.now] else w.starts)
            && v.last == (if fetches && call.fetched.Some? then Some((call.fetched.value, call.loaded)) else w.last)
            && (a == FetchFailed <==> fetches && call.fetched.None?)
            && (a.Found? <==>
                  && !(fetches && call.fetched.None?) && v.last.Some? && call.kid in v.last.value.0
                  && call.tested - v.last.value.1 < c.lifetime)
            && (a.Found? ==> a == Found(v.last.value.0[call.kid]))
            && (a == FetchFailed || a == InvalidToken || a.Found?)
  {
    SoundAt(c, worlds, calls, i);
    SoundAt(c, worlds, calls, i + 1);
    assert worlds[i + 1] == Step(c, worlds[i], calls[i]);
  }

  /** A key that is returned is the one the last successful fetch gave for the identifier, and
      that fetch completed less than the cache lifetime ago. */
  lemma ReturnedKeysAreFresh(c: Settings, worlds: seq<World>, calls: seq<Call>, i: nat)
    requires ValidSettings(c) && Run(c, worlds, calls) && i < |calls|
    requires KeyOn(c, worlds[i].s, calls[i]).1.Found?
    ensures var last := worlds[i + 1].last;
            && last.Some? && calls[i].kid in last.value.0
            && KeyOn(c, worlds[i].s, calls[i]).1 == Found(last.value.0[calls[i].kid])
            && 0.0 <= calls[i].tested - last.value.1 < c.lifetime
  {
    SoundAt(c, worlds, calls, i);
    SoundAt(c, worlds, calls, i + 1);
    assert worlds[i + 1] == Step(c, worlds[i], calls[i]);
  }

  /** After a successful fetch the next one is permitted no later than the keys expire, so an
      expired set can always be replaced. */
  lemma RefreshIsPermittedByExpiry(c: Settings, worlds: seq<World>, calls: seq<Call>, i: nat, call: Call)
    requires ValidSettings(c) && Run(c, worlds, calls) && i < |worlds| && worlds[i].lastOk
    ensures worlds[i].s.nextRefresh.Some? && worlds[i].s.expires.Some?
    ensures worlds[i].s.nextRefresh.value <= worlds[i].s.expires.value
    ensures Reached(worlds[i].s.expires, call.now) ==> Fetches(worlds[i].s, call)
  {
    SoundAt(c, worlds, calls, i);
  }
}
