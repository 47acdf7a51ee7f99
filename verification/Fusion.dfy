/** Reciprocal rank fusion with exact scores. */
module Fusion {
  import opened Order

  datatype Hit = Hit(key: Key, text: string, score: real)

  datatype Fused = InvalidK | Ranked(hits: seq<Hit>)

  // ---------- listings ----------

  predicate InOrder(es: seq<Entry>) {
    forall i, j | 0 <= i < j < |es| :: Before(es[i], es[j])
  }

  lemma HeadIsIn(es: seq<Entry>)
    ensures es == [] || es[0] in es
  {
  }

  /** A set of entries has only one ordered listing. */
  lemma {:induction false} OrderIsUnique(es: seq<Entry>, fs: seq<Entry>)
    requires InOrder(es) && InOrder(fs) && forall e :: e in es <==> e in fs
    ensures es == fs
  {
    HeadIsIn(es);
    HeadIsIn(fs);
    if es != [] {
      assert es[0] == fs[0] by {
        BeforeIsTotalOrder(es[0], fs[0], es[0]);
      }
      NotInTail(es);
      NotInTail(fs);
      forall e ensures e in es[1..] <==> e in fs[1..] {
        assert e in es <==> e == es[0] || e in es[1..];
        assert e in fs <==> e == fs[0] || e in fs[1..];
      }
      OrderIsUnique(es[1..], fs[1..]);
    }
  }

  lemma NotInTail(es: seq<Entry>)
    requires InOrder(es) && es != []
    ensures es[0] !in es[1..]
  {
    BeforeIsTotalOrder(es[0], es[0], es[0]);
    assert forall i | 0 < i < |es| :: es[i] != es[0];
  }

  // ---------- what a ranking contributes ----------

  /** The position, from one, of the first hit with the key; 0 if there is none. */
  function FirstRank(ranking: seq<Hit>, key: Key): (r: nat)
    ensures r <= |ranking|
  {
    if ranking == [] then 0
    else
      var n := |ranking| - 1;
      var r := FirstRank(ranking[..n], key);
      if r > 0 then r else if ranking[n].key == key then |ranking| else 0
  }

  lemma {:induction false} FirstRankIsFirst(ranking: seq<Hit>, key: Key)
    ensures var r := FirstRank(ranking, key);
            if r == 0 then forall i | 0 <= i < |ranking| :: ranking[i].key != key
            else ranking[r - 1].key == key && forall i | 0 <= i < r - 1 :: ranking[i].key != key
  {
    if ranking != [] {
      FirstRankIsFirst(ranking[..|ranking| - 1], key);
    }
  }

  function Reciprocal(k: int, rank: nat): real
    requires k >= 1
  {
    if rank == 0 then 0.0 else 1.0 / (k + rank) as real
  }

  function Score(rankings: seq<seq<Hit>>, k: int, key: Key): real
    requires k >= 1
  {
    if rankings == [] then 0.0
    else
      var n := |rankings| - 1;
      Score(rankings[..n], k, key) + Reciprocal(k, FirstRank(rankings[n], key))
  }

  /** Some ranking holds the key. */
  predicate Found(rankings: seq<seq<Hit>>, key: Key) {
    exists r | r in rankings :: FirstRank(r, key) > 0
  }

  function KeysOf(hits: seq<Hit>): seq<Key> { seq(|hits|, i requires 0 <= i < |hits| => hits[i].key) }

  function EntriesOf(hits: seq<Hit>): seq<Entry> {
    seq(|hits|, i requires 0 <= i < |hits| => Entry(hits[i].score, hits[i].key))
  }

  /** What fusion promises: exactly the found keys, each once, each with its exact score, in
      the one order by descending score and then key. */
  ghost predicate IsFusion(rankings: seq<seq<Hit>>, k: int, hits: seq<Hit>)
    requires k >= 1
  {
    && InOrder(EntriesOf(hits))
    && (forall key :: key in KeysOf(hits) <==> Found(rankings, key))
    && (forall h | h in hits :: h.score == Score(rankings, k, h.key))
  }

  // ---------- the program ----------

  function Earlier(): (Entry, Entry) -> bool { (a: Entry, b: Entry) => Before(a, b) }

  /** Sorting keys one by one keeps a listing in the strict order. */
  lemma {:induction false} InsertKeepsOrder(es: seq<Entry>, e: Entry)
    requires InOrder(es) && e !in es
    ensures InOrder(Insert(Earlier(), es, e)) && forall x :: x in Insert(Earlier(), es, e) <==> x == e || x in es
  {
    forall x ensures x in Insert(Earlier(), es, e) <==> x == e || x in es {
      InsertMembers(Earlier(), es, e, x);
    }
    if es != [] {
      var n := |es| - 1;
      BeforeIsTotalOrder(e, es[n], es[n]);
      if Before(e, es[n]) {
        InsertKeepsOrder(es[..n], e);
        var r := Insert(Earlier(), es[..n], e);
        forall i | 0 <= i < |r| ensures Before(r[i], es[n]) {
          assert r[i] in r;
        }
      } else {
        assert es[n] in es;
        forall i | 0 <= i < n ensures Before(es[i], e) {
          BeforeIsTotalOrder(es[i], es[n], e);
        }
      }
    }
  }

  /** The hit that is returned for a key: its first occurrence in the first ranking that has it. */
  function FirstHit(rankings: seq<seq<Hit>>, key: Key): Hit {
    if rankings == [] then Hit(key, "", 0.0)
    else
      var n := |rankings| - 1;
      var r := FirstRank(rankings[n], key);
      if Found(rankings[..n], key) || r == 0 then FirstHit(rankings[..n], key) else rankings[n][r - 1]
  }

  lemma FoundAppend(rankings: seq<seq<Hit>>, ranking: seq<Hit>, key: Key)
    ensures Found(rankings + [ranking], key) <==> Found(rankings, key) || FirstRank(ranking, key) > 0
  {
    if Found(rankings, key) {
      var r :| r in rankings && FirstRank(r, key) > 0;
      assert r in rankings + [ranking];
    } else if FirstRank(ranking, key) > 0 {
      assert ranking in rankings + [ranking];
    }
  }

  /** The two dicts after the rankings before and the first i hits of the next one. */
  predicate Holds(before: seq<seq<Hit>>, ranking: seq<Hit>, k: int, scores: map<Key, real>, hits: map<Key, Hit>)
    requires k >= 1
  {
    && scores.Keys == hits.Keys
    && (forall key | key in scores ::
         && (Found(before, key) || FirstRank(ranking, key) > 0)
         && scores[key] == Score(before, k, key) + Reciprocal(k, FirstRank(ranking, key))
         && hits[key] == if Found(before, key) then FirstHit(before, key) else ranking[FirstRank(ranking, key) - 1])
  }

  ghost predicate Complete(before: seq<seq<Hit>>, ranking: seq<Hit>, scores: map<Key, real>) {
    forall key | Found(before, key) || FirstRank(ranking, key) > 0 :: key in scores
  }

  lemma OneMoreRank(ranking: seq<Hit>, i: nat, key: Key)
    requires i < |ranking|
    ensures FirstRank(ranking[..i + 1], key) ==
              if FirstRank(ranking[..i], key) > 0 then FirstRank(ranking[..i], key)
              else if ranking[i].key == key then i + 1 else 0
  {
    assert ranking[..i + 1][..i] == ranking[..i];
  }

  /** One more hit: a key seen in this ranking is passed over, another one gains its rank. */
  lemma OneMoreHit(before: seq<seq<Hit>>, ranking: seq<Hit>, i: nat, k: int, scores: map<Key, real>,
                   hits: map<Key, Hit>)
    requires k >= 1 && i < |ranking|
    requires Holds(before, ranking[..i], k, scores, hits) && Complete(before, ranking[..i], scores)
    ensures var key := ranking[i].key;
            var seen := FirstRank(ranking[..i], key) > 0;
            var gained := (if key in scores then scores[key] else 0.0) + Reciprocal(k, i + 1);
            var scores' := if seen then scores else scores[key := gained];
            var hits' := if seen || key in hits then hits else hits[key := ranking[i]];
            Holds(before, ranking[..i + 1], k, scores', hits') && Complete(before, ranking[..i + 1], scores')
  {
    hide Score, Found, FirstHit, FirstRank;
    var key := ranking[i].key;
    forall other ensures FirstRank(ranking[..i + 1], other) ==
                           if FirstRank(ranking[..i], other) > 0 then FirstRank(ranking[..i], other)
                           else if key == other then i + 1 else 0
    {
      OneMoreRank(ranking, i, other);
    }
    assert Reciprocal(k, 0) == 0.0;
    if key !in scores {
      NotFoundScoresZero(before, k, key);
    }
  }

  lemma {:induction false} NotFoundScoresZero(rankings: seq<seq<Hit>>, k: int, key: Key)
    requires k >= 1 && !Found(rankings, key)
    ensures Score(rankings, k, key) == 0.0
  {
    if rankings != [] {
      var n := |rankings| - 1;
      assert rankings == rankings[..n] + [rankings[n]];
      FoundAppend(rankings[..n], rankings[n], key);
      NotFoundScoresZero(rankings[..n], k, key);
    }
  }

  lemma OneMoreRanking(before: seq<seq<Hit>>, ranking: seq<Hit>, k: int, key: Key)
    requires k >= 1
    ensures Score(before + [ranking], k, key) == Score(before, k, key) + Reciprocal(k, FirstRank(ranking, key))
    ensures FirstHit(before + [ranking], key) ==
              if Found(before, key) || FirstRank(ranking, key) == 0 then FirstHit(before, key)
              else ranking[FirstRank(ranking, key) - 1]
    ensures FirstRank([], key) == 0 && Reciprocal(k, 0) == 0.0
  {
    assert (before + [ranking])[..|before|] == before;
  }

  /** A finished ranking joins the ones before. */
  lemma RankingDone(before: seq<seq<Hit>>, ranking: seq<Hit>, k: int, scores: map<Key, real>, hits: map<Key, Hit>)
    requires k >= 1
    requires Holds(before, ranking, k, scores, hits) && Complete(before, ranking, scores)
    ensures Holds(before + [ranking], [], k, scores, hits) && Complete(before + [ranking], [], scores)
  {
    hide Score, Found, FirstHit, FirstRank, Reciprocal;
    forall key
      ensures Found(before + [ranking], key) <==> Found(before, key) || FirstRank(ranking, key) > 0
      ensures Score(before + [ranking], k, key) == Score(before, k, key) + Reciprocal(k, FirstRank(ranking, key))
      ensures FirstHit(before + [ranking], key) ==
                if Found(before, key) || FirstRank(ranking, key) == 0 then FirstHit(before, key)
                else ranking[FirstRank(ranking, key) - 1]
      ensures FirstRank([], key) == 0 && Reciprocal(k, 0) == 0.0
    {
      FoundAppend(before, ranking, key);
      OneMoreRanking(before, ranking, k, key);
    }
  }

  /** sorted by descending score, then key. */
  method SortKeys(scores: map<Key, real>) returns (es: seq<Entry>)
    ensures InOrder(es)
    ensures forall e :: e in es <==> e.key in scores && e.score == scores[e.key]
  {
    es := [];
    var left := scores.Keys;
    while left != {}
      invariant left <= scores.Keys && InOrder(es)
      invariant forall e :: e in es <==> e.key in scores && e.key !in left && e.score == scores[e.key]
      decreases left
    {
      var key :| key in left;
      InsertKeepsOrder(es, Entry(scores[key], key));
      es := Insert(Earlier(), es, Entry(scores[key], key));
      left := left - {key};
    }
  }

  lemma NothingRanked(ranking: seq<Hit>)
    ensures ranking[..0] == [] && SeenIn({}, [])
  {
  }

  /** The keys already met in a ranking. */
  ghost predicate SeenIn(seen: set<Key>, ranking: seq<Hit>) {
    forall key :: key in seen <==> FirstRank(ranking, key) > 0
  }

  lemma OneMoreSeen(ranking: seq<Hit>, i: nat, seen: set<Key>)
    requires i < |ranking| && SeenIn(seen, ranking[..i])
    ensures ranking[i].key in seen <==> FirstRank(ranking[..i], ranking[i].key) > 0
    ensures SeenIn(seen + {ranking[i].key}, ranking[..i + 1])
    ensures ranking[i].key in seen ==> seen + {ranking[i].key} == seen
  {
    forall key ensures key in seen + {ranking[i].key} <==> FirstRank(ranking[..i + 1], key) > 0 {
      OneMoreRank(ranking, i, key);
    }
  }

  lemma HeldKeys(before: seq<seq<Hit>>, ranking: seq<Hit>, k: int, scores: map<Key, real>, hits: map<Key, Hit>)
    requires k >= 1 && Holds(before, ranking, k, scores, hits)
    ensures scores.Keys == hits.Keys
  {
  }

  /** The inner loop of fuse, over one ranking; before are the rankings already summed. */
  method AddRanking(ghost before: seq<seq<Hit>>, ranking: seq<Hit>, k: int,
                    scores0: map<Key, real>, hits0: map<Key, Hit>)
    returns (scores: map<Key, real>, hits: map<Key, Hit>)
    requires k >= 1 && Holds(before, [], k, scores0, hits0) && Complete(before, [], scores0)
    ensures Holds(before + [ranking], [], k, scores, hits) && Complete(before + [ranking], [], scores)
  {
    hide *;
    scores, hits := scores0, hits0;
    var seen: set<Key> := {};
    NothingRanked(ranking);
    for i := 0 to |ranking|
      invariant Holds(before, ranking[..i], k, scores, hits) && Complete(before, ranking[..i], scores)
      invariant SeenIn(seen, ranking[..i])
    {
      var hit := ranking[i];
      OneMoreHit(before, ranking, i, k, scores, hits);
      OneMoreSeen(ranking, i, seen);
      HeldKeys(before, ranking[..i], k, scores, hits);
      if hit.key !in seen {
        seen := seen + {hit.key};
        if hit.key !in hits {
          hits := hits[hit.key := hit];
        }
        scores := scores[hit.key := (if hit.key in scores then scores[hit.key] else 0.0) + Reciprocal(k, i + 1)];
      }
    }
    assert ranking[..|ranking|] == ranking;
    RankingDone(before, ranking, k, scores, hits);
  }

  /** fuse. The hit kept for a key is the first one met. */
  method Fuse(rankings: seq<seq<Hit>>, k: int) returns (r: Fused)
    ensures k < 1 <==> r.InvalidK?
    ensures r.Ranked? ==> IsFusion(rankings, k, r.hits)
    ensures r.Ranked? ==> forall h | h in r.hits :: h.text == FirstHit(rankings, h.key).text
  {
    if k < 1 {
      return InvalidK;
    }
    hide *;
    var scores: map<Key, real>, hits: map<Key, Hit> := map[], map[];
    NothingFound(rankings, k);
    for m := 0 to |rankings|
      invariant Holds(rankings[..m], [], k, scores, hits) && Complete(rankings[..m], [], scores)
    {
      scores, hits := AddRanking(rankings[..m], rankings[m], k, scores, hits);
      assert rankings[..m + 1] == rankings[..m] + [rankings[m]];
    }
    assert rankings[..|rankings|] == rankings;
    var fused := RankHits(rankings, k, scores, hits);
    return Ranked(fused);
  }

  /** The returned list: the kept hits with their scores, sorted. */
  method RankHits(ghost rankings: seq<seq<Hit>>, k: int, scores: map<Key, real>, hits: map<Key, Hit>)
    returns (fused: seq<Hit>)
    requires k >= 1 && Holds(rankings, [], k, scores, hits) && Complete(rankings, [], scores)
    ensures IsFusion(rankings, k, fused)
    ensures forall h | h in fused :: h.text == FirstHit(rankings, h.key).text
  {
    hide *;
    HeldKeys(rankings, [], k, scores, hits);
    var listing := SortKeys(scores);
    forall i | 0 <= i < |listing| ensures listing[i].key in hits {
      assert listing[i] in listing;
    }
    fused := seq(|listing|, i requires 0 <= i < |listing| && listing[i].key in hits =>
      hits[listing[i].key].(score := listing[i].score));
    FusedFromDicts(rankings, k, scores, hits, listing, fused);
  }

  lemma NothingFound(rankings: seq<seq<Hit>>, k: int)
    requires k >= 1
    ensures Holds(rankings[..0], [], k, map[], map[]) && Complete(rankings[..0], [], map[])
  {
  }

  lemma {:induction false} FusedFromDicts(rankings: seq<seq<Hit>>, k: int, scores: map<Key, real>, hits: map<Key, Hit>,
                       listing: seq<Entry>, fused: seq<Hit>)
    requires k >= 1 && Holds(rankings, [], k, scores, hits) && Complete(rankings, [], scores)
    requires InOrder(listing) && forall e :: e in listing <==> e.key in scores && e.score == scores[e.key]
    requires |fused| == |listing| && forall i | 0 <= i < |fused| ::
               listing[i].key in hits && fused[i] == hits[listing[i].key].(score := listing[i].score)
    ensures IsFusion(rankings, k, fused)
    ensures forall h | h in fused :: h.text == FirstHit(rankings, h.key).text
  {
    forall key | key in scores ensures hits[key] == FirstHit(rankings, key) && FirstHit(rankings, key).key == key {
      FirstHitHasKey(rankings, key);
    }
    forall i | 0 <= i < |fused|
      ensures fused[i].key == listing[i].key && fused[i].score == Score(rankings, k, fused[i].key)
      ensures fused[i].text == FirstHit(rankings, fused[i].key).text
    {
      assert listing[i] in listing;
    }
    assert EntriesOf(fused) == listing;
    forall key ensures key in KeysOf(fused) <==> Found(rankings, key) {
      if Found(rankings, key) {
        assert Entry(scores[key], key) in listing;
        var i :| 0 <= i < |listing| && listing[i] == Entry(scores[key], key);
        assert KeysOf(fused)[i] == key;
      }
    }
  }

  lemma {:induction false} FirstHitHasKey(rankings: seq<seq<Hit>>, key: Key)
    ensures FirstHit(rankings, key).key == key
  {
    if rankings != [] {
      FirstHitHasKey(rankings[..|rankings| - 1], key);
      FirstRankIsFirst(rankings[|rankings| - 1], key);
    }
  }

  /** The order of a fused list, in figures: descending scores, ties by ascending document id and then
      ordinal, no key twice. */
  lemma FusedOrder(rankings: seq<seq<Hit>>, k: int, hits: seq<Hit>, i: nat, j: nat)
    requires k >= 1 && IsFusion(rankings, k, hits) && i < j < |hits|
    ensures hits[i].score >= hits[j].score && hits[i].key != hits[j].key
    ensures hits[i].score == hits[j].score && hits[i].key.doc == hits[j].key.doc ==> hits[i].key.ord < hits[j].key.ord
    ensures hits[i].score == hits[j].score && hits[i].key.doc != hits[j].key.doc ==>
              TextLess(hits[i].key.doc, hits[j].key.doc)
  {
    hide TextLess;
    var a, b := EntriesOf(hits)[i], EntriesOf(hits)[j];
    BeforeExactly(a, b);
    BeforeIsTotalOrder(a, a, a);
  }

  /** The hit kept for a key is the first one met: in the first ranking that has the key, at its first
      place there. */
  lemma {:induction false} FirstHitIsFirst(rankings: seq<seq<Hit>>, key: Key) returns (m: nat, r: nat)
    requires Found(rankings, key)
    ensures m < |rankings| && r < |rankings[m]| && rankings[m][r] == FirstHit(rankings, key)
    ensures rankings[m][r].key == key && forall i | 0 <= i < r :: rankings[m][i].key != key
    ensures forall n, i | 0 <= n < m && 0 <= i < |rankings[n]| :: rankings[n][i].key != key
  {
    var n := |rankings| - 1;
    assert rankings == rankings[..n] + [rankings[n]];
    FoundAppend(rankings[..n], rankings[n], key);
    if Found(rankings[..n], key) {
      m, r := FirstHitIsFirst(rankings[..n], key);
    } else {
      FirstRankIsFirst(rankings[n], key);
      m, r := n, FirstRank(rankings[n], key) - 1;
      forall q | 0 <= q < n ensures FirstRank(rankings[q], key) == 0 {
        assert rankings[..n][q] in rankings[..n];
      }
      forall q, i | 0 <= q < n && 0 <= i < |rankings[q]| ensures rankings[q][i].key != key {
        FirstRankIsFirst(rankings[q], key);
      }
    }
  }

  /** The score is the sum of the reciprocals of k plus the first rank, over the rankings that have
      the key. */
  lemma ScoreInFigures(rankings: seq<seq<Hit>>, ranking: seq<Hit>, k: int, key: Key)
    requires k >= 1
    ensures Score([], k, key) == 0.0
    ensures Score(rankings + [ranking], k, key) ==
              Score(rankings, k, key) + if FirstRank(ranking, key) == 0 then 0.0
                                        else 1.0 / (k + FirstRank(ranking, key)) as real
  {
    assert (rankings + [ranking])[..|rankings|] == rankings;
  }

  // ---------- what the promise determines ----------

  /** Two listings that keep the promise for rankings that score every key alike are the same
      list of keys and scores. */
  lemma SameEntries(rs: seq<seq<Hit>>, qs: seq<seq<Hit>>, k: int, hs: seq<Hit>, gs: seq<Hit>)
    requires k >= 1 && IsFusion(rs, k, hs) && IsFusion(qs, k, gs)
    requires forall key :: Score(rs, k, key) == Score(qs, k, key)
    requires forall key :: Found(rs, key) <==> Found(qs, key)
    ensures EntriesOf(hs) == EntriesOf(gs)
  {
    forall e ensures e in EntriesOf(hs) <==> e in EntriesOf(gs) {
      EntryOf(rs, k, hs, e);
      EntryOf(qs, k, gs, e);
    }
    OrderIsUnique(EntriesOf(hs), EntriesOf(gs));
  }

  lemma EntryOf(rankings: seq<seq<Hit>>, k: int, hits: seq<Hit>, e: Entry)
    requires k >= 1 && IsFusion(rankings, k, hits)
    ensures e in EntriesOf(hits) <==> Found(rankings, e.key) && e.score == Score(rankings, k, e.key)
  {
    if e in EntriesOf(hits) {
      var i :| 0 <= i < |hits| && EntriesOf(hits)[i] == e;
      assert KeysOf(hits)[i] == e.key && hits[i] in hits;
    } else if Found(rankings, e.key) {
      assert e.key in KeysOf(hits);
      var i :| 0 <= i < |hits| && KeysOf(hits)[i] == e.key;
      assert hits[i] in hits && EntriesOf(hits)[i] in EntriesOf(hits);
    }
  }

  lemma {:induction false} ScoreWithout(rankings: seq<seq<Hit>>, k: int, key: Key, i: nat)
    requires k >= 1 && i < |rankings|
    ensures Score(rankings, k, key) ==
              Score(rankings[..i] + rankings[i + 1..], k, key) + Reciprocal(k, FirstRank(rankings[i], key))
  {
    var n := |rankings| - 1;
    if i == n {
      assert rankings[..i] + rankings[i + 1..] == rankings[..n];
    } else {
      ScoreWithout(rankings[..n], k, key, i);
      var rest := rankings[..i] + rankings[i + 1..];
      assert rest[..n - 1] == rankings[..n][..i] + rankings[..n][i + 1..] && rest[n - 1] == rankings[n];
    }
  }

  /** A score does not depend on the order in which the rankings are given. */
  lemma {:induction false} ScoreIgnoresOrder(rs: seq<seq<Hit>>, qs: seq<seq<Hit>>, k: int, key: Key)
    requires k >= 1 && multiset(rs) == multiset(qs)
    ensures Score(rs, k, key) == Score(qs, k, key)
  {
    if rs == [] {
      assert |multiset(rs)| == |multiset(qs)|;
      assert qs == [];
    } else {
      var n := |rs| - 1;
      assert rs == rs[..n] + [rs[n]];
      assert rs[n] in multiset(qs);
      var i :| 0 <= i < |qs| && qs[i] == rs[n];
      assert qs == qs[..i] + [qs[i]] + qs[i + 1..];
      assert multiset(rs) == multiset(rs[..n]) + multiset{rs[n]};
      assert multiset(qs) == multiset(qs[..i]) + multiset{qs[i]} + multiset(qs[i + 1..]);
      assert multiset(rs[..n]) == multiset(rs) - multiset{rs[n]};
      assert multiset(qs[..i] + qs[i + 1..]) == multiset(qs) - multiset{qs[i]};
      ScoreIgnoresOrder(rs[..n], qs[..i] + qs[i + 1..], k, key);
      ScoreWithout(qs, k, key, i);
    }
  }

  /** Fusing the same rankings in another order gives the same keys and scores in the same order. */
  lemma FusionIgnoresOrder(rs: seq<seq<Hit>>, qs: seq<seq<Hit>>, k: int, hs: seq<Hit>, gs: seq<Hit>)
    requires k >= 1 && multiset(rs) == multiset(qs) && IsFusion(rs, k, hs) && IsFusion(qs, k, gs)
    ensures EntriesOf(hs) == EntriesOf(gs)
  {
    forall key ensures Score(rs, k, key) == Score(qs, k, key) {
      ScoreIgnoresOrder(rs, qs, k, key);
    }
    assert forall r :: r in rs <==> r in multiset(rs);
    assert forall r :: r in qs <==> r in multiset(qs);
    SameEntries(rs, qs, k, hs, gs);
  }

  // ---------- agreement of two rankings ----------

  lemma ReciprocalFalls(k: int, a: nat, b: nat)
    requires k >= 1 && 1 <= a <= b
    ensures 0.0 < Reciprocal(k, b) <= Reciprocal(k, a)
  {
    var x, y := (k + a) as real, (k + b) as real;
    assert 1.0 / x * x == 1.0 && 1.0 / y * y == 1.0;
    assert 1.0 / y <= 1.0 / x by {
      assert 1.0 / x - 1.0 / y == (y - x) / (x * y);
    }
  }

  /** Twice the lowest reciprocal beats the highest exactly when k + 2 > cap. */
  lemma TwiceLowestAgainstHighest(k: int, cap: nat)
    requires k >= 1 && cap >= 1
    ensures Reciprocal(k, cap) + Reciprocal(k, cap) > Reciprocal(k, 1) <==> k + 2 > cap
  {
    var x, y := (k + 1) as real, (k + cap) as real;
    assert 2.0 / y - 1.0 / x == (2.0 * x - y) / (x * y);
    assert x * y > 0.0;
    var gap := 2.0 * x - y;
    assert gap / (x * y) > 0.0 <==> gap > 0.0;
    assert Reciprocal(k, cap) + Reciprocal(k, cap) == 2.0 / y;
  }

  predicate InBoth(a: seq<Hit>, b: seq<Hit>, key: Key) { FirstRank(a, key) > 0 && FirstRank(b, key) > 0 }

  predicate InOne(a: seq<Hit>, b: seq<Hit>, key: Key) {
    (FirstRank(a, key) > 0) != (FirstRank(b, key) > 0)
  }

  function Fusing(a: seq<Hit>, b: seq<Hit>, k: int, key: Key): Entry
    requires k >= 1
  {
    Entry(Score([a, b], k, key), key)
  }

  /** What both rankings found comes before what one of them found. */
  ghost predicate AgreementWins(k: int, cap: nat)
    requires k >= 1
  {
    forall a, b, x, y | |a| <= cap && |b| <= cap && InBoth(a, b, x) && InOne(a, b, y) ::
      Before(Fusing(a, b, k, x), Fusing(a, b, k, y))
  }

  /** No chunk occurs twice, as in the rankings that the two searches return. */
  predicate Distinct(ranking: seq<Hit>) {
    forall i, j | 0 <= i < j < |ranking| :: ranking[i].key != ranking[j].key
  }

  /** The same among rankings without duplicates. */
  ghost predicate AgreementWinsAmongDistinct(k: int, cap: nat)
    requires k >= 1
  {
    forall a, b, x, y | |a| <= cap && |b| <= cap && Distinct(a) && Distinct(b) && InBoth(a, b, x) && InOne(a, b, y) ::
      Before(Fusing(a, b, k, x), Fusing(a, b, k, y))
  }

  lemma PairScore(a: seq<Hit>, b: seq<Hit>, k: int, key: Key)
    requires k >= 1
    ensures Score([a, b], k, key) == Reciprocal(k, FirstRank(a, key)) + Reciprocal(k, FirstRank(b, key))
  {
    assert [a, b][..1] == [a] && [a][..0] == [];
    assert Score([a], k, key) == Reciprocal(k, FirstRank(a, key));
  }

  lemma AgreementOutscores(k: int, cap: nat, a: seq<Hit>, b: seq<Hit>, x: Key, y: Key)
    requires k >= 1 && k + 2 > cap && |a| <= cap && |b| <= cap && InBoth(a, b, x) && InOne(a, b, y)
    ensures Before(Fusing(a, b, k, x), Fusing(a, b, k, y))
  {
    PairScore(a, b, k, x);
    PairScore(a, b, k, y);
    ReciprocalFalls(k, FirstRank(a, x), cap);
    ReciprocalFalls(k, FirstRank(b, x), cap);
    ReciprocalFalls(k, 1, FirstRank(a, y) + FirstRank(b, y));
    TwiceLowestAgainstHighest(k, cap);
  }

  /** For rankings of depth at most cap, agreement wins if and only if k + 2 > cap; it makes no
      difference whether rankings may repeat a chunk. */
  lemma {:induction false} AgreementWinsExactlyWhen(k: int, cap: nat)
    requires k >= 1
    ensures AgreementWins(k, cap) <==> k + 2 > cap
    ensures AgreementWinsAmongDistinct(k, cap) <==> k + 2 > cap
  {
    hide Before, InBoth, InOne, Fusing;
    if k + 2 > cap {
      forall a, b, x, y | |a| <= cap && |b| <= cap && InBoth(a, b, x) && InOne(a, b, y)
        ensures Before(Fusing(a, b, k, x), Fusing(a, b, k, y))
      {
        AgreementOutscores(k, cap, a, b, x, y);
      }
    } else {
      var a, b, x, y := AgreementCanLose(k, cap);
    }
  }

  /** Otherwise: x in the last place of both rankings loses to y in the first place of one. */
  lemma AgreementCanLose(k: int, cap: nat) returns (a: seq<Hit>, b: seq<Hit>, x: Key, y: Key)
    requires k >= 1 && k + 2 <= cap
    ensures |a| == |b| == cap && Distinct(a) && Distinct(b) && InBoth(a, b, x) && InOne(a, b, y)
    ensures !Before(Fusing(a, b, k, x), Fusing(a, b, k, y))
  {
    hide Before;
    x, y := Key("1", 0), Key("0", 0);
    a, b := Between(y, x, cap), Between(Key("2", 0), x, cap);
    BetweenRanks(y, x, cap, y);
    BetweenRanks(y, x, cap, x);
    BetweenRanks(Key("2", 0), x, cap, x);
    BetweenRanks(Key("2", 0), x, cap, y);
    PairScore(a, b, k, x);
    PairScore(a, b, k, y);
    TwiceLowestAgainstHighest(k, cap);
    YBeforeX(Fusing(a, b, k, x), Fusing(a, b, k, y));
  }

  lemma YBeforeX(x: Entry, y: Entry)
    requires x.key == Key("1", 0) && y.key == Key("0", 0) && y.score >= x.score
    ensures !Before(x, y)
  {
    assert TextLess("0", "1");
    BeforeIsTotalOrder(x, y, x);
  }

  /** One key in the first place, another one in the last, and different ones between them. */
  function Between(first: Key, last: Key, n: nat): (r: seq<Hit>)
    ensures |r| == n
  {
    seq(n, i => Hit(if i + 1 == n then last else if i == 0 then first else Key("2", i), "", 0.0))
  }

  lemma BetweenRanks(first: Key, last: Key, n: nat, key: Key)
    requires n >= 2 && first.ord == 0 && last == Key("1", 0) && first != last && key.doc != "2"
    ensures Distinct(Between(first, last, n))
    ensures FirstRank(Between(first, last, n), key) == if key == first then 1 else if key == last then n else 0
  {
    var r := Between(first, last, n);
    FirstRankIsFirst(r, key);
    assert r[0].key == first && r[n - 1].key == last;
    var rank := FirstRank(r, key);
    assert rank > 0 ==> r[rank - 1].key == key;
  }

  /** With the defaults, k = 60 and depth at most 20, what both rankings found comes first. */
  lemma {:induction false} DefaultsPreferAgreement()
    ensures AgreementWins(60, 20)
  {
    AgreementWinsExactlyWhen(60, 20);
  }
}
