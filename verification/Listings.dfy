/** What the repository's reads over many documents return: exactly the best of the tenant's own
    passages, although the text search takes its bound from the whole store. */
module Listings {
  import opened Common
  import opened Order
  import opened Repository

  lemma BetterIsWeak()
    ensures Weak(Better())
  {
    forall a, b, c
      ensures Better()(a, b) ==> !Better()(b, a)
      ensures Better()(a, c) ==> Better()(a, b) || Better()(b, c)
    {
      var x, y := Entry(a.score, Key(a.doc, a.passage.ord)), Entry(b.score, Key(b.doc, b.passage.ord));
      BeforeIsTotalOrder(x, y, x);
      BeforeIsTotalOrder(y, x, Entry(c.score, Key(c.doc, c.passage.ord)));
    }
  }

  lemma NewerIsWeak()
    ensures Weak(Newer())
  {
    forall a, b, c
      ensures Newer()(a, b) ==> !Newer()(b, a)
      ensures Newer()(a, c) ==> Newer()(a, b) || Newer()(b, c)
    {
      TextOrder(a.id, b.id, a.id);
      TextOrder(b.id, a.id, c.id);
    }
  }

  /** The scope names the document, or no documents at all; and the language, or none at all. */
  predicate Admits(scope: Scope, doc: string, p: Passage) {
    && (scope.ids == None || doc in scope.ids.value)
    && (scope.language == None || scope.language == Some(p.language))
  }

  lemma InScopeAdmits(scope: Scope, doc: string, p: Passage)
    ensures InScope(scope, doc, p) <==> Admits(scope, doc, p)
  {
  }

  /** The hit is a passage in scope of one of the tenant's documents, with its similarity. */
  predicate IsHit(sc: Scoring, docs: seq<Document>, tenant: string, vector: Vector, scope: Scope, h: Hit) {
    exists d | d in docs :: d.tenant == tenant && OfDocument(sc, d.id, d.chunks, vector, scope, h)
  }

  predicate OfDocument(sc: Scoring, doc: string, chunks: seq<Passage>, vector: Vector, scope: Scope, h: Hit) {
    && h.doc == doc && h.passage in chunks && Admits(scope, doc, h.passage)
    && h.score == sc.cosine(vector, h.passage.embedding)
  }

  lemma {:induction false} PassageHitsAre(sc: Scoring, doc: string, chunks: seq<Passage>, vector: Vector, scope: Scope,
                                          h: Hit)
    ensures h in PassageHits(sc, doc, chunks, vector, scope) <==> OfDocument(sc, doc, chunks, vector, scope, h)
  {
    hide InScope, Admits;
    if chunks != [] {
      InScopeAdmits(scope, doc, chunks[0]);
      PassageHitsAre(sc, doc, chunks[1..], vector, scope, h);
      assert h.passage in chunks <==> h.passage == chunks[0] || h.passage in chunks[1..];
    }
  }

  lemma {:induction false} HitsAre(sc: Scoring, docs: seq<Document>, tenant: string, vector: Vector, scope: Scope,
                                   h: Hit)
    ensures h in HitsIn(sc, docs, tenant, vector, scope) <==> IsHit(sc, docs, tenant, vector, scope, h)
  {
    hide OfDocument, PassageHits;
    if docs != [] {
      HitsAre(sc, docs[1..], tenant, vector, scope, h);
      PassageHitsAre(sc, docs[0].id, docs[0].chunks, vector, scope, h);
      assert forall d :: d in docs <==> d == docs[0] || d in docs[1..];
    }
  }

  /** Descending scores, ties by ascending document id and then ordinal. */
  predicate BestFirst(hits: seq<Hit>) {
    forall i, j | 0 <= i < j < |hits| ::
      || hits[i].score > hits[j].score
      || (hits[i].score == hits[j].score && hits[i].doc != hits[j].doc && TextLess(hits[i].doc, hits[j].doc))
      || (hits[i].score == hits[j].score && hits[i].doc == hits[j].doc && hits[i].passage.ord <= hits[j].passage.ord)
  }

  lemma SortedIsBestFirst(hits: seq<Hit>)
    requires Sorted(Better(), hits)
    ensures BestFirst(hits)
  {
    hide TextLess;
    forall i, j | 0 <= i < j < |hits|
      ensures || hits[i].score > hits[j].score
              || (hits[i].score == hits[j].score && hits[i].doc != hits[j].doc && TextLess(hits[i].doc, hits[j].doc))
              || (hits[i].score == hits[j].score && hits[i].doc == hits[j].doc
                  && hits[i].passage.ord <= hits[j].passage.ord)
    {
      var a := Entry(hits[j].score, Key(hits[j].doc, hits[j].passage.ord));
      var b := Entry(hits[i].score, Key(hits[i].doc, hits[i].passage.ord));
      assert !Better()(hits[j], hits[i]);
      BeforeExactly(a, b);
      BeforeIsTotalOrder(a, b, a);
      BeforeExactly(b, a);
      TextOrder(hits[i].doc, hits[j].doc, hits[i].doc);
    }
  }

  lemma TakesBest(hits: seq<Hit>, k: nat, h: Hit)
    ensures var best := Take(Sort(Better(), hits), k);
            && Sorted(Better(), best) && |best| == (if |hits| <= k then |hits| else k)
            && (h in best ==> h in hits)
            && (h in hits ==> h in best || forall b | b in best :: !Better()(h, b))
  {
    hide Sort, Better;
    BetterIsWeak();
    SortSorts(Better(), hits);
    SortMembers(Better(), hits, h);
    var all := Sort(Better(), hits);
    var best := Take(all, k);
    if h in hits {
      var i :| 0 <= i < |all| && all[i] == h;
      if i < |best| {
        assert best[i] == h;
      } else {
        forall b | b in best ensures !Better()(h, b) {
          var j :| 0 <= j < |best| && best[j] == b;
          assert all[j] == b;
        }
      }
    }
  }

  /** The k nearest passages: best first, as many as there are up to k, each a hit of the tenant,
      and no hit that was left out is better than one that was returned. */
  lemma NearestAreBest(sc: Scoring, docs: seq<Document>, tenant: string, vector: Vector, k: int, scope: Scope, h: Hit)
    requires ValidVector(sc, vector) && k >= 1
    ensures var r := NearestOf(sc, docs, tenant, vector, k, scope);
            && r.Hits? && BestFirst(r.hits)
            && |r.hits| == (if |HitsIn(sc, docs, tenant, vector, scope)| <= k
                            then |HitsIn(sc, docs, tenant, vector, scope)| else k)
            && (h in r.hits ==> IsHit(sc, docs, tenant, vector, scope, h))
            && (IsHit(sc, docs, tenant, vector, scope, h) ==>
                  h in r.hits || forall b | b in r.hits :: !Better()(h, b))
  {
    hide ValidVector, HitsIn, IsHit, Sort, Better, Take, Sorted, BestFirst;
    HitsAre(sc, docs, tenant, vector, scope, h);
    TakesBest(HitsIn(sc, docs, tenant, vector, scope), k, h);
    SortedIsBestFirst(NearestOf(sc, docs, tenant, vector, k, scope).hits);
  }

  lemma {:induction false} PassageHitsAtMost(sc: Scoring, doc: string, chunks: seq<Passage>, vector: Vector,
                                             scope: Scope)
    ensures |PassageHits(sc, doc, chunks, vector, scope)| <= |chunks|
  {
    if chunks != [] {
      PassageHitsAtMost(sc, doc, chunks[1..], vector, scope);
    }
  }

  lemma {:induction false} HitsAtMost(sc: Scoring, docs: seq<Document>, tenant: string, vector: Vector, scope: Scope)
    ensures |HitsIn(sc, docs, tenant, vector, scope)| <= TotalPassages(docs)
  {
    if docs != [] {
      HitsAtMost(sc, docs[1..], tenant, vector, scope);
      PassageHitsAtMost(sc, docs[0].id, docs[0].chunks, vector, scope);
    }
  }

  /** The bound on the candidates, which counts the passages of all tenants, never cuts off a hit
      of the tenant. */
  lemma BoundNeverCuts(sc: Scoring, docs: seq<Document>, tenant: string, query: string, k: int, scope: Scope)
    requires k >= 1 && ValidVector(sc, Axis(sc.dimension))
    ensures var all := Sort(Better(), HitsIn(sc, docs, tenant, Axis(sc.dimension), scope));
            && NearestOf(sc, docs, tenant, Axis(sc.dimension), Larger(k, TotalPassages(docs)), scope) == Hits(all)
            && SearchOf(sc, docs, tenant, query, k, scope) == Hits(Take(Sort(Better(), Scored(sc, query, all)), k))
  {
    hide ValidVector, HitsIn, TotalPassages, Sort, Axis, Scored;
    HitsAtMost(sc, docs, tenant, Axis(sc.dimension), scope);
  }

  lemma AxisIsValid(sc: Scoring)
    ensures ValidVector(sc, Axis(sc.dimension)) <==> sc.dimension >= 1
  {
    assert Axis(sc.dimension)[0] != 0.0;
  }

  lemma {:induction false} ScoredAre(sc: Scoring, query: string, hits: seq<Hit>, h: Hit)
    ensures h in Scored(sc, query, hits) <==>
              && h.score == sc.textScore(query, h.passage.text) > 0.0
              && exists c | c in hits :: c.(score := h.score) == h
  {
    if hits != [] {
      ScoredAre(sc, query, hits[1..], h);
      assert forall c :: c in hits <==> c == hits[0] || c in hits[1..];
    }
  }

  /** The passage is in scope and its text scores. */
  predicate IsTextHit(sc: Scoring, docs: seq<Document>, tenant: string, query: string, scope: Scope, h: Hit) {
    && h.score == sc.textScore(query, h.passage.text) > 0.0
    && exists d | d in docs ::
         d.tenant == tenant && h.doc == d.id && h.passage in d.chunks && Admits(scope, d.id, h.passage)
  }

  lemma CandidatesAre(sc: Scoring, docs: seq<Document>, tenant: string, query: string, scope: Scope, h: Hit)
    ensures var all := Sort(Better(), HitsIn(sc, docs, tenant, Axis(sc.dimension), scope));
            h in Scored(sc, query, all) <==> IsTextHit(sc, docs, tenant, query, scope, h)
  {
    hide Sort, HitsIn, Axis, Better, Admits, Scored;
    var axis := Axis(sc.dimension);
    var all := Sort(Better(), HitsIn(sc, docs, tenant, axis, scope));
    ScoredAre(sc, query, all, h);
    var c := h.(score := sc.cosine(axis, h.passage.embedding));
    SortMembers(Better(), HitsIn(sc, docs, tenant, axis, scope), c);
    HitsAre(sc, docs, tenant, axis, scope, c);
    if c in all {
      assert c.(score := h.score) == h;
    }
    forall x | x in all && x.(score := h.score) == h ensures x == c {
      SortMembers(Better(), HitsIn(sc, docs, tenant, axis, scope), x);
      HitsAre(sc, docs, tenant, axis, scope, x);
    }
  }

  /** The text search: the best k of exactly the tenant's passages in scope whose text scores. */
  lemma SearchFindsBest(sc: Scoring, docs: seq<Document>, tenant: string, query: string, k: int, scope: Scope, h: Hit)
    requires sc.dimension >= 1 && k >= 1
    ensures var r := SearchOf(sc, docs, tenant, query, k, scope);
            && r.Hits? && BestFirst(r.hits) && |r.hits| <= k
            && (h in r.hits ==> IsTextHit(sc, docs, tenant, query, scope, h))
            && (IsTextHit(sc, docs, tenant, query, scope, h) ==>
                  h in r.hits || (|r.hits| == k && forall b | b in r.hits :: !Better()(h, b)))
  {
    hide HitsIn, IsTextHit, Sort, Better, Take, Sorted, Scored, SearchOf, NearestOf, ValidVector, Axis, BestFirst;
    AxisIsValid(sc);
    BoundNeverCuts(sc, docs, tenant, query, k, scope);
    var all := Sort(Better(), HitsIn(sc, docs, tenant, Axis(sc.dimension), scope));
    CandidatesAre(sc, docs, tenant, query, scope, h);
    TakesBest(Scored(sc, query, all), k, h);
    TakesAll(Scored(sc, query, all), k, h);
    SortedIsBestFirst(Take(Sort(Better(), Scored(sc, query, all)), k));
  }

  lemma TakesAll(hits: seq<Hit>, k: nat, h: Hit)
    ensures |hits| <= k && h in hits ==> h in Take(Sort(Better(), hits), k)
  {
    hide Sort;
    SortMembers(Better(), hits, h);
  }

  /** Latest creation first, ties by ascending id. */
  predicate NewestFirst(docs: seq<Document>) {
    forall i, j | 0 <= i < j < |docs| ::
      || docs[i].created > docs[j].created
      || (docs[i].created == docs[j].created && (docs[i].id == docs[j].id || TextLess(docs[i].id, docs[j].id)))
  }

  /** The listing: the tenant's documents, each as often as it is stored, newest first. */
  lemma ListingIsComplete(docs: seq<Document>, tenant: string)
    ensures var all := Sort(Newer(), Mine(docs, tenant));
            && NewestFirst(all) && multiset(all) == multiset(Mine(docs, tenant))
            && forall d :: d in Mine(docs, tenant) <==> d in docs && d.tenant == tenant
  {
    NewerIsWeak();
    SortSorts(Newer(), Mine(docs, tenant));
    MineAre(docs, tenant);
    var all := Sort(Newer(), Mine(docs, tenant));
    forall i, j | 0 <= i < j < |all|
      ensures || all[i].created > all[j].created
              || (all[i].created == all[j].created && (all[i].id == all[j].id || TextLess(all[i].id, all[j].id)))
    {
      assert !Newer()(all[j], all[i]);
      TextOrder(all[i].id, all[j].id, all[i].id);
    }
  }

  lemma {:induction false} MineAre(docs: seq<Document>, tenant: string)
    ensures forall d :: d in Mine(docs, tenant) <==> d in docs && d.tenant == tenant
  {
    if docs != [] {
      MineAre(docs[1..], tenant);
      assert forall d :: d in docs <==> d == docs[0] || d in docs[1..];
    }
  }

  /** A page holds the entries from its offset on, up to its limit. */
  lemma PageHolds<T>(s: seq<T>, offset: nat, limit: nat)
    ensures |Slice(s, offset, limit)|
         == if offset >= |s| then 0 else if |s| - offset <= limit then |s| - offset else limit
    ensures forall i | 0 <= i < |Slice(s, offset, limit)| :: Slice(s, offset, limit)[i] == s[offset + i]
  {
  }

  /** What follows a page starts where it ends. */
  lemma PagesJoin<T>(s: seq<T>, offset: nat, limit: nat, more: nat)
    ensures Slice(s, offset, limit) + Slice(s, offset + limit, more) == Slice(s, offset, limit + more)
  {
    PageHolds(s, offset, limit);
    PageHolds(s, offset + limit, more);
    PageHolds(s, offset, limit + more);
    hide Slice;
    var first, rest, whole := Slice(s, offset, limit), Slice(s, offset + limit, more), Slice(s, offset, limit + more);
    assert |first + rest| == |whole|;
    forall i | 0 <= i < |whole| ensures (first + rest)[i] == whole[i] {
      if i < |first| {
        assert (first + rest)[i] == first[i] == s[offset + i];
      } else {
        assert (first + rest)[i] == rest[i - |first|] == s[offset + i];
      }
    }
  }
}
