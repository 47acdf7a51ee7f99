/** The document repository: documents keyed by tenant, registration with its event, and the reads. */
module Repository {
  import opened Common
  import opened Order

  type Vector = seq<real>

  datatype Passage = Passage(ord: int, language: string, text: string, embedding: Vector)

  /** output stands for the rest of what an index run derives: metadata and entities. Times are
      in microseconds. */
  datatype Document = Document(
    tenant: string, id: string, filename: string, sha256: string, mediaType: string,
    size: Option<nat>, objectKey: Option<string>, status: Status, error: Option<string>,
    created: int, processed: Option<int>, chunks: seq<Passage>, output: string)

  datatype Event = Event(tenant: string, id: string, sha256: string)

  /** Documents in insertion order, as the dict keeps them, and the events. */
  datatype Store = Store(docs: seq<Document>, events: seq<Event>)

  const EMPTY := Store([], [])

  datatype Hit = Hit(doc: string, passage: Passage, score: real)

  /** What the caller narrows a search to. */
  datatype Scope = Scope(ids: Option<set<string>>, language: Option<string>)

  datatype Answer =
    | Stored(doc: Document)
    | Done
    | NotFound
    | Invalid
    | Names(names: seq<(string, string)>)
    | Documents(docs: seq<Document>)
    | Hits(hits: seq<Hit>)

  datatype Op =
    | Register(tenant: string, filename: string, sha256: string, mediaType: string, size: nat,
               objectKey: string, id: string, now: int)
    | MarkStatus(tenant: string, id: string, status: Status, error: Option<string>)
    | Upsert(tenant: string, filename: string, sha256: string, mediaType: string, chunks: seq<Passage>,
             output: string, prepared: bool, id: string, now: int)
    | Replace(tenant: string, id: string, chunks: seq<Passage>, output: string)
    | Get(tenant: string, id: string)
    | FindDigest(tenant: string, sha256: string)
    | DocumentNames(tenant: string)
    | List(tenant: string, limit: int, offset: int)
    | Nearest(tenant: string, vector: Vector, k: int, scope: Scope)
    | SearchText(tenant: string, query: string, k: int, scope: Scope)

  /** The dimension of the index and the two ways of scoring a passage, which are arbitrary. */
  datatype Scoring = Scoring(dimension: nat, cosine: (Vector, Vector) -> real, textScore: (string, string) -> real)

  /** A nonzero vector of the right dimension. */
  predicate ValidVector(sc: Scoring, v: Vector) {
    |v| == sc.dimension && exists i | 0 <= i < |v| :: v[i] != 0.0
  }

  predicate ValidChunks(sc: Scoring, chunks: seq<Passage>) {
    forall p | p in chunks :: ValidVector(sc, p.embedding)
  }

  // ---------- lookup and update of one tenant's documents ----------

  /** The first document of the tenant that satisfies p. */
  function Find(docs: seq<Document>, tenant: string, p: Document -> bool): Option<Document> {
    if docs == [] then None
    else if docs[0].tenant == tenant && p(docs[0]) then Some(docs[0])
    else Find(docs[1..], tenant, p)
  }

  /** Change that document, and no other. */
  function Change(docs: seq<Document>, tenant: string, p: Document -> bool, f: Document -> Document): seq<Document> {
    if docs == [] then []
    else if docs[0].tenant == tenant && p(docs[0]) then [f(docs[0])] + docs[1..]
    else [docs[0]] + Change(docs[1..], tenant, p, f)
  }

  /** i is the position of that document, or the length of the list if there is none. */
  predicate First(docs: seq<Document>, tenant: string, p: Document -> bool, i: nat) {
    && i <= |docs| && (forall j | 0 <= j < i :: !(docs[j].tenant == tenant && p(docs[j])))
    && (i < |docs| ==> docs[i].tenant == tenant && p(docs[i]))
  }

  lemma {:induction false} ChangesFirst(docs: seq<Document>, tenant: string, p: Document -> bool,
                                        f: Document -> Document, i: nat)
    requires First(docs, tenant, p, i)
    ensures Change(docs, tenant, p, f) == if i < |docs| then docs[i := f(docs[i])] else docs
  {
    if i > 0 {
      ChangesFirst(docs[1..], tenant, p, f, i - 1);
    }
  }

  function HasDigest(sha256: string): Document -> bool { (d: Document) => d.sha256 == sha256 }

  function HasId(id: string): Document -> bool { (d: Document) => d.id == id }

  function Marking(status: Status, error: Option<string>): Document -> Document {
    (d: Document) => d.(status := status, error := if status.Failed? then error else None)
  }

  function Filling(chunks: seq<Passage>, output: string): Document -> Document {
    (d: Document) => d.(chunks := chunks, output := output)
  }

  /** The upserted record takes identity, creation time, size and object key from the one before
      it, and its processing time moves strictly forward. */
  function Upserted(op: Op): Document -> Document
    requires op.Upsert?
  {
    (d: Document) =>
      var before := (if d.processed.Some? then d.processed.value else d.created) + 1;
      Document(d.tenant, d.id, op.filename, d.sha256, op.mediaType, d.size, d.objectKey, Processed, None,
               d.created, Some(if op.now >= before then op.now else before), op.chunks, op.output)
  }

  function AnswerOf(d: Option<Document>): Answer { if d.Some? then Stored(d.value) else NotFound }

  // ---------- reads over many documents ----------

  /** The tenant's documents, in order. */
  function Mine(docs: seq<Document>, tenant: string): seq<Document> {
    if docs == [] then []
    else if docs[0].tenant == tenant then [docs[0]] + Mine(docs[1..], tenant)
    else Mine(docs[1..], tenant)
  }

  function NamesOf(docs: seq<Document>): seq<(string, string)> {
    seq(|docs|, i requires 0 <= i < |docs| => (docs[i].id, docs[i].filename))
  }

  /** Newest first, ties by id. */
  function Newer(): (Document, Document) -> bool {
    (a: Document, b: Document) => a.created > b.created || (a.created == b.created && TextLess(a.id, b.id))
  }

  function Slice<T>(s: seq<T>, offset: nat, limit: nat): seq<T> {
    if offset >= |s| then [] else Take(s[offset..], limit)
  }

  function Take<T>(s: seq<T>, k: nat): seq<T> { if |s| <= k then s else s[..k] }

  predicate InScope(scope: Scope, doc: string, p: Passage) {
    && (scope.ids.Some? ==> doc in scope.ids.value)
    && (scope.language.Some? ==> p.language == scope.language.value)
  }

  /** The hits of one document. */
  function PassageHits(sc: Scoring, doc: string, chunks: seq<Passage>, vector: Vector, scope: Scope): seq<Hit> {
    if chunks == [] then []
    else
      var rest := PassageHits(sc, doc, chunks[1..], vector, scope);
      if InScope(scope, doc, chunks[0])
      then [Hit(doc, chunks[0], sc.cosine(vector, chunks[0].embedding))] + rest
      else rest
  }

  /** The hits of a tenant's documents, in the order of the store. */
  function HitsIn(sc: Scoring, docs: seq<Document>, tenant: string, vector: Vector, scope: Scope): seq<Hit> {
    if docs == [] then []
    else
      var rest := HitsIn(sc, docs[1..], tenant, vector, scope);
      if docs[0].tenant == tenant then PassageHits(sc, docs[0].id, docs[0].chunks, vector, scope) + rest else rest
  }

  /** Best first: by descending score, then document and ordinal. */
  function Better(): (Hit, Hit) -> bool {
    (a: Hit, b: Hit) => Before(Entry(a.score, Key(a.doc, a.passage.ord)), Entry(b.score, Key(b.doc, b.passage.ord)))
  }

  function NearestOf(sc: Scoring, docs: seq<Document>, tenant: string, vector: Vector, k: int, scope: Scope)
    : (a: Answer)
    ensures a.Invalid? || a.Hits?
  {
    if !ValidVector(sc, vector) || k < 1 then Invalid
    else Hits(Take(Sort(Better(), HitsIn(sc, docs, tenant, vector, scope)), k))
  }

  /** How many passages the whole store holds, of all tenants. */
  function TotalPassages(docs: seq<Document>): nat {
    if docs == [] then 0 else |docs[0].chunks| + TotalPassages(docs[1..])
  }

  /** The vector with which the text search asks for all passages. */
  function Axis(dimension: nat): Vector {
    [1.0] + seq(if dimension >= 1 then dimension - 1 else 0, _ => 0.0)
  }

  /** The hits whose text scores, with that score. */
  function Scored(sc: Scoring, query: string, hits: seq<Hit>): seq<Hit> {
    if hits == [] then []
    else
      var rest, score := Scored(sc, query, hits[1..]), sc.textScore(query, hits[0].passage.text);
      if score > 0.0 then [hits[0].(score := score)] + rest else rest
  }

  function Larger(a: int, b: nat): int { if a >= b then a else b }

  /** The candidates are bounded by the size of the whole store. */
  function SearchOf(sc: Scoring, docs: seq<Document>, tenant: string, query: string, k: int, scope: Scope): Answer {
    if k < 1 then Invalid
    else
      var candidates := NearestOf(sc, docs, tenant, Axis(sc.dimension), Larger(k, TotalPassages(docs)), scope);
      if candidates.Invalid? then Invalid
      else Hits(Take(Sort(Better(), Scored(sc, query, candidates.hits)), k))
  }

  // ---------- operations ----------

  function Apply(sc: Scoring, s: Store, op: Op): (Store, Answer) {
    match op
    case Register(tenant, filename, sha256, mediaType, size, objectKey, id, now) =>
      var previous := Find(s.docs, tenant, HasDigest(sha256));
      if previous.Some? then (s, Stored(previous.value))
      else
        var d := Document(tenant, id, filename, sha256, mediaType, Some(size), Some(objectKey), Uploaded, None,
                          now, None, [], "");
        (Store(s.docs + [d], s.events + [Event(tenant, id, sha256)]), Stored(d))
    case MarkStatus(tenant, id, status, error) =>
      if Find(s.docs, tenant, HasId(id)).None? then (s, NotFound)
      else (s.(docs := Change(s.docs, tenant, HasId(id), Marking(status, error))), Done)
    case Upsert(tenant, filename, sha256, mediaType, chunks, output, prepared, id, now) =>
      var previous := Find(s.docs, tenant, HasDigest(sha256));
      if !prepared || !ValidChunks(sc, chunks) then (s, Invalid)
      else if previous.Some?
      then (s.(docs := Change(s.docs, tenant, HasDigest(sha256), Upserted(op))), Stored(Upserted(op)(previous.value)))
      else
        var d := Document(tenant, id, filename, sha256, mediaType, None, None, Processed, None, now, Some(now),
                          chunks, output);
        (s.(docs := s.docs + [d]), Stored(d))
    case Replace(tenant, id, chunks, output) =>
      if Find(s.docs, tenant, HasId(id)).None? then (s, NotFound)
      else if !ValidChunks(sc, chunks) then (s, Invalid)
      else (s.(docs := Change(s.docs, tenant, HasId(id), Filling(chunks, output))), Done)
    case Get(tenant, id) => (s, AnswerOf(Find(s.docs, tenant, HasId(id))))
    case FindDigest(tenant, sha256) => (s, AnswerOf(Find(s.docs, tenant, HasDigest(sha256))))
    case DocumentNames(tenant) => (s, Names(NamesOf(Mine(s.docs, tenant))))
    case List(tenant, limit, offset) =>
      (s, if 1 <= limit <= 100 && offset >= 0
          then Documents(Slice(Sort(Newer(), Mine(s.docs, tenant)), offset, limit)) else Invalid)
    case Nearest(tenant, vector, k, scope) => (s, NearestOf(sc, s.docs, tenant, vector, k, scope))
    case SearchText(tenant, query, k, scope) => (s, SearchOf(sc, s.docs, tenant, query, k, scope))
  }

  class InMemoryRepository {
    const sc: Scoring
    var docs: seq<Document>
    var events: seq<Event>

    constructor (sc: Scoring)
      ensures this.sc == sc && Value() == EMPTY
    {
      this.sc, docs, events := sc, [], [];
    }

    function Value(): Store
      reads this
    {
      Store(docs, events)
    }

    /** The position of the tenant's first document that satisfies p. */
    method Locate(tenant: string, p: Document -> bool) returns (i: nat)
      ensures First(docs, tenant, p, i)
      ensures Find(docs, tenant, p) == if i < |docs| then Some(docs[i]) else None
    {
      i := 0;
      while i < |docs|
        invariant i <= |docs| && Find(docs, tenant, p) == Find(docs[i..], tenant, p)
        invariant forall j | 0 <= j < i :: !(docs[j].tenant == tenant && p(docs[j]))
      {
        if docs[i].tenant == tenant && p(docs[i]) {
          return;
        }
        i := i + 1;
      }
    }

    /** The tenant's documents. */
    method Own(tenant: string) returns (mine: seq<Document>)
      ensures mine == Mine(docs, tenant)
    {
      mine := [];
      for i := 0 to |docs|
        invariant mine + Mine(docs[i..], tenant) == Mine(docs, tenant)
      {
        if docs[i].tenant == tenant {
          mine := mine + [docs[i]];
        }
      }
    }

    method ScorePassages(d: Document, vector: Vector, scope: Scope) returns (hits: seq<Hit>)
      ensures hits == PassageHits(sc, d.id, d.chunks, vector, scope)
    {
      hide InScope;
      hits := [];
      for j := 0 to |d.chunks|
        invariant hits + PassageHits(sc, d.id, d.chunks[j..], vector, scope)
               == PassageHits(sc, d.id, d.chunks, vector, scope)
      {
        var p := d.chunks[j];
        assert d.chunks[j..][0] == p && d.chunks[j..][1..] == d.chunks[j + 1..];
        if InScope(scope, d.id, p) {
          hits := hits + [Hit(d.id, p, sc.cosine(vector, p.embedding))];
        }
      }
    }

    method ScoreDocuments(tenant: string, vector: Vector, scope: Scope) returns (hits: seq<Hit>)
      ensures hits == HitsIn(sc, docs, tenant, vector, scope)
    {
      hide PassageHits;
      hits := [];
      for i := 0 to |docs|
        invariant hits + HitsIn(sc, docs[i..], tenant, vector, scope) == HitsIn(sc, docs, tenant, vector, scope)
      {
        assert docs[i..][0] == docs[i] && docs[i..][1..] == docs[i + 1..];
        if docs[i].tenant == tenant {
          var more := ScorePassages(docs[i], vector, scope);
          hits := hits + more;
        }
      }
    }

    /** nearest_chunks: score the passages of the tenant that are in scope, best k first. */
    method NearestChunks(tenant: string, vector: Vector, k: int, scope: Scope) returns (a: Answer)
      ensures a == NearestOf(sc, docs, tenant, vector, k, scope)
    {
      hide ValidVector, Sort, HitsIn, Take;
      if !ValidVector(sc, vector) || k < 1 {
        return Invalid;
      }
      var hits := ScoreDocuments(tenant, vector, scope);
      return Hits(Take(Sort(Better(), hits), k));
    }

    method CountPassages() returns (total: nat)
      ensures total == TotalPassages(docs)
    {
      total := 0;
      for i := 0 to |docs|
        invariant total + TotalPassages(docs[i..]) == TotalPassages(docs)
      {
        assert docs[i..][1..] == docs[i + 1..];
        total := total + |docs[i].chunks|;
      }
    }

    method Rescore(query: string, candidates: seq<Hit>) returns (hits: seq<Hit>)
      ensures hits == Scored(sc, query, candidates)
    {
      hits := [];
      for i := 0 to |candidates|
        invariant hits + Scored(sc, query, candidates[i..]) == Scored(sc, query, candidates)
      {
        assert candidates[i..][0] == candidates[i] && candidates[i..][1..] == candidates[i + 1..];
        var score := sc.textScore(query, candidates[i].passage.text);
        if score > 0.0 {
          hits := hits + [candidates[i].(score := score)];
        }
      }
    }

    /** search_text: score the text of all candidates, best k first. */
    method TextSearch(tenant: string, query: string, k: int, scope: Scope) returns (a: Answer)
      ensures a == SearchOf(sc, docs, tenant, query, k, scope)
    {
      hide NearestOf, Sort, Take, Scored, TotalPassages, Axis;
      if k < 1 {
        return Invalid;
      }
      var total := CountPassages();
      var found := NearestChunks(tenant, Axis(sc.dimension), Larger(k, total), scope);
      if found.Invalid? {
        return Invalid;
      }
      var hits := Rescore(query, found.hits);
      return Hits(Take(Sort(Better(), hits), k));
    }

    /** Every operation changes the store and answers as specified. */
    method Do(op: Op) returns (a: Answer)
      modifies this
      ensures (Value(), a) == Apply(sc, old(Value()), op)
    {
      hide NearestOf, SearchOf, Mine, Sort, Upserted, ValidChunks, Find, Change;
      match op {
        case Register(tenant, filename, sha256, mediaType, size, objectKey, id, now) =>
          var i := Locate(tenant, HasDigest(sha256));
          if i < |docs| {
            return Stored(docs[i]);
          }
          var d := Document(tenant, id, filename, sha256, mediaType, Some(size), Some(objectKey), Uploaded, None,
                            now, None, [], "");
          docs, events := docs + [d], events + [Event(tenant, id, sha256)];
          return Stored(d);
        case MarkStatus(tenant, id, status, error) =>
          var i := Locate(tenant, HasId(id));
          if i == |docs| {
            return NotFound;
          }
          ChangesFirst(docs, tenant, HasId(id), Marking(status, error), i);
          docs := docs[i := Marking(status, error)(docs[i])];
          return Done;
        case Upsert(tenant, filename, sha256, mediaType, chunks, output, prepared, id, now) =>
          if !prepared || !ValidChunks(sc, chunks) {
            return Invalid;
          }
          var i := Locate(tenant, HasDigest(sha256));
          if i < |docs| {
            ChangesFirst(docs, tenant, HasDigest(sha256), Upserted(op), i);
            var d := Upserted(op)(docs[i]);
            docs := docs[i := d];
            return Stored(d);
          }
          var d := Document(tenant, id, filename, sha256, mediaType, None, None, Processed, None, now, Some(now),
                            chunks, output);
          docs := docs + [d];
          return Stored(d);
        case Replace(tenant, id, chunks, output) =>
          var i := Locate(tenant, HasId(id));
          if i == |docs| {
            return NotFound;
          }
          if !ValidChunks(sc, chunks) {
            return Invalid;
          }
          ChangesFirst(docs, tenant, HasId(id), Filling(chunks, output), i);
          docs := docs[i := Filling(chunks, output)(docs[i])];
          return Done;
        case Get(tenant, id) =>
          var i := Locate(tenant, HasId(id));
          return if i < |docs| then Stored(docs[i]) else NotFound;
        case FindDigest(tenant, sha256) =>
          var i := Locate(tenant, HasDigest(sha256));
          return if i < |docs| then Stored(docs[i]) else NotFound;
        case DocumentNames(tenant) =>
          var mine := Own(tenant);
          return Names(NamesOf(mine));
        case List(tenant, limit, offset) =>
          if !(1 <= limit <= 100) || offset < 0 {
            return Invalid;
          }
          var mine := Own(tenant);
          return Documents(Slice(Sort(Newer(), mine), offset, limit));
        case Nearest(tenant, vector, k, scope) =>
          a := NearestChunks(tenant, vector, k, scope);
        case SearchText(tenant, query, k, scope) =>
          a := TextSearch(tenant, query, k, scope);
      }
    }
  }
}
