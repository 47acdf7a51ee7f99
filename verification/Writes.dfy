/** What the repository's writes store, seen through later reads, and when it refuses. */
module Writes {
  import opened Common
  import opened Repository

  // ---------- what the point reads answer ----------

  /** The position of the document a point read finds. */
  lemma {:induction false} FindsFirst(docs: seq<Document>, tenant: string, p: Document -> bool) returns (i: nat)
    ensures First(docs, tenant, p, i)
    ensures Find(docs, tenant, p) == if i < |docs| then Some(docs[i]) else None
  {
    if docs == [] || (docs[0].tenant == tenant && p(docs[0])) {
      i := 0;
    } else {
      var j := FindsFirst(docs[1..], tenant, p);
      i := j + 1;
      assert forall k | 0 < k <= |docs| :: k < |docs| ==> docs[k] == docs[1..][k - 1];
    }
  }

  lemma {:induction false} FoundAt(docs: seq<Document>, tenant: string, p: Document -> bool, i: nat)
    requires First(docs, tenant, p, i)
    ensures Find(docs, tenant, p) == if i < |docs| then Some(docs[i]) else None
  {
    if i > 0 {
      FoundAt(docs[1..], tenant, p, i - 1);
    }
  }

  /** A lookup by id answers a document of the tenant with that id, if there is one. */
  lemma GetAnswers(sc: Scoring, s: Store, tenant: string, id: string)
    ensures var (t, a) := Apply(sc, s, Get(tenant, id));
            && t == s
            && (a.Stored? ==> a.doc in s.docs && a.doc.tenant == tenant && a.doc.id == id)
            && (!a.Stored? ==> a == NotFound && forall d | d in s.docs :: !(d.tenant == tenant && d.id == id))
  {
    var i := FindsFirst(s.docs, tenant, HasId(id));
  }

  /** Likewise a lookup by digest. */
  lemma FindDigestAnswers(sc: Scoring, s: Store, tenant: string, sha256: string)
    ensures var (t, a) := Apply(sc, s, FindDigest(tenant, sha256));
            && t == s
            && (a.Stored? ==> a.doc in s.docs && a.doc.tenant == tenant && a.doc.sha256 == sha256)
            && (!a.Stored? ==> a == NotFound && forall d | d in s.docs :: !(d.tenant == tenant && d.sha256 == sha256))
  {
    var i := FindsFirst(s.docs, tenant, HasDigest(sha256));
  }

  // ---------- what the writes store ----------

  /** Nothing but the document before changes, and nothing is added or removed. */
  predicate OnlyThat(s: Store, t: Store, before: Document, after: Document) {
    && |t.docs| == |s.docs| && t.events == s.events && before in s.docs && after in t.docs
    && exists k | 0 <= k < |s.docs| ::
         s.docs[k] == before && t.docs[k] == after && forall i | 0 <= i < |s.docs| && i != k :: t.docs[i] == s.docs[i]
  }

  lemma ChangesOnlyThat(s: Store, t: Store, k: nat, after: Document)
    requires k < |s.docs| && t.docs == s.docs[k := after] && t.events == s.events
    ensures OnlyThat(s, t, s.docs[k], after)
  {
    assert t.docs[k] in t.docs;
  }

  /** Changing the document that a lookup finds: a later lookup finds the changed one. */
  lemma ChangeIsSeen(s: Store, tenant: string, p: Document -> bool, f: Document -> Document)
    requires var found := Find(s.docs, tenant, p);
             found.Some? ==> f(found.value).tenant == tenant && p(f(found.value))
    ensures var found, docs := Find(s.docs, tenant, p), Change(s.docs, tenant, p, f);
            found.Some? ==>
              && Find(docs, tenant, p) == Some(f(found.value))
              && OnlyThat(s, s.(docs := docs), found.value, f(found.value))
  {
    hide Find, Change, OnlyThat;
    var i := FindsFirst(s.docs, tenant, p);
    if i < |s.docs| {
      ChangesFirst(s.docs, tenant, p, f, i);
      FoundAt(s.docs[i := f(s.docs[i])], tenant, p, i);
      ChangesOnlyThat(s, s.(docs := s.docs[i := f(s.docs[i])]), i, f(s.docs[i]));
    }
  }

  lemma Finds(docs: seq<Document>, tenant: string, p: Document -> bool)
    ensures Find(docs, tenant, p).Some? ==>
              Find(docs, tenant, p).value.tenant == tenant && p(Find(docs, tenant, p).value)
  {
    var i := FindsFirst(docs, tenant, p);
  }

  /** A document that is registered again is answered as it is; a new one is stored with the given
      fields, found by its digest, and by its id if that is fresh. */
  lemma RegisterStores(sc: Scoring, s: Store, op: Op)
    requires op.Register?
    ensures var (t, a) := Apply(sc, s, op);
            var before := Apply(sc, s, FindDigest(op.tenant, op.sha256)).1;
            && a.Stored? && Apply(sc, t, FindDigest(op.tenant, op.sha256)).1 == a
            && (before.Stored? ==> a == before && t == s)
            && (!before.Stored? ==>
                  && a.doc.tenant == op.tenant && a.doc.id == op.id && a.doc.filename == op.filename
                  && a.doc.sha256 == op.sha256 && a.doc.mediaType == op.mediaType
                  && a.doc.size == Some(op.size) && a.doc.objectKey == Some(op.objectKey)
                  && a.doc.status == Uploaded && a.doc.error == None && a.doc.created == op.now
                  && a.doc.processed == None && a.doc.chunks == [] && a.doc.output == ""
                  && t.docs == s.docs + [a.doc] && t.events == s.events + [Event(op.tenant, op.id, op.sha256)]
                  && ((forall d | d in s.docs :: !(d.tenant == op.tenant && d.id == op.id)) ==>
                        Apply(sc, t, Get(op.tenant, op.id)).1 == a))
  {
    var (t, a) := Apply(sc, s, op);
    var i := FindsFirst(s.docs, op.tenant, HasDigest(op.sha256));
    if i == |s.docs| {
      FoundAt(t.docs, op.tenant, HasDigest(op.sha256), i);
      if forall d | d in s.docs :: !(d.tenant == op.tenant && d.id == op.id) {
        assert forall j | 0 <= j < |s.docs| :: s.docs[j] in s.docs;
        FoundAt(t.docs, op.tenant, HasId(op.id), |s.docs|);
      }
    }
  }

  /** A status change is seen by the next lookup, an error is kept with a failure only, and the rest
      of the document stays as it was. */
  lemma MarkStatusStores(sc: Scoring, s: Store, op: Op)
    requires op.MarkStatus?
    ensures var (t, a) := Apply(sc, s, op);
            var before := Apply(sc, s, Get(op.tenant, op.id)).1;
            if !before.Stored? then a == NotFound && t == s
            else
              var after := Apply(sc, t, Get(op.tenant, op.id)).1;
              && a == Done && after.Stored?
              && after.doc.status == op.status
              && after.doc.error == (if op.status == Status.Failed then op.error else None)
              && after.doc == before.doc.(status := after.doc.status, error := after.doc.error)
              && OnlyThat(s, t, before.doc, after.doc)
  {
    hide Find, Change, OnlyThat;
    Finds(s.docs, op.tenant, HasId(op.id));
    ChangeIsSeen(s, op.tenant, HasId(op.id), Marking(op.status, op.error));
  }

  /** Some embedding has the wrong dimension or no nonzero component. */
  predicate Malformed(sc: Scoring, chunks: seq<Passage>) {
    exists p | p in chunks ::
      |p.embedding| != sc.dimension || forall i | 0 <= i < |p.embedding| :: p.embedding[i] == 0.0
  }

  lemma MalformedIsInvalid(sc: Scoring, chunks: seq<Passage>)
    ensures Malformed(sc, chunks) <==> !ValidChunks(sc, chunks)
  {
    if !ValidChunks(sc, chunks) {
      var p :| p in chunks && !ValidVector(sc, p.embedding);
      assert |p.embedding| != sc.dimension || forall i | 0 <= i < |p.embedding| :: p.embedding[i] == 0.0;
    }
  }

  /** Replacement is seen by the next lookup: the given chunks and output, the rest as it was. */
  lemma ReplaceStores(sc: Scoring, s: Store, op: Op)
    requires op.Replace?
    ensures var (t, a) := Apply(sc, s, op);
            var before := Apply(sc, s, Get(op.tenant, op.id)).1;
            if !before.Stored? then a == NotFound && t == s
            else if Malformed(sc, op.chunks) then a == Invalid && t == s
            else
              var after := Apply(sc, t, Get(op.tenant, op.id)).1;
              && a == Done && after.Stored?
              && after.doc.chunks == op.chunks && after.doc.output == op.output
              && after.doc == before.doc.(chunks := after.doc.chunks, output := after.doc.output)
              && OnlyThat(s, t, before.doc, after.doc)
  {
    hide ValidChunks, Malformed, Find, Change, OnlyThat;
    MalformedIsInvalid(sc, op.chunks);
    Finds(s.docs, op.tenant, HasId(op.id));
    ChangeIsSeen(s, op.tenant, HasId(op.id), Filling(op.chunks, op.output));
  }

  /** What an index run leaves of a document, whether it was there before or not. */
  predicate Indexed(op: Op, d: Document)
    requires op.Upsert?
  {
    && d.tenant == op.tenant && d.sha256 == op.sha256 && d.filename == op.filename && d.mediaType == op.mediaType
    && d.chunks == op.chunks && d.output == op.output && d.status == Processed && d.error == None
  }

  /** When the document was processed for the last time, or else stored. */
  function LastTime(d: Document): int { if d.processed.Some? then d.processed.value else d.created }

  /** An upsert is seen by the next lookup: the given fields, chunks and output; identity, creation
      time, size and object key of the document before, and a processing time past its last one. */
  lemma UpsertStores(sc: Scoring, s: Store, op: Op)
    requires op.Upsert?
    ensures var (t, a) := Apply(sc, s, op);
            var before := Apply(sc, s, FindDigest(op.tenant, op.sha256)).1;
            if !op.prepared || Malformed(sc, op.chunks) then a == Invalid && t == s
            else
              && a.Stored? && Apply(sc, t, FindDigest(op.tenant, op.sha256)).1 == a && Indexed(op, a.doc)
              && (before.Stored? ==>
                    && a.doc.id == before.doc.id && a.doc.created == before.doc.created
                    && a.doc.size == before.doc.size && a.doc.objectKey == before.doc.objectKey
                    && a.doc.processed.Some? && LastTime(before.doc) < a.doc.processed.value
                    && op.now <= a.doc.processed.value
                    && (a.doc.processed.value == op.now || a.doc.processed.value == LastTime(before.doc) + 1)
                    && OnlyThat(s, t, before.doc, a.doc))
              && (!before.Stored? ==>
                    && a.doc.id == op.id && a.doc.created == op.now && a.doc.processed == Some(op.now)
                    && a.doc.size == None && a.doc.objectKey == None
                    && t.docs == s.docs + [a.doc] && t.events == s.events)
  {
    hide ValidChunks, Malformed, Find, Change, OnlyThat;
    MalformedIsInvalid(sc, op.chunks);
    Finds(s.docs, op.tenant, HasDigest(op.sha256));
    if Find(s.docs, op.tenant, HasDigest(op.sha256)).Some? {
      ChangeIsSeen(s, op.tenant, HasDigest(op.sha256), Upserted(op));
    } else if op.prepared && ValidChunks(sc, op.chunks) {
      NewIsFound(s.docs, op.tenant, HasDigest(op.sha256), Apply(sc, s, op).1.doc);
    }
  }

  lemma NewIsFound(docs: seq<Document>, tenant: string, p: Document -> bool, d: Document)
    requires Find(docs, tenant, p).None? && d.tenant == tenant && p(d)
    ensures Find(docs + [d], tenant, p) == Some(d)
  {
    var i := FindsFirst(docs, tenant, p);
    FoundAt(docs + [d], tenant, p, |docs|);
  }

  // ---------- when the other reads refuse, and the list of names ----------

  /** Pages are refused outside 1 to 100 entries or before the start, searches for fewer than one
      hit or with a vector that no stored passage could have. */
  lemma RefusedExactlyWhen(sc: Scoring, s: Store, op: Op)
    requires op.List? || op.Nearest? || op.SearchText?
    ensures Apply(sc, s, op).0 == s
    ensures op.List? ==> (Apply(sc, s, op).1 == Invalid <==> op.limit < 1 || op.limit > 100 || op.offset < 0)
    ensures op.Nearest? ==>
              (Apply(sc, s, op).1 == Invalid <==>
                 || op.k < 1 || |op.vector| != sc.dimension
                 || forall i | 0 <= i < |op.vector| :: op.vector[i] == 0.0)
    ensures op.SearchText? ==> (Apply(sc, s, op).1 == Invalid <==> op.k < 1 || sc.dimension == 0)
  {
    hide HitsIn, Scored, TotalPassages;
    if op.SearchText? {
      assert Axis(sc.dimension)[0] == 1.0;
      assert ValidVector(sc, Axis(sc.dimension)) <==> sc.dimension >= 1;
    }
  }

  /** The names are those of the tenant's documents, in the order they were stored. */
  lemma NamesAnswer(sc: Scoring, s: Store, tenant: string)
    ensures var (t, a) := Apply(sc, s, DocumentNames(tenant));
            && t == s && a.Names? && |a.names| == |Mine(s.docs, tenant)|
            && forall i | 0 <= i < |a.names| ::
                 a.names[i] == (Mine(s.docs, tenant)[i].id, Mine(s.docs, tenant)[i].filename)
  {
  }
}
