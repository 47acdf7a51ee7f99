/** Tenants cannot observe one another, a tenant has one document per digest, and an event is
    published once per document: over every run of the repository. */
module Tenants {
  import opened Common
  import opened Order
  import opened Repository
  import opened Listings

  // ---------- one tenant's view ----------

  function MyEvents(events: seq<Event>, tenant: string): seq<Event> {
    if events == [] then []
    else
      var before, e := MyEvents(events[..|events| - 1], tenant), events[|events| - 1];
      if e.tenant == tenant then before + [e] else before
  }

  function View(s: Store, tenant: string): Store {
    Store(Mine(s.docs, tenant), MyEvents(s.events, tenant))
  }

  lemma {:induction false} FindInView(docs: seq<Document>, tenant: string, p: Document -> bool)
    ensures Find(Mine(docs, tenant), tenant, p) == Find(docs, tenant, p)
  {
    if docs != [] {
      FindInView(docs[1..], tenant, p);
      if docs[0].tenant == tenant {
        assert Mine(docs, tenant)[1..] == Mine(docs[1..], tenant);
      }
    }
  }

  predicate KeepsTenant(f: Document -> Document, docs: seq<Document>) {
    forall d | d in docs :: f(d).tenant == d.tenant
  }

  lemma {:induction false} ChangeInView(docs: seq<Document>, tenant: string, p: Document -> bool,
                                        f: Document -> Document, other: string)
    requires KeepsTenant(f, docs)
    ensures Mine(Change(docs, tenant, p, f), other) ==
              if other == tenant then Change(Mine(docs, tenant), tenant, p, f) else Mine(docs, other)
  {
    if docs != [] {
      var rest := docs[1..];
      ChangeInView(rest, tenant, p, f, other);
      assert docs[0] in docs;
      var changed := Change(docs, tenant, p, f);
      if docs[0].tenant == tenant && p(docs[0]) {
        assert changed[1..] == rest;
      } else {
        assert changed[1..] == Change(rest, tenant, p, f);
      }
      if docs[0].tenant == tenant {
        assert Mine(docs, tenant)[1..] == Mine(rest, tenant);
      }
    }
  }

  lemma {:induction false} AppendInView(docs: seq<Document>, d: Document, tenant: string)
    ensures Mine(docs + [d], tenant) == Mine(docs, tenant) + if d.tenant == tenant then [d] else []
  {
    if docs == [] {
      assert docs + [d] == [d] && [d][1..] == [];
    } else {
      AppendInView(docs[1..], d, tenant);
      assert (docs + [d])[1..] == docs[1..] + [d];
    }
  }

  lemma EventInView(events: seq<Event>, e: Event, tenant: string)
    ensures MyEvents(events + [e], tenant) == MyEvents(events, tenant) + if e.tenant == tenant then [e] else []
  {
    assert (events + [e])[..|events|] == events;
  }

  lemma {:induction false} OwnView(docs: seq<Document>, tenant: string)
    ensures Mine(Mine(docs, tenant), tenant) == Mine(docs, tenant)
    ensures forall d | d in Mine(docs, tenant) :: d.tenant == tenant
  {
    if docs != [] {
      OwnView(docs[1..], tenant);
      if docs[0].tenant == tenant {
        assert Mine(docs, tenant)[1..] == Mine(docs[1..], tenant);
      }
    }
  }

  lemma {:induction false} HitsInView(sc: Scoring, docs: seq<Document>, tenant: string, vector: Vector, scope: Scope)
    ensures HitsIn(sc, Mine(docs, tenant), tenant, vector, scope) == HitsIn(sc, docs, tenant, vector, scope)
  {
    if docs != [] {
      HitsInView(sc, docs[1..], tenant, vector, scope);
      if docs[0].tenant == tenant {
        assert Mine(docs, tenant)[1..] == Mine(docs[1..], tenant);
      }
    }
  }

  /** A text search of one tenant's view finds what a search of the whole store does. */
  lemma SearchInView(sc: Scoring, docs: seq<Document>, tenant: string, query: string, k: int, scope: Scope)
    ensures SearchOf(sc, Mine(docs, tenant), tenant, query, k, scope) == SearchOf(sc, docs, tenant, query, k, scope)
  {
    hide ValidVector, HitsIn, TotalPassages, Sort, Axis, Scored, Mine;
    if k >= 1 && ValidVector(sc, Axis(sc.dimension)) {
      HitsInView(sc, docs, tenant, Axis(sc.dimension), scope);
      BoundNeverCuts(sc, docs, tenant, query, k, scope);
      BoundNeverCuts(sc, Mine(docs, tenant), tenant, query, k, scope);
    }
  }

  predicate Reads(op: Op) { op.DocumentNames? || op.List? || op.Nearest? || op.SearchText? }

  lemma ReadsRespectViews(sc: Scoring, s: Store, op: Op)
    requires Reads(op)
    ensures Apply(sc, s, op).0 == s
    ensures Apply(sc, View(s, op.tenant), op) == (View(s, op.tenant), Apply(sc, s, op).1)
  {
    hide HitsIn, SearchOf, Mine, Sort;
    match op
    case Nearest(tenant, vector, _, scope) => HitsInView(sc, s.docs, tenant, vector, scope);
    case SearchText(tenant, query, k, scope) => SearchInView(sc, s.docs, tenant, query, k, scope);
    case _ => OwnView(s.docs, op.tenant);
  }

  /** Unwinding: a tenant's operation does the same to its view as to the store, with the same
      answer, and leaves every other tenant's view alone. */
  lemma OperationsRespectViews(sc: Scoring, s: Store, op: Op, tenant: string)
    ensures View(Apply(sc, s, op).0, tenant) ==
              if op.tenant == tenant then Apply(sc, View(s, tenant), op).0 else View(s, tenant)
    ensures op.tenant == tenant ==> Apply(sc, View(s, tenant), op).1 == Apply(sc, s, op).1
  {
    hide NearestOf, SearchOf, ValidChunks, Sort, Mine, Find, Change, MyEvents;
    match op
    case Register(t, _, sha256, _, _, _, id, _) =>
      FindInView(s.docs, t, HasDigest(sha256));
      if Find(s.docs, t, HasDigest(sha256)).None? {
        AppendInView(s.docs, Apply(sc, s, op).1.doc, tenant);
        EventInView(s.events, Event(t, id, sha256), tenant);
      }
    case MarkStatus(t, id, status, error) =>
      FindInView(s.docs, t, HasId(id));
      ChangeInView(s.docs, t, HasId(id), Marking(status, error), tenant);
    case Upsert(t, _, sha256, _, _, _, _, _, _) =>
      FindInView(s.docs, t, HasDigest(sha256));
      ChangeInView(s.docs, t, HasDigest(sha256), Upserted(op), tenant);
      if Find(s.docs, t, HasDigest(sha256)).None? && Apply(sc, s, op).1.Stored? {
        AppendInView(s.docs, Apply(sc, s, op).1.doc, tenant);
      }
    case Replace(t, id, chunks, output) =>
      FindInView(s.docs, t, HasId(id));
      ChangeInView(s.docs, t, HasId(id), Filling(chunks, output), tenant);
    case Get(t, id) => FindInView(s.docs, t, HasId(id));
    case FindDigest(t, sha256) => FindInView(s.docs, t, HasDigest(sha256));
    case _ => ReadsRespectViews(sc, s, op);
  }

  // ---------- runs ----------

  function After(sc: Scoring, ops: seq<Op>): Store {
    if ops == [] then EMPTY else Apply(sc, After(sc, ops[..|ops| - 1]), ops[|ops| - 1]).0
  }

  /** The answers a tenant gets in a run. */
  function AnswersTo(sc: Scoring, ops: seq<Op>, tenant: string): seq<Answer> {
    if ops == [] then []
    else
      var n := |ops| - 1;
      var before := AnswersTo(sc, ops[..n], tenant);
      if ops[n].tenant == tenant then before + [Apply(sc, After(sc, ops[..n]), ops[n]).1] else before
  }

  /** The run with every other tenant's operations removed. */
  function Alone(ops: seq<Op>, tenant: string): seq<Op> {
    if ops == [] then []
    else
      var n := |ops| - 1;
      if ops[n].tenant == tenant then Alone(ops[..n], tenant) + [ops[n]] else Alone(ops[..n], tenant)
  }

  /** Noninterference: a tenant gets the same answers, and ends with the same documents and
      events, as if the other tenants had done nothing. */
  lemma {:induction false} TenantsDoNotInterfere(sc: Scoring, ops: seq<Op>, tenant: string)
    ensures View(After(sc, ops), tenant) == After(sc, Alone(ops, tenant))
    ensures AnswersTo(sc, ops, tenant) == AnswersTo(sc, Alone(ops, tenant), tenant)
  {
    if ops != [] {
      var n := |ops| - 1;
      TenantsDoNotInterfere(sc, ops[..n], tenant);
      OperationsRespectViews(sc, After(sc, ops[..n]), ops[n], tenant);
      var before := Alone(ops[..n], tenant);
      if ops[n].tenant == tenant {
        assert (before + [ops[n]])[..|before|] == before;
        assert After(sc, before + [ops[n]]) == Apply(sc, After(sc, before), ops[n]).0;
      }
    }
  }

  // ---------- uniqueness ----------

  predicate OnePerDigest(docs: seq<Document>) {
    forall i, j | 0 <= i < j < |docs| :: !(docs[i].tenant == docs[j].tenant && docs[i].sha256 == docs[j].sha256)
  }

  lemma {:induction false} FindNothing(docs: seq<Document>, tenant: string, p: Document -> bool)
    ensures Find(docs, tenant, p).None? ==> forall d | d in docs :: !(d.tenant == tenant && p(d))
  {
    if docs != [] {
      FindNothing(docs[1..], tenant, p);
    }
  }

  predicate SameIdentity(d: Document, e: Document) {
    d.tenant == e.tenant && d.id == e.id && d.sha256 == e.sha256 && d.created == e.created
  }

  predicate KeepsIdentity(f: Document -> Document, docs: seq<Document>) {
    forall d | d in docs :: SameIdentity(d, f(d))
  }

  lemma {:induction false} ChangeKeeps(docs: seq<Document>, tenant: string, p: Document -> bool,
                                       f: Document -> Document)
    ensures var t := Change(docs, tenant, p, f);
            |t| == |docs| && forall i | 0 <= i < |docs| :: t[i] == docs[i] || t[i] == f(docs[i])
  {
    if docs != [] {
      ChangeKeeps(docs[1..], tenant, p, f);
    }
  }

  lemma ChangeKeepsIdentity(docs: seq<Document>, tenant: string, p: Document -> bool, f: Document -> Document)
    requires KeepsIdentity(f, docs)
    ensures var t := Change(docs, tenant, p, f);
            |t| == |docs| && forall i | 0 <= i < |docs| :: SameIdentity(docs[i], t[i])
  {
    hide Change;
    ChangeKeeps(docs, tenant, p, f);
    assert forall i | 0 <= i < |docs| :: docs[i] in docs;
  }

  /** Identity and creation time of the stored documents never change, whatever is done, and at
      most one document is added. */
  lemma OperationsKeepDocuments(sc: Scoring, s: Store, op: Op)
    ensures var t := Apply(sc, s, op).0;
            && |s.docs| <= |t.docs| <= |s.docs| + 1 && s.events <= t.events
            && forall i | 0 <= i < |s.docs| :: SameIdentity(s.docs[i], t.docs[i])
  {
    hide Find, Change, Mine, NearestOf, SearchOf, Sort, ValidChunks;
    match op
    case MarkStatus(t, id, status, error) => ChangeKeepsIdentity(s.docs, t, HasId(id), Marking(status, error));
    case Upsert(t, _, sha256, _, _, _, _, _, _) => ChangeKeepsIdentity(s.docs, t, HasDigest(sha256), Upserted(op));
    case Replace(t, id, chunks, output) => ChangeKeepsIdentity(s.docs, t, HasId(id), Filling(chunks, output));
    case _ =>
  }

  /** Registration adds a document and one event for it together, or neither. */
  lemma OneEventPerRegistration(sc: Scoring, s: Store, op: Op)
    ensures var t := Apply(sc, s, op).0;
            && (op.Register? && |t.docs| > |s.docs| ==>
                  t.events == s.events + [Event(op.tenant, op.id, op.sha256)] && t.docs[|s.docs|].id == op.id)
            && (!(op.Register? && |t.docs| > |s.docs|) ==> t.events == s.events)
  {
  }

  /** An added document has a digest that its tenant did not have. */
  lemma NewDigest(sc: Scoring, s: Store, op: Op)
    requires |Apply(sc, s, op).0.docs| > |s.docs|
    ensures op.Register? || op.Upsert?
    ensures forall d | d in s.docs :: !(d.tenant == op.tenant && d.sha256 == op.sha256)
    ensures var d := Apply(sc, s, op).0.docs[|s.docs|];
            d.tenant == op.tenant && d.sha256 == op.sha256 && d.id == op.id
  {
    hide Find, Change, Mine, NearestOf, SearchOf, Sort, ValidChunks;
    if op.Register? || op.Upsert? {
      FindNothing(s.docs, op.tenant, HasDigest(op.sha256));
    }
    match op
    case MarkStatus(t, id, status, error) => ChangeKeeps(s.docs, t, HasId(id), Marking(status, error));
    case Upsert(t, _, sha256, _, _, _, _, _, _) => ChangeKeeps(s.docs, t, HasDigest(sha256), Upserted(op));
    case Replace(t, id, chunks, output) => ChangeKeeps(s.docs, t, HasId(id), Filling(chunks, output));
    case _ =>
  }

  lemma StepKeepsOnePerDigest(sc: Scoring, s: Store, op: Op)
    requires OnePerDigest(s.docs)
    ensures OnePerDigest(Apply(sc, s, op).0.docs)
  {
    hide Apply;
    OperationsKeepDocuments(sc, s, op);
    var t := Apply(sc, s, op).0;
    if |t.docs| > |s.docs| {
      NewDigest(sc, s, op);
      assert forall i | 0 <= i < |s.docs| :: s.docs[i] in s.docs;
    }
    assert forall i | 0 <= i < |s.docs| :: SameIdentity(s.docs[i], t.docs[i]);
  }

  /** In every run a tenant has at most one document per digest. */
  lemma {:induction false} OneDocumentPerDigest(sc: Scoring, ops: seq<Op>)
    ensures OnePerDigest(After(sc, ops).docs)
  {
    if ops != [] {
      OneDocumentPerDigest(sc, ops[..|ops| - 1]);
      StepKeepsOnePerDigest(sc, After(sc, ops[..|ops| - 1]), ops[|ops| - 1]);
    }
  }

  /** Every stored passage can take part in a search. */
  predicate AllValid(sc: Scoring, docs: seq<Document>) {
    forall d | d in docs :: ValidChunks(sc, d.chunks)
  }

  lemma StepKeepsValid(sc: Scoring, s: Store, op: Op)
    requires AllValid(sc, s.docs)
    ensures AllValid(sc, Apply(sc, s, op).0.docs)
  {
    hide Find, Change, Mine, NearestOf, SearchOf, Sort, ValidChunks;
    NothingValid(sc);
    match op
    case MarkStatus(tenant, id, status, error) => ChangeKeeps(s.docs, tenant, HasId(id), Marking(status, error));
    case Upsert(tenant, _, sha256, _, _, _, _, _, _) => ChangeKeeps(s.docs, tenant, HasDigest(sha256), Upserted(op));
    case Replace(tenant, id, chunks, output) => ChangeKeeps(s.docs, tenant, HasId(id), Filling(chunks, output));
    case _ =>
  }

  lemma NothingValid(sc: Scoring)
    ensures ValidChunks(sc, [])
  {
  }

  /** In every run every stored embedding is a nonzero vector of the index's dimension, so that
      no stored passage makes a search fail. */
  lemma {:induction false} EmbeddingsAreValid(sc: Scoring, ops: seq<Op>)
    ensures AllValid(sc, After(sc, ops).docs)
  {
    if ops != [] {
      EmbeddingsAreValid(sc, ops[..|ops| - 1]);
      StepKeepsValid(sc, After(sc, ops[..|ops| - 1]), ops[|ops| - 1]);
    }
  }

  predicate Announces(e: Event, docs: seq<Document>) {
    exists d | d in docs :: d.tenant == e.tenant && d.id == e.id && d.sha256 == e.sha256
  }

  /** Every event announces a stored document, and no two events the same digest of a tenant. */
  predicate EventsSound(s: Store) {
    && (forall e | e in s.events :: Announces(e, s.docs))
    && forall i, j | 0 <= i < j < |s.events| ::
         !(s.events[i].tenant == s.events[j].tenant && s.events[i].sha256 == s.events[j].sha256)
  }

  lemma EventsStayAnnounced(sc: Scoring, s: Store, op: Op, e: Event)
    requires Announces(e, s.docs)
    ensures Announces(e, Apply(sc, s, op).0.docs)
  {
    hide Apply;
    var d :| d in s.docs && d.tenant == e.tenant && d.id == e.id && d.sha256 == e.sha256;
    var i :| 0 <= i < |s.docs| && s.docs[i] == d;
    OperationsKeepDocuments(sc, s, op);
    var e' := Apply(sc, s, op).0.docs[i];
    assert e' in Apply(sc, s, op).0.docs && SameIdentity(s.docs[i], e');
  }

  lemma StepKeepsEvents(sc: Scoring, s: Store, op: Op)
    requires EventsSound(s)
    ensures EventsSound(Apply(sc, s, op).0)
  {
    hide Apply;
    var t := Apply(sc, s, op).0;
    OneEventPerRegistration(sc, s, op);
    forall e | e in s.events ensures Announces(e, t.docs) {
      EventsStayAnnounced(sc, s, op, e);
    }
    if op.Register? && |t.docs| > |s.docs| {
      NewDigest(sc, s, op);
      assert t.docs[|s.docs|] in t.docs;
      assert Announces(Event(op.tenant, op.id, op.sha256), t.docs);
      assert forall i | 0 <= i < |s.events| :: s.events[i] in s.events && Announces(s.events[i], s.docs);
    }
  }

  /** In every run the events announce distinct stored documents: registering a digest again
      announces nothing. */
  lemma {:induction false} OneEventPerDocument(sc: Scoring, ops: seq<Op>)
    ensures EventsSound(After(sc, ops))
  {
    if ops != [] {
      OneEventPerDocument(sc, ops[..|ops| - 1]);
      StepKeepsEvents(sc, After(sc, ops[..|ops| - 1]), ops[|ops| - 1]);
    }
  }
}
