/** Which entries are processed: exactly those that fit a document of their tenant, not yet stored at
    the current version, within the retry budget; and what registration writes. */
module Routing {
  import opened Common
  import opened Streams
  import opened Protocol
  import opened RetryBudget
  import opened AckSafety
  import opened Services

  /** The entry parses, its object key is made of tenant and digest, and its media type is accepted. */
  predicate WellFormed(f: Fields) {
    && f.Parsed? && f.event.objectKey == f.event.key.tenant + "/" + f.event.sha256
    && f.event.mediaType in {"application/pdf", "image/png", "image/jpeg", "image/tiff"}
  }

  /** The entry is well formed, and the tenant has the document it names, with the same digest, object
      key, media type and size. */
  predicate FitsDocument(s: System, f: Fields) {
    && WellFormed(f) && f.event.key in s.docs
    && f.event.sha256 == s.docs[f.event.key].sha256
    && f.event.objectKey == s.docs[f.event.key].objectKey
    && f.event.mediaType == s.docs[f.event.key].mediaType
    && f.event.size == s.docs[f.event.key].size
  }

  predicate IsStored(s: System, f: Fields)
    requires FitsDocument(s, f)
  {
    s.docs[f.event.key].status == Processed && s.docs[f.event.key].version == PIPELINE_VERSION
  }

  lemma GenuineFits(s: System, id: nat)
    requires 1 <= id <= |s.log|
    ensures Genuine(s, id) <==> FitsDocument(s, s.log[id - 1])
  {
  }

  /** Where lookup sends an entry, for every entry, document and attempt count. */
  lemma RouteExactly(c: Config, s: System, id: nat, attempts: nat)
    requires 1 <= id <= |s.log|
    ensures var f, phase := s.log[id - 1], Route(c, s, id, attempts);
            && (phase == Burying <==> !FitsDocument(s, f))
            && (phase == Acking <==> FitsDocument(s, f) && IsStored(s, f))
            && (phase == Failing <==> FitsDocument(s, f) && !IsStored(s, f) && attempts > c.maxAttempts)
            && (phase == Starting <==> FitsDocument(s, f) && !IsStored(s, f) && attempts <= c.maxAttempts)
  {
  }

  /** The entry fits a document that is not yet stored, and the lookup was answered. */
  predicate Due(s: System, f: Fields, r: Replies) {
    FitsDocument(s, f) && !IsStored(s, f) && !r.lookup.Transient?
  }

  /** An effect of process failed for good, and those before it were done. */
  predicate FailsForGood(r: Replies) {
    || r.begin.Poison? || (r.begin.Done? && r.index.Poison?)
    || (r.begin.Done? && r.index.Done? && r.confirm.Poison?)
  }

  /** How handling a message ends, for every delivery count, entry, document and reply; whatever is
      left over stays pending. */
  lemma EndsExactly(c: Config, s: System, id: nat, r: Replies)
    requires 1 <= id <= |s.log| && Answers(r)
    ensures var f, e := s.log[id - 1], Expected(c, s, id, r);
            var k := if id in s.group.pending then s.group.pending[id].attempts else 0;
            && (e.Skipped? <==> k == 0)
            && (e.Rejected? <==> k > 0 && (!WellFormed(f) || (!r.lookup.Transient? && !FitsDocument(s, f))))
            && (e.Replayed? <==> k > 0 && !r.lookup.Transient? && FitsDocument(s, f) && IsStored(s, f))
            && (e.GaveUp? <==> k > 0 && Due(s, f, r) && (k > c.maxAttempts || FailsForGood(r)) && r.fail.Done?)
            && (e.Succeeded? <==>
                 0 < k <= c.maxAttempts && Due(s, f, r) && r.begin.Done? && r.index.Done? && r.confirm.Done?)
            && (Acknowledges(e) <==> !e.Skipped? && !e.LeftPending?)
            && (Buries(e) <==> e.Rejected? || e.GaveUp?)
  {
  }

  /** Where handling leaves the document that the entry names: failed if it was given up, and
      otherwise as far as the effects got within the retry budget. */
  lemma StandsExactly(c: Config, s: System, id: nat, d: Standing, r: Replies)
    requires 1 <= id <= |s.log| && Answers(r)
    ensures var f, after := s.log[id - 1], HandledStanding(c, s, id, d, r);
            var k := if id in s.group.pending then s.group.pending[id].attempts else 0;
            var begins := 0 < k <= c.maxAttempts && Due(s, f, r) && r.begin.Done?;
            && after.version == (if begins && r.index.Done? then PIPELINE_VERSION else d.version)
            && after.status == if Expected(c, s, id, r).GaveUp? then Status.Failed
                               else if begins then if r.index.Done? then Processed else Processing
                               else d.status
  {
  }

  /** In every run process is called only on an entry that fits its document. */
  lemma ProcessedEntriesFit(c: Config, states: seq<System>, steps: seq<Step>, i: nat)
    requires Run(c, states, steps) && i < |steps| && steps[i].Begin?
    ensures var s, w := states[i], steps[i].w;
            && w in s.workers && s.workers[w].held != [] && 1 <= s.workers[w].held[0].id <= |s.log|
            && FitsDocument(s, s.log[s.workers[w].held[0].id - 1])
            && s.workers[w].attempts <= c.maxAttempts
  {
    hide Sound, Safe, Next, FitsDocument, Genuine;
    SafeAt(c, states, steps, i);
    var s, w := states[i], steps[i].w;
    BeginsStarting(s, w, steps[i].reply);
    HeldIsLogged(c, s, w);
    SafeWorker(s, w);
    SoundWorker(c, s, w);
    GenuineFits(s, s.workers[w].held[0].id);
  }

  lemma BeginsStarting(s: System, w: string, reply: Reply)
    requires Enabled(s, Begin(w, reply))
    ensures InPhase(s, w, Starting) && s.workers[w].held != []
  {
  }

  /** Registration: a digest the tenant already has changes nothing; otherwise the document and its
      unpublished event are written together, and nothing else. */
  lemma RegistersExactly(c: Config, s: System, key: Key, sha256: string, mediaType: string, size: nat)
    requires Enabled(s, Register(key, sha256, mediaType, size))
    ensures var t := Next(c, s, Register(key, sha256, mediaType, size));
            var objectKey := key.tenant + "/" + sha256;
            var known := exists k | k in s.docs :: k.tenant == key.tenant && s.docs[k].sha256 == sha256;
            && (known ==> t == s)
            && (!known ==>
                  && t.docs == s.docs[key := Document(sha256, objectKey, mediaType, size, Uploaded, "", 0)]
                  && t.outbox == s.outbox + [Row(Event(key, sha256, objectKey, mediaType, size), false)]
                  && t == s.(docs := t.docs, outbox := t.outbox))
  {
    hide EffectNext, RelayNext, FreshKey;
  }

  /** A document counts as stored only from the step that stored it at the current version. */
  lemma StoredWhenStored(c: Config, s: System, step: Step, key: Key)
    requires Sound(c, s) && Safe(s) && Enabled(s, step)
    requires key in Next(c, s, step).stored && key !in s.stored
    ensures var t := Next(c, s, step);
            key in t.docs && t.docs[key].status == Processed && t.docs[key].version == PIPELINE_VERSION
  {
    if Effect(step) {
      hide Next, Sound, Safe, WorkerAfter, FreshKey, HasDigest;
      EffectFrame(c, s, step);
      SafeWorker(s, step.w);
    } else if Quiet(step) {
      hide Next;
      QuietFrame(c, s, step);
    } else {
      hide HasDigest, FreshKey, EffectNext, RelayNext, Sound, Safe;
    }
  }
}
