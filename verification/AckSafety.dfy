/** Nothing is acknowledged early: an entry leaves the pending list only after a dead letter
    was appended for it, or after the document it names was stored at the current pipeline
    version. No lease is needed for this. */
module AckSafety {
  import opened Common
  import opened Streams
  import opened Protocol
  import opened RetryBudget

  predicate Buried(letters: seq<Letter>, id: nat) {
    exists l | l in letters :: l.entry == id
  }

  predicate StoredFor(s: System, id: nat) {
    var f := FieldsOf(s, id);
    ValidEvent(f) && f.event.key in s.stored
  }

  predicate Settled(s: System, id: nat) {
    Buried(s.letters, id) || StoredFor(s, id)
  }

  predicate Acknowledged(g: Group, id: nat) {
    1 <= id <= g.offset && id !in g.pending
  }

  /** The entry names a document of its tenant and describes it. */
  predicate Genuine(s: System, id: nat) {
    var f := FieldsOf(s, id);
    ValidEvent(f) && Owned(s, f.event)
  }

  predicate PhaseSafe(s: System, wk: Worker) {
    && (wk.phase.Starting? || wk.phase.Indexing? || wk.phase.Confirming? || wk.phase.Failing? ==>
          wk.held != [] && Genuine(s, wk.held[0].id))
    && (wk.phase.Confirming? ==> wk.held != [] && StoredFor(s, wk.held[0].id))
    && (wk.phase.Acking? ==> wk.held != [] && Settled(s, wk.held[0].id))
  }

  predicate VersionsStored(s: System) {
    forall key | key in s.docs :: s.docs[key].version == PIPELINE_VERSION ==> key in s.stored
  }

  ghost predicate Safe(s: System) {
    && VersionsStored(s)
    && (forall w | w in s.workers :: PhaseSafe(s, s.workers[w]))
    && forall id | Acknowledged(s.group, id) :: Settled(s, id)
  }

  // ---------- what never shrinks ----------

  predicate SameFile(d: Document, e: Document) {
    d.sha256 == e.sha256 && d.objectKey == e.objectKey && d.mediaType == e.mediaType && d.size == e.size
  }

  /** Entries, letters, stored output and the identity of documents are never taken back. */
  predicate Grows(s: System, t: System) {
    && s.log <= t.log && s.letters <= t.letters && s.stored <= t.stored
    && forall key | key in s.docs :: key in t.docs && SameFile(s.docs[key], t.docs[key])
  }

  lemma WriteKeepsFiles(docs: map<Key, Document>, f: Fields, status: Status, version: string, id: nat)
    ensures var t := Write(docs, f, status, version, id);
            t.Keys == docs.Keys && forall key | key in docs :: SameFile(docs[key], t[key])
  {
  }

  lemma UploadGrows(c: Config, s: System, step: Step)
    requires Enabled(s, step) && (step.Register? || step.IndexByHand?)
    ensures Grows(s, Next(c, s, step))
  {
    hide HasDigest, EffectNext, RelayNext;
  }

  lemma StepGrows(c: Config, s: System, step: Step)
    requires Enabled(s, step)
    ensures Grows(s, Next(c, s, step))
  {
    hide Next, Enabled, Write, WorkerAfter;
    if Effect(step) {
      EffectFrame(c, s, step);
      if Writes(step) {
        var id := s.workers[step.w].held[0].id;
        WriteKeepsFiles(s.docs, FieldsOf(s, id), Written(step), VersionAfter(s, FieldsOf(s, id), step), id);
      }
    } else if Quiet(step) {
      QuietFrame(c, s, step);
    } else {
      UploadGrows(c, s, step);
    }
  }

  lemma SettledGrows(s: System, t: System, id: nat)
    requires Grows(s, t) && 1 <= id <= |s.log|
    ensures FieldsOf(t, id) == FieldsOf(s, id)
    ensures Settled(s, id) ==> Settled(t, id)
    ensures StoredFor(s, id) ==> StoredFor(t, id)
    ensures Genuine(s, id) ==> Genuine(t, id)
  {
    assert t.log[id - 1] == s.log[id - 1];
    if Buried(s.letters, id) {
      var l :| l in s.letters && l.entry == id;
      assert l in t.letters;
    }
  }

  lemma PhaseGrows(c: Config, s: System, t: System, w: string)
    requires Sound(c, s) && Grows(s, t) && w in s.workers && PhaseSafe(s, s.workers[w])
    ensures PhaseSafe(t, s.workers[w])
  {
    var wk := s.workers[w];
    if wk.held != [] {
      assert Made(s.group, wk.held[0]);
      SettledGrows(s, t, wk.held[0].id);
    }
  }

  // ---------- steps ----------

  /** The worker that takes the step, if any. */
  function Actor(step: Step): string {
    match step
    case Stop(w) => w
    case Abandon(w) => w
    case Start(w) => w
    case Reclaim(w) => w
    case Rest(w) => w
    case Read(w) => w
    case Take(w) => w
    case Look(w, _) => w
    case Begin(w, _) => w
    case Index(w, _) => w
    case Confirm(w, _) => w
    case Fail(w, _) => w
    case Bury(w) => w
    case Ack(w) => w
    case _ => ""
  }

  predicate Acts(step: Step) {
    !(step.Register? || step.IndexByHand? || step.RelayBegin? || step.RelayPublish? || step.RelayCommit?
      || step.RelayStop? || step.Inject? || step.Tick?)
  }

  /** Steps change the record of their own worker only. */
  lemma OnlyActorChanges(c: Config, s: System, step: Step)
    requires Enabled(s, step)
    ensures var t := Next(c, s, step);
            && (!Acts(step) ==> t.workers == s.workers)
            && (Acts(step) ==> forall v | v != Actor(step) :: (v in t.workers <==> v in s.workers)
                                 && (v in s.workers ==> t.workers[v] == s.workers[v]))
  {
    hide FreshKey, HasDigest, SelectRows, Marked, AutoClaim, Deliver, DeliveriesOf;
    hide WorkerAfter, DocsAfter, StoredAfter, Route;
  }

  lemma LookPhaseSafe(c: Config, s: System, w: string, reply: Reply)
    requires Safe(s) && InPhase(s, w, Checked)
    ensures PhaseSafe(Looked(c, s, w, reply), Looked(c, s, w, reply).workers[w])
  {
    var id := s.workers[w].held[0].id;
    assert FieldsOf(Looked(c, s, w, reply), id) == FieldsOf(s, id);
  }

  lemma {:induction false} EffectPhaseSafe(c: Config, s: System, step: Step)
    requires Sound(c, s) && Safe(s) && Enabled(s, step) && Effect(step)
    ensures PhaseSafe(Next(c, s, step), Next(c, s, step).workers[step.w])
  {
    hide Next, Sound, Safe, Write, DocsAfter, StoredFor, Buried, Genuine;
    var t, wk := Next(c, s, step), s.workers[step.w];
    EffectFrame(c, s, step);
    StepGrows(c, s, step);
    HeldIsLogged(c, s, step.w);
    SafeWorker(s, step.w);
    SettledGrows(s, t, wk.held[0].id);
    if step.Bury? {
      BuriedNow(s.letters, Letter(wk.held[0].id, FieldsOf(s, wk.held[0].id), wk.attempts));
    }
    if step.Index? && step.reply.Done? {
      IndexStores(c, s, step);
    }
  }

  lemma HeldIsLogged(c: Config, s: System, w: string)
    requires Sound(c, s) && w in s.workers && s.workers[w].held != []
    ensures 1 <= s.workers[w].held[0].id <= |s.log|
  {
    assert Made(s.group, s.workers[w].held[0]);
  }

  lemma IndexStores(c: Config, s: System, step: Step)
    requires Enabled(s, step) && step.Index? && step.reply.Done? && Genuine(s, s.workers[step.w].held[0].id)
    ensures StoredFor(Next(c, s, step), s.workers[step.w].held[0].id)
  {
    hide Next, WorkerAfter, DocsAfter, FieldsOf, ValidEvent;
    EffectFrame(c, s, step);
    var id := s.workers[step.w].held[0].id;
    GenuineIsValid(s, id);
    SameLog(s, Next(c, s, step), id);
  }

  lemma SameLog(s: System, t: System, id: nat)
    requires t.log == s.log
    ensures FieldsOf(t, id) == FieldsOf(s, id)
  {
  }

  lemma BuriedNow(letters: seq<Letter>, l: Letter)
    ensures Buried(letters + [l], l.entry)
  {
    assert l in letters + [l];
  }

  lemma GenuineIsValid(s: System, id: nat)
    requires Genuine(s, id)
    ensures ValidEvent(FieldsOf(s, id)) && FieldsOf(s, id).Parsed?
  {
  }

  /** Phases in which a worker has not judged a message yet. */
  predicate Unjudged(phase: Phase) { phase.Idle? || phase.Reading? || phase.Taking? || phase.Checked? }

  lemma ActorUnjudged(c: Config, s: System, step: Step)
    requires Enabled(s, step) && Acts(step) && !Effect(step) && !step.Look?
    ensures var t := Next(c, s, step);
            Actor(step) in t.workers ==> Unjudged(t.workers[Actor(step)].phase)
  {
    hide FreshKey, HasDigest, AutoClaim, Deliver, DeliveriesOf, Attempts;
  }

  lemma {:induction false} ActorPhaseSafe(c: Config, s: System, step: Step)
    requires Sound(c, s) && Safe(s) && Enabled(s, step) && Acts(step)
    ensures var t := Next(c, s, step);
            Actor(step) in t.workers ==> PhaseSafe(t, t.workers[Actor(step)])
  {
    hide Sound, Safe, EffectNext, Looked, Genuine, StoredFor, Settled;
    if step.Look? {
      LookPhaseSafe(c, s, step.w, step.reply);
    } else if Effect(step) {
      EffectPhaseSafe(c, s, step);
    } else {
      hide Next, Enabled;
      ActorUnjudged(c, s, step);
    }
  }

  lemma SafeWorker(s: System, w: string)
    requires Safe(s) && w in s.workers
    ensures PhaseSafe(s, s.workers[w])
  {
  }

  lemma VersionsStayStored(c: Config, s: System, step: Step)
    requires VersionsStored(s) && Enabled(s, step)
    ensures VersionsStored(Next(c, s, step))
  {
    if Effect(step) {
      hide Next, WorkerAfter;
      EffectFrame(c, s, step);
    } else if Quiet(step) {
      hide Next;
      QuietFrame(c, s, step);
    } else {
      hide HasDigest, FreshKey, EffectNext, RelayNext;
    }
  }

  lemma NewIdsArePending(s: System, batch: nat, w: string, id: nat)
    requires s.group.offset <= |s.log|
    requires s.group.offset < id <= Deliver(s.group, |s.log|, w, s.now, batch).offset
    ensures id in Deliver(s.group, |s.log|, w, s.now, batch).pending
  {
    var ids := NewIds(s.group, |s.log|, batch);
    assert ids[id - s.group.offset - 1] == id;
  }

  lemma SameGroup(c: Config, s: System, step: Step)
    requires Enabled(s, step) && !step.Reclaim? && !step.Read? && !step.Ack?
    ensures Next(c, s, step).group == s.group
  {
    if Effect(step) {
      hide Next, WorkerAfter, DocsAfter, StoredAfter;
      EffectFrame(c, s, step);
    } else if Quiet(step) {
      hide Next;
      QuietFrame(c, s, step);
    } else {
      hide HasDigest, FreshKey, EffectNext, RelayNext;
    }
  }

  lemma ReadAcknowledgesNothing(c: Config, s: System, w: string, id: nat)
    requires GroupOver(s.group, |s.log|) && InPhase(s, w, Reading) && Acknowledged(ReadNew(c, s, w).group, id)
    ensures Acknowledged(s.group, id)
  {
    if id > s.group.offset {
      NewIdsArePending(s, c.batch, w, id);
    }
  }

  lemma ReclaimAcknowledgesNothing(c: Config, s: System, w: string, id: nat)
    requires InPhase(s, w, Idle) && Acknowledged(Reclaimed(c, s, w).group, id)
    ensures Acknowledged(s.group, id)
  {
    hide AutoClaim;
    AutoClaimSpec(s.group, |s.log|, w, s.now, c.minIdle, s.workers[w].cursor, c.batch);
  }

  /** Only an acknowledgement takes an entry off the pending list. */
  lemma AcknowledgedBy(c: Config, s: System, step: Step, id: nat)
    requires GroupOver(s.group, |s.log|) && Enabled(s, step) && Acknowledged(Next(c, s, step).group, id)
    ensures Acknowledged(s.group, id) || (step.Ack? && s.workers[step.w].held[0].id == id)
  {
    hide EffectNext, Reclaimed, ReadNew, Looked, Taken, RelayNext, Registered, Indexed, GroupOver, FreshKey, HasDigest;
    if step.Reclaim? {
      ReclaimAcknowledgesNothing(c, s, step.w, id);
    } else if step.Read? {
      ReadAcknowledgesNothing(c, s, step.w, id);
    } else if step.Ack? {
      AckAcknowledges(c, s, step.w, id);
    } else {
      SameGroup(c, s, step);
    }
  }

  lemma AckAcknowledges(c: Config, s: System, w: string, id: nat)
    requires Enabled(s, Ack(w)) && Acknowledged(Next(c, s, Ack(w)).group, id)
    ensures Acknowledged(s.group, id) || s.workers[w].held[0].id == id
  {
    hide Next, WorkerAfter, DocsAfter, StoredAfter;
    EffectFrame(c, s, Ack(w));
  }

  lemma {:induction false} StepKeepsSafe(c: Config, s: System, step: Step)
    requires Sound(c, s) && Safe(s) && Enabled(s, step)
    ensures Safe(Next(c, s, step))
  {
    hide Next, Enabled;
    var t := Next(c, s, step);
    StepGrows(c, s, step);
    VersionsStayStored(c, s, step);
    OnlyActorChanges(c, s, step);
    if Acts(step) {
      ActorPhaseSafe(c, s, step);
    }
    forall w | w in t.workers ensures PhaseSafe(t, t.workers[w]) {
      if !(Acts(step) && w == Actor(step)) {
        PhaseGrows(c, s, t, w);
      }
    }
    forall id | Acknowledged(t.group, id) ensures Settled(t, id) {
      AcknowledgedIsSettled(c, s, step, id);
    }
  }

  lemma {:induction false} AcknowledgedIsSettled(c: Config, s: System, step: Step, id: nat)
    requires Sound(c, s) && Safe(s) && Enabled(s, step) && Acknowledged(Next(c, s, step).group, id)
    ensures Settled(Next(c, s, step), id)
  {
    hide Next, HeldOnce, RunsSound, UnspentAreNew;
    AcknowledgedBy(c, s, step, id);
    StepGrows(c, s, step);
    if !Acknowledged(s.group, id) {
      var wk := s.workers[step.w];
      assert wk.held[0] in wk.held && PhaseSafe(s, wk);
    }
    SettledGrows(s, Next(c, s, step), id);
  }

  lemma {:induction false} SafeAt(c: Config, states: seq<System>, steps: seq<Step>, i: nat)
    requires Run(c, states, steps) && i < |states|
    ensures Sound(c, states[i]) && Safe(states[i])
  {
    SoundAt(c, states, steps, i);
    if i > 0 {
      SafeAt(c, states, steps, i - 1);
      StepKeepsSafe(c, states[i - 1], steps[i - 1]);
    }
  }

  /** In every run, an acknowledged entry has a dead letter, or names a document that was
      stored at the current pipeline version. */
  lemma AcknowledgedOnlyWhenDurable(c: Config, states: seq<System>, steps: seq<Step>, i: nat, id: nat)
    requires Run(c, states, steps) && i < |states| && Acknowledged(states[i].group, id)
    ensures Buried(states[i].letters, id) || StoredFor(states[i], id)
  {
    SafeAt(c, states, steps, i);
  }
}
