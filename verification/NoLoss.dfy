/** No accepted document is stranded, as long as leases are kept: a registered document that is
    not processed or failed has an unpublished event or an entry not yet acknowledged. */
module NoLoss {
  import opened Common
  import opened Streams
  import opened Protocol
  import opened RetryBudget
  import opened AckSafety
  import opened Leases

  predicate Unacknowledged(s: System, id: nat) {
    1 <= id <= |s.log| && !Acknowledged(s.group, id)
  }

  /** The document an entry names. */
  function KeyOf(s: System, id: nat): Key {
    var f := FieldsOf(s, id);
    if f.Parsed? then f.event.key else Key("", "")
  }

  // ---------- the outbox ----------

  predicate RowSound(s: System, r: Row) {
    ValidEvent(Parsed(r.event)) && Owned(s, r.event) && (r.published ==> Parsed(r.event) in s.log)
  }

  predicate RelaySound(s: System, r: Relay) {
    && r.next <= |r.rows|
    && (forall j | 0 <= j < |r.rows| :: r.rows[j] < |s.outbox|)
    && forall j | 0 <= j < r.next :: Parsed(s.outbox[r.rows[j]].event) in s.log
  }

  predicate HasRow(outbox: seq<Row>, key: Key) {
    exists r | r in outbox :: r.event.key == key
  }

  predicate OutboxSound(s: System) {
    && (forall r | r in s.outbox :: RowSound(s, r))
    && (forall r | r in s.relays :: RelaySound(s, s.relays[r]))
    && forall key | key in s.docs && s.docs[key].status.Uploaded? :: HasRow(s.outbox, key)
  }

  lemma {:induction false} SelectedRowsExist(s: System, tenant: string, batch: nat, from: nat)
    requires from <= |s.outbox|
    ensures forall i | i in SelectRows(s, tenant, batch, from) :: i < |s.outbox|
    decreases |s.outbox| - from
  {
    if batch > 0 && from < |s.outbox| {
      if s.outbox[from].event.key.tenant == tenant && !s.outbox[from].published && !Locked(s, from) {
        SelectedRowsExist(s, tenant, batch - 1, from + 1);
      } else {
        SelectedRowsExist(s, tenant, batch, from + 1);
      }
    }
  }

  lemma RowsStaySound(c: Config, s: System, step: Step)
    requires OutboxSound(s) && Enabled(s, step)
    ensures forall r | r in s.outbox :: RowSound(Next(c, s, step), r)
  {
    hide Next, Enabled;
    StepGrows(c, s, step);
  }

  /** A relay step leaves the documents alone and at most appends to the stream. */
  lemma OtherRelaysStaySound(s: System, t: System, r: Relay)
    requires RelaySound(s, r) && s.log <= t.log && |t.outbox| == |s.outbox|
    requires forall i | 0 <= i < |s.outbox| :: t.outbox[i].event == s.outbox[i].event
    ensures RelaySound(t, r)
  {
  }

  lemma RowStaysSound(s: System, t: System, r: Row)
    requires RowSound(s, r) && s.log <= t.log && t.docs == s.docs
    ensures RowSound(t, r)
  {
  }

  /** The relay publishes a row before it marks it. */
  lemma RelayStepKeepsOutbox(c: Config, s: System, step: Step)
    requires OutboxSound(s) && Enabled(s, step)
    requires step.RelayBegin? || step.RelayPublish? || step.RelayCommit? || step.RelayStop?
    ensures OutboxSound(Next(c, s, step))
  {
    hide RowSound, RelaySound, HasRow, SelectRows, Marked, EffectNext, FreshKey, HasDigest;
    var t := Next(c, s, step);
    forall r | r in s.outbox ensures RowSound(t, r) {
      RowStaysSound(s, t, r);
    }
    match step {
      case RelayBegin(r, tenant, batch) => BegunIsSound(s, t, r, tenant, batch);
      case RelayPublish(r) => PublishedIsLogged(s, t, r);
      case RelayCommit(r) => CommittedRows(s, t, r);
      case RelayStop(_) =>
    }
    forall r | r in t.relays && r in s.relays && t.relays[r] == s.relays[r] ensures RelaySound(t, t.relays[r]) {
      if step.RelayCommit? {
        MarkedEvents(s.outbox, s.relays[step.relay].rows);
      }
      OtherRelaysStaySound(s, t, s.relays[r]);
    }
  }

  lemma MarkedEvents(outbox: seq<Row>, rows: seq<nat>)
    ensures |Marked(outbox, rows)| == |outbox|
    ensures forall i | 0 <= i < |outbox| :: Marked(outbox, rows)[i].event == outbox[i].event
  {
  }

  lemma BegunIsSound(s: System, t: System, r: string, tenant: string, batch: nat)
    requires t == s.(relays := s.relays[r := Relay(SelectRows(s, tenant, batch, 0), 0)])
    ensures RelaySound(t, t.relays[r])
  {
    hide SelectRows;
    SelectedRowsExist(s, tenant, batch, 0);
    assert forall j | 0 <= j < |t.relays[r].rows| :: t.relays[r].rows[j] in t.relays[r].rows;
  }

  lemma CommittedRows(s: System, t: System, r: string)
    requires r in s.relays && RelaySound(s, s.relays[r]) && s.relays[r].next == |s.relays[r].rows|
    requires t == s.(outbox := Marked(s.outbox, s.relays[r].rows), relays := s.relays - {r})
    requires forall row | row in s.outbox :: RowSound(s, row)
    ensures forall row | row in t.outbox :: RowSound(t, row)
    ensures forall key :: HasRow(s.outbox, key) ==> HasRow(t.outbox, key)
  {
    hide RowSound, RelaySound, HasRow, Marked;
    MarkedRows(s, t, s.relays[r]);
  }

  lemma PublishedIsLogged(s: System, t: System, r: string)
    requires r in s.relays && RelaySound(s, s.relays[r]) && s.relays[r].next < |s.relays[r].rows|
    requires t == RelayNext(s, RelayPublish(r))
    ensures RelaySound(t, t.relays[r])
  {
    assert t.log[|s.log|] in t.log;
  }

  lemma MarkedRows(s: System, t: System, relay: Relay)
    requires RelaySound(s, relay) && relay.next == |relay.rows| && t.log == s.log && t.docs == s.docs
    requires t.outbox == Marked(s.outbox, relay.rows)
    requires forall r | r in s.outbox :: RowSound(s, r)
    ensures forall r | r in t.outbox :: RowSound(t, r)
    ensures forall key :: HasRow(s.outbox, key) ==> HasRow(t.outbox, key)
  {
    forall i | 0 <= i < |t.outbox| ensures RowSound(t, t.outbox[i]) {
      assert s.outbox[i] in s.outbox;
    }
    forall key | HasRow(s.outbox, key) ensures HasRow(t.outbox, key) {
      var i :| 0 <= i < |s.outbox| && s.outbox[i].event.key == key;
      assert t.outbox[i] in t.outbox;
    }
  }

  lemma RegisterKeepsOutbox(c: Config, s: System, step: Step)
    requires OutboxSound(s) && Enabled(s, step) && step.Register?
    ensures OutboxSound(Next(c, s, step))
  {
    hide HasDigest;
    RowsStaySound(c, s, step);
    var t := Next(c, s, step);
    if !HasDigest(s, step.key.tenant, step.sha256) {
      var row := t.outbox[|s.outbox|];
      assert row in t.outbox && row.event.key == step.key;
      forall key | HasRow(s.outbox, key) ensures HasRow(t.outbox, key) {
        var r :| r in s.outbox && r.event.key == key;
        assert r in t.outbox;
      }
    }
  }

  lemma WriteKeepsNoUpload(docs: map<Key, Document>, f: Fields, status: Status, version: string, id: nat)
    requires !status.Uploaded?
    ensures var t := Write(docs, f, status, version, id);
            t.Keys == docs.Keys && forall key | key in docs && t[key].status.Uploaded? :: docs[key].status.Uploaded?
  {
  }

  /** Statuses other than uploaded never turn back into it. */
  lemma UploadedIsNotWritten(c: Config, s: System, step: Step)
    requires Enabled(s, step) && !step.Register?
    ensures forall key | key in Next(c, s, step).docs && Next(c, s, step).docs[key].status.Uploaded? ::
              key in s.docs && s.docs[key].status.Uploaded?
  {
    if Effect(step) {
      hide Next, WorkerAfter, Write;
      EffectFrame(c, s, step);
      if Writes(step) {
        var id := s.workers[step.w].held[0].id;
        WriteKeepsNoUpload(s.docs, FieldsOf(s, id), Written(step), VersionAfter(s, FieldsOf(s, id), step), id);
      }
    } else if Quiet(step) {
      hide Next;
      QuietFrame(c, s, step);
    } else {
      hide HasDigest, FreshKey, EffectNext, RelayNext, Registered;
    }
  }

  lemma OutboxUntouched(c: Config, s: System, step: Step)
    requires Enabled(s, step)
    requires !step.Register? && !step.RelayBegin? && !step.RelayPublish? && !step.RelayCommit? && !step.RelayStop?
    ensures Next(c, s, step).outbox == s.outbox && Next(c, s, step).relays == s.relays
  {
    if Effect(step) {
      hide Next, WorkerAfter, DocsAfter, StoredAfter;
      EffectFrame(c, s, step);
    } else {
      hide HasDigest, FreshKey, EffectNext, RelayNext, Registered, AutoClaim, Deliver, DeliveriesOf, Route, Attempts;
    }
  }

  lemma StepKeepsOutbox(c: Config, s: System, step: Step)
    requires OutboxSound(s) && Enabled(s, step)
    ensures OutboxSound(Next(c, s, step))
  {
    hide Next, Enabled, HasRow, RowSound;
    if step.Register? {
      RegisterKeepsOutbox(c, s, step);
    } else if step.RelayBegin? || step.RelayPublish? || step.RelayCommit? || step.RelayStop? {
      RelayStepKeepsOutbox(c, s, step);
    } else {
      RowsStaySound(c, s, step);
      UploadedIsNotWritten(c, s, step);
      OutboxUntouched(c, s, step);
      StepGrows(c, s, step);
    }
  }

  // ---------- statuses ----------

  /** A document in process is held up by the entry that set the status. */
  predicate ProcessingSound(s: System) {
    forall key | key in s.docs && s.docs[key].status.Processing? ::
      var id := s.docs[key].writer;
      Unacknowledged(s, id) && Genuine(s, id) && KeyOf(s, id) == key
  }

  /** The entry can go: its document is neither waiting nor in process on its behalf. */
  predicate Released(s: System, id: nat) {
    Genuine(s, id) ==>
      var d := s.docs[KeyOf(s, id)];
      !d.status.Uploaded? && !(d.status.Processing? && d.writer == id)
  }

  predicate Releasing(phase: Phase) { phase.Burying? || phase.Acking? }

  predicate LeavingSound(s: System) {
    forall w | w in s.workers && Releasing(s.workers[w].phase) && s.workers[w].held != [] ::
      Released(s, s.workers[w].held[0].id)
  }

  ghost predicate GoneSound(s: System) {
    forall id | Acknowledged(s.group, id) && Genuine(s, id) :: !s.docs[KeyOf(s, id)].status.Uploaded?
  }

  lemma NewKeysAreFresh(c: Config, s: System, step: Step)
    requires Enabled(s, step)
    ensures forall key | key in Next(c, s, step).docs && key !in s.docs :: FreshKey(s, key)
  {
    if Effect(step) {
      hide Next, WorkerAfter;
      EffectFrame(c, s, step);
    } else if Quiet(step) {
      hide Next;
      QuietFrame(c, s, step);
    } else {
      hide HasDigest, EffectNext, RelayNext;
    }
  }

  /** An entry is genuine from the moment it is logged, or never: a new document has a new key. */
  lemma GenuineIsStable(c: Config, s: System, step: Step, id: nat)
    requires Enabled(s, step) && 1 <= id <= |s.log|
    ensures Genuine(Next(c, s, step), id) <==> Genuine(s, id)
    ensures FieldsOf(Next(c, s, step), id) == FieldsOf(s, id)
  {
    hide Next, Enabled;
    StepGrows(c, s, step);
    NewKeysAreFresh(c, s, step);
    SettledGrows(s, Next(c, s, step), id);
    assert FieldsOf(s, id) in s.log;
  }

  // ---------- what one effect writes ----------

  function HandOf(s: System, w: string): nat
    requires w in s.workers && s.workers[w].held != []
  {
    s.workers[w].held[0].id
  }

  predicate SameStatus(d: Document, e: Document) { d.status == e.status && d.writer == e.writer }

  /** Steps other than worker effects leave statuses alone, add an uploaded document, or set
      the status processed. */
  lemma QuietStatuses(c: Config, s: System, step: Step)
    requires Enabled(s, step) && !Writes(step)
    ensures forall key | key in Next(c, s, step).docs ::
              || (key in s.docs && SameStatus(s.docs[key], Next(c, s, step).docs[key]))
              || Next(c, s, step).docs[key].status.Processed?
              || (key !in s.docs && Next(c, s, step).docs[key].status.Uploaded?)
  {
    if Effect(step) {
      hide Next, WorkerAfter;
      EffectFrame(c, s, step);
    } else if Quiet(step) {
      hide Next;
      QuietFrame(c, s, step);
    } else {
      hide HasDigest, FreshKey, EffectNext, RelayNext;
    }
  }

  lemma WrittenStatuses(c: Config, s: System, step: Step)
    requires Enabled(s, step) && Writes(step) && Genuine(s, HandOf(s, step.w))
    ensures var t, id := Next(c, s, step), HandOf(s, step.w);
            && t.docs.Keys == s.docs.Keys
            && t.docs[KeyOf(s, id)].status == Written(step) && t.docs[KeyOf(s, id)].writer == id
            && (forall key | key in s.docs && key != KeyOf(s, id) :: t.docs[key] == s.docs[key])
  {
    hide Next, WorkerAfter, Describes;
    EffectFrame(c, s, step);
    assert FieldsOf(s, HandOf(s, step.w)).Parsed?;
  }

  // ---------- statuses over a step ----------

  ghost predicate StatusSound(s: System) {
    ProcessingSound(s) && LeavingSound(s) && GoneSound(s)
  }

  /** Everything the argument keeps, in runs that keep leases. */
  ghost predicate Kept(c: Config, s: System) {
    Sound(c, s) && Safe(s) && Leased(s) && StatusSound(s)
  }

  /** What is known about the message a worker effect is about. */
  lemma HandInUse(c: Config, s: System, step: Step)
    requires Kept(c, s) && Enabled(s, step) && (Writes(step) || step.Ack? || step.Bury?)
    ensures step.w in s.workers && s.workers[step.w].held != []
    ensures Writes(step) ==> Genuine(s, HandOf(s, step.w))
    ensures step.Ack? || step.Bury? ==> Released(s, HandOf(s, step.w))
    ensures 1 <= HandOf(s, step.w) <= |s.log| && Unacknowledged(s, HandOf(s, step.w))
  {
    hide Sound, Safe, Leased, Genuine, Settled, Released, GoneSound, ProcessingSound, FreshKey, HasDigest;
    HeldIsLogged(c, s, step.w);
    HandIsPending(s, step.w);
    SafeWorker(s, step.w);
  }

  lemma HandIsPending(s: System, w: string)
    requires Leased(s) && w in s.workers && s.workers[w].held != []
    ensures HandOf(s, w) in s.group.pending
  {
    assert s.workers[w].held[0] in s.workers[w].held && Current(s.group, s.workers[w].held[0]);
  }

  /** Two workers never hold the same entry. */
  lemma HandsDiffer(c: Config, s: System, v: string, w: string)
    requires Sound(c, s) && Leased(s) && v in s.workers && w in s.workers && v != w
    requires s.workers[v].held != [] && s.workers[w].held != []
    ensures HandOf(s, v) != HandOf(s, w)
  {
    hide RunsSound, UnspentAreNew, WorkerSound;
    var d, e := s.workers[v].held[0], s.workers[w].held[0];
    assert d in s.workers[v].held && e in s.workers[w].held;
    assert Current(s.group, d) && Current(s.group, e) && !Same(s.workers[v].held[0], s.workers[w].held[0]);
  }

  lemma StaysUnacknowledged(c: Config, s: System, step: Step, id: nat)
    requires Sound(c, s) && Enabled(s, step) && Unacknowledged(s, id)
    requires step.Ack? ==> HandOf(s, step.w) != id
    ensures Unacknowledged(Next(c, s, step), id)
  {
    hide Next, HeldOnce, RunsSound, UnspentAreNew, WorkerSound;
    StepGrows(c, s, step);
    if Acknowledged(Next(c, s, step).group, id) {
      AcknowledgedBy(c, s, step, id);
    }
  }

  lemma {:induction false} ProcessingStaysSound(c: Config, s: System, step: Step, key: Key)
    requires Kept(c, s) && Enabled(s, step)
    requires key in Next(c, s, step).docs && Next(c, s, step).docs[key].status.Processing?
    ensures var t := Next(c, s, step);
            var id := t.docs[key].writer;
            Unacknowledged(t, id) && Genuine(t, id) && KeyOf(t, id) == key
  {
    hide Next, Enabled, Sound, Safe, Leased, Genuine, LeavingSound, GoneSound;
    var t := Next(c, s, step);
    var id := t.docs[key].writer;
    if Writes(step) {
      HandInUse(c, s, step);
      WrittenStatuses(c, s, step);
      StaysUnacknowledged(c, s, step, id);
      GenuineIsStable(c, s, step, id);
    } else {
      QuietStatuses(c, s, step);
      assert SameStatus(s.docs[key], t.docs[key]);
      assert Unacknowledged(s, id) && Genuine(s, id) && KeyOf(s, id) == key;
      if step.Ack? {
        HandInUse(c, s, step);
        ReleasedIsNotWriter(s, HandOf(s, step.w), key);
      }
      StaysUnacknowledged(c, s, step, id);
      GenuineIsStable(c, s, step, id);
    }
  }

  lemma ReleasedIsNotWriter(s: System, id: nat, key: Key)
    requires Released(s, id) && ProcessingSound(s) && key in s.docs && s.docs[key].status.Processing?
    ensures s.docs[key].writer != id
  {
  }

  lemma {:induction false} StaysReleased(c: Config, s: System, step: Step, id: nat)
    requires Kept(c, s) && Enabled(s, step) && 1 <= id <= |s.log| && Released(s, id)
    requires Writes(step) ==> HandOf(s, step.w) != id
    ensures Released(Next(c, s, step), id)
  {
    hide Next, Enabled, Sound, Safe, Leased, Settled, StatusSound;
    GenuineIsStable(c, s, step, id);
    if Writes(step) {
      HandInUse(c, s, step);
      WrittenStatuses(c, s, step);
    } else {
      QuietStatuses(c, s, step);
    }
  }

  lemma HandAfterWrite(c: Config, s: System, step: Step)
    requires Enabled(s, step) && Writes(step)
    ensures step.w in Next(c, s, step).workers && Next(c, s, step).workers[step.w].held == s.workers[step.w].held
    ensures Releasing(Next(c, s, step).workers[step.w].phase) ==> !Written(step).Processing?
    ensures InPhase(s, step.w, s.workers[step.w].phase)
  {
    hide Next, DocsAfter, StoredAfter, FreshKey, HasDigest;
    EffectFrame(c, s, step);
  }

  /** A worker that turns to releasing a message has just settled its document, or found the
      message not to be genuine. */
  lemma {:induction false} TurnsToRelease(c: Config, s: System, step: Step)
    requires Kept(c, s) && Enabled(s, step) && (step.Look? || Writes(step))
    requires step.w in Next(c, s, step).workers && Releasing(Next(c, s, step).workers[step.w].phase)
    requires Next(c, s, step).workers[step.w].held != [] && step.w in s.workers && s.workers[step.w].held != []
    ensures HandOf(Next(c, s, step), step.w) == HandOf(s, step.w)
    ensures Released(Next(c, s, step), HandOf(s, step.w))
  {
    hide EffectNext, Looked, Sound, Safe, Leased, StatusSound, Genuine;
    if step.Look? {
      LookReleases(c, s, step.w, step.reply);
    } else {
      HandAfterWrite(c, s, step);
      HandInUse(c, s, step);
      WrittenStatuses(c, s, step);
      GenuineIsStable(c, s, step, HandOf(s, step.w));
    }
  }

  lemma HoldsMessage(s: System, step: Step)
    requires Enabled(s, step) && (step.Look? || Writes(step))
    ensures step.w in s.workers && s.workers[step.w].held != []
  {
    hide FreshKey, HasDigest;
  }

  lemma LookReleases(c: Config, s: System, w: string, reply: Reply)
    requires InPhase(s, w, Checked) && Releasing(Looked(c, s, w, reply).workers[w].phase)
    ensures HandOf(Looked(c, s, w, reply), w) == HandOf(s, w)
    ensures Released(Looked(c, s, w, reply), HandOf(s, w))
  {
    var t, id := Looked(c, s, w, reply), HandOf(s, w);
    assert FieldsOf(t, id) == FieldsOf(s, id) && t.docs == s.docs;
  }

  /** Otherwise a worker that is releasing a message was already. */
  lemma KeepsReleasing(c: Config, s: System, step: Step, w: string)
    requires Enabled(s, step) && !(Acts(step) && Actor(step) == w && (step.Look? || Writes(step)))
    requires w in Next(c, s, step).workers && Releasing(Next(c, s, step).workers[w].phase)
    requires Next(c, s, step).workers[w].held != []
    ensures w in s.workers && Releasing(s.workers[w].phase) && s.workers[w].held != []
    ensures HandOf(Next(c, s, step), w) == HandOf(s, w)
    ensures Writes(step) ==> step.w != w
  {
    hide FreshKey, HasDigest, SelectRows, Marked, AutoClaim, Write, VersionOf;
    OnlyActorChanges(c, s, step);
  }

  lemma {:induction false} LeavingStaysSound(c: Config, s: System, step: Step, w: string)
    requires Kept(c, s) && Enabled(s, step)
    requires w in Next(c, s, step).workers && Releasing(Next(c, s, step).workers[w].phase)
    requires Next(c, s, step).workers[w].held != []
    ensures Released(Next(c, s, step), HandOf(Next(c, s, step), w))
  {
    hide Next, Enabled, Released, Settled, ProcessingSound, GoneSound, HeldOnce, RunsSound, UnspentAreNew;
    if Acts(step) && Actor(step) == w && (step.Look? || Writes(step)) {
      HoldsMessage(s, step);
      TurnsToRelease(c, s, step);
    } else {
      KeepsReleasing(c, s, step, w);
      assert s.workers[w].held[0] in s.workers[w].held && Made(s.group, s.workers[w].held[0]);
      if Writes(step) {
        HandInUse(c, s, step);
        HandsDiffer(c, s, step.w, w);
      }
      StaysReleased(c, s, step, HandOf(s, w));
    }
  }

  lemma GoneStaysSound(c: Config, s: System, step: Step, id: nat)
    requires Kept(c, s) && Enabled(s, step)
    requires Acknowledged(Next(c, s, step).group, id) && Genuine(Next(c, s, step), id)
    ensures !Next(c, s, step).docs[KeyOf(Next(c, s, step), id)].status.Uploaded?
  {
    hide Next, Enabled, Settled, HeldOnce, RunsSound, UnspentAreNew, WorkerSound, Safe, Leased;
    hide ProcessingSound, LeavingSound;
    AcknowledgedBy(c, s, step, id);
    if step.Ack? {
      HandInUse(c, s, step);
    }
    GenuineIsStable(c, s, step, id);
    if Writes(step) {
      HandInUse(c, s, step);
      WrittenStatuses(c, s, step);
    } else {
      QuietStatuses(c, s, step);
    }
  }

  lemma {:induction false} StepKeepsStatuses(c: Config, s: System, step: Step)
    requires Kept(c, s) && Enabled(s, step)
    ensures StatusSound(Next(c, s, step))
  {
    hide Next, Enabled, Kept, Released;
    var t := Next(c, s, step);
    forall key | key in t.docs && t.docs[key].status.Processing?
      ensures var id := t.docs[key].writer;
              Unacknowledged(t, id) && Genuine(t, id) && KeyOf(t, id) == key
    {
      ProcessingStaysSound(c, s, step, key);
    }
    forall w | w in t.workers && Releasing(t.workers[w].phase) && t.workers[w].held != []
      ensures Released(t, t.workers[w].held[0].id)
    {
      LeavingStaysSound(c, s, step, w);
    }
    forall id | Acknowledged(t.group, id) && Genuine(t, id) ensures !t.docs[KeyOf(t, id)].status.Uploaded? {
      GoneStaysSound(c, s, step, id);
    }
  }

  // ---------- every run ----------

  lemma {:induction false} StepKeeps(c: Config, s: System, step: Step)
    requires Kept(c, s) && Punctual(c, s) && Enabled(s, step)
    ensures Kept(c, Next(c, s, step))
  {
    hide Next, Enabled, Sound, Safe, Leased, StatusSound, Punctual;
    StepKeepsSound(c, s, step);
    StepKeepsSafe(c, s, step);
    StepKeepsLeases(c, s, step);
    StepKeepsStatuses(c, s, step);
  }

  lemma {:induction false} KeptAt(c: Config, states: seq<System>, steps: seq<Step>, i: nat)
    requires Run(c, states, steps) && LeaseKept(c, states) && i < |states|
    ensures Kept(c, states[i])
  {
    hide Next, Enabled, Punctual;
    if i == 0 {
      SafeAt(c, states, steps, 0);
    } else {
      hide Kept;
      KeptAt(c, states, steps, i - 1);
      StepKeeps(c, states[i - 1], steps[i - 1]);
    }
  }

  lemma {:induction false} OutboxAt(c: Config, states: seq<System>, steps: seq<Step>, i: nat)
    requires Run(c, states, steps) && i < |states|
    ensures OutboxSound(states[i])
  {
    hide Next, Enabled;
    if i > 0 {
      hide OutboxSound;
      OutboxAt(c, states, steps, i - 1);
      StepKeepsOutbox(c, states[i - 1], steps[i - 1]);
    }
  }

  /** Someone will still see the document: its event is unpublished, or in the stream and not
      yet acknowledged. */
  ghost predicate Covered(s: System, key: Key) {
    || (exists r | r in s.outbox :: r.event.key == key && !r.published)
    || (exists id :: Unacknowledged(s, id) && Genuine(s, id) && KeyOf(s, id) == key)
  }

  /** No accepted document is stranded: in every run that keeps leases, with any number of
      relays and workers that stop anywhere, a document that is uploaded or in process has an
      unpublished outbox row or an unacknowledged stream entry that describes it. */
  lemma NoDocumentIsStranded(c: Config, states: seq<System>, steps: seq<Step>, i: nat, key: Key)
    requires Run(c, states, steps) && LeaseKept(c, states) && i < |states|
    requires key in states[i].docs
    requires states[i].docs[key].status.Uploaded? || states[i].docs[key].status.Processing?
    ensures Covered(states[i], key)
  {
    hide Run, LeaseKept, Sound, Safe, Leased;
    KeptAt(c, states, steps, i);
    OutboxAt(c, states, steps, i);
    var s := states[i];
    if s.docs[key].status.Processing? {
      assert Unacknowledged(s, s.docs[key].writer);
    } else {
      var r :| r in s.outbox && r.event.key == key;
      if r.published {
        assert RowSound(s, r);
        var k :| 0 <= k < |s.log| && s.log[k] == Parsed(r.event);
        assert FieldsOf(s, k + 1) == s.log[k];
        assert Genuine(s, k + 1);
        assert Unacknowledged(s, k + 1);
      }
    }
  }

  /** Publication precedes the mark, so a marked row is in the stream in every run. */
  lemma MarkedRowsWerePublished(c: Config, states: seq<System>, steps: seq<Step>, i: nat, r: Row)
    requires Run(c, states, steps) && i < |states|
    requires r in states[i].outbox && r.published
    ensures Parsed(r.event) in states[i].log
  {
    hide Run;
    OutboxAt(c, states, steps, i);
    assert RowSound(states[i], r);
  }
}
