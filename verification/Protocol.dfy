/** Durable delivery as a transition system: uploads, the outbox relay, the document stream
    with its consumer group, workers and the dead-letter stream.

    Every step is one durable effect of one participant, or a read; steps of different
    participants interleave freely, and a relay or worker may stop before any of its steps. */
module Protocol {
  import opened Common
  import opened Streams

  const PIPELINE_VERSION := "6"
  const MEDIA_TYPES := {"application/pdf", "image/png", "image/jpeg", "image/tiff"}

  // ---------- data ----------

  datatype Key = Key(tenant: string, id: string)

  /** writer is history: the stream entry on whose behalf the status was last written, 0 if none. */
  datatype Document = Document(sha256: string, objectKey: string, mediaType: string, size: nat,
                               status: Status, version: string, writer: nat)

  datatype Event = Event(key: Key, sha256: string, objectKey: string, mediaType: string, size: nat)

  /** The fields of a stream entry: an event that parses, or anything else. */
  datatype Fields = Parsed(event: Event) | Unparsed(raw: string)

  datatype Row = Row(event: Event, published: bool)

  /** A relay transaction: the locked rows, the first next of which have been published. */
  datatype Relay = Relay(rows: seq<nat>, next: nat)

  /** The k-th delivery of an entry, made at time at. */
  datatype Delivery = Delivery(id: nat, k: nat, at: int)

  /** Where a worker stands. From Checked on it handles the first delivery it holds. */
  datatype Phase =
    | Idle | Reading | Taking
    | Checked | Starting | Indexing | Confirming | Failing | Burying | Acking

  datatype Worker = Worker(phase: Phase, held: seq<Delivery>, attempts: nat, cursor: nat)

  datatype Letter = Letter(entry: nat, fields: Fields, attempts: nat)

  /** runs and stored are history: the deliveries on which process was called, and the
      documents whose output was stored at the current pipeline version. */
  datatype System = System(
    docs: map<Key, Document>, outbox: seq<Row>, relays: map<string, Relay>,
    log: seq<Fields>, group: Group, letters: seq<Letter>, now: int,
    workers: map<string, Worker>, runs: seq<Delivery>, stored: set<Key>)

  datatype Config = Config(maxAttempts: nat, minIdle: int, batch: nat)

  const INITIAL := System(map[], [], map[], [], Group(0, map[]), [], 0, map[], [], {})

  /** How an effect ends: done, in an error that leaves the message pending, or in any other
      error. */
  datatype Reply = Done | Transient | Poison

  datatype Step =
    | Register(key: Key, sha256: string, mediaType: string, size: nat)
    | IndexByHand(key: Key, sha256: string, version: string)
    | RelayBegin(relay: string, tenant: string, batch: nat)
    | RelayPublish(relay: string)
    | RelayCommit(relay: string)
    | RelayStop(relay: string)
    | Inject(fields: Fields)
    | Tick(ms: nat)
    | Start(w: string)
    | Stop(w: string)
    | Abandon(w: string)
    | Reclaim(w: string)
    | Rest(w: string)
    | Read(w: string)
    | Take(w: string)
    | Look(w: string, reply: Reply)
    | Begin(w: string, reply: Reply)
    | Index(w: string, reply: Reply)
    | Confirm(w: string, reply: Reply)
    | Fail(w: string, reply: Reply)
    | Bury(w: string)
    | Ack(w: string)

  // ---------- the program's tests ----------

  /** What WorkerEvent validation accepts. */
  predicate ValidEvent(f: Fields) {
    && f.Parsed?
    && f.event.objectKey == f.event.key.tenant + "/" + f.event.sha256
    && f.event.mediaType in MEDIA_TYPES
  }

  predicate Describes(e: Event, d: Document) {
    e.sha256 == d.sha256 && e.objectKey == d.objectKey && e.mediaType == d.mediaType && e.size == d.size
  }

  /** lookup succeeds: the document exists for the tenant and matches the event. */
  predicate Owned(s: System, e: Event) {
    e.key in s.docs && Describes(e, s.docs[e.key])
  }

  predicate Completed(d: Document) {
    d.status == Processed && d.version == PIPELINE_VERSION
  }

  function FieldsOf(s: System, id: nat): Fields {
    if 1 <= id <= |s.log| then s.log[id - 1] else Unparsed("")
  }

  predicate HasDigest(s: System, tenant: string, sha256: string) {
    exists key | key in s.docs :: key.tenant == tenant && s.docs[key].sha256 == sha256
  }

  /** A new random identifier: no document and no event carries it. */
  predicate FreshKey(s: System, key: Key) {
    && key !in s.docs
    && (forall f | f in s.log :: f.Parsed? ==> f.event.key != key)
  }

  predicate Locked(s: System, row: nat) {
    exists r | r in s.relays :: row in s.relays[r].rows
  }

  /** The first batch unpublished rows of the tenant that no other relay has locked. */
  function SelectRows(s: System, tenant: string, batch: nat, from: nat): seq<nat>
    requires from <= |s.outbox|
    decreases |s.outbox| - from
  {
    if batch == 0 || from == |s.outbox| then []
    else if s.outbox[from].event.key.tenant == tenant && !s.outbox[from].published && !Locked(s, from)
    then [from] + SelectRows(s, tenant, batch - 1, from + 1)
    else SelectRows(s, tenant, batch, from + 1)
  }

  // ---------- transitions ----------

  predicate Busy(phase: Phase) {
    !phase.Idle? && !phase.Reading? && !phase.Taking?
  }

  predicate InPhase(s: System, w: string, phase: Phase) {
    w in s.workers && s.workers[w].phase == phase && (Busy(phase) ==> s.workers[w].held != [])
  }

  predicate Enabled(s: System, step: Step) {
    match step
    case Register(key, sha256, mediaType, size) => FreshKey(s, key) && mediaType in MEDIA_TYPES
    case IndexByHand(key, sha256, version) =>
      if key in s.docs then s.docs[key].sha256 == sha256
      else FreshKey(s, key) && !HasDigest(s, key.tenant, sha256)
    case RelayBegin(r, tenant, batch) => r !in s.relays && batch >= 1
    case RelayPublish(r) => r in s.relays && s.relays[r].next < |s.relays[r].rows|
    case RelayCommit(r) => r in s.relays && s.relays[r].next == |s.relays[r].rows|
    case RelayStop(r) => r in s.relays
    case Inject(_) => true
    case Tick(_) => true
    case Start(w) => w !in s.workers
    case Stop(w) => w in s.workers
    case Abandon(w) => w in s.workers
    case Reclaim(w) => InPhase(s, w, Idle)
    case Rest(w) => InPhase(s, w, Idle) && s.workers[w].cursor == 0
    case Read(w) => InPhase(s, w, Reading)
    case Take(w) => InPhase(s, w, Taking)
    case Look(w, reply) => InPhase(s, w, Checked) && !reply.Poison?
    case Begin(w, _) => InPhase(s, w, Starting)
    case Index(w, _) => InPhase(s, w, Indexing)
    case Confirm(w, _) => InPhase(s, w, Confirming)
    case Fail(w, reply) => InPhase(s, w, Failing) && !reply.Poison?
    case Bury(w) => InPhase(s, w, Burying)
    case Ack(w) => InPhase(s, w, Acking)
  }

  function Put(s: System, w: string, wk: Worker): System {
    s.(workers := s.workers[w := wk])
  }

  /** Leave the first message and go on to the next one. */
  function Drop(wk: Worker): Worker
    requires wk.held != []
  {
    wk.(phase := Taking, held := wk.held[1..])
  }

  /** register: the key of the stored object is made of tenant and digest. */
  function Registered(s: System, key: Key, sha256: string, mediaType: string, size: nat): System {
    if HasDigest(s, key.tenant, sha256) then s
    else
      var objectKey := key.tenant + "/" + sha256;
      s.(docs := s.docs[key := Document(sha256, objectKey, mediaType, size, Uploaded, "", 0)],
         outbox := s.outbox + [Row(Event(key, sha256, objectKey, mediaType, size), false)])
  }

  /** An index run outside the worker, by any release: the upsert keeps what registration wrote. */
  function Indexed(s: System, key: Key, sha256: string, version: string): System {
    var d := if key in s.docs then s.docs[key] else Document(sha256, "", "", 0, Processed, version, 0);
    s.(docs := s.docs[key := d.(status := Processed, version := version, writer := 0)],
       stored := if version == PIPELINE_VERSION then s.stored + {key} else s.stored)
  }

  function Marked(outbox: seq<Row>, rows: seq<nat>): seq<Row> {
    seq(|outbox|, i requires 0 <= i < |outbox| => if i in rows then outbox[i].(published := true) else outbox[i])
  }

  function RelayNext(s: System, step: Step): System
    requires Enabled(s, step)
    requires step.RelayBegin? || step.RelayPublish? || step.RelayCommit? || step.RelayStop?
  {
    match step
    case RelayBegin(r, tenant, batch) => s.(relays := s.relays[r := Relay(SelectRows(s, tenant, batch, 0), 0)])
    case RelayPublish(r) =>
      var relay := s.relays[r];
      var row := relay.rows[relay.next];
      var f := if row < |s.outbox| then Parsed(s.outbox[row].event) else Unparsed("");
      s.(log := s.log + [f], relays := s.relays[r := relay.(next := relay.next + 1)])
    case RelayCommit(r) => s.(outbox := Marked(s.outbox, s.relays[r].rows), relays := s.relays - {r})
    case RelayStop(r) => s.(relays := s.relays - {r})
  }

  function DeliveriesOf(g: Group, ids: seq<nat>): seq<Delivery>
    requires forall id | id in ids :: id in g.pending
  {
    seq(|ids|, i requires 0 <= i < |ids| =>
      assert ids[i] in ids;
      Delivery(ids[i], g.pending[ids[i]].attempts, g.pending[ids[i]].deliveredMs))
  }

  function Claimed(c: Config, s: System, w: string): Claim
    requires w in s.workers
  {
    AutoClaim(s.group, |s.log|, w, s.now, c.minIdle, s.workers[w].cursor, c.batch)
  }

  /** Reclaim idle entries; with none to handle, go on to new ones. */
  function Reclaimed(c: Config, s: System, w: string): System
    requires w in s.workers
  {
    var r := Claimed(c, s, w);
    AutoClaimSpec(s.group, |s.log|, w, s.now, c.minIdle, s.workers[w].cursor, c.batch);
    var wk := Worker(if r.ids == [] then Reading else Taking, DeliveriesOf(r.group, r.ids), 0, r.cursor);
    Put(s, w, wk).(group := r.group)
  }

  function ReadNew(c: Config, s: System, w: string): System
    requires w in s.workers
  {
    if s.group.offset > |s.log| then s
    else
      var g := Deliver(s.group, |s.log|, w, s.now, c.batch);
      Put(s, w, Worker(Taking, DeliveriesOf(g, NewIds(s.group, |s.log|, c.batch)), 0, s.workers[w].cursor)).(group := g)
  }

  /** xpending: an entry that is no longer pending is skipped. */
  function Taken(s: System, w: string): System
    requires InPhase(s, w, Taking)
  {
    var wk := s.workers[w];
    if wk.held == [] then Put(s, w, wk.(phase := Idle))
    else
      var attempts := Attempts(s.group, wk.held[0].id);
      Put(s, w, if attempts == 0 then Drop(wk) else wk.(phase := Checked, attempts := attempts))
  }

  /** Validation, ownership, replay and the retry budget, in that order. */
  function Route(c: Config, s: System, id: nat, attempts: nat): Phase {
    var f := FieldsOf(s, id);
    if !ValidEvent(f) || !Owned(s, f.event) then Burying
    else if Completed(s.docs[f.event.key]) then Acking
    else if attempts > c.maxAttempts then Failing
    else Starting
  }

  function Looked(c: Config, s: System, w: string, reply: Reply): System
    requires InPhase(s, w, Checked)
  {
    var wk := s.workers[w];
    var id := wk.held[0].id;
    if reply.Transient? && ValidEvent(FieldsOf(s, id)) then Put(s, w, Drop(wk))
    else Put(s, w, wk.(phase := Route(c, s, id, wk.attempts)))
  }

  /** Write the status of the document an entry names, if there is one. */
  function Write(docs: map<Key, Document>, f: Fields, status: Status, version: string, id: nat): map<Key, Document> {
    if f.Parsed? && f.event.key in docs
    then docs[f.event.key := docs[f.event.key].(status := status, version := version, writer := id)]
    else docs
  }

  function VersionOf(s: System, f: Fields): string {
    if f.Parsed? && f.event.key in s.docs then s.docs[f.event.key].version else ""
  }

  /** Where an effect leads: on to the next phase, to failure, or away from the message. */
  function Onward(wk: Worker, reply: Reply, next: Phase): Worker
    requires wk.held != []
  {
    match reply
    case Done => wk.(phase := next)
    case Poison => wk.(phase := Failing)
    case Transient => Drop(wk)
  }

  /** A worker's durable effects on the message in hand. */
  predicate Effect(step: Step) {
    step.Begin? || step.Index? || step.Confirm? || step.Fail? || step.Bury? || step.Ack?
  }

  function WorkerAfter(wk: Worker, step: Step): Worker
    requires Effect(step) && wk.held != []
  {
    match step
    case Begin(_, reply) => Onward(wk, reply, Indexing)
    case Index(_, reply) => Onward(wk, reply, Confirming)
    case Confirm(_, reply) => Onward(wk, reply, Acking)
    case Fail(_, reply) => Onward(wk, reply, Burying)
    case Bury(_) => wk.(phase := Acking)
    case Ack(_) => Drop(wk)
  }

  /** The effects that write the status of the document, and what they write. */
  predicate Writes(step: Step) {
    || (step.Begin? && step.reply.Done?) || (step.Index? && step.reply.Done?)
    || (step.Confirm? && step.reply.Done?) || (step.Fail? && step.reply.Done?)
  }

  function Written(step: Step): Status
    requires Writes(step)
  {
    if step.Begin? then Processing else if step.Fail? then Status.Failed else Processed
  }

  /** The output goes with the current pipeline version; the other effects leave the version. */
  function VersionAfter(s: System, f: Fields, step: Step): string {
    if step.Index? then PIPELINE_VERSION else VersionOf(s, f)
  }

  function DocsAfter(s: System, f: Fields, step: Step, id: nat): map<Key, Document> {
    if Writes(step) then Write(s.docs, f, Written(step), VersionAfter(s, f, step), id) else s.docs
  }

  function StoredAfter(s: System, f: Fields, step: Step): set<Key> {
    if step.Index? && step.reply.Done? && f.Parsed? then s.stored + {f.event.key} else s.stored
  }

  /** One effect: begin calls process and sets the status, index stores the output, confirm and
      fail set the status, bury appends the dead letter, ack acknowledges. */
  function EffectNext(s: System, step: Step): System
    requires Enabled(s, step) && Effect(step)
  {
    var wk := s.workers[step.w];
    var id := wk.held[0].id;
    var f := FieldsOf(s, id);
    s.(workers := s.workers[step.w := WorkerAfter(wk, step)],
       docs := DocsAfter(s, f, step, id),
       stored := StoredAfter(s, f, step),
       runs := if step.Begin? then s.runs + [wk.held[0]] else s.runs,
       letters := if step.Bury? then s.letters + [Letter(id, f, wk.attempts)] else s.letters,
       group := if step.Ack? then Acknowledge(s.group, id) else s.group)
  }

  /** Steps that touch no document, letter or stored output. */
  predicate Quiet(step: Step) { !Effect(step) && !step.Register? && !step.IndexByHand? }

  function Next(c: Config, s: System, step: Step): System
    requires Enabled(s, step)
  {
    match step
    case Register(key, sha256, mediaType, size) => Registered(s, key, sha256, mediaType, size)
    case IndexByHand(key, sha256, version) => Indexed(s, key, sha256, version)
    case RelayBegin(_, _, _) => RelayNext(s, step)
    case RelayPublish(_) => RelayNext(s, step)
    case RelayCommit(_) => RelayNext(s, step)
    case RelayStop(_) => RelayNext(s, step)
    case Inject(fields) => s.(log := s.log + [fields])
    case Tick(ms) => s.(now := s.now + ms)
    case Start(w) => Put(s, w, Worker(Idle, [], 0, 0))
    case Stop(w) => s.(workers := s.workers - {w})
    case Abandon(w) => Put(s, w, s.workers[w].(phase := Idle, held := []))
    case Reclaim(w) => Reclaimed(c, s, w)
    case Rest(w) => Put(s, w, s.workers[w].(phase := Reading))
    case Read(w) => ReadNew(c, s, w)
    case Take(w) => Taken(s, w)
    case Look(w, reply) => Looked(c, s, w, reply)
    case Begin(_, _) => EffectNext(s, step)
    case Index(_, _) => EffectNext(s, step)
    case Confirm(_, _) => EffectNext(s, step)
    case Fail(_, _) => EffectNext(s, step)
    case Bury(_) => EffectNext(s, step)
    case Ack(_) => EffectNext(s, step)
  }

  lemma QuietFrame(c: Config, s: System, step: Step)
    requires Enabled(s, step) && Quiet(step)
    ensures var t := Next(c, s, step);
            && t.docs == s.docs && t.letters == s.letters && t.stored == s.stored && t.runs == s.runs
            && s.log <= t.log && (!step.Reclaim? && !step.Read? ==> t.group == s.group)
  {
    if step.RelayBegin? || step.RelayPublish? || step.RelayCommit? || step.RelayStop? {
      hide FreshKey, HasDigest, SelectRows, Marked, EffectNext;
    } else {
      hide HasDigest, FreshKey, RelayNext, EffectNext, AutoClaim, Deliver, DeliveriesOf, Route, Attempts;
    }
  }

  lemma EffectFrame(c: Config, s: System, step: Step)
    requires Enabled(s, step) && Effect(step)
    ensures InPhase(s, step.w, s.workers[step.w].phase) && Busy(s.workers[step.w].phase)
    ensures Next(c, s, step) == EffectNext(s, step)
  {
    hide HasDigest, FreshKey, EffectNext;
  }

  // ---------- runs ----------

  /** states[0], steps[0], states[1], ... is a run from the empty system. */
  predicate Run(c: Config, states: seq<System>, steps: seq<Step>) {
    && |states| == |steps| + 1
    && states[0] == INITIAL
    && forall i | 0 <= i < |steps| :: Enabled(states[i], steps[i]) && states[i + 1] == Next(c, states[i], steps[i])
  }

  /** The lease: no worker still holds a delivery by the time it could be reclaimed. */
  predicate Punctual(c: Config, s: System) {
    forall w, i | w in s.workers && 0 <= i < |s.workers[w].held| :: s.now - s.workers[w].held[i].at < c.minIdle
  }

  predicate LeaseKept(c: Config, states: seq<System>) {
    forall i | 0 <= i < |states| :: Punctual(c, states[i])
  }

  // ---------- the steps of one participant ----------

  /** The steps lead from s to t. */
  ghost predicate Plays(c: Config, s: System, steps: seq<Step>, t: System)
    decreases |steps|
  {
    if steps == [] then s == t
    else Enabled(s, steps[0]) && Plays(c, Next(c, s, steps[0]), steps[1..], t)
  }

  lemma {:induction false} PlaysOn(c: Config, s: System, steps: seq<Step>, t: System, step: Step)
    requires Plays(c, s, steps, t) && Enabled(t, step)
    ensures Plays(c, s, steps + [step], Next(c, t, step))
    decreases |steps|
  {
    hide Next, Enabled;
    if steps == [] {
      assert [step][1..] == [];
      assert Plays(c, Next(c, t, step), [], Next(c, t, step));
    } else {
      PlaysOn(c, Next(c, s, steps[0]), steps[1..], t, step);
      assert (steps + [step])[1..] == steps[1..] + [step];
    }
  }
}
