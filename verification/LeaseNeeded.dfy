/** Why the lease is a hypothesis: without it a run strands a document. A worker that was
    overtaken sets the status to processing after the entry has been acknowledged, and stops. */
module LeaseNeeded {
  import opened Common
  import opened Streams
  import opened Protocol
  import opened AckSafety
  import opened NoLoss

  /** A run that ends in s. */
  predicate RunTo(c: Config, states: seq<System>, steps: seq<Step>, s: System) {
    Run(c, states, steps) && states[|steps|] == s
  }

  /** One more step. */
  lemma Extend(c: Config, states: seq<System>, steps: seq<Step>, s: System, step: Step, t: System)
    returns (states': seq<System>, steps': seq<Step>)
    requires RunTo(c, states, steps, s) && Enabled(s, step) && Next(c, s, step) == t
    ensures RunTo(c, states', steps', t) && states' == states + [t]
  {
    hide Next, Enabled;
    states', steps' := states + [t], steps + [step];
  }

  const CONFIG := Config(5, 300000, 1)
  const KEY := Key("acme", "1")
  const EVENT := Event(KEY, "d", "acme" + "/" + "d", "application/pdf", 1)
  const ENTRY := Parsed(EVENT)

  function Doc(status: Status, version: string, writer: nat): map<Key, Document> {
    map[KEY := Document("d", "acme" + "/" + "d", "application/pdf", 1, status, version, writer)]
  }

  function At(docs: map<Key, Document>, group: Group, now: int, workers: map<string, Worker>,
              runs: seq<Delivery>, stored: set<Key>): System {
    System(docs, [Row(EVENT, true)], map[], [ENTRY], group, [], now, workers, runs, stored)
  }

  /** The step leads from s to t. */
  ghost predicate Leads(s: System, step: Step, t: System) {
    Enabled(s, step) && Next(CONFIG, s, step) == t
  }

  const UPLOADED := INITIAL.(docs := Doc(Uploaded, "", 0), outbox := [Row(EVENT, false)])
  const LOCKED := UPLOADED.(relays := map["r" := Relay([0], 0)])
  const PUBLISHED := UPLOADED.(relays := map["r" := Relay([0], 1)], log := [ENTRY])

  lemma Uploads()
    ensures Leads(INITIAL, Register(KEY, "d", "application/pdf", 1), UPLOADED)
  {
    hide EffectNext, RelayNext;
  }

  lemma Relays()
    ensures Leads(UPLOADED, RelayBegin("r", "acme", 1), LOCKED)
    ensures Leads(LOCKED, RelayPublish("r"), PUBLISHED)
    ensures Leads(PUBLISHED, RelayCommit("r"), At(Doc(Uploaded, "", 0), Group(0, map[]), 0, map[], [], {}))
  {
    hide EffectNext;
    assert SelectRows(UPLOADED, "acme", 1, 0) == [0];
    assert Marked([Row(EVENT, false)], [0]) == [Row(EVENT, true)];
  }

  /** Uploaded and relayed. */
  lemma Accepted() returns (states: seq<System>, steps: seq<Step>)
    ensures RunTo(CONFIG, states, steps, At(Doc(Uploaded, "", 0), Group(0, map[]), 0, map[], [], {}))
  {
    hide RunTo, Next, Enabled;
    Uploads();
    Relays();
    states, steps := Nothing();
    states, steps := Extend(CONFIG, states, steps, INITIAL, Register(KEY, "d", "application/pdf", 1), UPLOADED);
    states, steps := Extend(CONFIG, states, steps, UPLOADED, RelayBegin("r", "acme", 1), LOCKED);
    states, steps := Extend(CONFIG, states, steps, LOCKED, RelayPublish("r"), PUBLISHED);
    states, steps := Extend(CONFIG, states, steps, PUBLISHED, RelayCommit("r"),
                            At(Doc(Uploaded, "", 0), Group(0, map[]), 0, map[], [], {}));
  }

  lemma Nothing() returns (states: seq<System>, steps: seq<Step>)
    ensures RunTo(CONFIG, states, steps, INITIAL)
  {
    states, steps := [INITIAL], [];
  }

  const A1 := Delivery(1, 1, 0)
  const B2 := Delivery(1, 2, 300000)
  const WAITING := Worker(Starting, [A1], 1, 0)

  const NONE := Group(0, map[])
  const READ := Group(1, map[1 := Pending("a", 0, 1)])
  const RECLAIMED := Group(1, map[1 := Pending("b", 300000, 2)])
  const DONE := Group(1, map[])

  /** Worker a alone, before the document is touched. */
  function Alone(g: Group, now: int, a: Worker): System {
    At(Doc(Uploaded, "", 0), g, now, map["a" := a], [], {})
  }

  /** Worker b beside the waiting worker a. */
  function Beside(docs: map<Key, Document>, g: Group, b: Worker, runs: seq<Delivery>, stored: set<Key>): System {
    At(docs, g, 300000, map["a" := WAITING, "b" := b], runs, stored)
  }

  const UP := Doc(Uploaded, "", 0)
  const STORED := Doc(Processed, PIPELINE_VERSION, 1)

  // Worker a: a delivery on which it decides to act.
  const A0 := Alone(NONE, 0, Worker(Idle, [], 0, 0))
  const A_READING := Alone(NONE, 0, Worker(Reading, [], 0, 0))
  const A_TAKING := Alone(READ, 0, Worker(Taking, [A1], 0, 0))
  const A_CHECKED := Alone(READ, 0, Worker(Checked, [A1], 1, 0))
  const A_READY := Alone(READ, 0, WAITING)
  const A_LATE := Alone(READ, 300000, WAITING)

  // Worker b: it reclaims the entry, stores the output and acknowledges.
  const B0 := Beside(UP, READ, Worker(Idle, [], 0, 0), [], {})
  const B_TAKING := Beside(UP, RECLAIMED, Worker(Taking, [B2], 0, 0), [], {})
  const B_CHECKED := Beside(UP, RECLAIMED, Worker(Checked, [B2], 2, 0), [], {})
  const B_READY := Beside(UP, RECLAIMED, Worker(Starting, [B2], 2, 0), [], {})
  const B_INDEXING := Beside(Doc(Processing, "", 1), RECLAIMED, Worker(Indexing, [B2], 2, 0), [B2], {})
  const B_CONFIRMING := Beside(STORED, RECLAIMED, Worker(Confirming, [B2], 2, 0), [B2], {KEY})
  const B_ACKING := Beside(STORED, RECLAIMED, Worker(Acking, [B2], 2, 0), [B2], {KEY})
  const B_DONE := Beside(STORED, DONE, Worker(Taking, [], 2, 0), [B2], {KEY})

  // Worker a again, too late.
  const A_OVERWRITES := At(Doc(Processing, PIPELINE_VERSION, 1), DONE, 300000,
                           map["a" := WAITING.(phase := Indexing), "b" := Worker(Taking, [], 2, 0)], [B2, A1], {KEY})
  const STRANDED := A_OVERWRITES.(workers := map["b" := Worker(Taking, [], 2, 0)])

  lemma AStarts()
    ensures Leads(At(UP, NONE, 0, map[], [], {}), Start("a"), A0) && Leads(A0, Rest("a"), A_READING)
  {
    hide EffectNext;
  }

  lemma AReads()
    ensures Leads(A_READING, Read("a"), A_TAKING)
  {
    hide EffectNext;
    assert NewIds(NONE, 1, 1) == [1] && Deliver(NONE, 1, "a", 0, 1) == READ;
    assert DeliveriesOf(READ, [1]) == [A1];
  }

  lemma ATakes()
    ensures Leads(A_TAKING, Take("a"), A_CHECKED)
  {
    hide EffectNext;
  }

  lemma ALooks()
    ensures Leads(A_CHECKED, Look("a", Done), A_READY) && Leads(A_READY, Tick(300000), A_LATE)
  {
    hide EffectNext;
  }

  /** Worker a decides to process the entry, and then does nothing for minIdle. */
  lemma Overtaken() returns (states: seq<System>, steps: seq<Step>)
    ensures RunTo(CONFIG, states, steps, A_LATE)
  {
    hide RunTo, Next, Enabled;
    AStarts();
    AReads();
    ATakes();
    ALooks();
    states, steps := Accepted();
    states, steps := Extend(CONFIG, states, steps, At(UP, NONE, 0, map[], [], {}), Start("a"), A0);
    states, steps := Extend(CONFIG, states, steps, A0, Rest("a"), A_READING);
    states, steps := Extend(CONFIG, states, steps, A_READING, Read("a"), A_TAKING);
    states, steps := Extend(CONFIG, states, steps, A_TAKING, Take("a"), A_CHECKED);
    states, steps := Extend(CONFIG, states, steps, A_CHECKED, Look("a", Done), A_READY);
    states, steps := Extend(CONFIG, states, steps, A_READY, Tick(300000), A_LATE);
  }

  lemma BStarts()
    ensures Leads(A_LATE, Start("b"), B0)
  {
    hide EffectNext;
  }

  lemma ClaimedByB()
    ensures AutoClaim(READ, 1, "b", 300000, 300000, 0, 1) == Claim(0, [1], RECLAIMED)
  {
    assert PendingFrom(READ.pending, 0, 1) == [1] && IdleOf(READ.pending, [1], 300000, 300000) == [1];
    assert ScanEnd(READ.pending, [1], 300000, 300000, 1, 0) == 1;
    assert Reassign(READ.pending, [1], "b", 300000) == RECLAIMED.pending;
  }

  lemma BReclaims()
    ensures Leads(B0, Reclaim("b"), B_TAKING)
  {
    hide EffectNext, AutoClaim, Deliver, Taken, Looked, ReadNew, RelayNext, Registered, Indexed;
    ClaimedByB();
    assert DeliveriesOf(RECLAIMED, [1]) == [B2];
    assert Claimed(CONFIG, B0, "b") == Claim(0, [1], RECLAIMED);
  }

  lemma BTakes()
    ensures Leads(B_TAKING, Take("b"), B_CHECKED)
  {
    hide EffectNext;
  }

  lemma BLooks()
    ensures Leads(B_CHECKED, Look("b", Done), B_READY)
  {
    hide EffectNext;
  }

  lemma BBegins()
    ensures Leads(B_READY, Begin("b", Done), B_INDEXING)
  {
  }

  lemma BIndexes()
    ensures Leads(B_INDEXING, Index("b", Done), B_CONFIRMING)
  {
  }

  lemma BConfirms()
    ensures Leads(B_CONFIRMING, Confirm("b", Done), B_ACKING)
  {
  }

  lemma BAcknowledges()
    ensures Leads(B_ACKING, Ack("b"), B_DONE)
  {
    assert Acknowledge(RECLAIMED, 1) == DONE;
    assert [B2][1..] == [];
  }

  /** Worker b takes over and finishes. */
  lemma Finished() returns (states: seq<System>, steps: seq<Step>)
    ensures RunTo(CONFIG, states, steps, B_DONE)
  {
    hide RunTo, Next, Enabled;
    BStarts();
    BReclaims();
    BTakes();
    BLooks();
    BBegins();
    BIndexes();
    BConfirms();
    BAcknowledges();
    states, steps := Overtaken();
    states, steps := Extend(CONFIG, states, steps, A_LATE, Start("b"), B0);
    states, steps := Extend(CONFIG, states, steps, B0, Reclaim("b"), B_TAKING);
    states, steps := Extend(CONFIG, states, steps, B_TAKING, Take("b"), B_CHECKED);
    states, steps := Extend(CONFIG, states, steps, B_CHECKED, Look("b", Done), B_READY);
    states, steps := Extend(CONFIG, states, steps, B_READY, Begin("b", Done), B_INDEXING);
    states, steps := Extend(CONFIG, states, steps, B_INDEXING, Index("b", Done), B_CONFIRMING);
    states, steps := Extend(CONFIG, states, steps, B_CONFIRMING, Confirm("b", Done), B_ACKING);
    states, steps := Extend(CONFIG, states, steps, B_ACKING, Ack("b"), B_DONE);
  }

  lemma ABegins()
    ensures Leads(B_DONE, Begin("a", Done), A_OVERWRITES)
  {
  }

  lemma AStops()
    ensures Leads(A_OVERWRITES, Stop("a"), STRANDED)
  {
    hide EffectNext;
  }

  lemma NothingLeft()
    ensures KEY in STRANDED.docs && STRANDED.docs[KEY].status.Processing? && !Covered(STRANDED, KEY)
    ensures !Punctual(CONFIG, B_DONE)
  {
    assert B_DONE.now - B_DONE.workers["a"].held[0].at >= CONFIG.minIdle;
  }

  /** A run without the lease that leaves a document in process with nothing left to deliver. */
  lemma WithoutTheLeaseADocumentIsStranded() returns (states: seq<System>, steps: seq<Step>)
    ensures Run(CONFIG, states, steps) && !LeaseKept(CONFIG, states)
    ensures var s := states[|steps|];
            KEY in s.docs && s.docs[KEY].status.Processing? && !Covered(s, KEY)
  {
    hide Next, Enabled, Covered, Punctual;
    ABegins();
    AStops();
    NothingLeft();
    states, steps := Finished();
    var k := |steps|;
    states, steps := Extend(CONFIG, states, steps, B_DONE, Begin("a", Done), A_OVERWRITES);
    states, steps := Extend(CONFIG, states, steps, A_OVERWRITES, Stop("a"), STRANDED);
    assert states[k] == B_DONE;
  }
}
