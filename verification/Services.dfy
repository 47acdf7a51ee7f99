/** The worker as the program runs it: each effect is one step of the protocol, so what a call does
    to the durable state is a stretch of a run in which only this worker moves. Interleavings with
    other participants are the business of the protocol, where every step stands by itself. */
module Services {
  import opened Common
  import opened Streams
  import opened Protocol
  import opened AckSafety

  /** What the stores, the stream and the pipeline answer while one message is handled. */
  datatype Replies = Replies(lookup: Reply, begin: Reply, index: Reply, confirm: Reply, fail: Reply)

  predicate Answers(r: Replies) { !r.lookup.Poison? && !r.fail.Poison? }

  /** How handling a message ends for the message and its document. */
  datatype Ending =
    | Skipped      // no longer pending
    | LeftPending  // a transient error: nothing is acknowledged
    | Rejected     // invalid or not owned: dead letter, document untouched
    | Replayed     // already stored at this version
    | GaveUp       // marked failed, dead letter
    | Succeeded    // stored and confirmed

  /** The ending the documentation prescribes, from what the handler finds. */
  function Expected(c: Config, s: System, id: nat, r: Replies): Ending {
    var f, attempts := FieldsOf(s, id), Attempts(s.group, id);
    var failed := if r.fail.Done? then GaveUp else LeftPending;
    if attempts == 0 then Skipped
    else if !ValidEvent(f) then Rejected
    else if r.lookup.Transient? then LeftPending
    else if !Owned(s, f.event) then Rejected
    else if Completed(s.docs[f.event.key]) then Replayed
    else if attempts > c.maxAttempts then failed
    else Attempted(r)
  }

  /** How a call of process ends: the first effect that is not done decides. */
  function Attempted(r: Replies): Ending {
    var failed := if r.fail.Done? then GaveUp else LeftPending;
    if r.begin.Transient? then LeftPending
    else if r.begin.Poison? then failed
    else if r.index.Transient? then LeftPending
    else if r.index.Poison? then failed
    else if r.confirm.Transient? then LeftPending
    else if r.confirm.Poison? then failed
    else Succeeded
  }

  /** How a message ends from the phase that lookup put it in. */
  function FromPhase(phase: Phase, r: Replies): Ending {
    match phase
    case Burying => Rejected
    case Acking => Replayed
    case Failing => if r.fail.Done? then GaveUp else LeftPending
    case Starting => Attempted(r)
    case _ => LeftPending
  }

  predicate Acknowledges(e: Ending) { e.Rejected? || e.Replayed? || e.GaveUp? || e.Succeeded? }

  predicate Buries(e: Ending) { e.Rejected? || e.GaveUp? }

  // ---------- what handling does to the document ----------

  datatype Standing = Standing(status: Status, version: string)

  predicate Names(docs: map<Key, Document>, f: Fields) { f.Parsed? && f.event.key in docs }

  function StandingOf(docs: map<Key, Document>, f: Fields): Standing
    requires Names(docs, f)
  {
    Standing(docs[f.event.key].status, docs[f.event.key].version)
  }

  /** Where process gets: nowhere, in process, or stored at the current version. */
  function Reached(d: Standing, r: Replies): Standing {
    if !r.begin.Done? then d
    else if !r.index.Done? then Standing(Processing, d.version)
    else Standing(Processed, PIPELINE_VERSION)
  }

  /** The document after the message was handled from the phase that lookup put it in. */
  function StandingAfter(d: Standing, phase: Phase, r: Replies): Standing {
    match phase
    case Failing => if r.fail.Done? then Standing(Status.Failed, d.version) else d
    case Starting =>
      var reached := Reached(d, r);
      if Attempted(r).GaveUp? then Standing(Status.Failed, reached.version) else reached
    case _ => d
  }

  /** The same for handling it from the start. */
  function HandledStanding(c: Config, s: System, id: nat, d: Standing, r: Replies): Standing {
    var attempts := Attempts(s.group, id);
    if attempts == 0 || (r.lookup.Transient? && ValidEvent(FieldsOf(s, id))) then d
    else StandingAfter(d, Route(c, s, id, attempts), r)
  }

  /** Only the document that the fields name changes, and only in status, version and writer. */
  predicate Touches(docs: map<Key, Document>, after: map<Key, Document>, f: Fields) {
    && after.Keys == docs.Keys
    && (forall key | key in docs && !(f.Parsed? && key == f.event.key) :: after[key] == docs[key])
    && (Names(docs, f) ==> SameFile(docs[f.event.key], after[f.event.key]))
  }

  lemma WriteTouches(docs: map<Key, Document>, f: Fields, status: Status, version: string, id: nat)
    ensures var after := Write(docs, f, status, version, id);
            Touches(docs, after, f) && (Names(docs, f) ==> StandingOf(after, f) == Standing(status, version))
  {
  }

  lemma TouchesAgain(docs: map<Key, Document>, mid: map<Key, Document>, after: map<Key, Document>, f: Fields)
    requires Touches(docs, mid, f) && Touches(mid, after, f)
    ensures Touches(docs, after, f)
  {
  }

  lemma TouchesNothing(docs: map<Key, Document>, f: Fields)
    ensures Touches(docs, docs, f)
  {
  }

  lemma StillNames(docs: map<Key, Document>, after: map<Key, Document>, f: Fields)
    requires Touches(docs, after, f)
    ensures Names(docs, f) <==> Names(after, f)
  {
  }

  /** What an effect does to the documents. */
  lemma EffectTouches(s: System, f: Fields, step: Step, id: nat)
    ensures var after := DocsAfter(s, f, step, id);
            && Touches(s.docs, after, f) && (!Writes(step) ==> after == s.docs)
            && (Names(s.docs, f) && Effect(step) ==>
                  StandingOf(after, f) == if Writes(step) then Standing(Written(step), VersionAfter(s, f, step))
                                          else StandingOf(s.docs, f))
  {
    hide Write, VersionAfter;
    if Writes(step) {
      WriteTouches(s.docs, f, Written(step), VersionAfter(s, f, step), id);
    }
  }

  // ---------- what handling does to the pending list ----------

  /** The group after the first entries of a batch ended as given. */
  function AckAll(g: Group, ids: seq<nat>, endings: seq<Ending>): Group
    requires |endings| <= |ids|
  {
    if endings == [] then g
    else
      var n := |endings| - 1;
      var before := AckAll(g, ids, endings[..n]);
      if Acknowledges(endings[n]) then Acknowledge(before, ids[n]) else before
  }

  lemma AckOneMore(g: Group, ids: seq<nat>, endings: seq<Ending>, e: Ending)
    requires |endings| < |ids|
    ensures AckAll(g, ids, endings + [e]) ==
              if Acknowledges(e) then Acknowledge(AckAll(g, ids, endings), ids[|endings|]) else AckAll(g, ids, endings)
  {
    assert (endings + [e])[..|endings|] == endings;
  }

  /** Exactly the entries whose message was settled leave the pending list. */
  lemma {:induction false} AckAllRemoves(g: Group, ids: seq<nat>, endings: seq<Ending>)
    requires |endings| <= |ids|
    ensures var g' := AckAll(g, ids, endings);
            && g'.offset == g.offset
            && (forall id :: id in g'.pending <==>
                 id in g.pending && forall i | 0 <= i < |endings| && ids[i] == id :: !Acknowledges(endings[i]))
            && forall id | id in g'.pending :: g'.pending[id] == g.pending[id]
  {
    if endings != [] {
      AckAllRemoves(g, ids, endings[..|endings| - 1]);
    }
  }

  /** The document that the fields name is stored at the current version. */
  predicate IsCompleted(docs: map<Key, Document>, f: Fields) {
    ValidEvent(f) && f.event.key in docs && Completed(docs[f.event.key])
  }

  lemma RouteNames(c: Config, s: System, id: nat)
    ensures forall attempts :: !Route(c, s, id, attempts).Burying? ==>
              ValidEvent(FieldsOf(s, id)) && Names(s.docs, FieldsOf(s, id))
  {
  }

  lemma SuccessCompletes(c: Config, s: System, t: System, id: nat, r: Replies)
    requires var f, e := FieldsOf(s, id), Expected(c, s, id, r);
             && (e.Succeeded? || e.Replayed? ==> Names(s.docs, f) && Names(t.docs, f))
             && (Names(s.docs, f) && Names(t.docs, f) ==>
                   StandingOf(t.docs, f) == HandledStanding(c, s, id, StandingOf(s.docs, f), r))
    ensures var e := Expected(c, s, id, r);
            e.Succeeded? || e.Replayed? ==> IsCompleted(t.docs, FieldsOf(s, id))
  {
  }

  function IdsOf(held: seq<Delivery>): seq<nat> {
    seq(|held|, i requires 0 <= i < |held| => held[i].id)
  }

  class WorkerService {
    const c: Config
    const name: string
    const reclaimSeconds: real
    var world: System
    var nextReclaim: real
    ghost var steps: seq<Step>
    ghost const start: System

    ghost predicate Valid()
      reads this
    {
      name in world.workers && Plays(c, start, steps, world)
    }

    constructor (c: Config, name: string, reclaimSeconds: real, world: System)
      requires name !in world.workers
      ensures Valid() && this.c == c && this.name == name && start == world && nextReclaim == 0.0
      ensures this.world == Next(c, world, Start(name)) && steps == [Start(name)]
      ensures this.reclaimSeconds == reclaimSeconds
    {
      this.c, this.name, this.world := c, name, Next(c, world, Start(name));
      this.reclaimSeconds, nextReclaim := reclaimSeconds, 0.0;
      start, steps := world, [Start(name)];
      new;
      assert [Start(name)][1..] == [];
    }

    function Me(): Worker
      requires name in world.workers
      reads this
    {
      world.workers[name]
    }

    /** The entry and the fields of the message in hand. */
    function Id(): nat
      requires name in world.workers && Me().held != []
      reads this
    {
      Me().held[0].id
    }

    function Hand(): Fields
      requires name in world.workers && Me().held != []
      reads this
    {
      FieldsOf(world, Id())
    }

    /** One step. */
    method Do(step: Step)
      requires Valid() && Enabled(world, step) && name in Next(c, world, step).workers
      modifies this`world, this`steps
      ensures Valid() && world == Next(c, old(world), step) && steps == old(steps) + [step]
    {
      PlaysOn(c, start, steps, world, step);
      world, steps := Next(c, world, step), steps + [step];
    }

    /** One durable effect on the message in hand. */
    method Act(step: Step)
      requires Valid() && Effect(step) && step.w == name && Enabled(world, step)
      modifies this`world, this`steps
      ensures Valid() && world == EffectNext(old(world), step) && steps == old(steps) + [step]
      ensures old(Me().held) != [] && Touches(old(world).docs, world.docs, old(Hand()))
      ensures !Writes(step) ==> world.docs == old(world).docs
      ensures Names(old(world).docs, old(Hand())) ==>
                StandingOf(world.docs, old(Hand())) ==
                  if Writes(step) then Standing(Written(step), VersionAfter(old(world), old(Hand()), step))
                  else StandingOf(old(world).docs, old(Hand()))
    {
      hide Plays, Next, WorkerAfter, DocsAfter, StoredAfter, VersionAfter, Touches, StandingOf;
      EffectFrame(c, world, step);
      EffectTouches(world, Hand(), step, Id());
      Do(step);
    }

    /** dead_letter: append, then acknowledge. */
    method DeadLetter()
      requires Valid() && InPhase(world, name, Burying)
      modifies this`world, this`steps
      ensures Valid() && old(steps) <= steps
      ensures Me() == Drop(old(Me())) && world.log == old(world.log) && world.docs == old(world.docs)
      ensures world.group == Acknowledge(old(world.group), old(Id()))
      ensures world.letters == old(world.letters) + [Letter(old(Id()), old(Hand()), old(Me().attempts))]
    {
      hide Plays, Next, Touches, StandingOf, VersionAfter, Acknowledge;
      Act(Bury(name));
      Act(Ack(name));
    }

    /** _fail: mark the document, then dead-letter the message. */
    method GiveUp(fail: Reply)
      requires Valid() && InPhase(world, name, Failing) && !fail.Poison?
      modifies this`world, this`steps
      ensures Valid() && old(steps) <= steps
      ensures Me().phase == Taking && Me().held == old(Me().held)[1..] && Me().cursor == old(Me().cursor)
      ensures world.log == old(world.log)
      ensures world.group == if fail.Done? then Acknowledge(old(world.group), old(Id())) else old(world.group)
      ensures world.letters == old(world.letters) +
                if fail.Done? then [Letter(old(Id()), old(Hand()), old(Me().attempts))] else []
      ensures Touches(old(world).docs, world.docs, old(Hand()))
      ensures Names(old(world).docs, old(Hand())) ==>
                var d := StandingOf(old(world).docs, old(Hand()));
                StandingOf(world.docs, old(Hand())) == if fail.Done? then Standing(Status.Failed, d.version) else d
    {
      hide Plays, Next, Touches, Acknowledge, DocsAfter;
      Act(Protocol.Fail(name, fail));
      if fail.Done? {
        DeadLetter();
      }
    }

    /** The second half of process: the output, then the status again. */
    method StoreOutput(r: Replies) returns (reply: Reply)
      requires Valid() && InPhase(world, name, Indexing)
      modifies this`world, this`steps
      ensures Valid() && old(steps) <= steps
      ensures world.group == old(world.group) && world.letters == old(world.letters) && world.log == old(world.log)
      ensures Me().cursor == old(Me().cursor) && Me().attempts == old(Me().attempts)
      ensures reply == if !r.index.Done? then r.index else r.confirm
      ensures match reply
              case Done => InPhase(world, name, Acking) && Me().held == old(Me().held)
              case Poison => InPhase(world, name, Failing) && Me().held == old(Me().held)
              case Transient => Me().phase == Taking && Me().held == old(Me().held)[1..]
      ensures Touches(old(world).docs, world.docs, old(Hand()))
      ensures Names(old(world).docs, old(Hand())) ==>
                StandingOf(world.docs, old(Hand())) ==
                  if r.index.Done? then Standing(Processed, PIPELINE_VERSION)
                  else StandingOf(old(world).docs, old(Hand()))
    {
      hide Plays, Next, Touches, DocsAfter, StoredAfter;
      ghost var f, s0 := Hand(), world;
      Act(Index(name, r.index));
      if !r.index.Done? {
        return r.index;
      }
      ghost var s1 := world;
      StillNames(s0.docs, s1.docs, f);
      Act(Confirm(name, r.confirm));
      TouchesAgain(s0.docs, s1.docs, world.docs, f);
      return r.confirm;
    }

    /** process: the status, the output, the status again; the first effect that is not done
        decides. */
    method Process(r: Replies) returns (reply: Reply)
      requires Valid() && InPhase(world, name, Starting)
      modifies this`world, this`steps
      ensures Valid() && old(steps) <= steps
      ensures world.group == old(world.group) && world.letters == old(world.letters) && world.log == old(world.log)
      ensures Me().cursor == old(Me().cursor) && Me().attempts == old(Me().attempts)
      ensures reply == if !r.begin.Done? then r.begin else if !r.index.Done? then r.index else r.confirm
      ensures match reply
              case Done => InPhase(world, name, Acking) && Me().held == old(Me().held)
              case Poison => InPhase(world, name, Failing) && Me().held == old(Me().held)
              case Transient => Me().phase == Taking && Me().held == old(Me().held)[1..]
      ensures Touches(old(world).docs, world.docs, old(Hand()))
      ensures Names(old(world).docs, old(Hand())) ==>
                StandingOf(world.docs, old(Hand())) == Reached(StandingOf(old(world).docs, old(Hand())), r)
    {
      hide Plays, Next, Touches, DocsAfter, StoredAfter;
      ghost var f, s0 := Hand(), world;
      Act(Begin(name, r.begin));
      if !r.begin.Done? {
        return r.begin;
      }
      ghost var s1 := world;
      StillNames(s0.docs, s1.docs, f);
      reply := StoreOutput(r);
      TouchesAgain(s0.docs, s1.docs, world.docs, f);
    }

    /** The rest of _handle_valid, once the message has been looked up. */
    method Settle(r: Replies) returns (ending: Ending)
      requires Valid() && Me().held != [] && Answers(r)
      requires Me().phase in {Burying, Acking, Failing, Starting}
      modifies this`world, this`steps
      ensures Valid() && old(steps) <= steps
      ensures Me().phase == Taking && Me().held == old(Me().held)[1..] && Me().cursor == old(Me().cursor)
      ensures ending == FromPhase(old(Me().phase), r) && !ending.Skipped? && world.log == old(world.log)
      ensures world.group == if Acknowledges(ending) then Acknowledge(old(world.group), old(Id())) else old(world.group)
      ensures world.letters == old(world.letters) +
                if Buries(ending) then [Letter(old(Id()), old(Hand()), old(Me().attempts))] else []
      ensures ending.Rejected? || ending.Replayed? ==> world.docs == old(world).docs
      ensures Touches(old(world).docs, world.docs, old(Hand()))
      ensures Names(old(world).docs, old(Hand())) ==>
                StandingOf(world.docs, old(Hand())) ==
                  StandingAfter(StandingOf(old(world).docs, old(Hand())), old(Me().phase), r)
    {
      hide Plays, Next, Touches, Acknowledge, DocsAfter, StoredAfter, StandingOf;
      TouchesNothing(world.docs, Hand());
      ghost var f, s0 := Hand(), world;
      match Me().phase
      case Burying =>
        DeadLetter();
        return Rejected;
      case Acking =>
        Act(Ack(name));
        return Replayed;
      case Failing =>
        GiveUp(r.fail);
        return if r.fail.Done? then GaveUp else LeftPending;
      case Starting =>
        ending := Try(r);
    }

    /** The branch that calls process. */
    method Try(r: Replies) returns (ending: Ending)
      requires Valid() && InPhase(world, name, Starting) && Answers(r)
      modifies this`world, this`steps
      ensures Valid() && old(steps) <= steps
      ensures Me().phase == Taking && Me().held == old(Me().held)[1..] && Me().cursor == old(Me().cursor)
      ensures ending == Attempted(r) && world.log == old(world.log)
      ensures world.group == if Acknowledges(ending) then Acknowledge(old(world.group), old(Id())) else old(world.group)
      ensures world.letters == old(world.letters) +
                if Buries(ending) then [Letter(old(Id()), old(Hand()), old(Me().attempts))] else []
      ensures Touches(old(world).docs, world.docs, old(Hand()))
      ensures Names(old(world).docs, old(Hand())) ==>
                StandingOf(world.docs, old(Hand())) ==
                  StandingAfter(StandingOf(old(world).docs, old(Hand())), Starting, r)
    {
      hide Plays, Next, Touches, Acknowledge, DocsAfter, StoredAfter, StandingOf;
      ghost var f, s0 := Hand(), world;
      var reply := Process(r);
      ghost var s1 := world;
      StillNames(s0.docs, s1.docs, f);
      if reply.Done? {
        Act(Ack(name));
        TouchesAgain(s0.docs, s1.docs, world.docs, f);
        return Succeeded;
      } else if reply.Poison? {
        GiveUp(r.fail);
        TouchesAgain(s0.docs, s1.docs, world.docs, f);
        return if r.fail.Done? then GaveUp else LeftPending;
      } else {
        return LeftPending;
      }
    }

    /** handle: the message ends as prescribed, it is acknowledged exactly for the endings that
        settle it, a dead letter is appended exactly for the endings that bury it, and the document
        stands as prescribed. */
    method Handle(r: Replies) returns (ending: Ending)
      requires Valid() && InPhase(world, name, Taking) && Me().held != [] && Answers(r)
      modifies this`world, this`steps
      ensures Valid() && old(steps) <= steps
      ensures Me().phase == Taking && Me().held == old(Me().held)[1..] && Me().cursor == old(Me().cursor)
      ensures ending == Expected(c, old(world), old(Id()), r) && world.log == old(world.log)
      ensures world.group == if Acknowledges(ending) then Acknowledge(old(world.group), old(Id())) else old(world.group)
      ensures world.letters == old(world.letters) +
                if Buries(ending) then [Letter(old(Id()), old(Hand()), Attempts(old(world.group), old(Id())))] else []
      ensures ending.Skipped? || ending.Rejected? || ending.Replayed? ==> world.docs == old(world).docs
      ensures ending.Succeeded? || ending.Replayed? ==> IsCompleted(world.docs, old(Hand()))
      ensures Touches(old(world).docs, world.docs, old(Hand()))
      ensures Names(old(world).docs, old(Hand())) ==>
                StandingOf(world.docs, old(Hand())) ==
                  HandledStanding(c, old(world), old(Id()), StandingOf(old(world).docs, old(Hand())), r)
    {
      hide Plays, Touches, Acknowledge, Next, StandingAfter, Attempted, ValidEvent, Completed, Owned;
      TouchesNothing(world.docs, Hand());
      var left := Open(r);
      if left.Some? {
        return left.value;
      }
      ghost var s0, s1, f, id := old(world), world, Hand(), Id();
      RouteNames(c, s0, id);
      ending := Settle(r);
      StillNames(s1.docs, world.docs, f);
      SuccessCompletes(c, s0, world, id, r);
    }

    /** The first part: the delivery count, and the lookup. */
    method Open(r: Replies) returns (left: Option<Ending>)
      requires Valid() && InPhase(world, name, Taking) && Me().held != [] && Answers(r)
      modifies this`world, this`steps
      ensures Valid() && old(steps) <= steps
      ensures world.docs == old(world.docs) && world.log == old(world.log) && world.letters == old(world.letters)
      ensures world.group == old(world.group) && Me().cursor == old(Me().cursor)
      ensures var attempts := Attempts(old(world.group), old(Id()));
              if attempts == 0 then left == Some(Skipped)
              else if r.lookup.Transient? && ValidEvent(old(Hand())) then left == Some(LeftPending)
              else left == None && Me().attempts == attempts
                   && InPhase(world, name, Route(c, old(world), old(Id()), attempts))
      ensures if left.None? then Me().held == old(Me().held)
              else Me().phase == Taking && Me().held == old(Me().held)[1..]
    {
      hide Plays, EffectNext, Reclaimed, ReadNew, RelayNext, Registered, Indexed, ValidEvent, Owned, Completed;
      ghost var s := world;
      Do(Take(name));
      if Me().phase == Taking {
        return Some(Skipped);
      }
      SameRoute(c, s, world, Id(), Me().attempts);
      Do(Look(name, r.lookup));
      return if Me().phase == Taking then Some(LeftPending) else None;
    }

    /** The batch in order; once asked to stop, the rest of it stays pending. */
    method HandleBatch(replies: nat -> Replies, stopAfter: nat) returns (endings: seq<Ending>)
      requires Valid() && InPhase(world, name, Taking) && forall i :: Answers(replies(i))
      modifies this`world, this`steps
      ensures Valid() && old(steps) <= steps
      ensures Me().phase == Idle && Me().held == [] && Me().cursor == old(Me().cursor)
      ensures |endings| == Min(stopAfter, |old(Me().held)|) && world.log == old(world.log)
      ensures world.group == AckAll(old(world.group), IdsOf(old(Me().held)), endings)
    {
      hide Plays, Expected, HandledStanding, Touches, Acknowledge, EffectNext, Reclaimed, ReadNew, RelayNext, Looked;
      ghost var held, g := Me().held, world.group;
      endings := [];
      while Me().held != []
        invariant Valid() && old(steps) <= steps && InPhase(world, name, Taking)
        invariant |endings| <= |held| && |endings| <= stopAfter
        invariant Me().held == held[|endings|..] && Me().cursor == old(Me().cursor)
        invariant world.log == old(world.log) && world.group == AckAll(g, IdsOf(held), endings)
        decreases |Me().held|
      {
        if |endings| == stopAfter {
          break;
        }
        var ending := Handle(replies(|endings|));
        AckOneMore(g, IdsOf(held), endings, ending);
        endings := endings + [ending];
      }
      if Me().held == [] {
        Do(Take(name));
      } else {
        Do(Abandon(name));
      }
    }

    /** run_once: the pending scan goes first, unless it has wrapped and its cooldown is not over;
        new entries are read only if it yields none. */
    method RunOnce(stopped: bool, asked: real, wrapped: real, replies: nat -> Replies, stopAfter: nat)
      returns (batch: seq<nat>, endings: seq<Ending>)
      requires Valid() && InPhase(world, name, Phase.Idle) && GroupOver(world.group, |world.log|)
      requires forall i :: Answers(replies(i))
      modifies this
      ensures Valid() && old(steps) <= steps
      ensures stopped ==> world == old(world) && nextReclaim == old(nextReclaim) && batch == [] && endings == []
      ensures !stopped ==>
                var claim := Claimed(c, old(world), name);
                var reclaims := old(Me().cursor) != 0 || asked >= old(nextReclaim);
                var g := if reclaims then claim.group else old(world.group);
                && Me().phase == Phase.Idle && Me().held == [] && world.log == old(world.log)
                && Me().cursor == (if reclaims then claim.cursor else 0)
                && nextReclaim == (if reclaims && claim.cursor == 0 then wrapped + reclaimSeconds else old(nextReclaim))
                && GroupOver(g, |world.log|) && |endings| == Min(stopAfter, |batch|)
                && (if reclaims && claim.ids != []
                    then batch == claim.ids && world.group == AckAll(g, batch, endings)
                    else
                      && batch == NewIds(g, |world.log|, c.batch)
                      && world.group == AckAll(Deliver(g, |world.log|, name, old(world).now, c.batch), batch, endings))
    {
      if stopped {
        return [], [];
      }
      hide Plays, AckAll, Claimed, Deliver, NewIds, Next, GroupOver;
      ghost var s0 := world;
      Fetch(asked, wrapped);
      batch := IdsOf(Me().held);
      endings := HandleBatch(replies, stopAfter);
    }

    /** Reclaim, or read, or reclaim nothing and then read. */
    method Fetch(asked: real, wrapped: real)
      requires Valid() && InPhase(world, name, Phase.Idle) && GroupOver(world.group, |world.log|)
      modifies this
      ensures Valid() && old(steps) <= steps && InPhase(world, name, Taking) && world.log == old(world.log)
      ensures var claim := Claimed(c, old(world), name);
              var reclaims := old(Me().cursor) != 0 || asked >= old(nextReclaim);
              var g := if reclaims then claim.group else old(world.group);
              && Me().cursor == (if reclaims then claim.cursor else 0)
              && nextReclaim == (if reclaims && claim.cursor == 0 then wrapped + reclaimSeconds else old(nextReclaim))
              && GroupOver(g, |world.log|)
              && (if reclaims && claim.ids != []
                  then IdsOf(Me().held) == claim.ids && world.group == g
                  else
                    && IdsOf(Me().held) == NewIds(g, |world.log|, c.batch)
                    && world.group == Deliver(g, |world.log|, name, old(world).now, c.batch))
    {
      hide Plays, Reclaimed, ReadNew, Claimed, EffectNext, RelayNext, Registered, Indexed, Looked, Taken, GroupOver;
      ghost var s0 := world;
      if Me().cursor != 0 || asked >= nextReclaim {
        ReclaimIdle(wrapped);
      } else {
        Do(Rest(name));
      }
      if Me().phase == Reading {
        ReadWorker(c, world, name);
        Do(Read(name));
      }
    }

    /** _reclaim: one step of the pending scan; the cooldown starts when it wraps. */
    method ReclaimIdle(wrapped: real)
      requires Valid() && InPhase(world, name, Phase.Idle) && GroupOver(world.group, |world.log|)
      modifies this
      ensures Valid() && old(steps) <= steps && world.log == old(world.log) && world.now == old(world.now)
      ensures var claim := Claimed(c, old(world), name);
              && Me().cursor == claim.cursor && IdsOf(Me().held) == claim.ids && world.group == claim.group
              && GroupOver(world.group, |world.log|)
              && InPhase(world, name, if claim.ids == [] then Reading else Taking)
              && nextReclaim == (if claim.cursor == 0 then wrapped + reclaimSeconds else old(nextReclaim))
    {
      hide Plays, Reclaimed, ReadNew, Claimed, EffectNext, RelayNext, Registered, Indexed, Looked, Taken, GroupOver;
      ClaimKeepsGroup(c, world, name);
      ReclaimedWorker(c, world, name);
      Do(Reclaim(name));
      if Me().cursor == 0 {
        nextReclaim := wrapped + reclaimSeconds;
      }
    }
  }

  /** Routing looks at the documents, the entry and the attempts only. */
  lemma SameRoute(c: Config, s: System, t: System, id: nat, attempts: nat)
    requires t.docs == s.docs && t.log == s.log
    ensures Route(c, t, id, attempts) == Route(c, s, id, attempts) && FieldsOf(t, id) == FieldsOf(s, id)
  {
  }

  lemma ReclaimedWorker(c: Config, s: System, w: string)
    requires w in s.workers
    ensures var t, claim := Reclaimed(c, s, w), Claimed(c, s, w);
            && w in t.workers && t.group == claim.group && t.log == s.log && t.now == s.now
            && t.workers[w].cursor == claim.cursor && IdsOf(t.workers[w].held) == claim.ids
            && t.workers[w].phase == (if claim.ids == [] then Reading else Taking)
  {
    hide Claimed;
  }

  lemma ReadWorker(c: Config, s: System, w: string)
    requires w in s.workers && GroupOver(s.group, |s.log|)
    ensures var t := ReadNew(c, s, w);
            && w in t.workers && t.group == Deliver(s.group, |s.log|, w, s.now, c.batch) && t.log == s.log
            && t.workers[w].cursor == s.workers[w].cursor && t.workers[w].phase == Taking
            && IdsOf(t.workers[w].held) == NewIds(s.group, |s.log|, c.batch)
  {
  }

  lemma ClaimKeepsGroup(c: Config, s: System, w: string)
    requires w in s.workers && GroupOver(s.group, |s.log|)
    ensures GroupOver(Claimed(c, s, w).group, |s.log|)
  {
    hide AutoClaim;
    AutoClaimKeepsGroup(s.group, |s.log|, w, s.now, c.minIdle, s.workers[w].cursor, c.batch);
  }
}
