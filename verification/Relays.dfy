/** The outbox relay as the program runs it, one step of the protocol after another, and what its row
    locks guarantee. */
module Relays {
  import opened Common
  import opened Streams
  import opened Protocol

  predicate Selectable(s: System, tenant: string, row: nat) {
    row < |s.outbox| && s.outbox[row].event.key.tenant == tenant && !s.outbox[row].published && !Locked(s, row)
  }

  /** The locked batch: selectable rows in outbox order, at most batch of them, and none left
      out before the batch is full. */
  lemma {:induction false} SelectRowsSpec(s: System, tenant: string, batch: nat, from: nat)
    requires from <= |s.outbox|
    ensures var rows := SelectRows(s, tenant, batch, from);
            && |rows| <= batch
            && (forall row | row in rows :: from <= row && Selectable(s, tenant, row))
            && Ascending(rows)
            && (|rows| < batch ==> forall row | from <= row && Selectable(s, tenant, row) :: row in rows)
    decreases |s.outbox| - from
  {
    hide Locked;
    if batch > 0 && from < |s.outbox| {
      if Selectable(s, tenant, from) {
        SelectRowsSpec(s, tenant, batch - 1, from + 1);
        var rest := SelectRows(s, tenant, batch - 1, from + 1);
        assert forall i | 0 <= i < |rest| :: rest[i] in rest;
      } else {
        SelectRowsSpec(s, tenant, batch, from + 1);
      }
    }
  }

  function EventsOf(s: System, rows: seq<nat>): seq<Fields> {
    seq(|rows|, i requires 0 <= i < |rows| =>
      if rows[i] < |s.outbox| then Parsed(s.outbox[rows[i]].event) else Unparsed(""))
  }

  /** The state in the middle of a batch: next of the rows are in the stream. */
  function MidBatch(s: System, name: string, rows: seq<nat>, next: nat): System
    requires next <= |rows|
  {
    s.(log := s.log + EventsOf(s, rows[..next]), relays := s.relays[name := Relay(rows, next)])
  }

  lemma PublishesNext(c: Config, s: System, name: string, rows: seq<nat>, next: nat)
    requires next < |rows|
    ensures Enabled(MidBatch(s, name, rows, next), RelayPublish(name))
    ensures Next(c, MidBatch(s, name, rows, next), RelayPublish(name)) == MidBatch(s, name, rows, next + 1)
  {
    var event := EventsOf(s, rows[..next + 1])[next];
    assert EventsOf(s, rows[..next + 1]) == EventsOf(s, rows[..next]) + [event];
    assert s.log + EventsOf(s, rows[..next]) + [event] == s.log + (EventsOf(s, rows[..next]) + [event]);
  }

  lemma Commits(c: Config, s: System, name: string, rows: seq<nat>)
    requires name !in s.relays
    ensures Enabled(MidBatch(s, name, rows, |rows|), RelayCommit(name))
    ensures Next(c, MidBatch(s, name, rows, |rows|), RelayCommit(name))
         == s.(log := s.log + EventsOf(s, rows), outbox := Marked(s.outbox, rows))
  {
    hide Marked;
    assert rows[..|rows|] == rows;
    assert s.relays[name := Relay(rows, |rows|)] - {name} == s.relays;
  }

  lemma Begins(c: Config, s: System, name: string, tenant: string, batch: nat)
    requires name !in s.relays && batch >= 1
    ensures Enabled(s, RelayBegin(name, tenant, batch))
    ensures Next(c, s, RelayBegin(name, tenant, batch)) == MidBatch(s, name, SelectRows(s, tenant, batch, 0), 0)
  {
    hide SelectRows;
    var rows := SelectRows(s, tenant, batch, 0);
    assert EventsOf(s, rows[..0]) == [] && s.log + [] == s.log;
  }

  lemma RollsBack(c: Config, s: System, name: string, rows: seq<nat>, next: nat)
    requires name !in s.relays && next <= |rows|
    ensures Enabled(MidBatch(s, name, rows, next), RelayStop(name))
    ensures Next(c, MidBatch(s, name, rows, next), RelayStop(name)) == s.(log := s.log + EventsOf(s, rows[..next]))
  {
    hide Marked;
    assert s.relays[name := Relay(rows, next)] - {name} == s.relays;
  }

  /** A batch was refused, or the publisher failed, or so many rows were committed. */
  datatype Relayed = Refused | Raised | Committed(count: nat)

  class OutboxRelay {
    const c: Config
    const name: string
    var world: System
    ghost var steps: seq<Step>
    ghost const start: System

    ghost predicate Valid()
      reads this
    {
      Plays(c, start, steps, world)
    }

    constructor (c: Config, name: string, world: System)
      ensures Valid() && this.c == c && this.name == name && this.world == world && steps == []
    {
      this.c, this.name, this.world, start, steps := c, name, world, world, [];
    }

    method Do(step: Step)
      requires Valid() && Enabled(world, step)
      modifies this
      ensures Valid() && world == Next(c, old(world), step) && steps == old(steps) + [step]
    {
      PlaysOn(c, start, steps, world, step);
      world, steps := Next(c, world, step), steps + [step];
    }

    /** run_once: publish the locked rows in order, then commit their marks together. A batch
        below one is an error and touches nothing. When the publisher fails on row fails, the
        transaction rolls back: what was published stays in the stream, nothing is marked, and the
        locks are released, so the rows will be published again. */
    method RunOnce(tenant: string, batch: int, fails: Option<nat>) returns (r: Relayed)
      requires Valid() && name !in world.relays
      modifies this
      ensures Valid() && old(steps) <= steps
      ensures batch < 1 <==> r.Refused?
      ensures batch < 1 ==> world == old(world)
      ensures batch >= 1 ==>
                var rows := SelectRows(old(world), tenant, batch, 0);
                if fails.Some? && fails.value < |rows|
                then
                  && r == Raised
                  && world == old(world).(log := old(world).log + EventsOf(old(world), rows[..fails.value]))
                else
                  && r == Committed(|rows|)
                  && world == old(world).(log := old(world).log + EventsOf(old(world), rows),
                                          outbox := Marked(old(world).outbox, rows))
    {
      if batch < 1 {
        return Refused;
      }
      hide Plays, SelectRows, Marked, Next, Enabled;
      ghost var s0 := world;
      Begins(c, world, name, tenant, batch);
      Do(RelayBegin(name, tenant, batch));
      var rows := world.relays[name].rows;
      var next := 0;
      while next < |rows|
        invariant Valid() && old(steps) <= steps && next <= |rows| && world == MidBatch(s0, name, rows, next)
        invariant fails.Some? && fails.value < |rows| ==> next <= fails.value
      {
        if fails == Some(next) {
          RollsBack(c, s0, name, rows, next);
          Do(RelayStop(name));
          return Raised;
        }
        PublishesNext(c, s0, name, rows, next);
        Do(RelayPublish(name));
        next := next + 1;
      }
      Commits(c, s0, name, rows);
      Do(RelayCommit(name));
      return Committed(|rows|);
    }
  }

  /** A relay that runs alone with a batch that is not filled leaves no row of the tenant
      unpublished. */
  lemma RelayDrainsTenant(s: System, tenant: string, batch: nat)
    requires s.relays == map[] && |SelectRows(s, tenant, batch, 0)| < batch
    ensures var outbox := Marked(s.outbox, SelectRows(s, tenant, batch, 0));
            forall r | r in outbox && r.event.key.tenant == tenant :: r.published
  {
    hide SelectRows;
    SelectRowsSpec(s, tenant, batch, 0);
    var rows := SelectRows(s, tenant, batch, 0);
    var outbox := Marked(s.outbox, rows);
    forall i | 0 <= i < |outbox| && outbox[i].event.key.tenant == tenant ensures outbox[i].published {
      assert !Locked(s, i);
      assert s.outbox[i].published || Selectable(s, tenant, i);
    }
  }

  /** Relays hold different rows. */
  predicate LocksDisjoint(relays: map<string, Relay>) {
    forall q, r, row | q in relays && r in relays && row in relays[q].rows && row in relays[r].rows :: q == r
  }

  lemma StepKeepsLocksDisjoint(c: Config, s: System, step: Step)
    requires LocksDisjoint(s.relays) && Enabled(s, step)
    ensures LocksDisjoint(Next(c, s, step).relays)
  {
    hide SelectRows, EffectNext, Reclaimed, ReadNew, Taken, Looked, Registered, Indexed;
    if step.RelayBegin? {
      SelectRowsSpec(s, step.tenant, step.batch, 0);
    } else {
      OtherStepsTakeNoLocks(c, s, step);
    }
  }

  lemma OtherStepsTakeNoLocks(c: Config, s: System, step: Step)
    requires Enabled(s, step) && !step.RelayBegin?
    ensures var t := Next(c, s, step);
            forall r | r in t.relays :: r in s.relays && t.relays[r].rows == s.relays[r].rows
  {
  }

  /** In every run, no outbox row is in the hands of two relays. */
  lemma {:induction false} RelaysNeverShareARow(c: Config, states: seq<System>, steps: seq<Step>, i: nat)
    requires Run(c, states, steps) && i < |states|
    ensures LocksDisjoint(states[i].relays)
  {
    hide Next, Enabled;
    if i > 0 {
      RelaysNeverShareARow(c, states, steps, i - 1);
      StepKeepsLocksDisjoint(c, states[i - 1], steps[i - 1]);
    }
  }
}
