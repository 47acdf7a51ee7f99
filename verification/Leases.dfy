/** What the lease buys: every delivery a worker holds is the latest of its entry, still pending. */
module Leases {
  import opened Common
  import opened Streams
  import opened Protocol
  import opened RetryBudget
  import opened AckSafety

  // ---------- the lease ----------

  /** The delivery is the latest of its entry and still pending. */
  predicate Current(g: Group, d: Delivery) {
    d.id in g.pending && g.pending[d.id].attempts == d.k && g.pending[d.id].deliveredMs == d.at
  }

  predicate Leased(s: System) {
    forall w, d | w in s.workers && d in s.workers[w].held :: Current(s.group, d)
  }

  lemma {:induction false} ReclaimKeepsLeases(c: Config, s: System, w: string)
    requires Sound(c, s) && Leased(s) && Punctual(c, s) && InPhase(s, w, Idle)
    ensures Leased(Reclaimed(c, s, w))
  {
    hide AutoClaim, HeldOnce, RunsSound, UnspentAreNew, Made;
    var r, t := Claimed(c, s, w), Reclaimed(c, s, w);
    AutoClaimSpec(s.group, |s.log|, w, s.now, c.minIdle, s.workers[w].cursor, c.batch);
    forall v, d | v in t.workers && d in t.workers[v].held ensures Current(t.group, d) {
      if v == w {
        var i :| 0 <= i < |r.ids| && t.workers[w].held[i] == d;
        assert r.ids[i] in r.ids;
      } else {
        var i :| 0 <= i < |s.workers[v].held| && s.workers[v].held[i] == d;
        assert s.now - s.workers[v].held[i].at < c.minIdle;
        assert d in s.workers[v].held && Current(s.group, d);
        assert !Streams.Idle(s.group.pending, d.id, s.now, c.minIdle);
      }
    }
  }

  lemma ReadKeepsLeases(c: Config, s: System, w: string)
    requires Sound(c, s) && Leased(s) && InPhase(s, w, Reading)
    ensures Leased(ReadNew(c, s, w))
  {
    hide HeldOnce, RunsSound, UnspentAreNew;
    var t := ReadNew(c, s, w);
    var ids := NewIds(s.group, |s.log|, c.batch);
    forall v, d | v in t.workers && d in t.workers[v].held ensures Current(t.group, d) {
      if v == w {
        var i :| 0 <= i < |ids| && t.workers[w].held[i] == d;
        assert ids[i] in ids;
      } else {
        assert d in s.workers[v].held && Made(s.group, d) && Current(s.group, d);
      }
    }
  }

  lemma AckKeepsLeases(c: Config, s: System, w: string)
    requires Sound(c, s) && Leased(s) && InPhase(s, w, Acking)
    ensures Leased(Next(c, s, Ack(w)))
  {
    hide Next, Sound, HeldOnce, DocsAfter, StoredAfter;
    EffectFrame(c, s, Ack(w));
    var t := Next(c, s, Ack(w));
    var first := s.workers[w].held[0];
    assert first in s.workers[w].held;
    forall v, d | v in t.workers && d in t.workers[v].held ensures Current(t.group, d) {
      var i :| 0 <= i < |t.workers[v].held| && t.workers[v].held[i] == d;
      var a := if v == w then i + 1 else i;
      assert s.workers[v].held[a] == d && d in s.workers[v].held;
      assert Current(s.group, d) && Current(s.group, first);
      NotSame(c, s, v, a, w);
    }
  }

  lemma NotSame(c: Config, s: System, v: string, a: nat, w: string)
    requires Sound(c, s) && v in s.workers && a < |s.workers[v].held| && w in s.workers && s.workers[w].held != []
    requires v != w || a != 0
    ensures !Same(s.workers[v].held[a], s.workers[w].held[0])
  {
    hide RunsSound, WorkerSound, UnspentAreNew, GroupOver;
  }

  /** Other steps deliver nothing to anyone. */
  lemma HeldShrinks(c: Config, s: System, step: Step, v: string, d: Delivery)
    requires Enabled(s, step) && !step.Reclaim? && !step.Read?
    requires v in Next(c, s, step).workers && d in Next(c, s, step).workers[v].held
    ensures v in s.workers && d in s.workers[v].held
  {
    hide FreshKey, HasDigest, DocsAfter, StoredAfter, Route, Attempts, RelayNext, Registered, Indexed;
    RelaysKeepWorkers(c, s, step);
  }

  lemma RelaysKeepWorkers(c: Config, s: System, step: Step)
    requires Enabled(s, step)
    ensures !Acts(step) ==> Next(c, s, step).workers == s.workers
  {
    hide Next, Enabled;
    OnlyActorChanges(c, s, step);
  }

  lemma OtherStepKeepsLeases(c: Config, s: System, step: Step)
    requires Leased(s) && Enabled(s, step) && !step.Reclaim? && !step.Read? && !step.Ack?
    ensures Leased(Next(c, s, step))
  {
    hide Next, Enabled, Current;
    var t := Next(c, s, step);
    SameGroup(c, s, step);
    forall v, d | v in t.workers && d in t.workers[v].held ensures Current(t.group, d) {
      HeldShrinks(c, s, step, v, d);
    }
  }

  lemma {:induction false} StepKeepsLeases(c: Config, s: System, step: Step)
    requires Sound(c, s) && Leased(s) && Punctual(c, s) && Enabled(s, step)
    ensures Leased(Next(c, s, step))
  {
    hide Sound, Leased, Punctual;
    match step {
      case Reclaim(w) => ReclaimKeepsLeases(c, s, w);
      case Read(w) => ReadKeepsLeases(c, s, w);
      case Ack(w) => AckKeepsLeases(c, s, w);
      case _ => OtherStepKeepsLeases(c, s, step);
    }
  }
}
