/** The retry budget: whatever workers do and whenever they crash, with or without the lease,
    process is called on an entry at most maxAttempts times. */
module RetryBudget {
  import opened Common
  import opened Streams
  import opened Protocol

  /** The same delivery of the same entry. */
  predicate Same(d: Delivery, e: Delivery) { d.id == e.id && d.k == e.k }

  /** A delivery the group has made; while the entry is pending its count is an upper bound. */
  predicate Made(g: Group, d: Delivery) {
    && 1 <= d.id <= g.offset && 1 <= d.k
    && (d.id in g.pending ==> d.k <= g.pending[d.id].attempts)
  }

  /** Deliveries a worker holds on which it has not called process. */
  predicate Unspent(wk: Worker, i: nat) {
    i > 0 || wk.phase.Taking? || wk.phase.Checked? || wk.phase.Starting?
  }

  predicate WorkerSound(c: Config, g: Group, wk: Worker) {
    && (forall d | d in wk.held :: Made(g, d))
    && (wk.phase.Idle? || wk.phase.Reading? ==> wk.held == [])
    && (Busy(wk.phase) ==> wk.held != [] && wk.held[0].k <= wk.attempts)
    && (wk.phase.Starting? ==> wk.attempts <= c.maxAttempts)
  }

  predicate UnspentAreNew(wk: Worker, runs: seq<Delivery>) {
    forall i, r | 0 <= i < |wk.held| && Unspent(wk, i) && r in runs :: !Same(wk.held[i], r)
  }

  /** No delivery is in two places. */
  predicate HeldOnce(workers: map<string, Worker>) {
    forall v, w, i, j | v in workers && w in workers && 0 <= i < |workers[v].held| && 0 <= j < |workers[w].held|
                        && Same(workers[v].held[i], workers[w].held[j]) :: v == w && i == j
  }

  predicate RunsSound(c: Config, g: Group, runs: seq<Delivery>) {
    && (forall r | r in runs :: Made(g, r) && r.k <= c.maxAttempts)
    && forall i, j | 0 <= i < j < |runs| :: !Same(runs[i], runs[j])
  }

  predicate Sound(c: Config, s: System) {
    && GroupOver(s.group, |s.log|)
    && RunsSound(c, s.group, s.runs)
    && HeldOnce(s.workers)
    && forall w | w in s.workers :: WorkerSound(c, s.group, s.workers[w]) && UnspentAreNew(s.workers[w], s.runs)
  }

  // ---------- steps that deliver nothing and run nothing ----------

  /** The worker keeps, drops or finishes messages. */
  predicate Shrinks(wk: Worker, wk': Worker) {
    || wk'.held == []
    || (wk'.held == wk.held && (wk'.phase == wk.phase || Unspent(wk, 0) || !Unspent(wk', 0)))
    || (wk.held != [] && wk'.held == wk.held[1..])
  }

  lemma ShrinkKeepsHeldOnce(workers: map<string, Worker>, workers': map<string, Worker>)
    requires HeldOnce(workers)
    requires forall w | w in workers' :: workers'[w].held == [] || (w in workers && Shrinks(workers[w], workers'[w]))
    ensures HeldOnce(workers')
  {
    forall v, w, i, j | v in workers' && w in workers' && 0 <= i < |workers'[v].held| && 0 <= j < |workers'[w].held|
                        && Same(workers'[v].held[i], workers'[w].held[j])
      ensures v == w && i == j
    {
      var a := if workers'[v].held == workers[v].held then i else i + 1;
      var b := if workers'[w].held == workers[w].held then j else j + 1;
      assert Same(workers[v].held[a], workers[w].held[b]);
    }
  }

  lemma ShrinkKeepsUnspent(wk: Worker, wk': Worker, runs: seq<Delivery>)
    requires Shrinks(wk, wk') && UnspentAreNew(wk, runs)
    ensures UnspentAreNew(wk', runs)
  {
    forall i, r | 0 <= i < |wk'.held| && Unspent(wk', i) && r in runs ensures !Same(wk'.held[i], r) {
      var a := if wk'.held == wk.held then i else i + 1;
      assert Unspent(wk, a) && wk'.held[i] == wk.held[a];
    }
  }

  /** Acknowledging an entry and appending to the log keep every delivery made. */
  predicate GroupShrinks(g: Group, g': Group) {
    && g'.offset == g.offset && g'.pending.Keys <= g.pending.Keys
    && forall id | id in g'.pending :: g'.pending[id] == g.pending[id]
  }

  lemma {:induction false} QuietStep(c: Config, s: System, t: System)
    requires Sound(c, s)
    requires GroupShrinks(s.group, t.group) && |s.log| <= |t.log| && t.runs == s.runs
    requires forall w | w in t.workers ::
               t.workers[w].held == [] || (w in s.workers && Shrinks(s.workers[w], t.workers[w]))
    requires forall w | w in t.workers :: WorkerSound(c, s.group, t.workers[w])
    ensures Sound(c, t)
  {
    ShrinkKeepsHeldOnce(s.workers, t.workers);
    forall w | w in t.workers ensures UnspentAreNew(t.workers[w], t.runs) {
      if t.workers[w].held != [] {
        ShrinkKeepsUnspent(s.workers[w], t.workers[w], s.runs);
      }
    }
  }

  /** A change of one worker that delivers nothing. */
  lemma WorkerStep(c: Config, s: System, w: string, wk: Worker, t: System)
    requires Sound(c, s) && w in s.workers && Shrinks(s.workers[w], wk) && WorkerSound(c, s.group, wk)
    requires t.workers == s.workers[w := wk] && t.runs == s.runs && |s.log| <= |t.log|
    requires GroupShrinks(s.group, t.group)
    ensures Sound(c, t)
  {
    QuietStep(c, s, t);
  }

  lemma TailSound(c: Config, g: Group, wk: Worker)
    requires WorkerSound(c, g, wk) && wk.held != []
    ensures WorkerSound(c, g, Drop(wk)) && Shrinks(wk, Drop(wk))
  {
    assert forall d | d in wk.held[1..] :: d in wk.held;
  }

  lemma SoundWorker(c: Config, s: System, w: string)
    requires Sound(c, s) && w in s.workers
    ensures WorkerSound(c, s.group, s.workers[w])
  {
  }

  /** What an effect leaves the worker with. */
  lemma EffectWorker(c: Config, s: System, step: Step)
    requires Enabled(s, step) && Effect(step) && WorkerSound(c, s.group, s.workers[step.w])
    ensures s.workers[step.w].held != []
    ensures var wk' := WorkerAfter(s.workers[step.w], step);
            WorkerSound(c, s.group, wk') && Shrinks(s.workers[step.w], wk')
  {
    hide Made, FreshKey, HasDigest;
    TailSound(c, s.group, s.workers[step.w]);
  }

  lemma {:induction false} EffectStep(c: Config, s: System, step: Step)
    requires Sound(c, s) && Enabled(s, step)
    requires Effect(step) && !step.Begin?
    ensures Sound(c, Next(c, s, step))
  {
    hide Sound, Next, WorkerAfter, DocsAfter, StoredAfter, Shrinks, WorkerSound;
    EffectFrame(c, s, step);
    SoundWorker(c, s, step.w);
    EffectWorker(c, s, step);
    WorkerStep(c, s, step.w, WorkerAfter(s.workers[step.w], step), Next(c, s, step));
  }

  lemma LookStep(c: Config, s: System, w: string, reply: Reply)
    requires Sound(c, s) && InPhase(s, w, Checked)
    ensures Sound(c, Looked(c, s, w, reply))
  {
    hide Sound;
    SoundWorker(c, s, w);
    TailSound(c, s.group, s.workers[w]);
    WorkerStep(c, s, w, Looked(c, s, w, reply).workers[w], Looked(c, s, w, reply));
  }

  lemma TakeStep(c: Config, s: System, w: string)
    requires Sound(c, s) && InPhase(s, w, Taking)
    ensures Sound(c, Taken(s, w))
  {
    hide Sound;
    SoundWorker(c, s, w);
    var wk := s.workers[w];
    if wk.held != [] {
      TailSound(c, s.group, wk);
      assert wk.held[0] in wk.held;
    }
    WorkerStep(c, s, w, Taken(s, w).workers[w], Taken(s, w));
  }

  // ---------- calling process ----------

  lemma RunOnce(c: Config, g: Group, runs: seq<Delivery>, d: Delivery)
    requires RunsSound(c, g, runs) && Made(g, d) && d.k <= c.maxAttempts
    requires forall r | r in runs :: !Same(d, r)
    ensures RunsSound(c, g, runs + [d])
  {
    var all := runs + [d];
    forall i, j | 0 <= i < j < |all| ensures !Same(all[i], all[j]) {
      if j == |runs| {
        assert all[i] in runs;
      }
    }
  }

  /** What calling process does to the worker and the history. */
  lemma BeginEffect(c: Config, s: System, w: string, reply: Reply)
    requires InPhase(s, w, Starting)
    ensures var t := Next(c, s, Begin(w, reply));
            && w in t.workers && t.workers == s.workers[w := t.workers[w]]
            && t.runs == s.runs + [s.workers[w].held[0]] && t.group == s.group && t.log == s.log
            && (t.workers[w] == Drop(s.workers[w])
                || (t.workers[w].held == s.workers[w].held && t.workers[w].attempts == s.workers[w].attempts
                    && (t.workers[w].phase.Indexing? || t.workers[w].phase.Failing?)))
  {
    hide Next, DocsAfter;
    EffectFrame(c, s, Begin(w, reply));
  }

  lemma BeginStep(c: Config, s: System, w: string, reply: Reply)
    requires Sound(c, s) && InPhase(s, w, Starting)
    ensures Sound(c, Next(c, s, Begin(w, reply)))
  {
    hide Next, HeldOnce, RunsSound, UnspentAreNew, Made;
    var t := Next(c, s, Begin(w, reply));
    BeginEffect(c, s, w, reply);
    var wk, wk' := s.workers[w], t.workers[w];
    var d := wk.held[0];
    assert d in wk.held;
    TailSound(c, s.group, wk);
    ShrinkKeepsHeldOnce(s.workers, t.workers);
    FirstIsNew(wk, s.runs);
    RunOnce(c, s.group, s.runs, d);
    forall v | v in t.workers ensures UnspentAreNew(t.workers[v], t.runs) {
      BegunIsNotHeldElsewhere(s.workers, w, v, t.workers[v]);
      ShrinkKeepsUnspent(s.workers[v], t.workers[v], s.runs);
      UnspentAfterRun(t.workers[v], s.runs, d);
    }
  }

  lemma FirstIsNew(wk: Worker, runs: seq<Delivery>)
    requires UnspentAreNew(wk, runs) && wk.held != [] && wk.phase.Starting?
    ensures forall r | r in runs :: !Same(wk.held[0], r)
  {
  }

  lemma UnspentAfterRun(wk: Worker, runs: seq<Delivery>, d: Delivery)
    requires UnspentAreNew(wk, runs) && forall i | 0 <= i < |wk.held| && Unspent(wk, i) :: !Same(wk.held[i], d)
    ensures UnspentAreNew(wk, runs + [d])
  {
    assert forall r | r in runs + [d] :: r in runs || r == d;
  }

  lemma BegunIsNotHeldElsewhere(workers: map<string, Worker>, w: string, v: string, wk: Worker)
    requires HeldOnce(workers) && w in workers && v in workers && workers[w].held != []
    requires if v == w then wk.held == workers[w].held[1..] || (wk.held == workers[w].held && !Unspent(wk, 0))
             else wk == workers[v]
    ensures forall i | 0 <= i < |wk.held| && Unspent(wk, i) :: !Same(wk.held[i], workers[w].held[0])
  {
    forall i | 0 <= i < |wk.held| && Unspent(wk, i) ensures !Same(wk.held[i], workers[w].held[0]) {
      var a := if v == w && wk.held != workers[w].held then i + 1 else i;
      assert wk.held[i] == workers[v].held[a] && (v != w || a != 0);
    }
  }

  // ---------- delivering ----------

  /** Every delivery of one list is of another entry or a later count than any made by g. */
  predicate AllNew(g: Group, held: seq<Delivery>) {
    && (forall i, j | 0 <= i < j < |held| :: held[i].id != held[j].id)
    && forall d | d in held :: d.id <= g.offset ==> d.id in g.pending && d.k > g.pending[d.id].attempts
  }

  lemma NewIsNotMade(g: Group, held: seq<Delivery>, d: Delivery, e: Delivery)
    requires AllNew(g, held) && d in held && Made(g, e)
    ensures !Same(d, e)
  {
  }

  lemma DeliverHeldOnce(g: Group, workers: map<string, Worker>, w: string, wk: Worker)
    requires HeldOnce(workers) && AllNew(g, wk.held)
    requires forall v, d | v in workers && d in workers[v].held :: Made(g, d)
    ensures HeldOnce(workers[w := wk])
  {
    hide Made, AllNew;
    var after := workers[w := wk];
    forall u, v, i, j | u in after && v in after && 0 <= i < |after[u].held| && 0 <= j < |after[v].held|
                        && Same(after[u].held[i], after[v].held[j])
      ensures u == v && i == j
    {
      var d, e := after[u].held[i], after[v].held[j];
      assert d in after[u].held && e in after[v].held;
      if u == w && v != w {
        NewIsNotMade(g, wk.held, d, e);
      } else if u != w && v == w {
        NewIsNotMade(g, wk.held, e, d);
      } else if u == w {
        NewOnce(g, wk.held, i, j);
      }
    }
  }

  lemma NewOnce(g: Group, held: seq<Delivery>, i: nat, j: nat)
    requires AllNew(g, held) && i < |held| && j < |held| && held[i].id == held[j].id
    ensures i == j
  {
  }

  /** A group that only makes further deliveries keeps those already made. */
  predicate Extends(g: Group, g': Group) {
    && g.offset <= g'.offset
    && forall id | id in g'.pending && id <= g.offset ::
         id in g.pending && g.pending[id].attempts <= g'.pending[id].attempts
  }

  lemma OthersStaySound(c: Config, g: Group, g': Group, wk: Worker)
    requires Extends(g, g') && WorkerSound(c, g, wk)
    ensures WorkerSound(c, g', wk)
  {
    assert forall d | d in wk.held :: Made(g', d);
  }

  lemma RunsStaySound(c: Config, g: Group, g': Group, runs: seq<Delivery>)
    requires Extends(g, g') && RunsSound(c, g, runs)
    ensures RunsSound(c, g', runs)
  {
    assert forall r | r in runs :: Made(g', r);
  }

  lemma NewAreUnspent(c: Config, g: Group, wk: Worker, runs: seq<Delivery>)
    requires RunsSound(c, g, runs) && AllNew(g, wk.held)
    ensures UnspentAreNew(wk, runs)
  {
    hide Made, AllNew;
    forall i, r | 0 <= i < |wk.held| && Unspent(wk, i) && r in runs ensures !Same(wk.held[i], r) {
      NewIsNotMade(g, wk.held, wk.held[i], r);
    }
  }

  /** The group makes new deliveries, each with a count above every earlier one, to a worker
      that holds nothing. */
  lemma DeliverStep(c: Config, s: System, w: string, wk: Worker, t: System)
    requires Sound(c, s) && w in s.workers
    requires t.workers == s.workers[w := wk] && t.runs == s.runs && t.log == s.log
    requires GroupOver(t.group, |t.log|) && Extends(s.group, t.group) && AllNew(s.group, wk.held)
    requires wk.phase.Reading? || wk.phase.Taking?
    requires wk.phase.Reading? ==> wk.held == []
    requires forall d | d in wk.held :: Made(t.group, d)
    ensures Sound(c, t)
  {
    hide HeldOnce, RunsSound, UnspentAreNew, AllNew, Extends, Made, GroupOver;
    DeliverHeldOnce(s.group, s.workers, w, wk);
    RunsStaySound(c, s.group, t.group, s.runs);
    NewAreUnspent(c, s.group, wk, s.runs);
    forall v | v in t.workers ensures WorkerSound(c, t.group, t.workers[v]) && UnspentAreNew(t.workers[v], t.runs) {
      if v != w {
        OthersStaySound(c, s.group, t.group, s.workers[v]);
      }
    }
  }

  lemma {:induction false} ReadStep(c: Config, s: System, w: string)
    requires Sound(c, s) && InPhase(s, w, Reading)
    ensures Sound(c, ReadNew(c, s, w))
  {
    var ids := NewIds(s.group, |s.log|, c.batch);
    var t := ReadNew(c, s, w);
    assert forall id | id in ids :: s.group.offset < id <= t.group.offset;
    assert WorkerSound(c, s.group, s.workers[w]);
    DeliverStep(c, s, w, t.workers[w], t);
  }

  lemma {:induction false} ReclaimStep(c: Config, s: System, w: string)
    requires Sound(c, s) && InPhase(s, w, Idle)
    ensures Sound(c, Reclaimed(c, s, w))
  {
    hide AutoClaim;
    var r := Claimed(c, s, w);
    AutoClaimSpec(s.group, |s.log|, w, s.now, c.minIdle, s.workers[w].cursor, c.batch);
    ClaimedOnce(c, s, w);
    var t := Reclaimed(c, s, w);
    assert WorkerSound(c, s.group, s.workers[w]);
    forall d | d in t.workers[w].held ensures d.id in r.ids && d.k == r.group.pending[d.id].attempts {
      var i :| 0 <= i < |r.ids| && t.workers[w].held[i] == d;
      assert r.ids[i] in r.ids;
    }
    DeliverStep(c, s, w, t.workers[w], t);
  }

  lemma ClaimedOnce(c: Config, s: System, w: string)
    requires w in s.workers
    ensures Ascending(Claimed(c, s, w).ids)
  {
    var ids := PendingFrom(s.group.pending, s.workers[w].cursor, |s.log|);
    var end := ScanEnd(s.group.pending, ids, s.now, c.minIdle, c.batch, 0);
    IdleAscend(s.group.pending, ids[..end], s.now, c.minIdle);
  }

  // ---------- every step, every run ----------

  /** Registration, the relay and the other steps that leave the deliveries as they are. */
  lemma OtherStep(c: Config, s: System, step: Step)
    requires Sound(c, s) && Enabled(s, step)
    requires !Effect(step) && !step.Reclaim? && !step.Read? && !step.Take? && !step.Look?
    ensures Sound(c, Next(c, s, step))
  {
    hide HeldOnce, RunsSound, UnspentAreNew, Shrinks, WorkerSound, Next, Enabled;
    var t := Next(c, s, step);
    OtherFrame(c, s, step);
    forall w | w in t.workers
      ensures t.workers[w].held == [] || (w in s.workers && Shrinks(s.workers[w], t.workers[w]))
      ensures WorkerSound(c, s.group, t.workers[w])
    {
      OtherWorker(c, s.group, if w in s.workers then s.workers[w] else t.workers[w], t.workers[w]);
    }
    QuietStep(c, s, t);
  }

  lemma OtherFrame(c: Config, s: System, step: Step)
    requires Enabled(s, step)
    requires !Effect(step) && !step.Reclaim? && !step.Read? && !step.Take? && !step.Look?
    ensures var t := Next(c, s, step);
            && t.group == s.group && s.log <= t.log && t.runs == s.runs
            && forall w | w in t.workers ::
                 || (w in s.workers && t.workers[w] == s.workers[w])
                 || (t.workers[w].held == [] && t.workers[w].phase.Idle?)
                 || (w in s.workers && s.workers[w].phase.Idle? && t.workers[w] == s.workers[w].(phase := Reading))
  {
    hide FreshKey, HasDigest, SelectRows, Marked;
  }

  lemma OtherWorker(c: Config, g: Group, wk: Worker, wk': Worker)
    requires wk' == wk || (wk'.held == [] && wk'.phase.Idle?) || (wk.phase.Idle? && wk' == wk.(phase := Reading))
    requires WorkerSound(c, g, wk) || wk'.held == []
    ensures wk'.held == [] || Shrinks(wk, wk')
    ensures WorkerSound(c, g, wk) || wk'.phase.Idle? ==> WorkerSound(c, g, wk')
  {
  }

  lemma {:induction false} StepKeepsSound(c: Config, s: System, step: Step)
    requires Sound(c, s) && Enabled(s, step)
    ensures Sound(c, Next(c, s, step))
  {
    hide Sound, EffectNext, Reclaimed, ReadNew, Taken, Looked, RelayNext, Registered, Indexed, FreshKey, HasDigest;
    match step {
      case Reclaim(w) => ReclaimStep(c, s, w);
      case Read(w) => ReadStep(c, s, w);
      case Take(w) => TakeStep(c, s, w);
      case Look(w, reply) => LookStep(c, s, w, reply);
      case Begin(w, reply) => BeginStep(c, s, w, reply);
      case Index(_, _) => EffectStep(c, s, step);
      case Confirm(_, _) => EffectStep(c, s, step);
      case Fail(_, _) => EffectStep(c, s, step);
      case Bury(_) => EffectStep(c, s, step);
      case Ack(_) => EffectStep(c, s, step);
      case _ => OtherStep(c, s, step);
    }
  }

  lemma {:induction false} SoundAt(c: Config, states: seq<System>, steps: seq<Step>, i: nat)
    requires Run(c, states, steps) && i < |states|
    ensures Sound(c, states[i])
  {
    if i > 0 {
      SoundAt(c, states, steps, i - 1);
      StepKeepsSound(c, states[i - 1], steps[i - 1]);
    }
  }

  /** How often process was called on an entry. */
  function RunsOf(runs: seq<Delivery>, id: nat): nat {
    if runs == [] then 0
    else RunsOf(runs[..|runs| - 1], id) + if runs[|runs| - 1].id == id then 1 else 0
  }

  /** The counts of the deliveries of one entry among the runs. */
  function CountsOf(runs: seq<Delivery>, id: nat): set<nat> {
    set r | r in runs && r.id == id :: r.k
  }

  lemma {:induction false} DistinctRuns(runs: seq<Delivery>, id: nat)
    requires forall i, j | 0 <= i < j < |runs| :: !Same(runs[i], runs[j])
    ensures |CountsOf(runs, id)| == RunsOf(runs, id)
  {
    if runs != [] {
      var n := |runs| - 1;
      DistinctRuns(runs[..n], id);
      assert runs == runs[..n] + [runs[n]];
      if runs[n].id == id {
        NewCount(runs[..n], runs[n]);
        assert CountsOf(runs, id) == CountsOf(runs[..n], id) + {runs[n].k};
      } else {
        assert CountsOf(runs, id) == CountsOf(runs[..n], id);
      }
    }
  }

  lemma NewCount(runs: seq<Delivery>, d: Delivery)
    requires forall i | 0 <= i < |runs| :: !Same(runs[i], d)
    ensures d.k !in CountsOf(runs, d.id)
  {
  }

  lemma {:induction false} NumbersUpTo(ks: set<nat>, max: nat)
    requires forall k | k in ks :: 1 <= k <= max
    ensures |ks| <= max
  {
    if max == 0 {
      assert ks == {};
    } else {
      NumbersUpTo(ks - {max}, max - 1);
    }
  }

  /** The retry budget holds in every run, with any number of workers and crashes, and whether
      or not the lease is kept. */
  lemma ProcessRunsAtMostMaxAttempts(c: Config, states: seq<System>, steps: seq<Step>, i: nat, id: nat)
    requires Run(c, states, steps) && i < |states|
    ensures RunsOf(states[i].runs, id) <= c.maxAttempts
  {
    SoundAt(c, states, steps, i);
    DistinctRuns(states[i].runs, id);
    NumbersUpTo(CountsOf(states[i].runs, id), c.maxAttempts);
  }
}
