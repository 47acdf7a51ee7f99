/** The circuit breaker with epoch tickets. */
module Breaker {
  import opened Common

  datatype Opened = Never | At(time: real)

  datatype State = State(failures: nat, epoch: nat, openedAt: Opened, probing: bool)

  const CLOSED := State(0, 0, Never, false)

  /** acquire: the new state, and whether a ticket was issued; the ticket is the epoch. */
  function AcquireOn(seconds: real, s: State, now: real): (State, bool) {
    if s.openedAt.At? && (now - s.openedAt.time < seconds || s.probing) then (s, false)
    else (s.(probing := s.probing || s.openedAt.At?), true)
  }

  function FinishOn(limit: nat, s: State, ticket: nat, success: bool, now: real): State {
    if ticket != s.epoch then s
    else if success then
      if s.probing then State(0, s.epoch + 1, Never, false) else s.(failures := 0)
    else if s.probing || s.failures + 1 >= limit then State(s.failures + 1, s.epoch + 1, At(now), false)
    else s.(failures := s.failures + 1)
  }

  class CircuitBreaker {
    const limit: nat
    const seconds: real
    var failures: nat
    var epoch: nat
    var openedAt: Opened
    var probing: bool

    constructor (limit: nat, seconds: real)
      ensures this.limit == limit && this.seconds == seconds && Value() == CLOSED
    {
      this.limit, this.seconds := limit, seconds;
      failures, epoch, openedAt, probing := 0, 0, Never, false;
    }

    function Value(): State
      reads this
    {
      State(failures, epoch, openedAt, probing)
    }

    method Acquire(now: real) returns (ok: bool, ticket: nat)
      modifies this
      ensures (Value(), ok) == AcquireOn(seconds, old(Value()), now)
      ensures ok ==> ticket == epoch
    {
      if openedAt.At? {
        if now - openedAt.time < seconds || probing {
          return false, 0;
        }
        probing := true;
      }
      return true, epoch;
    }

    method Finish(ticket: nat, success: bool, now: real)
      modifies this
      ensures Value() == FinishOn(limit, old(Value()), ticket, success, now)
    {
      if ticket != epoch {
        return;
      }
      if success {
        failures := 0;
        if probing {
          openedAt, probing := Never, false;
          epoch := epoch + 1;
        }
      } else {
        failures := failures + 1;
        if probing || failures >= limit {
          openedAt, probing := At(now), false;
          epoch := epoch + 1;
        }
      }
    }
  }

  // ---------- histories ----------

  /** A ticket: the epoch it carries, whether it is a recovery probe, and whether it was finished. */
  datatype Ticket = Ticket(epoch: nat, probe: bool, finished: bool)

  /** The breaker with its history: probes holds the start times of the probes since one last
      succeeded, now the last clock reading. */
  datatype World = World(b: State, tickets: seq<Ticket>, probes: seq<real>, now: real)

  const START := World(CLOSED, [], [], 0.0)

  datatype Op =
    | Acquire(now: real)
    | Finish(ticket: nat, success: bool, now: real)

  /** Each ticket is finished at most once. */
  predicate Allowed(w: World, op: Op) {
    op.Finish? ==> op.ticket < |w.tickets| && !w.tickets[op.ticket].finished
  }

  function Apply(limit: nat, seconds: real, w: World, op: Op): World
    requires Allowed(w, op)
  {
    match op
    case Acquire(now) =>
      var (b, ok) := AcquireOn(seconds, w.b, now);
      var probe := ok && w.b.openedAt.At?;
      World(b, if ok then w.tickets + [Ticket(w.b.epoch, probe, false)] else w.tickets,
            if probe then w.probes + [now] else w.probes, now)
    case Finish(i, success, now) =>
      var ticket := w.tickets[i];
      World(FinishOn(limit, w.b, ticket.epoch, success, now),
            w.tickets[i := ticket.(finished := true)],
            if ticket.epoch == w.b.epoch && ticket.probe && success then [] else w.probes, now)
  }

  predicate History(limit: nat, seconds: real, worlds: seq<World>, ops: seq<Op>) {
    && |worlds| == |ops| + 1 && worlds[0] == START
    && forall i | 0 <= i < |ops| ::
         Allowed(worlds[i], ops[i]) && worlds[i + 1] == Apply(limit, seconds, worlds[i], ops[i])
  }

  // ---------- invariants, for any clock ----------

  /** In a run: tickets carry no future epoch; a closed breaker has issued no probe in its
      epoch and counts fewer failures than the limit; an open one has issued in its epoch the
      probe in flight and nothing else; an unfinished probe is in flight. */
  predicate Sound(limit: nat, w: World) {
    && (forall t | t in w.tickets :: t.epoch <= w.b.epoch)
    && (w.b.probing ==> w.b.openedAt.At?)
    && (forall t | t in w.tickets && t.probe && !t.finished :: t.epoch == w.b.epoch && w.b.probing)
    && (w.b.openedAt.Never? ==>
         w.b.failures < limit && w.probes == [] && forall t | t in w.tickets && t.epoch == w.b.epoch :: !t.probe)
    && (w.b.openedAt.At? ==>
         && (forall i, j | 0 <= i < j < |w.tickets| ::
               !(w.tickets[i].epoch == w.b.epoch && w.tickets[j].epoch == w.b.epoch))
         && (forall t | t in w.tickets && t.epoch == w.b.epoch :: w.b.probing && t.probe && !t.finished))
  }

  lemma AcquireKeepsSound(limit: nat, seconds: real, w: World, now: real)
    requires Sound(limit, w)
    ensures Sound(limit, Apply(limit, seconds, w, Acquire(now)))
  {
  }

  lemma FinishKeepsSound(limit: nat, seconds: real, w: World, op: Op)
    requires 0 < limit && Sound(limit, w) && op.Finish? && Allowed(w, op)
    ensures Sound(limit, Apply(limit, seconds, w, op))
  {
    var v := Apply(limit, seconds, w, op);
    assert w.tickets[op.ticket] in w.tickets;
    assert forall t | t in v.tickets :: t in w.tickets || t == w.tickets[op.ticket].(finished := true);
  }

  lemma {:induction false} SoundAt(limit: nat, seconds: real, worlds: seq<World>, ops: seq<Op>, i: nat)
    requires 0 < limit && History(limit, seconds, worlds, ops) && i < |worlds|
    ensures Sound(limit, worlds[i])
  {
    if i > 0 {
      SoundAt(limit, seconds, worlds, ops, i - 1);
      if ops[i - 1].Acquire? {
        AcquireKeepsSound(limit, seconds, worlds[i - 1], ops[i - 1].now);
      } else {
        FinishKeepsSound(limit, seconds, worlds[i - 1], ops[i - 1]);
      }
    }
  }

  // ---------- what they say about runs ----------

  /** While the breaker is open its epoch has at most one ticket, the probe in flight; until
      that ticket is finished every further call is rejected. */
  lemma OneProbePerOpenEpoch(limit: nat, seconds: real, worlds: seq<World>, ops: seq<Op>, i: nat, j: nat, k: nat)
    requires 0 < limit && History(limit, seconds, worlds, ops) && i < |worlds|
    requires worlds[i].b.openedAt.At? && j < |worlds[i].tickets| && k < |worlds[i].tickets|
    requires worlds[i].tickets[j].epoch == worlds[i].b.epoch == worlds[i].tickets[k].epoch
    ensures j == k && worlds[i].tickets[j].probe && !worlds[i].tickets[j].finished
    ensures forall now :: !AcquireOn(seconds, worlds[i].b, now).1
  {
    SoundAt(limit, seconds, worlds, ops, i);
    assert worlds[i].tickets[j] in worlds[i].tickets;
  }

  /** A completion from an earlier epoch changes nothing. */
  lemma {:induction false} OldTicketsAreIgnored(limit: nat, seconds: real, worlds: seq<World>, ops: seq<Op>,
                                                i: nat, j: nat)
    requires History(limit, seconds, worlds, ops) && i <= j < |ops| && ops[j].Finish?
    requires ops[j].ticket < |worlds[i].tickets| && worlds[i].tickets[ops[j].ticket].epoch < worlds[i].b.epoch
    ensures worlds[j + 1].b == worlds[j].b && worlds[j + 1].probes == worlds[j].probes
  {
    EpochsOnlyGrow(limit, seconds, worlds, ops, i, j, ops[j].ticket);
  }

  lemma {:induction false} EpochsOnlyGrow(limit: nat, seconds: real, worlds: seq<World>, ops: seq<Op>,
                                          i: nat, j: nat, k: nat)
    requires History(limit, seconds, worlds, ops) && i <= j < |worlds| && k < |worlds[i].tickets|
    ensures k < |worlds[j].tickets| && worlds[j].tickets[k].epoch == worlds[i].tickets[k].epoch
    ensures worlds[j].tickets[k].probe == worlds[i].tickets[k].probe
    ensures worlds[i].b.epoch <= worlds[j].b.epoch
  {
    if i < j {
      EpochsOnlyGrow(limit, seconds, worlds, ops, i, j - 1, k);
    }
  }

  // ---------- the failing streak, read off the history ----------

  /** Operation i completes a call whose ticket is of the current epoch. */
  predicate Counts(worlds: seq<World>, ops: seq<Op>, i: nat)
    requires i < |ops| <= |worlds|
  {
    && ops[i].Finish? && ops[i].ticket < |worlds[i].tickets|
    && worlds[i].tickets[ops[i].ticket].epoch == worlds[i].b.epoch
  }

  /** The outcomes of the completions that counted among the first i operations, in order. */
  function Outcomes(worlds: seq<World>, ops: seq<Op>, i: nat): seq<bool>
    requires i <= |ops| <= |worlds|
  {
    if i == 0 then []
    else if Counts(worlds, ops, i - 1) then Outcomes(worlds, ops, i - 1) + [ops[i - 1].success]
    else Outcomes(worlds, ops, i - 1)
  }

  /** The last n of the outcomes are failures. */
  predicate EndsInFailures(outcomes: seq<bool>, n: nat) {
    n <= |outcomes| && forall k | |outcomes| - n <= k < |outcomes| :: !outcomes[k]
  }

  /** n is the length of the trailing run of failures: that many failed, and the one before them
      succeeded or does not exist. */
  predicate StreakIs(outcomes: seq<bool>, n: nat) {
    EndsInFailures(outcomes, n) && (n < |outcomes| ==> outcomes[|outcomes| - n - 1])
  }

  lemma StepKeepsStreak(limit: nat, seconds: real, w: World, op: Op, outcomes: seq<bool>)
    requires Allowed(w, op) && StreakIs(outcomes, w.b.failures)
    ensures var counts := op.Finish? && w.tickets[op.ticket].epoch == w.b.epoch;
            StreakIs(if counts then outcomes + [op.success] else outcomes, Apply(limit, seconds, w, op).b.failures)
  {
    if op.Finish? {
      assert forall k | 0 <= k < |outcomes| :: (outcomes + [op.success])[k] == outcomes[k];
    }
  }

  /** failures is the trailing run of failed completions among those that counted; while closed
      it is below the limit. */
  lemma {:induction false} FailuresCountTheStreak(limit: nat, seconds: real, worlds: seq<World>, ops: seq<Op>, i: nat)
    requires 0 < limit && History(limit, seconds, worlds, ops) && i < |worlds|
    ensures StreakIs(Outcomes(worlds, ops, i), worlds[i].b.failures)
    ensures worlds[i].b.openedAt.Never? ==> worlds[i].b.failures < limit
  {
    hide Apply, StreakIs;
    SoundAt(limit, seconds, worlds, ops, i);
    if i > 0 {
      FailuresCountTheStreak(limit, seconds, worlds, ops, i - 1);
      StepKeepsStreak(limit, seconds, worlds[i - 1], ops[i - 1], Outcomes(worlds, ops, i - 1));
    } else {
      NoStreak();
    }
  }

  lemma NoStreak()
    ensures StreakIs([], 0)
  {
  }

  /** Operation i opens the breaker, or opens it again. */
  predicate Opens(worlds: seq<World>, i: nat)
    requires i + 1 < |worlds|
  {
    worlds[i + 1].b.openedAt.At? && worlds[i].b.epoch < worlds[i + 1].b.epoch
  }

  /** The breaker opens in exactly two ways: a current probe fails, or a current call fails and
      with it the last limit completions that counted have all failed. */
  lemma {:induction false} OpensExactlyWhen(limit: nat, seconds: real, worlds: seq<World>, ops: seq<Op>, i: nat)
    requires 0 < limit && History(limit, seconds, worlds, ops) && i < |ops|
    ensures Opens(worlds, i) <==>
              && Counts(worlds, ops, i) && !ops[i].success
              && (worlds[i].tickets[ops[i].ticket].probe || EndsInFailures(Outcomes(worlds, ops, i + 1), limit))
  {
    SoundAt(limit, seconds, worlds, ops, i);
    FailuresCountTheStreak(limit, seconds, worlds, ops, i);
    var w, op := worlds[i], ops[i];
    assert worlds[i + 1] == Apply(limit, seconds, w, op);
    if Counts(worlds, ops, i) && !op.success {
      assert w.tickets[op.ticket] in w.tickets;
      if w.b.openedAt.Never? {
        StreakGrows(Outcomes(worlds, ops, i), w.b.failures, limit);
      }
    }
  }

  /** One more failure makes limit failures in a row exactly if there was one less before. */
  lemma StreakGrows(outcomes: seq<bool>, n: nat, limit: nat)
    requires StreakIs(outcomes, n) && n < limit
    ensures EndsInFailures(outcomes + [false], limit) <==> n + 1 == limit
  {
    if n + 1 < limit <= |outcomes| + 1 {
      assert (outcomes + [false])[|outcomes| - n - 1];
    }
  }

  // ---------- when a ticket is issued, read off the history ----------

  /** Operation i completes the current probe with success. */
  predicate Closes(worlds: seq<World>, ops: seq<Op>, i: nat)
    requires i < |ops| <= |worlds|
  {
    Counts(worlds, ops, i) && ops[i].success && worlds[i].tickets[ops[i].ticket].probe
  }

  /** Operation i is a current failure that is of a probe or completes a streak of limit. */
  predicate Trips(limit: nat, worlds: seq<World>, ops: seq<Op>, i: nat)
    requires i < |ops| <= |worlds|
  {
    && Counts(worlds, ops, i) && !ops[i].success
    && (worlds[i].tickets[ops[i].ticket].probe || EndsInFailures(Outcomes(worlds, ops, i + 1), limit))
  }

  /** The completion that opened the breaker for the last time, if it has not been closed since. */
  function OpenSince(limit: nat, worlds: seq<World>, ops: seq<Op>, i: nat): (r: Option<nat>)
    requires i <= |ops| <= |worlds|
    ensures r.Some? ==> r.value < i
  {
    if i == 0 then None
    else if Trips(limit, worlds, ops, i - 1) then Some(i - 1)
    else if Closes(worlds, ops, i - 1) then None
    else OpenSince(limit, worlds, ops, i - 1)
  }

  /** An operation that neither trips nor closes leaves epoch and opening as they are. */
  lemma {:induction false} OtherwiseStays(limit: nat, seconds: real, worlds: seq<World>, ops: seq<Op>, i: nat)
    requires 0 < limit && History(limit, seconds, worlds, ops) && i < |ops|
    ensures var v, w := worlds[i + 1], worlds[i];
            && (Trips(limit, worlds, ops, i) ==>
                  v.b.openedAt == At(ops[i].now) && v.b.epoch == w.b.epoch + 1 && |v.tickets| == |w.tickets|)
            && (Closes(worlds, ops, i) ==>
                  v.b.openedAt.Never? && v.b.epoch == w.b.epoch + 1 && |v.tickets| == |w.tickets|)
            && (!Trips(limit, worlds, ops, i) && !Closes(worlds, ops, i) ==>
                  v.b.openedAt == w.b.openedAt && v.b.epoch == w.b.epoch)
            && |w.tickets| <= |v.tickets| <= |w.tickets| + 1
            && (|v.tickets| > |w.tickets| ==> v.tickets[|w.tickets|] == Ticket(w.b.epoch, w.b.openedAt.At?, false))
  {
    hide Outcomes, EndsInFailures;
    SoundAt(limit, seconds, worlds, ops, i);
    OpensExactlyWhen(limit, seconds, worlds, ops, i);
    assert worlds[i + 1] == Apply(limit, seconds, worlds[i], ops[i]);
    if ops[i].Finish? {
      assert worlds[i].tickets[ops[i].ticket] in worlds[i].tickets;
    }
  }

  /** The tickets of the current epoch of an open breaker are those issued since it opened. */
  lemma {:induction false} OpenSinceIs(limit: nat, seconds: real, worlds: seq<World>, ops: seq<Op>, i: nat)
    requires 0 < limit && History(limit, seconds, worlds, ops) && i <= |ops|
    ensures var since := OpenSince(limit, worlds, ops, i);
            && worlds[i].b.openedAt == (if since.Some? then At(ops[since.value].now) else Never)
            && (since.Some? ==>
                  && |worlds[since.value + 1].tickets| <= |worlds[i].tickets|
                  && forall k | 0 <= k < |worlds[i].tickets| ::
                       worlds[i].tickets[k].epoch == worlds[i].b.epoch <==> k >= |worlds[since.value + 1].tickets|)
  {
    hide Trips, Closes;
    if i > 0 {
      OpenSinceIs(limit, seconds, worlds, ops, i - 1);
      OtherwiseStays(limit, seconds, worlds, ops, i - 1);
      SoundAt(limit, seconds, worlds, ops, i - 1);
      forall k | 0 <= k < |worlds[i - 1].tickets|
        ensures worlds[i].tickets[k].epoch == worlds[i - 1].tickets[k].epoch <= worlds[i - 1].b.epoch
      {
        EpochsOnlyGrow(limit, seconds, worlds, ops, i - 1, i, k);
        assert worlds[i - 1].tickets[k] in worlds[i - 1].tickets;
      }
    }
  }

  /** A closed breaker issues a ticket to every caller; an open one if and only if the cooldown has
      passed since the completion that opened it and no ticket issued since then is unfinished. */
  lemma {:induction false} IssuesExactlyWhen(limit: nat, seconds: real, worlds: seq<World>, ops: seq<Op>, i: nat)
    requires 0 < limit && History(limit, seconds, worlds, ops) && i < |ops| && ops[i].Acquire?
    ensures var since := OpenSince(limit, worlds, ops, i);
            && (since.Some? ==> |worlds[since.value + 1].tickets| <= |worlds[i].tickets|)
            && (|worlds[i + 1].tickets| > |worlds[i].tickets| <==>
                  since.None? ||
                  (ops[i].now - ops[since.value].now >= seconds
                   && forall k | |worlds[since.value + 1].tickets| <= k < |worlds[i].tickets| ::
                        worlds[i].tickets[k].finished))
  {
    hide Trips, Closes, OpenSince;
    OpenSinceIs(limit, seconds, worlds, ops, i);
    SoundAt(limit, seconds, worlds, ops, i);
    ProbingHasTicket(limit, seconds, worlds, ops, i);
    assert worlds[i + 1] == Apply(limit, seconds, worlds[i], ops[i]);
    assert forall k | 0 <= k < |worlds[i].tickets| :: worlds[i].tickets[k] in worlds[i].tickets;
  }

  /** While a probe is in flight its ticket is there, unfinished. */
  lemma {:induction false} ProbingHasTicket(limit: nat, seconds: real, worlds: seq<World>, ops: seq<Op>, i: nat)
    requires 0 < limit && History(limit, seconds, worlds, ops) && i < |worlds|
    ensures worlds[i].b.probing ==> exists t | t in worlds[i].tickets :: t.epoch == worlds[i].b.epoch && !t.finished
  {
    if i > 0 && worlds[i].b.probing {
      ProbingHasTicket(limit, seconds, worlds, ops, i - 1);
      SoundAt(limit, seconds, worlds, ops, i - 1);
      var w, v, op := worlds[i - 1], worlds[i], ops[i - 1];
      assert v == Apply(limit, seconds, w, op);
      if w.b.probing {
        var t :| t in w.tickets && t.epoch == w.b.epoch && !t.finished;
        var k :| 0 <= k < |w.tickets| && w.tickets[k] == t;
        assert v.tickets[k] in v.tickets;
        assert op.Finish? ==> w.tickets[op.ticket] in w.tickets;
      } else {
        assert op.Acquire?;
        assert v.tickets[|w.tickets|] in v.tickets;
      }
    }
  }

  // ---------- recovery traffic, on a clock that does not run backwards ----------

  predicate Ticking(ops: seq<Op>) {
    forall i, j | 0 <= i < j < |ops| :: ops[i].now <= ops[j].now
  }

  /** Probes without a success between them are spaced, and none is later than the clock or,
      once it has failed, than the opening that followed. */
  predicate Timed(seconds: real, w: World) {
    && (w.b.openedAt.At? ==> w.b.openedAt.time <= w.now)
    && Spaced(w.probes, seconds)
    && (forall p | p in w.probes :: p <= w.now)
    && (w.b.openedAt.At? && !w.b.probing && w.probes != [] ==> w.probes[|w.probes| - 1] <= w.b.openedAt.time)
  }

  lemma AcquireKeepsTimed(limit: nat, seconds: real, w: World, now: real)
    requires Sound(limit, w) && Timed(seconds, w) && (w.b.openedAt.At? ==> w.now <= now)
    ensures Timed(seconds, Apply(limit, seconds, w, Acquire(now)))
  {
    var n := |w.probes|;
    assert n > 0 ==> w.probes[n - 1] in w.probes;
    var v := Apply(limit, seconds, w, Acquire(now));
    assert forall p | p in v.probes :: p in w.probes || p == now;
  }

  lemma FinishKeepsTimed(limit: nat, seconds: real, w: World, op: Op)
    requires Sound(limit, w) && Timed(seconds, w) && op.Finish? && Allowed(w, op)
    requires w.b.openedAt.At? ==> w.now <= op.now
    ensures Timed(seconds, Apply(limit, seconds, w, op))
  {
    hide Spaced;
    assert w.tickets[op.ticket] in w.tickets;
    assert w.probes != [] ==> w.probes[|w.probes| - 1] in w.probes;
    NoTimesSpaced(seconds);
  }

  lemma NoTimesSpaced(seconds: real)
    ensures Spaced([], seconds)
  {
  }

  lemma {:induction false} TimedAt(limit: nat, seconds: real, worlds: seq<World>, ops: seq<Op>, i: nat)
    requires 0 < limit && History(limit, seconds, worlds, ops) && Ticking(ops) && i < |worlds|
    ensures Timed(seconds, worlds[i])
    ensures 0 < i ==> worlds[i].now == ops[i - 1].now
  {
    if i > 0 {
      TimedAt(limit, seconds, worlds, ops, i - 1);
      SoundAt(limit, seconds, worlds, ops, i - 1);
      if ops[i - 1].Acquire? {
        AcquireKeepsTimed(limit, seconds, worlds[i - 1], ops[i - 1].now);
      } else {
        FinishKeepsTimed(limit, seconds, worlds[i - 1], ops[i - 1]);
      }
    }
  }

  /** Recovery traffic is bounded: n probes without a success between them take at least
      (n - 1) * seconds from the first to the last. */
  lemma ProbesAreSpaced(limit: nat, seconds: real, worlds: seq<World>, ops: seq<Op>, n: nat)
    requires 0 < limit && History(limit, seconds, worlds, ops) && Ticking(ops) && n < |worlds|
    ensures forall i, j | 0 <= i <= j < |worlds[n].probes| ::
              worlds[n].probes[j] - worlds[n].probes[i] >= seconds * (j - i) as real
  {
    TimedAt(limit, seconds, worlds, ops, n);
    forall i, j | 0 <= i <= j < |worlds[n].probes|
      ensures worlds[n].probes[j] - worlds[n].probes[i] >= seconds * (j - i) as real
    {
      SpacedApart(worlds[n].probes, seconds, i, j);
    }
  }

  // ---------- a probe that is never finished ----------

  /** While a probe is in flight, an operation that does not finish it changes nothing. */
  lemma {:induction false} BlockedStep(limit: nat, seconds: real, w: World, op: Op, k: nat)
    requires Sound(limit, w) && Allowed(w, op)
    requires w.b.probing && k < |w.tickets| && w.tickets[k].epoch == w.b.epoch && !(op.Finish? && op.ticket == k)
    ensures var v := Apply(limit, seconds, w, op);
            v.b == w.b && |v.tickets| == |w.tickets| && v.tickets[k] == w.tickets[k]
    ensures forall now :: !AcquireOn(seconds, w.b, now).1
  {
    assert op.Finish? ==> w.tickets[op.ticket] in w.tickets;
  }

  /** A probe that is never finished keeps the breaker rejecting for good. */
  lemma {:induction false} UnfinishedProbeBlocks(limit: nat, seconds: real, worlds: seq<World>, ops: seq<Op>,
                                                 i: nat, j: nat, k: nat)
    requires 0 < limit && History(limit, seconds, worlds, ops) && i <= j < |worlds|
    requires worlds[i].b.probing && k < |worlds[i].tickets| && worlds[i].tickets[k].epoch == worlds[i].b.epoch
    requires forall m | i <= m < j :: !(ops[m].Finish? && ops[m].ticket == k)
    ensures worlds[j].b == worlds[i].b && k < |worlds[j].tickets| && worlds[j].tickets[k] == worlds[i].tickets[k]
    ensures forall now :: !AcquireOn(seconds, worlds[j].b, now).1
  {
    hide Apply;
    SoundAt(limit, seconds, worlds, ops, i);
    if i < j {
      UnfinishedProbeBlocks(limit, seconds, worlds, ops, i, j - 1, k);
      SoundAt(limit, seconds, worlds, ops, j - 1);
      BlockedStep(limit, seconds, worlds[j - 1], ops[j - 1], k);
    }
  }
}
