/** Hosted calls: the ledger, the bounded slots and the circuit breaker put together. */
module Hosted {
  import opened Common
  import opened Sums
  import L = Ledger
  import B = Breaker

  type Usage = Option<L.TokenUsage>

  const NOTHING := L.TokenUsage(0, 0, 0)

  datatype Reason = Disabled | Busy | CircuitOpen | InvalidOutput | InvalidUsage {
    function Text(): string {
      match this
      case Disabled => "disabled"
      case Busy => "busy"
      case CircuitOpen => "circuit_open"
      case InvalidOutput => "invalid_output"
      case InvalidUsage => "invalid_usage"
    }
  }

  /** How an attempt ends: an answer, a provider failure, a status error, another transport
      error, a value, key or type error, or an index error. */
  datatype Result =
    | Answer(usage: Usage)
    | Failure(reason: Reason, usage: Usage)
    | StatusError(code: int)
    | TransportError
    | DataError
    | IndexError

  /** A definitive rejection by the provider. */
  predicate Rejection(r: Result) { r.StatusError? && 400 <= r.code < 500 }

  function OutcomeOf(r: Result): string {
    match r
    case Answer(_) => "completed"
    case Failure(reason, _) => reason.Text()
    case _ => if Rejection(r) then "rejected" else "unknown"
  }

  function UsageOf(r: Result): Usage {
    match r
    case Answer(usage) => usage
    case Failure(_, usage) => usage
    case _ => if Rejection(r) then Some(NOTHING) else None
  }

  /** The adapter finishes its ticket for an answer and for every error family but this one. */
  predicate FinishesTicket(r: Result) { !r.IndexError? }

  /** No outcome collides with the one that marks a reservation as open. */
  lemma OutcomesSettle(r: Result)
    ensures OutcomeOf(r) != L.RESERVED
  {
    assert OutcomeOf(r)[0] != 'r' || OutcomeOf(r)[2] == 'j';
  }

  /** What one HTTP call can end in: the reasons it gives for a failure, and the usage with them. */
  predicate FromCall(r: Result) {
    r.Failure? ==> r.reason.InvalidOutput? || (r.reason.InvalidUsage? && r.usage.None?)
  }

  /** A failure before the call: nothing left the process. */
  predicate Unsent(r: Result) {
    r.Failure? && r.reason in {Disabled, Busy, CircuitOpen} && r.usage == Some(NOTHING)
  }

  // ---------- the program, one call ----------

  datatype Info = Info(provider: string, reason: string, usage: Usage)

  /** What one attempt is given: the key, the clock at the two breaker calls, and the result
      of the HTTP call if it is made. */
  datatype Attempt = Attempt(keyed: bool, asked: real, answered: real, called: Result)

  /** How an attempt ends with the given breaker and free slots. */
  function ResultOf(seconds: real, s: B.State, free: nat, a: Attempt): Result {
    if !a.keyed then Failure(Disabled, Some(NOTHING))
    else if free == 0 then Failure(Busy, Some(NOTHING))
    else if !B.AcquireOn(seconds, s, a.asked).1 then Failure(CircuitOpen, Some(NOTHING))
    else a.called
  }

  /** The attempt gets as far as the HTTP call. */
  predicate Sends(seconds: real, s: B.State, free: nat, a: Attempt) {
    a.keyed && free > 0 && B.AcquireOn(seconds, s, a.asked).1
  }

  class FallbackGenerator {
    const ledger: L.PostgresUsageLedger?
    const breaker: B.CircuitBreaker
    var free: nat

    constructor (ledger: L.PostgresUsageLedger?, breaker: B.CircuitBreaker, slots: nat)
      ensures this.ledger == ledger && this.breaker == breaker && free == slots
    {
      this.ledger, this.breaker, free := ledger, breaker, slots;
    }

    /** The books, if the deployment keeps any. */
    function Books(): Option<L.Books>
      reads this, ledger
    {
      if ledger == null then None else Some(ledger.Value())
    }

    /** The books once the reservation is made; None if it is refused. */
    function Reserving(tenant: string, bound: int, day: int, id: string): Option<Option<L.Books>>
      reads this, ledger
    {
      if ledger == null then Some(None)
      else
        var r := L.ReserveOn(ledger.limit, ledger.Value(), tenant, bound, day, id);
        if r.Some? then Some(r) else None
    }

    /** OpenAIGenerator.generate: slots are given back on every path, and the ticket is finished
        for an answer and for every caught error. */
    method Adapter(a: Attempt) returns (r: Result)
      modifies this, breaker
      ensures free == old(free)
      ensures r == ResultOf(breaker.seconds, old(breaker.Value()), old(free), a)
      ensures !a.keyed ==> r == Failure(Disabled, Some(NOTHING))
      ensures a.keyed && old(free) == 0 ==> r == Failure(Busy, Some(NOTHING))
      ensures a.keyed && old(free) > 0 ==>
                r == if B.AcquireOn(breaker.seconds, old(breaker.Value()), a.asked).1 then a.called
                     else Failure(CircuitOpen, Some(NOTHING))
      ensures !Sends(breaker.seconds, old(breaker.Value()), old(free), a) ==>
                Unsent(r) && breaker.Value() == old(breaker.Value())
      ensures Sends(breaker.seconds, old(breaker.Value()), old(free), a) ==>
                var b := B.AcquireOn(breaker.seconds, old(breaker.Value()), a.asked).0;
                breaker.Value() == if !FinishesTicket(r) then b
                                   else B.FinishOn(breaker.limit, b, b.epoch, r.Answer?, a.answered)
    {
      if !a.keyed {
        return Failure(Disabled, Some(NOTHING));
      }
      if free == 0 {
        return Failure(Busy, Some(NOTHING));
      }
      free := free - 1;
      var ok, ticket := breaker.Acquire(a.asked);
      if !ok {
        r := Failure(CircuitOpen, Some(NOTHING));
      } else {
        r := a.called;
        if FinishesTicket(r) {
          breaker.Finish(ticket, r.Answer?, a.answered);
        }
      }
      free := free + 1;
    }

    /** _hosted: a reservation that was obtained is settled on every path, with the usage and
        the outcome the result stands for; without books the call is made all the same. */
    method Hosted(tenant: string, bound: int, day: int, id: string, a: Attempt) returns (r: Option<Result>)
      modifies this, breaker, ledger
      ensures free == old(free)
      ensures r.Some? == old(Reserving(tenant, bound, day, id)).Some?
      ensures r.None? ==> Books() == old(Books()) && breaker.Value() == old(breaker.Value())
      ensures r.Some? ==> r.value == ResultOf(breaker.seconds, old(breaker.Value()), old(free), a)
      ensures r.Some? && ledger == null ==> Books() == None
      ensures r.Some? && ledger != null ==>
                Books() == Some(L.SettleOn(old(Reserving(tenant, bound, day, id)).value.value, tenant, id,
                                           UsageOf(r.value), OutcomeOf(r.value)))
    {
      if ledger != null {
        var ok := ledger.Reserve(tenant, bound, day, id);
        if !ok {
          return None;
        }
      }
      var result := Adapter(a);
      var usage: Usage, outcome := None, "unknown";
      match result {
        case Answer(u) => usage, outcome := u, "completed";
        case Failure(reason, u) => usage, outcome := u, reason.Text();
        case StatusError(code) =>
          if 400 <= code < 500 {
            usage, outcome := Some(NOTHING), "rejected";
          }
        case _ =>
      }
      if ledger != null {
        ledger.Settle(tenant, id, usage, outcome);
      }
      return Some(result);
    }

    /** generate: which provider answered, and why the local one did. The hosted one answers
        exactly when it is configured, there is evidence, the budget, a slot and the breaker
        admit the call, and the call succeeds. */
    method Generate(enabled: bool, passages: nat, tenant: string, bound: int, day: int, id: string, a: Attempt)
      returns (info: Info)
      modifies this, breaker, ledger
      ensures free == old(free) && (info.provider == "openai" || info.provider == "extractive")
      ensures !enabled || passages == 0 ==>
                && info == Info("extractive", "disabled", None)
                && Books() == old(Books()) && breaker.Value() == old(breaker.Value())
      ensures enabled && passages > 0 ==>
                var admitted := old(Reserving(tenant, bound, day, id)).Some?;
                var r := ResultOf(breaker.seconds, old(breaker.Value()), old(free), a);
                && (info.provider == "openai" <==> admitted && r.Answer?)
                && (r.Answer? ==> Sends(breaker.seconds, old(breaker.Value()), old(free), a) && r == a.called)
                && (info.reason == "" <==> info.provider == "openai")
                && (info.reason == "daily_budget" <==> !admitted)
                && (info.reason == "provider_unavailable" <==> admitted && !r.Answer? && !r.Failure?)
                && (admitted && r.Failure? ==> info.reason == r.reason.Text())
                && info.usage == (if admitted && (r.Answer? || r.Failure?) then r.usage else None)
                && (!admitted ==> Books() == old(Books()) && breaker.Value() == old(breaker.Value()))
                && (admitted && ledger != null ==>
                      Books() == Some(L.SettleOn(old(Reserving(tenant, bound, day, id)).value.value, tenant, id,
                                                 UsageOf(r), OutcomeOf(r))))
    {
      info := Info("extractive", "disabled", None);
      if enabled && passages > 0 {
        var r := Hosted(tenant, bound, day, id, a);
        match r {
          case None => info := Info("extractive", "daily_budget", None);
          case Some(Answer(usage)) => info := Info("openai", "", usage);
          case Some(Failure(reason, usage)) => info := Info("extractive", reason.Text(), usage);
          case Some(_) => info := Info("extractive", "provider_unavailable", None);
        }
        ReasonsDiffer();
      }
    }
  }

  lemma ReasonsDiffer()
    ensures forall reason: Reason :: reason.Text() !in {"daily_budget", "provider_unavailable", ""}
  {
    assert "daily_budget"[1] == 'a' && "provider_unavailable"[0] == 'p';
    forall reason: Reason ensures reason.Text() !in {"daily_budget", "provider_unavailable", ""} {
      assert reason.Text()[1] != 'a' && reason.Text()[0] != 'p';
    }
  }

  // ---------- many calls at once ----------

  datatype Phase =
    | Reserved           // budget reserved, nothing else taken
    | Holding            // holds a slot
    | Calling(ticket: nat)
    | Releasing(result: Result)
    | Settling(result: Result)
    | Done(result: Result)

  /** issued, finishes and settles are history: the ticket taken and how often it was finished
      and the reservation settled. */
  datatype Call = Call(phase: Phase, issued: Option<nat>, finishes: nat, settles: nat)

  /** The k-th call made the k-th reservation. */
  datatype World = World(books: L.Books, breaker: B.World, free: nat, calls: seq<Call>)

  datatype Setup = Setup(limit: int, slots: nat, failures: nat, seconds: real)

  datatype Step =
    | Arrive(tenant: string, tokens: int, day: int, id: string)
    | Enter(i: nat, keyed: bool)
    | Admit(i: nat, now: real)
    | Reply(i: nat, result: Result, now: real)
    | Release(i: nat)
    | Settle(i: nat)

  function Initial(c: Setup): World { World(L.EMPTY, B.START, c.slots, []) }

  predicate Enabled(w: World, step: Step) {
    match step
    case Arrive(_, _, _, id) => forall r | r in w.books.rows :: r.id != id
    case Enter(i, _) => i < |w.calls| && w.calls[i].phase.Reserved?
    case Admit(i, _) => i < |w.calls| && w.calls[i].phase.Holding?
    case Reply(i, result, _) =>
      && i < |w.calls| && w.calls[i].phase.Calling? && FromCall(result)
      && w.calls[i].phase.ticket < |w.breaker.tickets|
    case Release(i) => i < |w.calls| && w.calls[i].phase.Releasing?
    case Settle(i) => i < |w.calls| && w.calls[i].phase.Settling? && i < |w.books.rows|
  }

  function Move(w: World, i: nat, phase: Phase): World
    requires i < |w.calls|
  {
    w.(calls := w.calls[i := w.calls[i].(phase := phase)])
  }

  function Next(c: Setup, w: World, step: Step): World
    requires Enabled(w, step)
  {
    match step
    case Arrive(tenant, tokens, day, id) =>
      var r := L.ReserveOn(c.limit, w.books, tenant, tokens, day, id);
      if r.None? then w else w.(books := r.value, calls := w.calls + [Call(Reserved, None, 0, 0)])
    case Enter(i, keyed) =>
      if !keyed then Move(w, i, Settling(Failure(Disabled, Some(NOTHING))))
      else if w.free == 0 then Move(w, i, Settling(Failure(Busy, Some(NOTHING))))
      else Move(w, i, Holding).(free := w.free - 1)
    case Admit(i, now) =>
      var v := B.Apply(c.failures, c.seconds, w.breaker, B.Acquire(now));
      if |v.tickets| == |w.breaker.tickets|
      then Move(w, i, Releasing(Failure(CircuitOpen, Some(NOTHING)))).(breaker := v)
      else
        var k := |w.breaker.tickets|;
        w.(breaker := v, calls := w.calls[i := Call(Calling(k), Some(k), 0, w.calls[i].settles)])
    case Reply(i, result, now) =>
      var k := w.calls[i].phase.ticket;
      var op := B.Finish(k, result.Answer?, now);
      if FinishesTicket(result) && B.Allowed(w.breaker, op)
      then w.(breaker := B.Apply(c.failures, c.seconds, w.breaker, op),
              calls := w.calls[i := w.calls[i].(phase := Releasing(result), finishes := w.calls[i].finishes + 1)])
      else Move(w, i, Releasing(result))
    case Release(i) => Move(w, i, Settling(w.calls[i].phase.result)).(free := w.free + 1)
    case Settle(i) =>
      var row, result := w.books.rows[i], w.calls[i].phase.result;
      w.(books := L.SettleOn(w.books, row.tenant, row.id, UsageOf(result), OutcomeOf(result)),
         calls := w.calls[i := w.calls[i].(phase := Done(result), settles := w.calls[i].settles + 1)])
  }

  predicate Run(c: Setup, worlds: seq<World>, steps: seq<Step>) {
    && |worlds| == |steps| + 1 && worlds[0] == Initial(c)
    && forall i | 0 <= i < |steps| :: Enabled(worlds[i], steps[i]) && worlds[i + 1] == Next(c, worlds[i], steps[i])
  }

  // ---------- invariants ----------

  function HoldsSlot(): Call -> int {
    (c: Call) => if c.phase.Holding? || c.phase.Calling? || c.phase.Releasing? then 1 else 0
  }

  /** Where a call stands with its ticket and its reservation: without a ticket nothing was
      sent, and a ticket is finished once the call is over unless an index error ended it. */
  predicate CallSound(tickets: seq<B.Ticket>, call: Call, row: L.Row) {
    && (!call.phase.Done? ==> row.Open() && call.settles == 0)
    && (call.phase.Done? ==>
          && call.settles == 1 && row.outcome == OutcomeOf(call.phase.result)
          && row.charge == L.ChargeOf(row.tokens, UsageOf(call.phase.result)))
    && (call.issued.Some? ==>
          call.issued.value < |tickets| && (tickets[call.issued.value].finished <==> call.finishes > 0))
    && (match call.phase
        case Reserved => call.issued.None? && call.finishes == 0
        case Holding => call.issued.None? && call.finishes == 0
        case Calling(k) => call.issued == Some(k) && call.finishes == 0
        case Releasing(r) => Ended(call, r)
        case Settling(r) => Ended(call, r)
        case Done(r) => Ended(call, r))
  }

  predicate Ended(call: Call, r: Result) {
    && (if call.issued.Some? then FromCall(r) else Unsent(r))
    && call.finishes == TimesFinished(call, r)
  }

  function TimesFinished(call: Call, r: Result): nat {
    if call.issued.Some? && FinishesTicket(r) then 1 else 0
  }

  ghost predicate Sound(c: Setup, w: World) {
    && L.Balanced(c.limit, w.books) && B.Sound(c.failures, w.breaker)
    && |w.calls| == |w.books.rows|
    && w.free + Sum(HoldsSlot(), w.calls) == c.slots
    && (forall i | 0 <= i < |w.calls| :: CallSound(w.breaker.tickets, w.calls[i], w.books.rows[i]))
    && (forall i, j | 0 <= i < j < |w.calls| && w.calls[i].issued.Some? :: w.calls[i].issued != w.calls[j].issued)
  }

  /** Settling by id reaches the call's own row, and the books stay balanced. */
  lemma SettlesOwnRow(limit: int, s: L.Books, i: nat, usage: Usage, outcome: string)
    requires L.Balanced(limit, s) && i < |s.rows| && s.rows[i].Open() && outcome != L.RESERVED
    ensures var r := s.rows[i];
            var t := L.SettleOn(s, r.tenant, r.id, usage, outcome);
            && L.Balanced(limit, t)
            && t.rows == s.rows[i := r.(usage := L.Known(usage), outcome := outcome,
                                        charge := L.ChargeOf(r.tokens, usage))]
  {
    hide L.DayBalanced;
    assert s.rows[i] in s.rows;
    assert L.FindOpen(s.rows, s.rows[i].tenant, s.rows[i].id) == i;
    L.SettleBalanced(limit, s, s.rows[i].tenant, s.rows[i].id, usage, outcome);
  }

  lemma NewCallSound(tickets: seq<B.Ticket>, row: L.Row)
    requires row.Open()
    ensures CallSound(tickets, Call(Reserved, None, 0, 0), row) && HoldsSlot()(Call(Reserved, None, 0, 0)) == 0
  {
  }

  lemma {:induction false} ArriveKeeps(c: Setup, w: World, step: Step)
    requires 0 <= c.limit && Sound(c, w) && step.Arrive? && Enabled(w, step)
    ensures Sound(c, Next(c, w, step))
  {
    hide L.Balanced, B.Sound, CallSound, HoldsSlot;
    var t := Next(c, w, step);
    if t != w {
      L.ReserveBalanced(c.limit, w.books, step.tenant, step.tokens, step.day, step.id);
      SumAppend(HoldsSlot(), w.calls, Call(Reserved, None, 0, 0));
      NewCallSound(w.breaker.tickets, t.books.rows[|w.calls|]);
      assert forall i | 0 <= i < |w.calls| :: t.calls[i] == w.calls[i] && t.books.rows[i] == w.books.rows[i];
    }
  }

  /** Taking or giving back a slot keeps the call's ticket and reservation as they are. */
  lemma SlotCallSound(c: Setup, w: World, step: Step)
    requires (step.Enter? || step.Release?) && Enabled(w, step) && step.i < |w.books.rows|
    requires CallSound(w.breaker.tickets, w.calls[step.i], w.books.rows[step.i])
    ensures var call := Next(c, w, step).calls[step.i];
            CallSound(w.breaker.tickets, call, w.books.rows[step.i]) && call.issued == w.calls[step.i].issued
  {
  }

  lemma SlotKeeps(c: Setup, w: World, step: Step)
    requires Sound(c, w) && (step.Enter? || step.Release?) && Enabled(w, step)
    ensures Sound(c, Next(c, w, step))
  {
    hide L.Balanced, B.Sound, CallSound;
    var t := Next(c, w, step);
    SumUpdate(HoldsSlot(), w.calls, step.i, t.calls[step.i]);
    SlotCallSound(c, w, step);
    assert forall j | 0 <= j < |w.calls| :: t.calls[j].issued == w.calls[j].issued;
  }

  /** A call is as sound as before if its ticket, if any, is as finished as before. */
  lemma CallStaysSound(tickets: seq<B.Ticket>, after: seq<B.Ticket>, call: Call, row: L.Row)
    requires CallSound(tickets, call, row) && |tickets| <= |after|
    requires call.issued.Some? && call.issued.value < |tickets| ==>
               after[call.issued.value].finished == tickets[call.issued.value].finished
    ensures CallSound(after, call, row)
  {
  }

  lemma AdmitCallSound(c: Setup, w: World, step: Step)
    requires step.Admit? && Enabled(w, step) && step.i < |w.books.rows|
    requires CallSound(w.breaker.tickets, w.calls[step.i], w.books.rows[step.i])
    ensures var t := Next(c, w, step);
            && CallSound(t.breaker.tickets, t.calls[step.i], w.books.rows[step.i])
            && w.breaker.tickets <= t.breaker.tickets && HoldsSlot()(t.calls[step.i]) == HoldsSlot()(w.calls[step.i])
            && (t.calls[step.i].issued.None? || t.calls[step.i].issued == Some(|w.breaker.tickets|))
  {
  }

  lemma IssuedEarlier(w: World, i: nat)
    requires i < |w.calls| && i < |w.books.rows| && CallSound(w.breaker.tickets, w.calls[i], w.books.rows[i])
    ensures w.calls[i].issued.Some? ==> w.calls[i].issued.value < |w.breaker.tickets|
  {
  }

  lemma {:induction false} AdmitKeeps(c: Setup, w: World, step: Step)
    requires 0 < c.failures && Sound(c, w) && step.Admit? && Enabled(w, step)
    ensures Sound(c, Next(c, w, step))
  {
    hide L.Balanced, B.Sound, CallSound, HoldsSlot;
    var t := Next(c, w, step);
    B.AcquireKeepsSound(c.failures, c.seconds, w.breaker, step.now);
    AdmitCallSound(c, w, step);
    SumUpdate(HoldsSlot(), w.calls, step.i, t.calls[step.i]);
    forall j | 0 <= j < |w.calls|
      ensures CallSound(t.breaker.tickets, t.calls[j], t.books.rows[j])
      ensures w.calls[j].issued.Some? ==> w.calls[j].issued.value < |w.breaker.tickets|
    {
      IssuedEarlier(w, j);
      if j != step.i {
        CallStaysSound(w.breaker.tickets, t.breaker.tickets, w.calls[j], w.books.rows[j]);
      }
    }
  }

  lemma ReplyCallSound(c: Setup, w: World, step: Step)
    requires step.Reply? && Enabled(w, step) && step.i < |w.books.rows|
    requires CallSound(w.breaker.tickets, w.calls[step.i], w.books.rows[step.i])
    ensures var t, k := Next(c, w, step), w.calls[step.i].phase.ticket;
            && CallSound(t.breaker.tickets, t.calls[step.i], w.books.rows[step.i])
            && t.calls[step.i].issued == w.calls[step.i].issued == Some(k)
            && HoldsSlot()(t.calls[step.i]) == HoldsSlot()(w.calls[step.i])
            && |t.breaker.tickets| == |w.breaker.tickets|
            && (forall j | 0 <= j < |w.breaker.tickets| && j != k :: t.breaker.tickets[j] == w.breaker.tickets[j])
            && t.breaker == if !FinishesTicket(step.result) then w.breaker
                            else B.Apply(c.failures, c.seconds, w.breaker,
                                         B.Finish(k, step.result.Answer?, step.now))
  {
  }

  lemma {:induction false} ReplyKeeps(c: Setup, w: World, step: Step)
    requires 0 < c.failures && Sound(c, w) && step.Reply? && Enabled(w, step)
    ensures Sound(c, Next(c, w, step))
  {
    hide L.Balanced, B.Sound, CallSound, HoldsSlot, B.Apply;
    var t := Next(c, w, step);
    var k := w.calls[step.i].phase.ticket;
    ReplyCallSound(c, w, step);
    if FinishesTicket(step.result) {
      NotFinishedYet(w, step.i);
      B.FinishKeepsSound(c.failures, c.seconds, w.breaker, B.Finish(k, step.result.Answer?, step.now));
    }
    SumUpdate(HoldsSlot(), w.calls, step.i, t.calls[step.i]);
    forall j | 0 <= j < |w.calls| ensures CallSound(t.breaker.tickets, t.calls[j], t.books.rows[j]) {
      if j != step.i {
        assert w.calls[j].issued.Some? ==> w.calls[j].issued != w.calls[step.i].issued;
        CallStaysSound(w.breaker.tickets, t.breaker.tickets, w.calls[j], w.books.rows[j]);
      }
    }
  }

  /** The ticket of a call in flight is still open. */
  lemma NotFinishedYet(w: World, i: nat)
    requires i < |w.calls| && i < |w.books.rows| && CallSound(w.breaker.tickets, w.calls[i], w.books.rows[i])
    requires w.calls[i].phase.Calling?
    ensures w.calls[i].phase.ticket < |w.breaker.tickets|
    ensures !w.breaker.tickets[w.calls[i].phase.ticket].finished
  {
  }

  lemma SettleCallSound(c: Setup, w: World, step: Step)
    requires step.Settle? && Enabled(w, step)
    requires CallSound(w.breaker.tickets, w.calls[step.i], w.books.rows[step.i])
    ensures w.books.rows[step.i].Open()
    ensures var t, r, row := Next(c, w, step), w.calls[step.i].phase.result, w.books.rows[step.i];
            && CallSound(w.breaker.tickets, t.calls[step.i],
                         row.(usage := L.Known(UsageOf(r)), outcome := OutcomeOf(r),
                              charge := L.ChargeOf(row.tokens, UsageOf(r))))
            && t.calls[step.i].issued == w.calls[step.i].issued
            && HoldsSlot()(t.calls[step.i]) == HoldsSlot()(w.calls[step.i])
  {
    hide L.SettleOn;
  }

  lemma {:induction false} SettleKeeps(c: Setup, w: World, step: Step)
    requires 0 <= c.limit && Sound(c, w) && step.Settle? && Enabled(w, step)
    ensures Sound(c, Next(c, w, step))
  {
    hide B.Sound, L.Balanced, L.SettleOn, CallSound, HoldsSlot, OutcomeOf, UsageOf;
    var t, i := Next(c, w, step), step.i;
    var result := w.calls[i].phase.result;
    SettleCallSound(c, w, step);
    OutcomesSettle(result);
    SettlesOwnRow(c.limit, w.books, i, UsageOf(result), OutcomeOf(result));
    SumUpdate(HoldsSlot(), w.calls, i, t.calls[i]);
    forall j | 0 <= j < |w.calls| ensures CallSound(t.breaker.tickets, t.calls[j], t.books.rows[j]) {
      assert CallSound(w.breaker.tickets, w.calls[j], w.books.rows[j]);
    }
  }

  /** The composition keeps the ledger balanced, the breaker sound and the slots accounted for
      in every interleaving of any number of calls. */
  lemma {:induction false} SoundAt(c: Setup, worlds: seq<World>, steps: seq<Step>, i: nat)
    requires 0 <= c.limit && 0 < c.failures && Run(c, worlds, steps) && i < |worlds|
    ensures Sound(c, worlds[i])
  {
    if i == 0 {
      L.EveryHistoryBalances(c.limit, [L.EMPTY], [], 0);
    } else {
      hide Sound, Next;
      SoundAt(c, worlds, steps, i - 1);
      var w, step := worlds[i - 1], steps[i - 1];
      match step {
        case Arrive(_, _, _, _) => ArriveKeeps(c, w, step);
        case Admit(_, _) => AdmitKeeps(c, w, step);
        case Reply(_, _, _) => ReplyKeeps(c, w, step);
        case Settle(_) => SettleKeeps(c, w, step);
        case _ => SlotKeeps(c, w, step);
      }
    }
  }

  // ---------- what callers rely on ----------

  lemma CallSoundAt(c: Setup, worlds: seq<World>, steps: seq<Step>, n: nat, i: nat)
    requires 0 <= c.limit && 0 < c.failures && Run(c, worlds, steps) && n < |worlds|
    requires i < |worlds[n].calls|
    ensures i < |worlds[n].books.rows|
    ensures CallSound(worlds[n].breaker.tickets, worlds[n].calls[i], worlds[n].books.rows[i])
  {
    hide Run, CallSound, B.Sound, L.Balanced;
    SoundAt(c, worlds, steps, n);
  }

  /** A finished call settled its reservation exactly once, and finished its ticket exactly once
      if it had one, unless the call ended in an index error: then the ticket stays open. */
  lemma EveryCallSettlesOnce(c: Setup, worlds: seq<World>, steps: seq<Step>, n: nat, i: nat)
    requires 0 <= c.limit && 0 < c.failures && Run(c, worlds, steps) && n < |worlds|
    requires i < |worlds[n].calls| && worlds[n].calls[i].phase.Done?
    ensures var call := worlds[n].calls[i];
            && call.settles == 1 && i < |worlds[n].books.rows| && !worlds[n].books.rows[i].Open()
            && (call.finishes == 1 <==> call.issued.Some? && !call.phase.result.IndexError?)
            && call.finishes <= 1
  {
    hide Run, OutcomeOf, UsageOf;
    CallSoundAt(c, worlds, steps, n, i);
    OutcomesSettle(worlds[n].calls[i].phase.result);
  }

  /** A call that never got a ticket - missing key, all slots busy, circuit open - and one that
      was rejected with a 4xx status cost nothing; one whose usage is unknown costs its whole
      reservation; any other costs what was reported. */
  predicate ChargedByOutcome(call: Call, row: L.Row)
    requires call.phase.Done?
  {
    match call.phase.result
    case Answer(usage) => call.issued.Some? && row.charge == Reported(usage, row.tokens)
    case Failure(Disabled, _) => call.issued.None? && row.charge == 0
    case Failure(Busy, _) => call.issued.None? && row.charge == 0
    case Failure(CircuitOpen, _) => call.issued.None? && row.charge == 0
    case Failure(InvalidOutput, usage) => call.issued.Some? && row.charge == Reported(usage, row.tokens)
    case Failure(InvalidUsage, _) => call.issued.Some? && row.charge == row.tokens
    case StatusError(code) => call.issued.Some? && row.charge == if 400 <= code < 500 then 0 else row.tokens
    case TransportError => call.issued.Some? && row.charge == row.tokens
    case DataError => call.issued.Some? && row.charge == row.tokens
    case IndexError => call.issued.Some? && row.charge == row.tokens
  }

  function Reported(usage: Usage, tokens: int): int { if usage.Some? then usage.value.Total() else tokens }

  lemma {:induction false} OneCallCharged(tickets: seq<B.Ticket>, call: Call, row: L.Row)
    requires CallSound(tickets, call, row) && call.phase.Done?
    ensures ChargedByOutcome(call, row)
  {
    hide OutcomeOf, TimesFinished;
  }

  /** What a finished call is charged, in every run. */
  lemma ChargesByOutcome(c: Setup, worlds: seq<World>, steps: seq<Step>, n: nat, i: nat)
    requires 0 <= c.limit && 0 < c.failures && Run(c, worlds, steps) && n < |worlds|
    requires i < |worlds[n].calls| && worlds[n].calls[i].phase.Done?
    ensures i < |worlds[n].books.rows| && ChargedByOutcome(worlds[n].calls[i], worlds[n].books.rows[i])
  {
    hide Run, CallSound, ChargedByOutcome;
    CallSoundAt(c, worlds, steps, n, i);
    OneCallCharged(worlds[n].breaker.tickets, worlds[n].calls[i], worlds[n].books.rows[i]);
  }

  /** What is recorded as the outcome of a finished call, in words. */
  predicate RecordedOutcome(call: Call, row: L.Row)
    requires call.phase.Done?
  {
    match call.phase.result
    case Answer(_) => row.outcome == "completed"
    case Failure(Disabled, _) => row.outcome == "disabled"
    case Failure(Busy, _) => row.outcome == "busy"
    case Failure(CircuitOpen, _) => row.outcome == "circuit_open"
    case Failure(InvalidOutput, _) => row.outcome == "invalid_output"
    case Failure(InvalidUsage, _) => row.outcome == "invalid_usage"
    case StatusError(code) => row.outcome == if 400 <= code < 500 then "rejected" else "unknown"
    case TransportError => row.outcome == "unknown"
    case DataError => row.outcome == "unknown"
    case IndexError => row.outcome == "unknown"
  }

  lemma OneCallRecorded(tickets: seq<B.Ticket>, call: Call, row: L.Row)
    requires CallSound(tickets, call, row) && call.phase.Done?
    ensures RecordedOutcome(call, row)
  {
    hide UsageOf, TimesFinished, FromCall, Unsent;
  }

  /** In every run a finished call is recorded with the outcome its result stands for. */
  lemma OutcomesAreRecorded(c: Setup, worlds: seq<World>, steps: seq<Step>, n: nat, i: nat)
    requires 0 <= c.limit && 0 < c.failures && Run(c, worlds, steps) && n < |worlds|
    requires i < |worlds[n].calls| && worlds[n].calls[i].phase.Done?
    ensures i < |worlds[n].books.rows| && RecordedOutcome(worlds[n].calls[i], worlds[n].books.rows[i])
  {
    hide Run, CallSound, RecordedOutcome;
    CallSoundAt(c, worlds, steps, n, i);
    OneCallRecorded(worlds[n].breaker.tickets, worlds[n].calls[i], worlds[n].books.rows[i]);
  }

  /** Where each step takes its call: a missing key and full slots end it, the breaker admits it or
      ends it, the reply becomes its result and stays it. Other calls stay where they are. */
  lemma StepsDecideResults(c: Setup, w: World, step: Step)
    requires Enabled(w, step) && !step.Arrive?
    ensures var t := Next(c, w, step);
            var phase := t.calls[step.i].phase;
            && |t.calls| == |w.calls| && (forall j | 0 <= j < |w.calls| && j != step.i :: t.calls[j] == w.calls[j])
            && (step.Enter? ==>
                  phase == if !step.keyed then Settling(Failure(Disabled, Some(NOTHING)))
                           else if w.free == 0 then Settling(Failure(Busy, Some(NOTHING))) else Holding)
            && (step.Admit? ==>
                  phase == if |t.breaker.tickets| > |w.breaker.tickets| then Calling(|w.breaker.tickets|)
                           else Releasing(Failure(CircuitOpen, Some(NOTHING))))
            && (step.Reply? ==> phase == Releasing(step.result))
            && (step.Release? ==> phase == Settling(w.calls[step.i].phase.result) && t.free == w.free + 1)
            && (step.Settle? ==> phase == Done(w.calls[step.i].phase.result))
  {
    hide L.SettleOn, B.FinishOn;
  }

  /** When every call is done, all slots are free and no tenant has tokens reserved on any day. */
  lemma NothingLeaks(c: Setup, worlds: seq<World>, steps: seq<Step>, n: nat, tenant: string, day: int)
    requires 0 <= c.limit && 0 < c.failures && Run(c, worlds, steps) && n < |worlds|
    requires forall call | call in worlds[n].calls :: call.phase.Done?
    ensures worlds[n].free == c.slots && L.BudgetOf(worlds[n].books, tenant, day).reserved == 0
  {
    SoundAt(c, worlds, steps, n);
    var w := worlds[n];
    SumIsZero(HoldsSlot(), w.calls);
    forall row | row in w.books.rows ensures L.InDay(tenant, day, L.OpenTokens())(row) == 0 {
      var i :| 0 <= i < |w.books.rows| && w.books.rows[i] == row;
      assert w.calls[i] in w.calls && CallSound(w.breaker.tickets, w.calls[i], row);
      OutcomesSettle(w.calls[i].phase.result);
    }
    SumIsZero(L.InDay(tenant, day, L.OpenTokens()), w.books.rows);
    assert L.DayBalanced(c.limit, w.books, tenant, day);
  }

  lemma {:induction false} SumIsZero<T>(f: T -> int, s: seq<T>)
    requires forall x | x in s :: f(x) == 0
    ensures Sum(f, s) == 0
  {
    if s != [] {
      SumIsZero(f, s[..|s| - 1]);
      assert s[|s| - 1] in s;
    }
  }

  /** No more calls are in flight than there are slots. */
  lemma SlotsBoundCalls(c: Setup, worlds: seq<World>, steps: seq<Step>, n: nat)
    requires 0 <= c.limit && 0 < c.failures && Run(c, worlds, steps) && n < |worlds|
    ensures Sum(HoldsSlot(), worlds[n].calls) == c.slots - worlds[n].free <= c.slots
  {
    SoundAt(c, worlds, steps, n);
  }

  // ---------- an index error on a probe ----------

  /** Call i held the probe and ended in an index error, which leaves its ticket unfinished. */
  predicate LostProbe(w: World, i: nat) {
    && i < |w.calls| && w.calls[i].issued.Some? && w.calls[i].issued.value < |w.breaker.tickets|
    && w.breaker.tickets[w.calls[i].issued.value].probe
    && (w.calls[i].phase.Releasing? || w.calls[i].phase.Settling? || w.calls[i].phase.Done?)
    && w.calls[i].phase.result.IndexError?
  }

  lemma LostProbeIsInFlight(c: Setup, w: World, i: nat)
    requires Sound(c, w) && LostProbe(w, i)
    ensures var k := w.calls[i].issued.value;
            && w.breaker.b.probing && w.breaker.b.openedAt.At?
            && !w.breaker.tickets[k].finished && w.breaker.tickets[k].epoch == w.breaker.b.epoch
  {
    hide L.Balanced;
    assert CallSound(w.breaker.tickets, w.calls[i], w.books.rows[i]);
    assert w.breaker.tickets[w.calls[i].issued.value] in w.breaker.tickets;
  }

  /** What a step does to the breaker: the call that replies finishes its own ticket only. */
  lemma {:induction false} BreakerStep(c: Setup, w: World, step: Step, i: nat)
    requires Sound(c, w) && LostProbe(w, i) && Enabled(w, step)
    ensures var v, k := Next(c, w, step).breaker, w.calls[i].issued.value;
            v == w.breaker || exists op :: B.Allowed(w.breaker, op) && !(op.Finish? && op.ticket == k)
                                           && v == B.Apply(c.failures, c.seconds, w.breaker, op)
  {
    hide L.Balanced, B.Sound, B.Apply;
    if step.Admit? {
      assert B.Allowed(w.breaker, B.Acquire(step.now));
    } else if step.Reply? {
      assert CallSound(w.breaker.tickets, w.calls[step.i], w.books.rows[step.i]);
      assert w.calls[step.i].issued != w.calls[i].issued;
      var op := B.Finish(w.calls[step.i].phase.ticket, step.result.Answer?, step.now);
      assert B.Allowed(w.breaker, op);
    }
  }

  lemma SoundBreaker(c: Setup, w: World)
    requires Sound(c, w)
    ensures B.Sound(c.failures, w.breaker)
  {
  }

  lemma {:induction false} BreakerHolds(c: Setup, w: World, step: Step, i: nat)
    requires Sound(c, w) && LostProbe(w, i) && Enabled(w, step)
    ensures var v, k := Next(c, w, step).breaker, w.calls[i].issued.value;
            v.b == w.breaker.b && k < |v.tickets| && v.tickets[k] == w.breaker.tickets[k]
  {
    hide Sound, Next, B.Apply;
    var k, v := w.calls[i].issued.value, Next(c, w, step).breaker;
    LostProbeIsInFlight(c, w, i);
    BreakerStep(c, w, step, i);
    if v != w.breaker {
      var op :| B.Allowed(w.breaker, op) && !(op.Finish? && op.ticket == k)
                && v == B.Apply(c.failures, c.seconds, w.breaker, op);
      SoundBreaker(c, w);
      B.BlockedStep(c.failures, c.seconds, w.breaker, op, k);
    }
  }

  /** The step leaves the call over, and turns away a call that asks the breaker. */
  lemma {:induction false} LostProbeStep(c: Setup, w: World, step: Step, i: nat)
    requires Sound(c, w) && LostProbe(w, i) && Enabled(w, step)
    ensures var t := Next(c, w, step);
            && LostProbe(t, i) && t.breaker.b == w.breaker.b
            && (step.Admit? ==> t.calls[step.i].phase == Releasing(Failure(CircuitOpen, Some(NOTHING))))
  {
    hide Sound, L.ReserveOn, L.SettleOn, B.FinishOn;
    LostProbeIsInFlight(c, w, i);
    BreakerHolds(c, w, step, i);
  }

  /** An index error on a recovery probe is final: from then on the breaker does not change and
      every call that reaches it ends with circuit_open. */
  lemma {:induction false} IndexErrorOnProbeBlocks(c: Setup, worlds: seq<World>, steps: seq<Step>,
                                                   n: nat, m: nat, i: nat)
    requires 0 <= c.limit && 0 < c.failures && Run(c, worlds, steps) && n <= m < |worlds|
    requires LostProbe(worlds[n], i)
    ensures LostProbe(worlds[m], i) && worlds[m].breaker.b == worlds[n].breaker.b
    ensures m < |steps| && steps[m].Admit? ==>
              worlds[m + 1].calls[steps[m].i].phase == Releasing(Failure(CircuitOpen, Some(NOTHING)))
  {
    hide Sound, Next, LostProbe;
    if n < m {
      IndexErrorOnProbeBlocks(c, worlds, steps, n, m - 1, i);
      SoundAt(c, worlds, steps, m - 1);
      LostProbeStep(c, worlds[m - 1], steps[m - 1], i);
    }
    if m < |steps| {
      SoundAt(c, worlds, steps, m);
      LostProbeStep(c, worlds[m], steps[m], i);
    }
  }

  predicate RunTo(c: Setup, worlds: seq<World>, steps: seq<Step>, w: World) {
    Run(c, worlds, steps) && worlds[|steps|] == w
  }

  lemma Extend(c: Setup, worlds: seq<World>, steps: seq<Step>, w: World, step: Step)
    returns (ws: seq<World>, ss: seq<Step>)
    requires RunTo(c, worlds, steps, w) && Enabled(w, step)
    ensures RunTo(c, ws, ss, Next(c, w, step))
  {
    hide Next, Enabled;
    ws, ss := worlds + [Next(c, w, step)], steps + [step];
  }

  const SMALL := Setup(10, 2, 1, 1.0)

  /** After the first call of a run has failed and opened the breaker. */
  const OPENED := B.World(B.State(1, 1, B.At(0.0), false), [B.Ticket(0, false, true)], [], 0.0)

  lemma FirstCallFails() returns (worlds: seq<World>, steps: seq<Step>, w: World)
    ensures RunTo(SMALL, worlds, steps, w) && w.breaker == OPENED && w.free == 1 && |w.calls| == 1
    ensures w.books == L.ReserveOn(10, L.EMPTY, "t", 1, 0, "a").value
  {
    hide RunTo;
    w := Initial(SMALL);
    assert RunTo(SMALL, [w], [], w) by {
      hide *;
      StartsThere();
    }
    worlds, steps := Extend(SMALL, [w], [], w, Arrive("t", 1, 0, "a"));
    w := Next(SMALL, w, Arrive("t", 1, 0, "a"));
    worlds, steps := Extend(SMALL, worlds, steps, w, Enter(0, true));
    w := Next(SMALL, w, Enter(0, true));
    worlds, steps := Extend(SMALL, worlds, steps, w, Admit(0, 0.0));
    w := Next(SMALL, w, Admit(0, 0.0));
    worlds, steps := Extend(SMALL, worlds, steps, w, Reply(0, TransportError, 0.0));
    w := Next(SMALL, w, Reply(0, TransportError, 0.0));
  }

  lemma StartsThere()
    ensures RunTo(SMALL, [Initial(SMALL)], [], Initial(SMALL))
  {
  }

  /** There is such a run: one failure opens the breaker, the probe after the cooldown ends in an
      index error. */
  lemma {:induction false} ProbeCanBeLost() returns (worlds: seq<World>, steps: seq<Step>)
    ensures Run(SMALL, worlds, steps) && LostProbe(worlds[|steps|], 1)
  {
    hide RunTo;
    var w;
    worlds, steps, w := FirstCallFails();
    worlds, steps := Extend(SMALL, worlds, steps, w, Arrive("t", 1, 0, "b"));
    w := Next(SMALL, w, Arrive("t", 1, 0, "b"));
    worlds, steps := Extend(SMALL, worlds, steps, w, Enter(1, true));
    w := Next(SMALL, w, Enter(1, true));
    worlds, steps := Extend(SMALL, worlds, steps, w, Admit(1, 1.0));
    w := Next(SMALL, w, Admit(1, 1.0));
    worlds, steps := Extend(SMALL, worlds, steps, w, Reply(1, IndexError, 1.0));
    w := Next(SMALL, w, Reply(1, IndexError, 1.0));
    assert LostProbe(w, 1);
    RunEnds(SMALL, worlds, steps, w);
  }

  lemma RunEnds(c: Setup, worlds: seq<World>, steps: seq<Step>, w: World)
    requires RunTo(c, worlds, steps, w)
    ensures Run(c, worlds, steps) && worlds[|steps|] == w
  {
  }
}
