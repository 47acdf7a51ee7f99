/** The token ledger: running totals per tenant and UTC day, and the in-memory ledger that
    recomputes its sums. */
module Ledger {
  import opened Common
  import opened Sums

  datatype TokenUsage = TokenUsage(input: nat, output: nat, cached: nat) {
    /** Cached input is part of the input and counted once. */
    function Total(): nat { input + output }
  }

  const RESERVED := "reserved"

  // ---------- running totals ----------

  datatype Budget = Budget(charged: int, reserved: int)

  /** A usage row. charge is history: what settling it added to the charged total. */
  datatype Row = Row(id: string, tenant: string, day: int, tokens: int,
                     usage: TokenUsage, outcome: string, charge: int)
  {
    predicate Open() { outcome == RESERVED }

    predicate Of(t: string, d: int) { tenant == t && day == d }
  }

  datatype Books = Books(budgets: map<(string, int), Budget>, rows: seq<Row>)

  const EMPTY := Books(map[], [])

  /** The conditional upsert and the row insert of one transaction. */
  function ReserveOn(limit: int, s: Books, tenant: string, tokens: int, day: int, id: string): Option<Books> {
    var key := (tenant, day);
    if tokens < 1 || tokens > limit then None
    else if key in s.budgets && s.budgets[key].charged + s.budgets[key].reserved + tokens > limit then None
    else
      var b := if key in s.budgets then s.budgets[key] else Budget(0, 0);
      Some(Books(s.budgets[key := Budget(b.charged, b.reserved + tokens)],
                 s.rows + [Row(id, tenant, day, tokens, TokenUsage(0, 0, 0), RESERVED, 0)]))
  }

  /** The open row of the tenant with the id, |rows| if there is none. */
  function FindOpen(rows: seq<Row>, tenant: string, id: string): (i: nat)
    ensures i <= |rows|
    ensures i < |rows| ==> rows[i].id == id && rows[i].tenant == tenant && rows[i].Open()
    ensures i == |rows| ==> forall r | r in rows :: !(r.id == id && r.tenant == tenant && r.Open())
  {
    if rows == [] then 0
    else
      var i := FindOpen(rows[1..], tenant, id);
      assert forall r | r in rows :: r == rows[0] || r in rows[1..];
      if rows[0].id == id && rows[0].tenant == tenant && rows[0].Open() then 0 else 1 + i
  }

  function ChargeOf(tokens: int, usage: Option<TokenUsage>): int {
    if usage.Some? then usage.value.Total() else tokens
  }

  function Known(usage: Option<TokenUsage>): TokenUsage {
    if usage.Some? then usage.value else TokenUsage(0, 0, 0)
  }

  /** The two updates of one settlement. */
  function SettleOn(s: Books, tenant: string, id: string, usage: Option<TokenUsage>, outcome: string): Books {
    var i := FindOpen(s.rows, tenant, id);
    if i == |s.rows| then s
    else
      var r := s.rows[i];
      var key := (tenant, r.day);
      var charge := ChargeOf(r.tokens, usage);
      Books(if key in s.budgets
            then s.budgets[key := Budget(s.budgets[key].charged + charge, s.budgets[key].reserved - r.tokens)]
            else s.budgets,
            s.rows[i := r.(usage := Known(usage), outcome := outcome, charge := charge)])
  }

  datatype Summary = Summary(charged: int, reserved: int, requests: int, input: int, output: int, cached: int)

  function InDay(tenant: string, day: int, f: Row -> int): Row -> int {
    (r: Row) => if r.Of(tenant, day) then f(r) else 0
  }

  function OpenTokens(): Row -> int { (r: Row) => if r.Open() then r.tokens else 0 }

  function Charge(): Row -> int { (r: Row) => if r.Open() then 0 else r.charge }

  /** By how much a settlement exceeded its reservation. */
  function Overshoot(): Row -> int {
    (r: Row) => if !r.Open() && r.charge > r.tokens then r.charge - r.tokens else 0
  }

  function BudgetOf(s: Books, tenant: string, day: int): Budget {
    if (tenant, day) in s.budgets then s.budgets[(tenant, day)] else Budget(0, 0)
  }

  function SummaryOf(s: Books, tenant: string, day: int): Summary {
    var b := BudgetOf(s, tenant, day);
    Summary(b.charged, b.reserved,
            Sum(InDay(tenant, day, (r: Row) => 1), s.rows),
            Sum(InDay(tenant, day, (r: Row) => r.usage.input), s.rows),
            Sum(InDay(tenant, day, (r: Row) => r.usage.output), s.rows),
            Sum(InDay(tenant, day, (r: Row) => r.usage.cached), s.rows))
  }

  class PostgresUsageLedger {
    const limit: int
    var budgets: map<(string, int), Budget>
    var rows: seq<Row>

    constructor (limit: int)
      ensures this.limit == limit && Value() == EMPTY
    {
      this.limit, budgets, rows := limit, map[], [];
    }

    function Value(): Books
      reads this
    {
      Books(budgets, rows)
    }

    /** reserve, on the day the transaction sees and with a new id. On balanced books it succeeds
        if and only if the tokens fit beside what the rows of that day have used up. */
    method Reserve(tenant: string, tokens: int, day: int, id: string) returns (ok: bool)
      modifies this
      ensures old(Balanced(limit, Value())) ==>
                (ok <==> tokens >= 1 && old(UsedUp(Value(), tenant, day)) + tokens <= limit)
      ensures var r := ReserveOn(limit, old(Value()), tenant, tokens, day, id);
              ok == r.Some? && Value() == if ok then r.value else old(Value())
    {
      ghost var s := Value();
      if Balanced(limit, s) {
        AcceptsExactlyWhen(limit, s, tenant, tokens, day, id);
      }
      hide Balanced;
      if tokens < 1 || tokens > limit {
        return false;
      }
      var key := (tenant, day);
      if key !in budgets {
        budgets := budgets[key := Budget(0, tokens)];
      } else if budgets[key].charged + budgets[key].reserved + tokens <= limit {
        budgets := budgets[key := budgets[key].(reserved := budgets[key].reserved + tokens)];
      } else {
        return false;
      }
      rows := rows + [Row(id, tenant, day, tokens, TokenUsage(0, 0, 0), RESERVED, 0)];
      return true;
    }

    method Settle(tenant: string, id: string, usage: Option<TokenUsage>, outcome: string)
      modifies this
      ensures Value() == SettleOn(old(Value()), tenant, id, usage, outcome)
    {
      var i := FindOpen(rows, tenant, id);
      if i == |rows| {
        return;
      }
      var row := rows[i];
      var charged := if usage.Some? then usage.value.Total() else row.tokens;
      rows := rows[i := row.(usage := Known(usage), outcome := outcome, charge := charged)];
      var key := (tenant, row.day);
      if key in budgets {
        budgets := budgets[key := Budget(budgets[key].charged + charged, budgets[key].reserved - row.tokens)];
      }
    }
  }

  // ---------- conservation ----------

  predicate UniqueIds(rows: seq<Row>) {
    forall i, j | 0 <= i < j < |rows| :: rows[i].id != rows[j].id
  }

  predicate RowsSound(s: Books) {
    UniqueIds(s.rows) && forall r | r in s.rows :: r.tokens >= 1 && r.charge >= 0 && (r.tenant, r.day) in s.budgets
  }

  /** The totals of a day are the sums over its rows, and the limit is exceeded by no more
      than settlements exceeded their reservations. */
  predicate DayBalanced(limit: int, s: Books, tenant: string, day: int) {
    var b := BudgetOf(s, tenant, day);
    && b.reserved == Sum(InDay(tenant, day, OpenTokens()), s.rows)
    && b.charged == Sum(InDay(tenant, day, Charge()), s.rows)
    && (b.charged + b.reserved <= limit + Sum(InDay(tenant, day, Overshoot()), s.rows))
  }

  ghost predicate Balanced(limit: int, s: Books) {
    RowsSound(s) && forall tenant, day :: DayBalanced(limit, s, tenant, day)
  }

  datatype Op =
    | Reserve(tenant: string, tokens: int, day: int, id: string)
    | Settle(tenant: string, id: string, usage: Option<TokenUsage>, outcome: string)

  function Apply(limit: int, s: Books, op: Op): Books {
    match op
    case Reserve(tenant, tokens, day, id) =>
      var r := ReserveOn(limit, s, tenant, tokens, day, id);
      if r.Some? then r.value else s
    case Settle(tenant, id, usage, outcome) => SettleOn(s, tenant, id, usage, outcome)
  }

  /** Reservation ids are new, and no settlement gives the outcome that marks a row as open. */
  predicate Allowed(s: Books, op: Op) {
    match op
    case Reserve(_, _, _, id) => forall r | r in s.rows :: r.id != id
    case Settle(_, _, _, outcome) => outcome != RESERVED
  }

  lemma ReserveBalancesDay(limit: int, s: Books, tenant: string, tokens: int, day: int, id: string, u: string, d: int)
    requires 0 <= limit && DayBalanced(limit, s, u, d)
    requires ReserveOn(limit, s, tenant, tokens, day, id).Some?
    ensures DayBalanced(limit, ReserveOn(limit, s, tenant, tokens, day, id).value, u, d)
  {
    hide UniqueIds;
    var t := ReserveOn(limit, s, tenant, tokens, day, id).value;
    var row := Row(id, tenant, day, tokens, TokenUsage(0, 0, 0), RESERVED, 0);
    assert t.rows == s.rows + [row];
    SumAppend(InDay(u, d, OpenTokens()), s.rows, row);
    SumAppend(InDay(u, d, Charge()), s.rows, row);
    SumAppend(InDay(u, d, Overshoot()), s.rows, row);
    SumNonNegative(InDay(u, d, Overshoot()), s.rows);
  }

  lemma ReserveBalanced(limit: int, s: Books, tenant: string, tokens: int, day: int, id: string)
    requires 0 <= limit && Balanced(limit, s) && (forall r | r in s.rows :: r.id != id)
    requires ReserveOn(limit, s, tenant, tokens, day, id).Some?
    ensures Balanced(limit, ReserveOn(limit, s, tenant, tokens, day, id).value)
  {
    hide DayBalanced;
    var t := ReserveOn(limit, s, tenant, tokens, day, id).value;
    forall u, d ensures DayBalanced(limit, t, u, d) {
      ReserveBalancesDay(limit, s, tenant, tokens, day, id, u, d);
    }
    assert forall i | 0 <= i < |s.rows| :: t.rows[i] == s.rows[i] && s.rows[i] in s.rows;
  }

  /** Settlement is booked to the day of the reservation, whatever day it is made on. */
  lemma SettleBalanced(limit: int, s: Books, tenant: string, id: string, usage: Option<TokenUsage>, outcome: string)
    requires Balanced(limit, s) && outcome != RESERVED
    ensures Balanced(limit, SettleOn(s, tenant, id, usage, outcome))
  {
    var i := FindOpen(s.rows, tenant, id);
    if i < |s.rows| {
      var t := SettleOn(s, tenant, id, usage, outcome);
      var row := t.rows[i];
      assert s.rows[i] in s.rows;
      forall u, d ensures DayBalanced(limit, t, u, d) {
        assert DayBalanced(limit, s, u, d);
        SumUpdate(InDay(u, d, OpenTokens()), s.rows, i, row);
        SumUpdate(InDay(u, d, Charge()), s.rows, i, row);
        SumUpdate(InDay(u, d, Overshoot()), s.rows, i, row);
      }
    }
  }

  /** What a day of a tenant has used up, as sums over the rows of that very day. */
  function UsedUp(s: Books, tenant: string, day: int): int {
    Sum(InDay(tenant, day, OpenTokens()), s.rows) + Sum(InDay(tenant, day, Charge()), s.rows)
  }

  /** In balanced books a reservation is accepted if and only if it asks for something and fits
      beside what its own day has used up. */
  lemma AcceptsExactlyWhen(limit: int, s: Books, tenant: string, tokens: int, day: int, id: string)
    requires Balanced(limit, s)
    ensures ReserveOn(limit, s, tenant, tokens, day, id).Some?
       <==> tokens >= 1 && UsedUp(s, tenant, day) + tokens <= limit
  {
    assert DayBalanced(limit, s, tenant, day);
    SumNonNegative(InDay(tenant, day, OpenTokens()), s.rows);
    SumNonNegative(InDay(tenant, day, Charge()), s.rows);
  }

  /** An accepted reservation adds one open row, and reserves on its own day and no other. */
  lemma AcceptedIsRecorded(limit: int, s: Books, tenant: string, tokens: int, day: int, id: string)
    requires ReserveOn(limit, s, tenant, tokens, day, id).Some?
    ensures var t := ReserveOn(limit, s, tenant, tokens, day, id).value;
            && |t.rows| == |s.rows| + 1 && t.rows[..|s.rows|] == s.rows
            && (var r := t.rows[|s.rows|];
                r.id == id && r.tenant == tenant && r.day == day && r.tokens == tokens && r.outcome == "reserved")
            && BudgetOf(t, tenant, day).reserved == BudgetOf(s, tenant, day).reserved + tokens
            && BudgetOf(t, tenant, day).charged == BudgetOf(s, tenant, day).charged
            && (forall u, d | u != tenant || d != day :: BudgetOf(t, u, d) == BudgetOf(s, u, d))
  {
  }

  /** A settlement of an open row, in figures: known usage charges input plus output, unknown usage
      the whole reservation; the reserved tokens are released on the day of the reservation; every
      other row and day stays as it is. */
  lemma SettlementIsRecorded(limit: int, s: Books, i: nat, usage: Option<TokenUsage>, outcome: string)
    requires Balanced(limit, s) && i < |s.rows| && s.rows[i].outcome == "reserved"
    ensures var r, t := s.rows[i], SettleOn(s, s.rows[i].tenant, s.rows[i].id, usage, outcome);
            && |t.rows| == |s.rows| && (forall j | 0 <= j < |s.rows| && j != i :: t.rows[j] == s.rows[j])
            && (var q := t.rows[i];
                && q.id == r.id && q.tenant == r.tenant && q.day == r.day && q.tokens == r.tokens
                && q.outcome == outcome
                && q.charge == (if usage.Some? then usage.value.input + usage.value.output else r.tokens)
                && q.usage == (if usage.Some? then usage.value else TokenUsage(0, 0, 0)))
            && BudgetOf(t, r.tenant, r.day).reserved == BudgetOf(s, r.tenant, r.day).reserved - r.tokens
            && BudgetOf(t, r.tenant, r.day).charged == BudgetOf(s, r.tenant, r.day).charged + t.rows[i].charge
            && (forall u, d | u != r.tenant || d != r.day :: BudgetOf(t, u, d) == BudgetOf(s, u, d))
  {
    hide DayBalanced;
    assert s.rows[i] in s.rows;
    assert FindOpen(s.rows, s.rows[i].tenant, s.rows[i].id) == i;
  }

  /** Settling what is not an open row of the tenant changes nothing. */
  lemma OtherwiseNothing(s: Books, tenant: string, id: string, usage: Option<TokenUsage>, outcome: string)
    requires forall r | r in s.rows :: !(r.id == id && r.tenant == tenant && r.outcome == "reserved")
    ensures SettleOn(s, tenant, id, usage, outcome) == s
  {
    forall k | 0 <= k < |s.rows| ensures !(s.rows[k].id == id && s.rows[k].tenant == tenant && s.rows[k].Open()) {
      assert s.rows[k] in s.rows;
    }
  }

  /** books[0], ops[0], books[1], ...: any interleaving across tenants and days. */
  predicate History(limit: int, books: seq<Books>, ops: seq<Op>) {
    && |books| == |ops| + 1 && books[0] == EMPTY
    && forall i | 0 <= i < |ops| :: Allowed(books[i], ops[i]) && books[i + 1] == Apply(limit, books[i], ops[i])
  }

  /** Conservation in every history. */
  lemma {:induction false} EveryHistoryBalances(limit: int, books: seq<Books>, ops: seq<Op>, i: nat)
    requires 0 <= limit && History(limit, books, ops) && i < |books|
    ensures Balanced(limit, books[i])
  {
    if i > 0 {
      EveryHistoryBalances(limit, books, ops, i - 1);
      match ops[i - 1]
      case Reserve(tenant, tokens, day, id) =>
        if ReserveOn(limit, books[i - 1], tenant, tokens, day, id).Some? {
          ReserveBalanced(limit, books[i - 1], tenant, tokens, day, id);
        }
      case Settle(tenant, id, usage, outcome) =>
        SettleBalanced(limit, books[i - 1], tenant, id, usage, outcome);
    }
  }

  /** Acceptance in every history, over any number of tenants and days. */
  lemma ReservationsAreAcceptedExactlyWhen(limit: int, books: seq<Books>, ops: seq<Op>, i: nat)
    requires 0 <= limit && History(limit, books, ops) && i < |ops| && ops[i].Reserve?
    ensures var op := ops[i];
            |books[i + 1].rows| > |books[i].rows|
            <==> op.tokens >= 1 && UsedUp(books[i], op.tenant, op.day) + op.tokens <= limit
  {
    EveryHistoryBalances(limit, books, ops, i);
    AcceptsExactlyWhen(limit, books[i], ops[i].tenant, ops[i].tokens, ops[i].day, ops[i].id);
    assert books[i + 1] == Apply(limit, books[i], ops[i]);
  }

  /** When no settlement exceeds its reservation, a day never exceeds the limit. */
  lemma WithinTheLimit(limit: int, books: seq<Books>, ops: seq<Op>, i: nat, tenant: string, day: int)
    requires 0 <= limit && History(limit, books, ops) && i < |books|
    requires forall r | r in books[i].rows && r.Of(tenant, day) && !r.Open() :: r.charge <= r.tokens
    ensures var b := BudgetOf(books[i], tenant, day);
            0 <= b.charged && 0 <= b.reserved && b.charged + b.reserved <= limit
  {
    EveryHistoryBalances(limit, books, ops, i);
    var rows := books[i].rows;
    assert DayBalanced(limit, books[i], tenant, day);
    SumEqual(InDay(tenant, day, Overshoot()), rows, (r: Row) => 0, rows);
    SumOfZeros(rows);
    SumNonNegative(InDay(tenant, day, OpenTokens()), rows);
    SumNonNegative(InDay(tenant, day, Charge()), rows);
  }

  lemma {:induction false} SumOfZeros(rows: seq<Row>)
    ensures Sum((r: Row) => 0, rows) == 0
  {
    if rows != [] {
      SumOfZeros(rows[..|rows| - 1]);
    }
  }

  /** Settlement acts at most once: a settled row keeps its usage, outcome and charge in the
      rest of the history. */
  lemma {:induction false} SettledForGood(limit: int, books: seq<Books>, ops: seq<Op>, i: nat, j: nat, k: nat)
    requires History(limit, books, ops) && i <= j < |books| && k < |books[i].rows| && !books[i].rows[k].Open()
    ensures k < |books[j].rows| && books[j].rows[k] == books[i].rows[k]
  {
    if i < j {
      SettledForGood(limit, books, ops, i, j - 1, k);
    }
  }

  /** The exact condition of a settlement: it keeps the books balanced unless it settles an
      open row with the very outcome that marks rows as open. */
  lemma BalancedExactlyUnlessReopened(limit: int, s: Books, tenant: string, id: string,
                                      usage: Option<TokenUsage>, outcome: string)
    requires 0 <= limit && Balanced(limit, s)
    ensures Balanced(limit, SettleOn(s, tenant, id, usage, outcome))
       <==> (FindOpen(s.rows, tenant, id) == |s.rows| || outcome != RESERVED)
  {
    var i := FindOpen(s.rows, tenant, id);
    if outcome != RESERVED {
      SettleBalanced(limit, s, tenant, id, usage, outcome);
    } else if i < |s.rows| {
      var t, day := SettleOn(s, tenant, id, usage, outcome), s.rows[i].day;
      assert s.rows[i] in s.rows && DayBalanced(limit, s, tenant, day);
      SumUpdate(InDay(tenant, day, OpenTokens()), s.rows, i, t.rows[i]);
      assert !DayBalanced(limit, t, tenant, day);
    }
  }

  // ---------- the recomputing ledger ----------

  /** (tenant, tokens, usage, state) under its id; a dict keeps insertion order. */
  datatype Entry = Entry(id: string, tenant: string, tokens: int, usage: Option<TokenUsage>, state: string)

  function Mine(tenant: string, f: Entry -> int): Entry -> int {
    (e: Entry) => if e.tenant == tenant then f(e) else 0
  }

  function EntryCharge(): Entry -> int {
    (e: Entry) => if e.state != RESERVED then ChargeOf(e.tokens, e.usage) else 0
  }

  function EntryTokens(): Entry -> int { (e: Entry) => if e.state == RESERVED then e.tokens else 0 }

  /** _summary: every figure is computed from the entries. */
  function Recomputed(entries: seq<Entry>, tenant: string): Summary {
    Summary(Sum(Mine(tenant, EntryCharge()), entries),
            Sum(Mine(tenant, EntryTokens()), entries),
            Sum(Mine(tenant, (e: Entry) => 1), entries),
            Sum(Mine(tenant, (e: Entry) => Known(e.usage).input), entries),
            Sum(Mine(tenant, (e: Entry) => Known(e.usage).output), entries),
            Sum(Mine(tenant, (e: Entry) => Known(e.usage).cached), entries))
  }

  function MemReserve(limit: int, entries: seq<Entry>, tenant: string, tokens: int, id: string): Option<seq<Entry>> {
    var summary := Recomputed(entries, tenant);
    if tokens < 1 || summary.charged + summary.reserved + tokens > limit then None
    else Some(entries + [Entry(id, tenant, tokens, None, RESERVED)])
  }

  function FindEntry(entries: seq<Entry>, id: string): (i: nat)
    ensures i <= |entries|
    ensures i < |entries| ==> entries[i].id == id
    ensures forall j | 0 <= j < i :: entries[j].id != id
  {
    if entries == [] || entries[0].id == id then 0 else 1 + FindEntry(entries[1..], id)
  }

  function MemSettle(entries: seq<Entry>, tenant: string, id: string, usage: Option<TokenUsage>, outcome: string)
    : seq<Entry>
  {
    var i := FindEntry(entries, id);
    if i < |entries| && entries[i].tenant == tenant && entries[i].state == RESERVED
    then entries[i := Entry(id, tenant, entries[i].tokens, usage, outcome)]
    else entries
  }

  class InMemoryUsageLedger {
    const limit: int
    var entries: seq<Entry>

    constructor (limit: int)
      ensures this.limit == limit && entries == []
    {
      this.limit, entries := limit, [];
    }

    method Reserve(tenant: string, tokens: int, id: string) returns (ok: bool)
      modifies this
      ensures ok <==> tokens >= 1 && old(Recomputed(entries, tenant)).charged
                                     + old(Recomputed(entries, tenant)).reserved + tokens <= limit
      ensures var r := MemReserve(limit, old(entries), tenant, tokens, id);
              ok == r.Some? && entries == if ok then r.value else old(entries)
    {
      var summary := Recomputed(entries, tenant);
      if tokens < 1 || summary.charged + summary.reserved + tokens > limit {
        return false;
      }
      entries := entries + [Entry(id, tenant, tokens, None, RESERVED)];
      return true;
    }

    method Settle(tenant: string, id: string, usage: Option<TokenUsage>, outcome: string)
      modifies this
      ensures entries == MemSettle(old(entries), tenant, id, usage, outcome)
    {
      var i := FindEntry(entries, id);
      if i < |entries| && entries[i].tenant == tenant && entries[i].state == RESERVED {
        entries := entries[i := entries[i].(usage := usage, state := outcome)];
      }
    }
  }

  // ---------- refinement on a single day ----------

  predicate Mirrors(r: Row, e: Entry, day: int) {
    && r.id == e.id && r.tenant == e.tenant && r.tokens == e.tokens && r.day == day
    && r.outcome == e.state && r.usage == Known(e.usage)
    && (!r.Open() ==> r.charge == ChargeOf(e.tokens, e.usage))
  }

  /** The entries are the rows of the one day, and the running totals balance. */
  ghost predicate Related(limit: int, s: Books, entries: seq<Entry>, day: int) {
    && Balanced(limit, s) && |s.rows| == |entries|
    && forall i | 0 <= i < |entries| :: Mirrors(s.rows[i], entries[i], day)
  }

  /** Both ledgers report the same figures for every tenant. */
  lemma SameSummary(limit: int, s: Books, entries: seq<Entry>, day: int, tenant: string)
    requires Related(limit, s, entries, day)
    ensures SummaryOf(s, tenant, day) == Recomputed(entries, tenant)
  {
    assert DayBalanced(limit, s, tenant, day);
    SumEqual(InDay(tenant, day, Charge()), s.rows, Mine(tenant, EntryCharge()), entries);
    SumEqual(InDay(tenant, day, OpenTokens()), s.rows, Mine(tenant, EntryTokens()), entries);
    SumEqual(InDay(tenant, day, (r: Row) => 1), s.rows, Mine(tenant, (e: Entry) => 1), entries);
    SumEqual(InDay(tenant, day, (r: Row) => r.usage.input), s.rows,
             Mine(tenant, (e: Entry) => Known(e.usage).input), entries);
    SumEqual(InDay(tenant, day, (r: Row) => r.usage.output), s.rows,
             Mine(tenant, (e: Entry) => Known(e.usage).output), entries);
    SumEqual(InDay(tenant, day, (r: Row) => r.usage.cached), s.rows,
             Mine(tenant, (e: Entry) => Known(e.usage).cached), entries);
  }

  /** Both accept or both reject, although one tests tokens against the limit before it looks
      at the day. */
  lemma SameReservation(limit: int, s: Books, entries: seq<Entry>, day: int, tenant: string, tokens: int, id: string)
    requires 0 <= limit && Related(limit, s, entries, day) && forall r | r in s.rows :: r.id != id
    ensures ReserveOn(limit, s, tenant, tokens, day, id).Some? <==> MemReserve(limit, entries, tenant, tokens, id).Some?
    ensures ReserveOn(limit, s, tenant, tokens, day, id).Some? ==>
              Related(limit, ReserveOn(limit, s, tenant, tokens, day, id).value,
                      MemReserve(limit, entries, tenant, tokens, id).value, day)
  {
    SameSummary(limit, s, entries, day, tenant);
    assert DayBalanced(limit, s, tenant, day);
    SumNonNegative(InDay(tenant, day, OpenTokens()), s.rows);
    SumNonNegative(InDay(tenant, day, Charge()), s.rows);
    if ReserveOn(limit, s, tenant, tokens, day, id).Some? {
      ReserveBalanced(limit, s, tenant, tokens, day, id);
    }
  }

  lemma SameEntry(limit: int, s: Books, entries: seq<Entry>, day: int, tenant: string, id: string)
    requires Related(limit, s, entries, day)
    ensures var i, j := FindOpen(s.rows, tenant, id), FindEntry(entries, id);
            if j < |entries| && entries[j].tenant == tenant && entries[j].state == RESERVED then i == j
            else i == |s.rows|
  {
    var i, j := FindOpen(s.rows, tenant, id), FindEntry(entries, id);
    if i < |s.rows| {
      assert s.rows[i].id == entries[i].id && s.rows[j].id == entries[j].id;
    } else if j < |entries| {
      assert s.rows[j] in s.rows;
    }
  }

  lemma SameSettlement(limit: int, s: Books, entries: seq<Entry>, day: int, tenant: string, id: string,
                       usage: Option<TokenUsage>, outcome: string)
    requires Related(limit, s, entries, day) && outcome != RESERVED
    ensures Related(limit, SettleOn(s, tenant, id, usage, outcome), MemSettle(entries, tenant, id, usage, outcome), day)
  {
    SameEntry(limit, s, entries, day, tenant, id);
    SettleBalanced(limit, s, tenant, id, usage, outcome);
  }

  /** What a caller sees of an operation: acceptance of a reservation. */
  function MemApply(limit: int, entries: seq<Entry>, op: Op): seq<Entry> {
    match op
    case Reserve(tenant, tokens, _, id) =>
      var r := MemReserve(limit, entries, tenant, tokens, id);
      if r.Some? then r.value else entries
    case Settle(tenant, id, usage, outcome) => MemSettle(entries, tenant, id, usage, outcome)
  }

  function MemHistory(limit: int, ops: seq<Op>): seq<Entry> {
    if ops == [] then [] else MemApply(limit, MemHistory(limit, ops[..|ops| - 1]), ops[|ops| - 1])
  }

  /** Refinement: on any single-day history the ledger of running totals and the recomputing
      ledger accept the same reservations and report the same summaries throughout. */
  lemma {:induction false} LedgersAgree(limit: int, books: seq<Books>, ops: seq<Op>, day: int, i: nat)
    requires 0 <= limit && History(limit, books, ops) && i < |books|
    requires forall op | op in ops && op.Reserve? :: op.day == day
    ensures Related(limit, books[i], MemHistory(limit, ops[..i]), day)
    ensures forall tenant :: SummaryOf(books[i], tenant, day) == Recomputed(MemHistory(limit, ops[..i]), tenant)
    ensures forall tenant, tokens, id | (forall r | r in books[i].rows :: r.id != id) ::
              (ReserveOn(limit, books[i], tenant, tokens, day, id).Some?
               <==> MemReserve(limit, MemHistory(limit, ops[..i]), tenant, tokens, id).Some?)
  {
    var entries := MemHistory(limit, ops[..i]);
    if i > 0 {
      LedgersAgree(limit, books, ops, day, i - 1);
      assert ops[..i][..i - 1] == ops[..i - 1] && ops[i - 1] in ops;
      var before := MemHistory(limit, ops[..i - 1]);
      match ops[i - 1]
      case Reserve(tenant, tokens, _, id) => SameReservation(limit, books[i - 1], before, day, tenant, tokens, id);
      case Settle(tenant, id, usage, outcome) =>
        SameSettlement(limit, books[i - 1], before, day, tenant, id, usage, outcome);
    } else {
      EveryHistoryBalances(limit, books, ops, 0);
    }
    forall tenant ensures SummaryOf(books[i], tenant, day) == Recomputed(entries, tenant) {
      SameSummary(limit, books[i], entries, day, tenant);
    }
    forall tenant, tokens, id | (forall r | r in books[i].rows :: r.id != id)
      ensures ReserveOn(limit, books[i], tenant, tokens, day, id).Some?
         <==> MemReserve(limit, entries, tenant, tokens, id).Some?
    {
      SameReservation(limit, books[i], entries, day, tenant, tokens, id);
    }
  }
}
