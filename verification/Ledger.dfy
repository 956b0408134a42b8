/**
 The usage ledger and the invoices drawn from it. Recording is replay-safe by its idempotency key; an invoice is made
 once per period from the rows of its window. Each operation is one transaction. Times are instants on one axis.
 */
module Ledger {
  import opened Common

  datatype Ownership = PlatformPool | Byok | Unknown(string)

  datatype Usage = Usage(id: string, key: string, gatewayLogId: string, attempt: int, tenantId: string,
                         periodStart: Option<int>, ownership: Ownership, model: string, status: string, durationMs: Option<int>,
                         promptTokens: int, completionTokens: int, providerCost: int, markup: int, serviceFee: int)

  datatype Event = Event(id: string, key: string, gatewayLogId: string, attempt: int, tenantId: string, periodStart: int,
                         ownership: Ownership, model: string, status: string, durationMs: Option<int>, promptTokens: int,
                         completionTokens: int, totalTokens: int, providerCost: int, markup: int, serviceFee: int, amount: int)

  datatype Error = InvalidUsage | UsageConflict | NotFound | Database

  // ---------- recording ----------

  predicate ValidStatus(status: string) {
    status in {"", "unknown", "success", "failed"}
  }

  predicate ValidUsage(u: Usage) {
    && u.tenantId != "" && TrimSpace(u.key) != "" && u.periodStart.Some? && !u.ownership.Unknown?
    && u.promptTokens >= 0 && u.completionTokens >= 0 && u.providerCost >= 0 && u.markup >= 0 && u.serviceFee >= 0
    && (u.durationMs.Some? ==> u.durationMs.value >= 0) && ValidStatus(u.status)
  }

  /** What the tenant pays: with keys of its own, only the service fee. */
  function Billable(u: Usage): int {
    if u.ownership.PlatformPool? then u.providerCost + u.markup else u.serviceFee
  }

  function Row(u: Usage): Event
    requires ValidUsage(u)
  {
    Event(if u.id == "" then u.key else u.id, u.key, TrimSpace(u.gatewayLogId), u.attempt, u.tenantId, u.periodStart.value,
          u.ownership, u.model, if u.status == "" then "unknown" else u.status, u.durationMs, u.promptTokens,
          u.completionTokens, u.promptTokens + u.completionTokens, u.providerCost, u.markup, u.serviceFee, Billable(u))
  }

  function KeyOf(e: Event): string {
    e.key
  }

  predicate IdTaken(rows: seq<Event>, id: string) {
    exists i :: 0 <= i < |rows| && rows[i].id == id
  }

  function RecordTx(rows: seq<Event>, u: Usage): (seq<Event>, Result<Event, Error>) {
    var i := Find(rows, KeyOf, u.key);
    if !ValidUsage(u) then (rows, Err(InvalidUsage))
    else if i < |rows| then (rows, if rows[i].tenantId == u.tenantId then Ok(rows[i]) else Err(UsageConflict))
    else if IdTaken(rows, Row(u).id) then (rows, Err(Database))
    else (rows + [Row(u)], Ok(Row(u)))
  }

  function Recorded(stream: seq<Usage>): seq<Event> {
    if stream == [] then [] else RecordTx(Recorded(stream[..|stream| - 1]), stream[|stream| - 1]).0
  }

  predicate SeenIn(inputs: seq<Usage>, key: string) {
    exists i :: 0 <= i < |inputs| && inputs[i].key == key
  }

  /** The valid inputs whose key did not occur in a valid input before. */
  function First(stream: seq<Usage>): (inputs: seq<Usage>)
    ensures forall i :: 0 <= i < |inputs| ==> ValidUsage(inputs[i])
  {
    if stream == [] then [] else
    var before, u := First(stream[..|stream| - 1]), stream[|stream| - 1];
    if ValidUsage(u) && !SeenIn(before, u.key) then before + [u] else before
  }

  function Rows(inputs: seq<Usage>): (rows: seq<Event>)
    requires forall i :: 0 <= i < |inputs| ==> ValidUsage(inputs[i])
    ensures |rows| == |inputs| && forall i :: 0 <= i < |inputs| ==> rows[i] == Row(inputs[i])
  {
    seq(|inputs|, i requires 0 <= i < |inputs| => Row(inputs[i]))
  }

  ghost predicate DistinctIds(rows: seq<Event>) {
    forall i, j :: 0 <= i < j < |rows| ==> rows[i].id != rows[j].id
  }

  lemma {:induction false} RecordedIdsDistinct(stream: seq<Usage>)
    ensures DistinctIds(Recorded(stream))
    decreases |stream|
  {
    if stream != [] { RecordedIdsDistinct(stream[..|stream| - 1]); }
  }

  lemma FindInRows(inputs: seq<Usage>, key: string)
    requires forall i :: 0 <= i < |inputs| ==> ValidUsage(inputs[i])
    ensures Find(Rows(inputs), KeyOf, key) < |inputs| <==> SeenIn(inputs, key)
  {
  }

  lemma DistinctSnoc(rows: seq<Event>, e: Event)
    requires DistinctIds(rows + [e])
    ensures DistinctIds(rows) && !IdTaken(rows, e.id)
  {
    var all := rows + [e];
    forall i, j | 0 <= i < j < |rows| ensures rows[i].id != rows[j].id { assert all[i] == rows[i] && all[j] == rows[j]; }
    forall i | 0 <= i < |rows| ensures rows[i].id != e.id { assert all[i] == rows[i] && all[|rows|] == e; }
  }

  /** A new key whose row id is free adds its row. */
  lemma RowsSnoc(inputs: seq<Usage>, u: Usage)
    requires forall i :: 0 <= i < |inputs| ==> ValidUsage(inputs[i])
    requires ValidUsage(u) && !SeenIn(inputs, u.key) && DistinctIds(Rows(inputs + [u]))
    ensures DistinctIds(Rows(inputs)) && RecordTx(Rows(inputs), u).0 == Rows(inputs + [u])
  {
    assert Rows(inputs + [u]) == Rows(inputs) + [Row(u)];
    DistinctSnoc(Rows(inputs), Row(u));
    FindInRows(inputs, u.key);
  }

  lemma {:induction false} RecordedFirst(stream: seq<Usage>)
    requires DistinctIds(Rows(First(stream)))
    ensures Recorded(stream) == Rows(First(stream))
    decreases |stream|
  {
    if stream != [] {
      var prefix, u := stream[..|stream| - 1], stream[|stream| - 1];
      if ValidUsage(u) && !SeenIn(First(prefix), u.key) {
        RowsSnoc(First(prefix), u);
      } else {
        FindInRows(First(prefix), u.key);
      }
      RecordedFirst(prefix);
    }
  }

  /**
   Replay safety, exactly: the ledger of a stream is one row for the first valid input of each key, in order, no matter
   what is replayed, if and only if those rows do not contend for a row id. (They never do when ids follow the keys, as
   the gateway's do; a second key under a used id is refused by the primary key.)
   */
  lemma {:induction false} ReplaysAddNothingIff(stream: seq<Usage>)
    ensures Recorded(stream) == Rows(First(stream)) <==> DistinctIds(Rows(First(stream)))
  {
    RecordedIdsDistinct(stream);
    if DistinctIds(Rows(First(stream))) { RecordedFirst(stream); }
  }

  /** Two keys under one row id: the second usage is refused and never billed. */
  lemma SharedIdLosesUsage(u: Usage, v: Usage)
    requires ValidUsage(u) && ValidUsage(v) && u.key != v.key && Row(u).id == Row(v).id
    ensures First([u, v]) == [u, v]
    ensures Recorded([u, v]) == [Row(u)] && RecordTx([Row(u)], v).1 == Err(Database)
    ensures Recorded([u, v]) != Rows(First([u, v]))
  {
    assert [u, v][..1] == [u] && [u][..0] == [];
    assert First([]) == [] && First([u]) == [u] && Recorded([]) == [] && Recorded([u]) == [Row(u)];
    assert !SeenIn([u], v.key);
  }

  /** A usage that is valid under any key that is not blank. */
  function Sample(id: string, key: string): Usage {
    Usage(id, key, "", 0, "tenant", Some(0), PlatformPool, "model", "", None, 1, 1, 10, 1, 0)
  }

  lemma UsageLost()
    ensures var u, v := Sample("row", "a"), Sample("row", "b");
            ValidUsage(u) && ValidUsage(v) && Billable(v) == 11 && Recorded([u, v]) == [Row(u)]
  {
    TrimKeeps("a");
    TrimKeeps("b");
    SharedIdLosesUsage(Sample("row", "a"), Sample("row", "b"));
  }

  /** Ids that follow the keys. */
  lemma {:induction false} IdsFollowKeys(stream: seq<Usage>)
    requires forall i :: 0 <= i < |stream| ==> stream[i].id in {"", stream[i].key}
    ensures Recorded(stream) == Rows(First(stream))
  {
    FirstKeys(stream);
    ReplaysAddNothingIff(stream);
  }

  lemma {:induction false} FirstKeys(stream: seq<Usage>)
    ensures forall i, j :: 0 <= i < j < |First(stream)| ==> First(stream)[i].key != First(stream)[j].key
    ensures forall i :: 0 <= i < |First(stream)| ==> First(stream)[i] in stream
    decreases |stream|
  {
    if stream != [] {
      FirstKeys(stream[..|stream| - 1]);
      forall u | u in stream[..|stream| - 1] ensures u in stream {}
    }
  }

  // ---------- invoices ----------

  predicate InWindow(e: Event, tenantId: string, from: int, to: int) {
    e.tenantId == tenantId && from <= e.periodStart < to
  }

  function Subtotal(rows: seq<Event>, tenantId: string, from: int, to: int): int {
    if rows == [] then 0 else
    Subtotal(rows[..|rows| - 1], tenantId, from, to)
    + if InWindow(rows[|rows| - 1], tenantId, from, to) then rows[|rows| - 1].amount else 0
  }

  function PlatformCost(rows: seq<Event>, tenantId: string, from: int, to: int): int {
    if rows == [] then 0 else
    var e := rows[|rows| - 1];
    PlatformCost(rows[..|rows| - 1], tenantId, from, to)
    + if InWindow(e, tenantId, from, to) && e.ownership.PlatformPool? then e.providerCost else 0
  }

  lemma {:induction false} SumsInOrder(rows: seq<Event>, t: string, from: int, to: int)
    requires forall i :: 0 <= i < |rows| ==>
               0 <= rows[i].amount && 0 <= rows[i].providerCost && (rows[i].ownership.PlatformPool? ==> rows[i].providerCost <= rows[i].amount)
    ensures 0 <= PlatformCost(rows, t, from, to) <= Subtotal(rows, t, from, to)
    decreases |rows|
  {
    if rows != [] { SumsInOrder(rows[..|rows| - 1], t, from, to); }
  }

  lemma {:induction false} RecordedSound(stream: seq<Usage>)
    ensures forall i :: 0 <= i < |Recorded(stream)| ==>
              var e := Recorded(stream)[i];
              0 <= e.amount && 0 <= e.providerCost && (e.ownership.PlatformPool? ==> e.providerCost <= e.amount)
    decreases |stream|
  {
    if stream != [] { RecordedSound(stream[..|stream| - 1]); }
  }

  /** No window of a recorded ledger bills a tenant less than its requests cost the platform. */
  lemma {:induction false} NeverBilledBelowCost(stream: seq<Usage>, t: string, from: int, to: int)
    ensures 0 <= PlatformCost(Recorded(stream), t, from, to) <= Subtotal(Recorded(stream), t, from, to)
  {
    RecordedSound(stream);
    SumsInOrder(Recorded(stream), t, from, to);
  }

  /** A period is identified by its tenant and its start. */
  datatype PeriodId = PeriodId(tenantId: string, startsAt: int)

  datatype Invoice = Invoice(period: PeriodId, platformCost: int, subtotal: int)

  datatype Books = Books(rows: seq<Event>, periods: map<PeriodId, int>, invoices: map<PeriodId, Invoice>)

  /** The first end given to a period stays. */
  function EnsurePeriodTx(s: Books, id: PeriodId, endsAt: int): (Books, Option<Error>) {
    if id.tenantId == "" || id.startsAt >= endsAt then (s, Some(InvalidUsage))
    else if id in s.periods then (s, None)
    else (s.(periods := s.periods[id := endsAt]), None)
  }

  function IssueTx(s: Books, id: PeriodId): (Books, Result<Invoice, Error>) {
    if id !in s.periods then (s, Err(NotFound))
    else if id in s.invoices then (s, Ok(s.invoices[id]))
    else
      var invoice := Invoice(id, PlatformCost(s.rows, id.tenantId, id.startsAt, s.periods[id]),
                             Subtotal(s.rows, id.tenantId, id.startsAt, s.periods[id]));
      (s.(invoices := s.invoices[id := invoice]), Ok(invoice))
  }

  class Store {
    var rows: seq<Event>
    var periods: map<PeriodId, int>
    var invoices: map<PeriodId, Invoice>

    ghost function State(): Books
      reads this
    {
      Books(rows, periods, invoices)
    }

    constructor ()
      ensures State() == Books([], map[], map[])
    {
      rows, periods, invoices := [], map[], map[];
    }

    method RecordUsage(u: Usage) returns (reply: Result<Event, Error>)
      modifies this`rows
      ensures (rows, reply) == RecordTx(old(rows), u)
    {
      if u.tenantId == "" || TrimSpace(u.key) == "" || u.periodStart.None? || u.ownership.Unknown? || u.promptTokens < 0
         || u.completionTokens < 0 || u.providerCost < 0 || u.markup < 0 || u.serviceFee < 0
         || (u.durationMs.Some? && u.durationMs.value < 0) || !ValidStatus(u.status) {
        return Err(InvalidUsage);
      }
      var i := Find(rows, KeyOf, u.key);
      if i < |rows| {
        if rows[i].tenantId != u.tenantId { return Err(UsageConflict); }
        return Ok(rows[i]);
      }
      if IdTaken(rows, if u.id == "" then u.key else u.id) { return Err(Database); }
      var amount := u.serviceFee;
      if u.ownership.PlatformPool? { amount := u.providerCost + u.markup; }
      var row := Event(if u.id == "" then u.key else u.id, u.key, TrimSpace(u.gatewayLogId), u.attempt, u.tenantId,
                       u.periodStart.value, u.ownership, u.model, if u.status == "" then "unknown" else u.status,
                       u.durationMs, u.promptTokens, u.completionTokens, u.promptTokens + u.completionTokens,
                       u.providerCost, u.markup, u.serviceFee, amount);
      rows := rows + [row];
      return Ok(row);
    }

    method EnsurePeriod(id: PeriodId, endsAt: int) returns (error: Option<Error>)
      modifies this`periods
      ensures (State(), error) == EnsurePeriodTx(old(State()), id, endsAt)
    {
      if id.tenantId == "" || id.startsAt >= endsAt { return Some(InvalidUsage); }
      if id !in periods { periods := periods[id := endsAt]; }
      return None;
    }

    method IssueInvoice(id: PeriodId) returns (reply: Result<Invoice, Error>)
      modifies this`invoices
      ensures (State(), reply) == IssueTx(old(State()), id)
    {
      if id !in periods { return Err(NotFound); }
      if id in invoices { return Ok(invoices[id]); }
      var invoice := Invoice(id, PlatformCost(rows, id.tenantId, id.startsAt, periods[id]),
                             Subtotal(rows, id.tenantId, id.startsAt, periods[id]));
      invoices := invoices[id := invoice];
      return Ok(invoice);
    }
  }

  datatype Op = Record(usage: Usage) | Ensure(id: PeriodId, endsAt: int) | Issue(id: PeriodId)

  function Do(s: Books, op: Op): Books {
    match op
    case Record(u) => s.(rows := RecordTx(s.rows, u).0)
    case Ensure(id, endsAt) => EnsurePeriodTx(s, id, endsAt).0
    case Issue(id) => IssueTx(s, id).0
  }

  function Run(s: Books, ops: seq<Op>): Books
    decreases |ops|
  {
    if ops == [] then s else Do(Run(s, ops[..|ops| - 1]), ops[|ops| - 1])
  }

  /** Rows, period ends and invoices are only ever added. */
  ghost predicate Extends(s: Books, s': Books) {
    && s.rows <= s'.rows
    && (forall id :: id in s.periods ==> id in s'.periods && s'.periods[id] == s.periods[id])
    && (forall id :: id in s.invoices ==> id in s'.invoices && s'.invoices[id] == s.invoices[id])
  }

  lemma {:induction false} BooksOnlyGrow(s: Books, ops: seq<Op>)
    ensures Extends(s, Run(s, ops))
    decreases |ops|
  {
    if ops != [] { BooksOnlyGrow(s, ops[..|ops| - 1]); }
  }

  /** An issued invoice never changes, and asking for it again at any later time answers with it. */
  lemma {:induction false} InvoiceIsFinal(s: Books, id: PeriodId, ops: seq<Op>)
    requires IssueTx(s, id).1.Ok?
    ensures var later := Run(IssueTx(s, id).0, ops);
            IssueTx(later, id) == (later, IssueTx(s, id).1)
  {
    BooksOnlyGrow(IssueTx(s, id).0, ops);
  }

  /** The call adds a row. */
  predicate Adds(rows: seq<Event>, u: Usage) {
    ValidUsage(u) && Find(rows, KeyOf, u.key) == |rows| && !IdTaken(rows, Row(u).id)
  }

  /** The call adds a row with an amount to a window. */
  predicate Bills(s: Books, op: Op, tenantId: string, from: int, to: int) {
    op.Record? && Adds(s.rows, op.usage) && InWindow(Row(op.usage), tenantId, from, to) && Row(op.usage).amount > 0
  }

  lemma RecordAdds(rows: seq<Event>, u: Usage)
    ensures RecordTx(rows, u).0 == if Adds(rows, u) then rows + [Row(u)] else rows
    ensures ValidUsage(u) ==> Row(u).amount == Billable(u) >= 0
  {
  }

  lemma SubtotalSnoc(rows: seq<Event>, e: Event, tenantId: string, from: int, to: int)
    ensures Subtotal(rows + [e], tenantId, from, to)
         == Subtotal(rows, tenantId, from, to) + if InWindow(e, tenantId, from, to) then e.amount else 0
  {
    assert (rows + [e])[..|rows|] == rows;
  }

  lemma BillsRaise(s: Books, op: Op, tenantId: string, from: int, to: int)
    ensures Subtotal(s.rows, tenantId, from, to) <= Subtotal(Do(s, op).rows, tenantId, from, to)
    ensures Subtotal(s.rows, tenantId, from, to) == Subtotal(Do(s, op).rows, tenantId, from, to) <==> !Bills(s, op, tenantId, from, to)
  {
    if op.Record? {
      RecordAdds(s.rows, op.usage);
      if Adds(s.rows, op.usage) { SubtotalSnoc(s.rows, Row(op.usage), tenantId, from, to); }
    }
  }

  /** No call of the run bills the window when it is made. */
  predicate NoneBills(s: Books, ops: seq<Op>, tenantId: string, from: int, to: int)
    decreases |ops|
  {
    ops == [] || (NoneBills(s, ops[..|ops| - 1], tenantId, from, to)
                  && !Bills(Run(s, ops[..|ops| - 1]), ops[|ops| - 1], tenantId, from, to))
  }

  lemma {:induction false} SubtotalStays(s: Books, ops: seq<Op>, tenantId: string, from: int, to: int)
    ensures Subtotal(s.rows, tenantId, from, to) <= Subtotal(Run(s, ops).rows, tenantId, from, to)
    ensures Subtotal(s.rows, tenantId, from, to) == Subtotal(Run(s, ops).rows, tenantId, from, to)
            <==> NoneBills(s, ops, tenantId, from, to)
    decreases |ops|
  {
    if ops != [] {
      var prefix := ops[..|ops| - 1];
      SubtotalStays(s, prefix, tenantId, from, to);
      BillsRaise(Run(s, prefix), ops[|ops| - 1], tenantId, from, to);
    }
  }

  /**
   An invoice stays the ledger's subtotal of its window if and only if no later call adds a row with an amount to that
   window. Each call can tell before it is made: its usage is new, its period start lies in a window that has been
   invoiced, and it is billed at more than nothing.
   */
  lemma {:induction false} InvoiceIsCompleteIff(s: Books, id: PeriodId, ops: seq<Op>)
    requires id in s.periods && id !in s.invoices
    ensures var issued, endsAt := IssueTx(s, id).0, s.periods[id];
            issued.invoices[id].subtotal == Subtotal(Run(issued, ops).rows, id.tenantId, id.startsAt, endsAt)
            <==> NoneBills(issued, ops, id.tenantId, id.startsAt, endsAt)
  {
    SubtotalStays(IssueTx(s, id).0, ops, id.tenantId, id.startsAt, s.periods[id]);
  }

  lemma {:induction false} SubtotalSplits(rows: seq<Event>, t: string, from: int, mid: int, to: int)
    requires from <= mid <= to
    ensures Subtotal(rows, t, from, to) == Subtotal(rows, t, from, mid) + Subtotal(rows, t, mid, to)
    decreases |rows|
  {
    if rows != [] { SubtotalSplits(rows[..|rows| - 1], t, from, mid, to); }
  }

  /** The subtotals of the windows between consecutive bounds. */
  function Billed(rows: seq<Event>, t: string, bounds: seq<int>): int {
    if |bounds| < 2 then 0 else Subtotal(rows, t, bounds[0], bounds[1]) + Billed(rows, t, bounds[1..])
  }

  /** Adjacent windows bill every row of their union once, however the time is cut up. */
  lemma {:induction false} AdjacentWindowsSum(rows: seq<Event>, t: string, bounds: seq<int>)
    requires |bounds| >= 2 && forall i, j :: 0 <= i < j < |bounds| ==> bounds[i] <= bounds[j]
    ensures Billed(rows, t, bounds) == Subtotal(rows, t, bounds[0], bounds[|bounds| - 1])
    decreases |bounds|
  {
    if |bounds| > 2 {
      AdjacentWindowsSum(rows, t, bounds[1..]);
      SubtotalSplits(rows, t, bounds[0], bounds[1], bounds[|bounds| - 1]);
    } else {
      assert bounds[1..] == [bounds[1]];
    }
  }
}
