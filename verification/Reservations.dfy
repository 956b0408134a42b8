/**
 Prepaid balances: money is reserved before a request, and the reservation is later either released or captured. Each
 operation is one database transaction, replays are answered from the stored row, and the theorems are about all runs.
 */
module Reservations {
  import opened Common

  datatype Account = Account(balance: int, reserved: int)

  datatype Status = Reserved | Released | Captured

  datatype Reservation = Reservation(id: string, tenantId: string, amount: int, status: Status)

  datatype Error = InvalidUsage | NotFound | ReservationState | InsufficientBalance

  /** The two tables; the reservations in the order in which they were made. */
  datatype Books = Books(accounts: map<string, Account>, reservations: seq<Reservation>)

  function IdOf(row: Reservation): string {
    row.id
  }

  function ReserveTx(s: Books, tenantId: string, id: string, amount: int): (Books, Result<Reservation, Error>) {
    var i := Find(s.reservations, IdOf, id);
    if tenantId == "" || TrimSpace(id) == "" || amount <= 0 then (s, Err(InvalidUsage))
    else if i < |s.reservations| then
      var row := s.reservations[i];
      (s, if row.tenantId == tenantId && row.amount == amount then Ok(row) else Err(ReservationState))
    else if tenantId !in s.accounts then (s, Err(NotFound))
    else
      var account := s.accounts[tenantId];
      if account.balance - account.reserved < amount then (s, Err(InsufficientBalance))
      else
        var row := Reservation(id, tenantId, amount, Reserved);
        (Books(s.accounts[tenantId := account.(reserved := account.reserved + amount)], s.reservations + [row]), Ok(row))
  }

  /** Release, or capture when `to` is Captured. */
  function TransitionTx(s: Books, id: string, to: Status): (Books, Option<Error>) {
    var i := Find(s.reservations, IdOf, id);
    if id == "" then (s, Some(InvalidUsage))
    else if i == |s.reservations| then (s, Some(NotFound))
    else
      var row := s.reservations[i];
      if row.status != Reserved then (s, if row.status == to then None else Some(ReservationState))
      else if row.tenantId !in s.accounts then (s, Some(NotFound))
      else
        var account := s.accounts[row.tenantId];
        if account.reserved < row.amount || (to == Captured && account.balance < row.amount) then (s, Some(ReservationState))
        else
          var paid := if to == Captured then row.amount else 0;
          (Books(s.accounts[row.tenantId := Account(account.balance - paid, account.reserved - row.amount)],
                 s.reservations[i := row.(status := to)]), None)
  }

  class Store {
    var accounts: map<string, Account>
    var reservations: seq<Reservation>

    ghost function State(): Books
      reads this
    {
      Books(accounts, reservations)
    }

    constructor (accounts: map<string, Account>)
      ensures State() == Books(accounts, [])
    {
      this.accounts, reservations := accounts, [];
    }

    method Reserve(tenantId: string, id: string, amount: int) returns (reply: Result<Reservation, Error>)
      modifies this
      ensures (State(), reply) == ReserveTx(old(State()), tenantId, id, amount)
    {
      if tenantId == "" || TrimSpace(id) == "" || amount <= 0 { return Err(InvalidUsage); }
      var i := Find(reservations, IdOf, id);
      if i < |reservations| {
        if reservations[i].tenantId != tenantId || reservations[i].amount != amount { return Err(ReservationState); }
        return Ok(reservations[i]);
      }
      if tenantId !in accounts { return Err(NotFound); }
      var account := accounts[tenantId];
      if account.balance - account.reserved < amount { return Err(InsufficientBalance); }
      accounts := accounts[tenantId := account.(reserved := account.reserved + amount)];
      reservations := reservations + [Reservation(id, tenantId, amount, Reserved)];
      return Ok(reservations[i]);
    }

    method Release(id: string) returns (error: Option<Error>)
      modifies this
      ensures (State(), error) == TransitionTx(old(State()), id, Released)
    {
      error := TransitionReservation(id, Released);
    }

    method Capture(id: string) returns (error: Option<Error>)
      modifies this
      ensures (State(), error) == TransitionTx(old(State()), id, Captured)
    {
      error := TransitionReservation(id, Captured);
    }

    method TransitionReservation(id: string, to: Status) returns (error: Option<Error>)
      modifies this
      ensures (State(), error) == TransitionTx(old(State()), id, to)
    {
      if id == "" { return Some(InvalidUsage); }
      var i := Find(reservations, IdOf, id);
      if i == |reservations| { return Some(NotFound); }
      var row := reservations[i];
      if row.status != Reserved {
        if row.status == to { return None; }
        return Some(ReservationState);
      }
      if row.tenantId !in accounts { return Some(NotFound); }
      var account := accounts[row.tenantId];
      var updated := account.(reserved := account.reserved - row.amount);
      if to == Captured { updated := updated.(balance := account.balance - row.amount); }
      if account.reserved < row.amount || (to == Captured && account.balance < row.amount) { return Some(ReservationState); }
      accounts := accounts[row.tenantId := updated];
      reservations := reservations[i := row.(status := to)];
      return None;
    }
  }

  // ---------- conservation ----------

  datatype Op = Reserve(tenantId: string, id: string, amount: int) | Release(id: string) | Capture(id: string)

  function Do(s: Books, op: Op): Books {
    match op
    case Reserve(t, id, amount) => ReserveTx(s, t, id, amount).0
    case Release(id) => TransitionTx(s, id, Released).0
    case Capture(id) => TransitionTx(s, id, Captured).0
  }

  function Run(s: Books, ops: seq<Op>): Books
    decreases |ops|
  {
    if ops == [] then s else Do(Run(s, ops[..|ops| - 1]), ops[|ops| - 1])
  }

  /** What a tenant's reservations in one status come to. */
  function Total(rows: seq<Reservation>, tenantId: string, status: Status): int {
    if rows == [] then 0 else
    Total(rows[..|rows| - 1], tenantId, status)
    + if rows[|rows| - 1].tenantId == tenantId && rows[|rows| - 1].status == status then rows[|rows| - 1].amount else 0
  }

  /** What UpsertAccount accepts. */
  ghost predicate Provisioned(accounts: map<string, Account>) {
    forall t :: t in accounts ==> 0 <= accounts[t].reserved <= accounts[t].balance <= MAX_INT64
  }

  ghost predicate RowsOk(s: Books) {
    && (forall i, j :: 0 <= i < j < |s.reservations| ==> s.reservations[i].id != s.reservations[j].id)
    && (forall i :: 0 <= i < |s.reservations| ==> s.reservations[i].amount > 0 && s.reservations[i].tenantId in s.accounts)
  }

  /** No money appears or disappears: every reserved and every spent micro is accounted for by a reservation. */
  ghost predicate Conserved(s: Books, initial: map<string, Account>) {
    && s.accounts.Keys == initial.Keys
    && forall t :: t in initial ==>
         && s.accounts[t].reserved == initial[t].reserved + Total(s.reservations, t, Reserved)
         && s.accounts[t].balance + Total(s.reservations, t, Captured) == initial[t].balance
         && s.accounts[t].reserved <= s.accounts[t].balance
  }

  lemma {:induction false} TotalNonNegative(rows: seq<Reservation>, t: string, status: Status)
    requires forall i :: 0 <= i < |rows| ==> rows[i].amount > 0
    ensures 0 <= Total(rows, t, status)
    decreases |rows|
  {
    if rows != [] { TotalNonNegative(rows[..|rows| - 1], t, status); }
  }

  /** One row changes its status. */
  lemma {:induction false} TotalUpdate(rows: seq<Reservation>, i: nat, to: Status, t: string, status: Status)
    requires i < |rows|
    ensures var row := rows[i];
            Total(rows[i := row.(status := to)], t, status)
            == Total(rows, t, status)
               - (if row.tenantId == t && row.status == status then row.amount else 0)
               + (if row.tenantId == t && to == status then row.amount else 0)
    decreases |rows|
  {
    var n, rows' := |rows| - 1, rows[i := rows[i].(status := to)];
    if i < n {
      TotalUpdate(rows[..n], i, to, t, status);
      assert rows'[..n] == rows[..n][i := rows[i].(status := to)];
    } else {
      assert rows'[..n] == rows[..n];
    }
  }

  /** An open reservation is covered by its account. */
  lemma {:induction false} OpenIsCovered(rows: seq<Reservation>, i: nat)
    requires i < |rows| && forall j :: 0 <= j < |rows| ==> rows[j].amount > 0
    ensures rows[i].amount <= Total(rows, rows[i].tenantId, rows[i].status)
    decreases |rows|
  {
    TotalNonNegative(rows[..|rows| - 1], rows[i].tenantId, rows[i].status);
    if i < |rows| - 1 { OpenIsCovered(rows[..|rows| - 1], i); }
  }

  lemma ReserveRowsOk(s: Books, t: string, id: string, amount: int)
    requires RowsOk(s)
    ensures RowsOk(ReserveTx(s, t, id, amount).0)
  {
  }

  lemma TransitionRowsOk(s: Books, id: string, to: Status)
    requires RowsOk(s)
    ensures RowsOk(TransitionTx(s, id, to).0)
  {
  }

  /** A new open reservation of one tenant. */
  lemma NewlyReserved(s: Books, row: Reservation, u: string)
    requires row.status == Reserved
    ensures Total(s.reservations + [row], u, Reserved)
            == Total(s.reservations, u, Reserved) + if row.tenantId == u then row.amount else 0
    ensures Total(s.reservations + [row], u, Captured) == Total(s.reservations, u, Captured)
  {
  }

  lemma ReserveConserves(s: Books, t: string, id: string, amount: int, initial: map<string, Account>)
    requires Conserved(s, initial)
    ensures Conserved(ReserveTx(s, t, id, amount).0, initial)
  {
    var s' := ReserveTx(s, t, id, amount).0;
    if s' != s {
      forall u | u in initial
        ensures s'.accounts[u].reserved == initial[u].reserved + Total(s'.reservations, u, Reserved)
                && s'.accounts[u].balance + Total(s'.reservations, u, Captured) == initial[u].balance
                && s'.accounts[u].reserved <= s'.accounts[u].balance
      {
        NewlyReserved(s, Reservation(id, t, amount, Reserved), u);
      }
    }
  }

  /** One open reservation reaches an end. */
  lemma Ended(s: Books, i: nat, to: Status, u: string)
    requires i < |s.reservations| && s.reservations[i].status == Reserved && to != Reserved
    ensures var row := s.reservations[i]; var rows := s.reservations[i := row.(status := to)];
            && Total(rows, u, Reserved) == Total(s.reservations, u, Reserved) - (if row.tenantId == u then row.amount else 0)
            && Total(rows, u, Captured)
               == Total(s.reservations, u, Captured) + if row.tenantId == u && to == Captured then row.amount else 0
  {
    TotalUpdate(s.reservations, i, to, u, Reserved);
    TotalUpdate(s.reservations, i, to, u, Captured);
  }

  lemma TransitionConserves(s: Books, id: string, to: Status, initial: map<string, Account>)
    requires RowsOk(s) && Conserved(s, initial) && to != Reserved
    ensures Conserved(TransitionTx(s, id, to).0, initial)
  {
    var s' := TransitionTx(s, id, to).0;
    if s' != s {
      forall u | u in initial
        ensures s'.accounts[u].reserved == initial[u].reserved + Total(s'.reservations, u, Reserved)
                && s'.accounts[u].balance + Total(s'.reservations, u, Captured) == initial[u].balance
                && s'.accounts[u].reserved <= s'.accounts[u].balance
      {
        Ended(s, Find(s.reservations, IdOf, id), to, u);
      }
    }
  }

  lemma {:induction false} RunConserves(initial: map<string, Account>, ops: seq<Op>)
    requires Provisioned(initial)
    ensures RowsOk(Run(Books(initial, []), ops)) && Conserved(Run(Books(initial, []), ops), initial)
    decreases |ops|
  {
    if ops != [] {
      var s := Run(Books(initial, []), ops[..|ops| - 1]);
      RunConserves(initial, ops[..|ops| - 1]);
      match ops[|ops| - 1]
      case Reserve(t, id, amount) =>
        ReserveRowsOk(s, t, id, amount);
        ReserveConserves(s, t, id, amount, initial);
      case Release(id) =>
        TransitionRowsOk(s, id, Released);
        TransitionConserves(s, id, Released, initial);
      case Capture(id) =>
        TransitionRowsOk(s, id, Captured);
        TransitionConserves(s, id, Captured, initial);
    }
  }

  /**
   Conservation over every run of reserve, release and capture, with any replays: what is reserved is what was reserved
   at first plus the open reservations, the first balance is the balance plus everything captured, and
   0 <= reserved <= balance, within 64 bits.
   */
  lemma {:induction false} MoneyIsConserved(initial: map<string, Account>, ops: seq<Op>, t: string)
    requires Provisioned(initial) && t in initial
    ensures var s := Run(Books(initial, []), ops);
            && t in s.accounts
            && s.accounts[t].reserved == initial[t].reserved + Total(s.reservations, t, Reserved)
            && initial[t].balance == s.accounts[t].balance + Total(s.reservations, t, Captured)
            && 0 <= s.accounts[t].reserved <= s.accounts[t].balance <= MAX_INT64
  {
    RunConserves(initial, ops);
    var s := Run(Books(initial, []), ops);
    TotalNonNegative(s.reservations, t, Reserved);
    TotalNonNegative(s.reservations, t, Captured);
  }

  /**
   In every reachable state a release or capture succeeds if and only if its reservation exists and is still open or
   has already reached that end; the guard against a negative balance never answers, and nothing overflows before it.
   */
  lemma {:induction false} TransitionSucceedsIff(initial: map<string, Account>, ops: seq<Op>, id: string, to: Status)
    requires Provisioned(initial) && to != Reserved
    ensures var s := Run(Books(initial, []), ops);
            var i := Find(s.reservations, IdOf, id);
            && (TransitionTx(s, id, to).1 == None
                <==> id != "" && i < |s.reservations| && s.reservations[i].status in {Reserved, to})
            && (i < |s.reservations| && s.reservations[i].status == Reserved ==>
                  && s.reservations[i].tenantId in s.accounts
                  && var account := s.accounts[s.reservations[i].tenantId];
                  0 <= account.reserved - s.reservations[i].amount && 0 <= account.balance - s.reservations[i].amount)
  {
    RunConserves(initial, ops);
    var s := Run(Books(initial, []), ops);
    var i := Find(s.reservations, IdOf, id);
    if i < |s.reservations| && s.reservations[i].status == Reserved { OpenIsCovered(s.reservations, i); }
  }

  /** Every reservation is still there, under the tenant and amount it was made for, and one that has ended is as it was. */
  ghost predicate KeepsRows(rows: seq<Reservation>, rows': seq<Reservation>) {
    |rows| <= |rows'|
    && forall i :: 0 <= i < |rows| ==>
         rows'[i] == rows[i].(status := rows'[i].status) && (rows[i].status != Reserved ==> rows'[i] == rows[i])
  }

  lemma DoKeepsRows(s: Books, op: Op)
    ensures KeepsRows(s.reservations, Do(s, op).reservations)
  {
  }

  lemma KeepsRowsTogether(a: seq<Reservation>, b: seq<Reservation>, c: seq<Reservation>)
    requires KeepsRows(a, b) && KeepsRows(b, c)
    ensures KeepsRows(a, c)
  {
  }

  /**
   A reservation is made for good: its tenant and its amount stay, and of released and captured at most one is ever
   reached, whatever is replayed and in whatever order.
   */
  lemma {:induction false} EndsAreFinal(s: Books, ops: seq<Op>)
    ensures KeepsRows(s.reservations, Run(s, ops).reservations)
    decreases |ops|
  {
    if ops != [] {
      var before := Run(s, ops[..|ops| - 1]);
      EndsAreFinal(s, ops[..|ops| - 1]);
      DoKeepsRows(before, ops[|ops| - 1]);
      KeepsRowsTogether(s.reservations, before.reservations, Run(s, ops).reservations);
    }
  }

  /** Repeating a reservation that succeeded answers with the same reservation and changes nothing, at any later time. */
  lemma {:induction false} ReserveReplay(s: Books, t: string, id: string, amount: int, ops: seq<Op>)
    requires ReserveTx(s, t, id, amount).1.Ok?
    ensures var later := Run(ReserveTx(s, t, id, amount).0, ops);
            var (same, reply) := ReserveTx(later, t, id, amount);
            same == later && reply.Ok? && reply.value.id == id && reply.value.tenantId == t && reply.value.amount == amount
  {
    var done := ReserveTx(s, t, id, amount).0;
    var i := Find(done.reservations, IdOf, id);
    EndsAreFinal(done, ops);
    if Find(s.reservations, IdOf, id) == |s.reservations| { assert done.reservations[|s.reservations|].id == id; }
    var rows := Run(done, ops).reservations;
    assert rows[i].id == id;
    assert Find(rows, IdOf, id) == i by {
      assert forall j :: 0 <= j < i ==> rows[j].id == done.reservations[j].id != id;
    }
  }
}
