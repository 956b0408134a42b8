/**
 Admission against the included credit and settlement after the response, for one tenant, one month and any number of
 gateways. A request reads the ledger, then the month's counter, and is charged only when its response is complete, so
 a reject policy can be overrun; the theorems say by how much, and that a request is charged at most once.
 */
module Admission {
  import opened Common

  // ---------- the decision ----------

  datatype Plan = Plan(included: int, overagePolicy: string)

  datatype Allowance = Allowance(modelAllowed: bool, pricingConfigured: bool, included: int, used: int, remaining: int,
                                 overagePolicy: string, allowed: bool)

  datatype Refusal = TenantRequired | ModelNotAllowed | PricingNotConfigured | CreditExhausted | ConcurrencyExceeded | Unavailable

  /** A request without a model passes unmetered. */
  datatype Verdict = Admit | Refuse(why: Refusal) | Unmetered

  function NonNegative(n: int): int {
    if n < 0 then 0 else n
  }

  /** The ledger's answer; `additional` is what the caller is about to spend, zero at admission. */
  function AllowanceStatus(plan: Plan, modelAllowed: bool, priced: bool, ledger: int, additional: int): Allowance {
    var credit :=
      if plan.overagePolicy != "reject" then true
      else if additional > 0 then ledger + additional <= plan.included
      else ledger < plan.included;
    Allowance(modelAllowed, priced, plan.included, ledger, NonNegative(plan.included - ledger), plan.overagePolicy,
              modelAllowed && priced && credit)
  }

  /** The counter overrides a ledger that lags behind it. */
  function WithCounter(a: Allowance, counter: int): Allowance {
    if counter > a.used then
      a.(used := counter, remaining := NonNegative(a.included - counter),
         allowed := a.overagePolicy != "reject" || counter < a.included)
    else a
  }

  function Decide(a: Allowance, counter: int): Verdict {
    if !a.modelAllowed then Refuse(ModelNotAllowed)
    else if !a.pricingConfigured then Refuse(PricingNotConfigured)
    else if !WithCounter(a, counter).allowed then Refuse(CreditExhausted)
    else Admit
  }

  function Max(a: int, b: int): int {
    if a < b then b else a
  }

  /** Admission compares the larger of ledger and counter with the included credit, and only under the reject policy. */
  lemma AdmitIff(plan: Plan, modelAllowed: bool, priced: bool, ledger: int, counter: int)
    ensures var a := AllowanceStatus(plan, modelAllowed, priced, ledger, 0);
            && (Decide(a, counter) == Admit
                <==> modelAllowed && priced && (plan.overagePolicy == "reject" ==> Max(ledger, counter) < plan.included))
            && WithCounter(a, counter).used == Max(ledger, counter)
            && WithCounter(a, counter).remaining == NonNegative(plan.included - Max(ledger, counter))
  {
  }

  // ---------- requests in flight ----------

  /** Where one request is. A request that is past its admission and has not been charged is in flight. */
  datatype Phase =
    | Checking(allowance: Allowance)
    | Admitted
    | Settling(charge: int)
    | Recording(charge: int)
    | Done

  datatype Month = Month(counter: int, ledger: int, phases: map<nat, Phase>)

  const INITIAL := Month(0, 0, map[])

  /** What can happen next, on any gateway. */
  datatype Op =
    | CheckLedger(r: nat, modelAllowed: bool, priced: bool)
    | CheckCounter(r: nat)
    | NoLease(r: nat)
    | FinalResponse(r: nat, charge: int)
    | ChargeCounter(r: nat, answered: bool)
    | RecordUsage(r: nat, stored: bool)
    | Die(r: nat)
    | OtherUsage(amount: int)
    | CounterLost

  function Do(m: Month, op: Op, plan: Plan): Month {
    match op
    case CheckLedger(r, modelAllowed, priced) =>
      if r in m.phases then m
      else m.(phases := m.phases[r := Checking(AllowanceStatus(plan, modelAllowed, priced, m.ledger, 0))])
    case CheckCounter(r) =>
      if r in m.phases && m.phases[r].Checking? then
        m.(phases := m.phases[r := if Decide(m.phases[r].allowance, m.counter) == Admit then Admitted else Done])
      else m
    case NoLease(r) =>
      if r in m.phases && m.phases[r].Admitted? then m.(phases := m.phases[r := Done]) else m
    case FinalResponse(r, charge) =>
      if r in m.phases && m.phases[r].Admitted? then m.(phases := m.phases[r := Settling(charge)]) else m
    case ChargeCounter(r, answered) =>
      if r in m.phases && m.phases[r].Settling? then
        var charge := m.phases[r].charge;
        Month(if answered && charge > 0 then m.counter + charge else m.counter, m.ledger, m.phases[r := Recording(charge)])
      else m
    case RecordUsage(r, stored) =>
      if r in m.phases && m.phases[r].Recording? then
        Month(m.counter, if stored then m.ledger + m.phases[r].charge else m.ledger, m.phases[r := Done])
      else m
    case Die(r) => if r in m.phases then m.(phases := m.phases[r := Done]) else m
    case OtherUsage(amount) => m.(ledger := m.ledger + amount)
    case CounterLost => m.(counter := 0)
  }

  function Run(m: Month, ops: seq<Op>, plan: Plan): Month
    decreases |ops|
  {
    if ops == [] then m else Do(Run(m, ops[..|ops| - 1], plan), ops[|ops| - 1], plan)
  }

  predicate Flying(p: Phase) {
    p.Admitted? || p.Settling?
  }

  function InFlight(m: Month): set<nat> {
    set r | r in m.phases && Flying(m.phases[r])
  }

  // ---------- the overage bound ----------

  /** At no point of the run are more than `k` requests in flight. */
  ghost predicate AtMost(k: nat, ops: seq<Op>, plan: Plan) {
    forall i :: 0 <= i <= |ops| ==> |InFlight(Run(INITIAL, ops[..i], plan))| <= k
  }

  ghost predicate ChargesAtMost(c: nat, ops: seq<Op>) {
    forall op :: op in ops && op.FinalResponse? ==> op.charge <= c
  }

  ghost predicate Bounded(m: Month, c: nat) {
    forall r :: r in m.phases && m.phases[r].Settling? ==> m.phases[r].charge <= c
  }

  /** The counter and all that is still to come stay below the bound; before the first admission nothing is to come. */
  ghost predicate Budgeted(m: Month, plan: Plan, k: nat, c: nat) {
    && Bounded(m, c) && 0 <= m.counter
    && ((m.counter == 0 && InFlight(m) == {}) || m.counter + c * |InFlight(m)| <= plan.included - 1 + c * k)
  }

  lemma Sizes(a: set<nat>, r: nat)
    ensures r in a ==> |a - {r}| == |a| - 1 && a + {r} == a
    ensures r !in a ==> |a + {r}| == |a| + 1 && a - {r} == a
  {
  }

  /** One request changes its phase. */
  lemma InFlightAfter(m: Month, m': Month, r: nat, p: Phase)
    requires m'.phases == m.phases[r := p]
    ensures InFlight(m') == if Flying(p) then InFlight(m) + {r} else InFlight(m) - {r}
  {
  }

  /** A request moves on without entering or leaving the flight. */
  lemma Moved(m: Month, m': Month, r: nat, p: Phase, plan: Plan, k: nat, c: nat)
    requires Budgeted(m, plan, k, c) && m'.phases == m.phases[r := p] && m'.counter == m.counter
    requires (r in InFlight(m) <==> Flying(p)) && (p.Settling? ==> p.charge <= c)
    ensures Budgeted(m', plan, k, c)
  {
    InFlightAfter(m, m', r, p);
    Sizes(InFlight(m), r);
  }

  /** A request leaves the flight, and the counter gains at most what was kept for it. */
  lemma Landed(m: Month, m': Month, r: nat, p: Phase, plan: Plan, k: nat, c: nat)
    requires Budgeted(m, plan, k, c) && r in InFlight(m) && !Flying(p)
    requires m'.phases == m.phases[r := p] && 0 <= m'.counter <= m.counter + c
    ensures Budgeted(m', plan, k, c)
  {
    InFlightAfter(m, m', r, p);
    Sizes(InFlight(m), r);
    assert c * |InFlight(m)| == c * (|InFlight(m)| - 1) + c;
  }

  /** A request is admitted while the counter is below the included credit. */
  lemma TakesOff(m: Month, m': Month, r: nat, plan: Plan, k: nat, c: nat)
    requires Budgeted(m, plan, k, c) && m.counter < plan.included
    requires m'.phases == m.phases[r := Admitted] && m'.counter == m.counter && |InFlight(m')| <= k
    ensures Budgeted(m', plan, k, c)
  {
  }

  /** What a request waiting for the counter was told by the ledger is what some ledger said. */
  ghost predicate ChecksOk(m: Month, plan: Plan) {
    forall r :: r in m.phases && m.phases[r].Checking? ==>
      exists a, p, l :: m.phases[r].allowance == AllowanceStatus(plan, a, p, l, 0)
  }

  lemma AdmittedBelowIncluded(m: Month, r: nat, plan: Plan)
    requires ChecksOk(m, plan) && plan.overagePolicy == "reject" && r in m.phases && m.phases[r].Checking?
    requires Decide(m.phases[r].allowance, m.counter) == Admit
    ensures m.counter < plan.included
  {
  }

  lemma CheckCounterBudgeted(m: Month, r: nat, plan: Plan, k: nat, c: nat)
    requires Budgeted(m, plan, k, c) && ChecksOk(m, plan) && plan.overagePolicy == "reject"
    requires |InFlight(Do(m, CheckCounter(r), plan))| <= k
    ensures Budgeted(Do(m, CheckCounter(r), plan), plan, k, c)
  {
    if r in m.phases && m.phases[r].Checking? {
      if Decide(m.phases[r].allowance, m.counter) == Admit {
        AdmittedBelowIncluded(m, r, plan);
        TakesOff(m, Do(m, CheckCounter(r), plan), r, plan, k, c);
      } else {
        Moved(m, Do(m, CheckCounter(r), plan), r, Done, plan, k, c);
      }
    }
  }

  lemma ChargeBudgeted(m: Month, r: nat, answered: bool, plan: Plan, k: nat, c: nat)
    requires Budgeted(m, plan, k, c)
    ensures Budgeted(Do(m, ChargeCounter(r, answered), plan), plan, k, c)
  {
    if r in m.phases && m.phases[r].Settling? {
      Landed(m, Do(m, ChargeCounter(r, answered), plan), r, Recording(m.phases[r].charge), plan, k, c);
    }
  }

  lemma EndBudgeted(m: Month, m': Month, r: nat, plan: Plan, k: nat, c: nat)
    requires Budgeted(m, plan, k, c) && m'.phases == m.phases[r := Done] && m'.counter == m.counter
    ensures Budgeted(m', plan, k, c)
  {
    if r in InFlight(m) { Landed(m, m', r, Done, plan, k, c); } else { Moved(m, m', r, Done, plan, k, c); }
  }

  lemma SamePhasesBudgeted(m: Month, m': Month, plan: Plan, k: nat, c: nat)
    requires Budgeted(m, plan, k, c) && m'.phases == m.phases && 0 <= m'.counter <= m.counter
    ensures Budgeted(m', plan, k, c)
  {
  }

  lemma DoBudgeted(m: Month, op: Op, plan: Plan, k: nat, c: nat)
    requires Budgeted(m, plan, k, c) && ChecksOk(m, plan) && plan.overagePolicy == "reject"
    requires |InFlight(Do(m, op, plan))| <= k && (op.FinalResponse? ==> op.charge <= c)
    ensures Budgeted(Do(m, op, plan), plan, k, c)
  {
    var m' := Do(m, op, plan);
    match op
    case CheckLedger(r, a, p) => if r !in m.phases { Moved(m, m', r, m'.phases[r], plan, k, c); }
    case CheckCounter(r) => CheckCounterBudgeted(m, r, plan, k, c);
    case NoLease(r) => if r in m.phases && m.phases[r].Admitted? { EndBudgeted(m, m', r, plan, k, c); }
    case FinalResponse(r, charge) => if r in m.phases && m.phases[r].Admitted? { Moved(m, m', r, Settling(charge), plan, k, c); }
    case ChargeCounter(r, answered) => ChargeBudgeted(m, r, answered, plan, k, c);
    case RecordUsage(r, stored) => if r in m.phases && m.phases[r].Recording? { EndBudgeted(m, m', r, plan, k, c); }
    case Die(r) => if r in m.phases { EndBudgeted(m, m', r, plan, k, c); }
    case OtherUsage(amount) => SamePhasesBudgeted(m, m', plan, k, c);
    case CounterLost => SamePhasesBudgeted(m, m', plan, k, c);
  }

  lemma DoChecksOk(m: Month, op: Op, plan: Plan)
    requires ChecksOk(m, plan)
    ensures ChecksOk(Do(m, op, plan), plan)
  {
  }

  lemma {:induction false} RunBudgeted(ops: seq<Op>, plan: Plan, k: nat, c: nat)
    requires plan.overagePolicy == "reject" && AtMost(k, ops, plan) && ChargesAtMost(c, ops)
    ensures Budgeted(Run(INITIAL, ops, plan), plan, k, c) && ChecksOk(Run(INITIAL, ops, plan), plan)
    decreases |ops|
  {
    assert ops[..|ops|] == ops;
    if ops != [] {
      var prefix := ops[..|ops| - 1];
      forall i | 0 <= i <= |prefix| ensures prefix[..i] == ops[..i] {}
      RunBudgeted(prefix, plan, k, c);
      DoBudgeted(Run(INITIAL, prefix, plan), ops[|ops| - 1], plan, k, c);
      DoChecksOk(Run(INITIAL, prefix, plan), ops[|ops| - 1], plan);
    }
  }

  lemma BudgetedCounter(m: Month, plan: Plan, k: nat, c: nat)
    requires Budgeted(m, plan, k, c)
    ensures m.counter == 0 || m.counter <= plan.included - 1 + c * k
  {
  }

  /**
   The overage bound: under the reject policy, with at most `k` requests between reading the counter and charging it
   and at most `c` charged for each, the month's counter never exceeds the included credit by `c * k` or more; with
   nothing included it stays zero.
   */
  lemma {:induction false} OverageBound(ops: seq<Op>, plan: Plan, k: nat, c: nat)
    requires plan.overagePolicy == "reject" && AtMost(k, ops, plan) && ChargesAtMost(c, ops)
    ensures var counter := Run(INITIAL, ops, plan).counter;
            counter == 0 || counter <= plan.included - 1 + c * k
  {
    RunBudgeted(ops, plan, k, c);
    BudgetedCounter(Run(INITIAL, ops, plan), plan, k, c);
  }

  // ---------- the bound is attained ----------

  ghost predicate Reaches(ops: seq<Op>, plan: Plan, k: nat, c: nat, m: Month) {
    AtMost(k, ops, plan) && ChargesAtMost(c, ops) && Run(INITIAL, ops, plan) == m
  }

  lemma Extend(ops: seq<Op>, op: Op, plan: Plan, k: nat, c: nat, m: Month)
    requires Reaches(ops, plan, k, c, m) && |InFlight(Do(m, op, plan))| <= k && (op.FinalResponse? ==> op.charge <= c)
    ensures Reaches(ops + [op], plan, k, c, Do(m, op, plan))
  {
    var more := ops + [op];
    assert more[..|more| - 1] == ops && more[..|more|] == more;
    forall i | 0 <= i <= |more| ensures |InFlight(Run(INITIAL, more[..i], plan))| <= k {
      if i <= |ops| { assert more[..i] == ops[..i]; }
    }
  }

  function PhaseIn(r: nat, n: nat, b: nat, c: nat): Phase {
    if r < n then Recording(1) else if r < n + b then Recording(c) else Admitted
  }

  /** `n` requests were charged one micro each, then `a` were admitted together, of which `b` were charged `c` each. */
  function Scene(n: nat, a: nat, b: nat, c: nat): Month {
    Month(n + c * b, 0, map r: nat {:trigger PhaseIn(r, n, b, c)} | r < n + a :: PhaseIn(r, n, b, c))
  }

  function Flight(n: nat, a: nat, b: nat): (flight: set<nat>)
    requires b <= a
    ensures |flight| == a - b && forall r :: r in flight <==> n + b <= r < n + a
    decreases a - b
  {
    if b == a then {} else {n + b} + Flight(n, a, b + 1)
  }

  lemma SceneFlight(n: nat, a: nat, b: nat, c: nat)
    requires b <= a
    ensures |InFlight(Scene(n, a, b, c))| == a - b
  {
    assert InFlight(Scene(n, a, b, c)) == Flight(n, a, b);
  }

  lemma Checked(m: Month, r: nat, plan: Plan)
    requires r !in m.phases && Max(m.ledger, m.counter) < plan.included
    ensures var checked, admitted := Do(m, CheckLedger(r, true, true), plan), m.(phases := m.phases[r := Admitted]);
            && Do(checked, CheckCounter(r), plan) == admitted
            && |InFlight(checked)| == |InFlight(m)| && |InFlight(admitted)| == |InFlight(m)| + 1
  {
    var checked, admitted := Do(m, CheckLedger(r, true, true), plan), m.(phases := m.phases[r := Admitted]);
    InFlightAfter(m, checked, r, checked.phases[r]);
    InFlightAfter(m, admitted, r, Admitted);
    Sizes(InFlight(m), r);
    AdmitIff(plan, true, true, m.ledger, m.counter);
    assert checked.phases[r := Admitted] == admitted.phases;
  }

  lemma Enter(ops: seq<Op>, plan: Plan, k: nat, c: nat, m: Month, r: nat) returns (more: seq<Op>)
    requires Reaches(ops, plan, k, c, m) && r !in m.phases && |InFlight(m)| < k && Max(m.ledger, m.counter) < plan.included
    ensures Reaches(more, plan, k, c, m.(phases := m.phases[r := Admitted]))
  {
    Checked(m, r, plan);
    Extend(ops, CheckLedger(r, true, true), plan, k, c, m);
    Extend(ops + [CheckLedger(r, true, true)], CheckCounter(r), plan, k, c, Do(m, CheckLedger(r, true, true), plan));
    more := ops + [CheckLedger(r, true, true)] + [CheckCounter(r)];
  }

  lemma JoinScene(ops: seq<Op>, plan: Plan, k: nat, c: nat, n: nat, a: nat) returns (more: seq<Op>)
    requires Reaches(ops, plan, k, c, Scene(n, a, 0, c)) && n < plan.included && a < k
    ensures Reaches(more, plan, k, c, Scene(n, a + 1, 0, c))
  {
    SceneFlight(n, a, 0, c);
    more := Enter(ops, plan, k, c, Scene(n, a, 0, c), n + a);
    assert Scene(n, a + 1, 0, c).phases == Scene(n, a, 0, c).phases[n + a := Admitted];
  }

  lemma Leave(ops: seq<Op>, plan: Plan, k: nat, c: nat, m: Month, r: nat, charge: nat) returns (more: seq<Op>)
    requires Reaches(ops, plan, k, c, m) && r in m.phases && m.phases[r].Admitted? && |InFlight(m)| <= k && 0 < charge <= c
    ensures Reaches(more, plan, k, c, Month(m.counter + charge, m.ledger, m.phases[r := Recording(charge)]))
  {
    var settling := Do(m, FinalResponse(r, charge), plan);
    InFlightAfter(m, settling, r, Settling(charge));
    Sizes(InFlight(m), r);
    Extend(ops, FinalResponse(r, charge), plan, k, c, m);
    var charged := Do(settling, ChargeCounter(r, true), plan);
    InFlightAfter(settling, charged, r, Recording(charge));
    Extend(ops + [FinalResponse(r, charge)], ChargeCounter(r, true), plan, k, c, settling);
    more := ops + [FinalResponse(r, charge)] + [ChargeCounter(r, true)];
    assert charged == Month(m.counter + charge, m.ledger, m.phases[r := Recording(charge)]);
  }

  lemma SpentScene(n: nat, c: nat)
    requires n > 0
    ensures var before := Scene(n - 1, 1, 0, c);
            Scene(n, 0, 0, c) == Month(before.counter + 1, before.ledger, before.phases[n - 1 := Recording(1)])
  {
  }

  lemma {:induction false} Spent(plan: Plan, k: nat, c: nat, n: nat) returns (ops: seq<Op>)
    requires n < plan.included && 1 <= k && 1 <= c
    ensures Reaches(ops, plan, k, c, Scene(n, 0, 0, c))
  {
    if n == 0 {
      ops := [];
      assert Scene(0, 0, 0, c) == INITIAL && InFlight(INITIAL) == {};
    } else {
      ops := Spent(plan, k, c, n - 1);
      ops := JoinScene(ops, plan, k, c, n - 1, 0);
      SceneFlight(n - 1, 1, 0, c);
      ops := Leave(ops, plan, k, c, Scene(n - 1, 1, 0, c), n - 1, 1);
      SpentScene(n, c);
    }
  }

  lemma {:induction false} Crowded(plan: Plan, k: nat, c: nat, n: nat, a: nat) returns (ops: seq<Op>)
    requires n < plan.included && 1 <= k && 1 <= c && a <= k
    ensures Reaches(ops, plan, k, c, Scene(n, a, 0, c))
    decreases a
  {
    if a == 0 {
      ops := Spent(plan, k, c, n);
    } else {
      ops := Crowded(plan, k, c, n, a - 1);
      ops := JoinScene(ops, plan, k, c, n, a - 1);
    }
  }

  lemma {:induction false} Drained(plan: Plan, k: nat, c: nat, n: nat, b: nat) returns (ops: seq<Op>)
    requires n < plan.included && 1 <= k && 1 <= c && b <= k
    ensures Reaches(ops, plan, k, c, Scene(n, k, b, c))
    decreases b
  {
    if b == 0 {
      ops := Crowded(plan, k, c, n, k);
    } else {
      ops := Drained(plan, k, c, n, b - 1);
      SceneFlight(n, k, b - 1, c);
      ops := Leave(ops, plan, k, c, Scene(n, k, b - 1, c), n + b - 1, c);
      assert c * b == c * (b - 1) + c;
      assert Scene(n, k, b, c).phases == Scene(n, k, b - 1, c).phases[n + b - 1 := Recording(c)];
    }
  }

  /** No smaller bound holds: for every included credit, crowd and charge, some run reaches it exactly. */
  lemma {:induction false} OverageBoundAttained(plan: Plan, k: nat, c: nat) returns (ops: seq<Op>)
    requires 1 <= plan.included && 1 <= k && 1 <= c
    ensures AtMost(k, ops, plan) && ChargesAtMost(c, ops)
    ensures Run(INITIAL, ops, plan).counter == plan.included - 1 + c * k
  {
    ops := Drained(plan, k, c, plan.included - 1, k);
  }

  // ---------- one settlement per admission ----------

  /** How far a request has come. */
  function Rank(m: Month, r: nat): nat {
    if r !in m.phases then 0
    else match m.phases[r]
      case Checking(_) => 0
      case Admitted => 1
      case Settling(_) => 2
      case Recording(_) => 3
      case Done => 4
  }

  const ADMISSION: nat := 1
  const SETTLEMENT: nat := 2
  const CHARGE: nat := 3

  /** How often in the run the request arrived at a rank. */
  function Count(ops: seq<Op>, r: nat, rank: nat, plan: Plan): nat {
    if ops == [] then 0 else
    var before := Run(INITIAL, ops[..|ops| - 1], plan);
    Count(ops[..|ops| - 1], r, rank, plan)
    + if Rank(before, r) != rank && Rank(Do(before, ops[|ops| - 1], plan), r) == rank then 1 else 0
  }

  /** A request only ever goes one step further, or to its end. */
  lemma RankSteps(m: Month, op: Op, r: nat, plan: Plan)
    ensures var before, after := Rank(m, r), Rank(Do(m, op, plan), r);
            after == before || after == 4 || (after == before + 1 && before < 3)
  {
  }

  lemma {:induction false} CountsByRank(ops: seq<Op>, r: nat, plan: Plan)
    ensures var rank := Rank(Run(INITIAL, ops, plan), r);
            var a, s, c := Count(ops, r, ADMISSION, plan), Count(ops, r, SETTLEMENT, plan), Count(ops, r, CHARGE, plan);
            c <= s <= a <= 1 && (rank < 4 ==> a == (if rank >= 1 then 1 else 0) && s == (if rank >= 2 then 1 else 0)
                                              && c == (if rank >= 3 then 1 else 0))
    decreases |ops|
  {
    if ops != [] {
      CountsByRank(ops[..|ops| - 1], r, plan);
      RankSteps(Run(INITIAL, ops[..|ops| - 1], plan), ops[|ops| - 1], r, plan);
    }
  }

  /**
   However often and wherever the hook after the response is called, an admission settles at most once, a settlement
   charges at most once, and a request that was refused is never charged.
   */
  lemma {:induction false} SettledAtMostOnce(ops: seq<Op>, r: nat, plan: Plan)
    ensures Count(ops, r, CHARGE, plan) <= Count(ops, r, SETTLEMENT, plan) <= Count(ops, r, ADMISSION, plan) <= 1
  {
    CountsByRank(ops, r, plan);
  }

  /** The counter rises only when a request arrives at its charge. */
  lemma OnlyChargesRaise(m: Month, op: Op, plan: Plan)
    requires Do(m, op, plan).counter > m.counter >= 0
    ensures op.ChargeCounter? && Rank(m, op.r) == SETTLEMENT && Rank(Do(m, op, plan), op.r) == CHARGE
    ensures Do(m, op, plan).counter == m.counter + m.phases[op.r].charge
  {
  }

  // ---------- the hooks ----------

  datatype LeaseReply = Leased | NoSlot | LeaseError

  /** What a response reports. */
  datatype Usage = Usage(promptTokens: int, completionTokens: int, totalTokens: int, costMicros: nat)

  function TotalTokens(u: Usage): int {
    if u.totalTokens == 0 then u.promptTokens + u.completionTokens else u.totalTokens
  }

  /** The provider's own cost when it is reported, else the catalog price, zero when pricing failed. */
  function ProviderMicros(u: Usage, catalogMicros: int): int {
    if u.costMicros == 0 then catalogMicros else u.costMicros
  }

  /** The markup on the provider's cost, in 64 bits. */
  function Markup(provider: int, markupBasisPoints: nat): int {
    Quotient(Wrap(provider * markupBasisPoints), 10_000)
  }

  function Charge(provider: int, markupBasisPoints: nat): int {
    Wrap(provider + Markup(provider, markupBasisPoints))
  }

  /** The ledger refuses negative numbers: token counts as reported, and prices and markups that overflowed. */
  predicate Recordable(u: Usage, provider: int, markupBasisPoints: nat) {
    u.promptTokens >= 0 && u.completionTokens >= 0 && provider >= 0 && Markup(provider, markupBasisPoints) >= 0
  }

  /** When nothing overflows the tenant pays the provider's cost and the markup on it, rounded down. */
  lemma ChargeWithoutOverflow(provider: nat, markupBasisPoints: nat)
    requires provider * markupBasisPoints <= MAX_INT64 && provider + provider * markupBasisPoints / 10_000 <= MAX_INT64
    ensures Markup(provider, markupBasisPoints) == provider * markupBasisPoints / 10_000 >= 0
    ensures Charge(provider, markupBasisPoints) == provider + provider * markupBasisPoints / 10_000
  {
    WrapKeeps(provider * markupBasisPoints);
    WrapKeeps(provider + provider * markupBasisPoints / 10_000);
  }

  lemma WrapKeeps(n: nat)
    requires n <= MAX_INT64
    ensures Wrap(n) == n
  {
  }

  class Plugin {
    const plan: Plan
    const markupBasisPoints: nat
    var counter: int
    var ledger: int
    var phases: map<nat, Phase>
    /** The requests that hold a lease of the semaphore. */
    var leases: set<nat>

    ghost function State(): Month
      reads this
    {
      Month(counter, ledger, phases)
    }

    constructor (plan: Plan, markupBasisPoints: nat)
      ensures this.plan == plan && this.markupBasisPoints == markupBasisPoints && State() == INITIAL && leases == {}
    {
      this.plan, this.markupBasisPoints, counter, ledger, phases, leases := plan, markupBasisPoints, 0, 0, map[], {};
    }

    /**
     Before the provider is called: two readings, the decision and, when it is favourable, a lease. A request that no
     tenant was resolved for or that the ledger cannot answer for is refused before it becomes a step of the machine; a
     counter that does not answer ends the request.
     */
    method PreLLMHook(r: nat, tenantId: string, model: string, ledgerAnswers: bool, modelAllowed: bool, priced: bool,
                      counterAnswers: bool, lease: LeaseReply)
      returns (verdict: Verdict)
      requires r !in phases
      modifies this`phases, this`leases
      ensures var checked := Do(old(State()), CheckLedger(r, modelAllowed, priced), plan);
              var decided := Do(checked, CheckCounter(r), plan);
              if tenantId == "" then verdict == Refuse(TenantRequired) && State() == old(State())
              else if model == "" then verdict == Unmetered && State() == old(State())
              else if !ledgerAnswers then verdict == Refuse(Unavailable) && State() == old(State())
              else if modelAllowed && priced && !counterAnswers then
                verdict == Refuse(Unavailable) && State() == Do(checked, Die(r), plan)
              else if !decided.phases[r].Admitted? then
                verdict == Decide(AllowanceStatus(plan, modelAllowed, priced, ledger, 0), counter) && State() == decided
              else if lease.Leased? then verdict == Admit && State() == decided
              else
                verdict == Refuse(if lease.NoSlot? then ConcurrencyExceeded else Unavailable)
                && State() == Do(decided, NoLease(r), plan)
      ensures verdict == Admit
              <==> tenantId != "" && model != "" && ledgerAnswers && counterAnswers && modelAllowed && priced && lease.Leased?
                   && (plan.overagePolicy == "reject" ==> ledger < plan.included && counter < plan.included)
      ensures leases == if verdict == Admit then old(leases) + {r} else old(leases)
    {
      if tenantId == "" { return Refuse(TenantRequired); }
      if model == "" { return Unmetered; }
      if !ledgerAnswers { return Refuse(Unavailable); }
      var allowance := AllowanceStatus(plan, modelAllowed, priced, ledger, 0);
      phases := phases[r := Done];
      if !allowance.modelAllowed { return Refuse(ModelNotAllowed); }
      if !allowance.pricingConfigured { return Refuse(PricingNotConfigured); }
      if !counterAnswers { return Refuse(Unavailable); }
      if counter > allowance.used {
        allowance := allowance.(used := counter, remaining := NonNegative(allowance.included - counter),
                                allowed := allowance.overagePolicy != "reject" || counter < allowance.included);
      }
      if !allowance.allowed { return Refuse(CreditExhausted); }
      if lease == NoSlot { return Refuse(ConcurrencyExceeded); }
      if lease == LeaseError { return Refuse(Unavailable); }
      phases, leases := phases[r := Admitted], leases + {r};
      return Admit;
    }

    /**
     After the response, once per chunk of a stream and possibly again: the first call that sees the end of the response
     gives the lease back and charges the counter and then the ledger, every other call leaves everything as it is. The
     charge always counts for the month of the admission; a response that is complete only after its end is recorded in
     the ledger of a later month. `catalogMicros` is what pricing answered, in 64 bits, or zero when it failed.
     */
    method PostLLMHook(r: nat, ended: bool, released: bool, usage: Usage, reported: bool, catalogMicros: int, answered: bool,
                       stored: bool, monthOver: bool)
      modifies this
      ensures var before := old(State());
              var provider := ProviderMicros(usage, catalogMicros);
              var settles := ended && Rank(before, r) == ADMISSION;
              && leases == (if settles && released then old(leases) - {r} else old(leases))
              && if !settles then State() == before
                 else if !reported || (TotalTokens(usage) <= 0 && provider <= 0) then State() == Do(before, Die(r), plan)
                 else
                   var settled := Do(before, FinalResponse(r, Charge(provider, markupBasisPoints)), plan);
                   var recorded := stored && !monthOver && Recordable(usage, provider, markupBasisPoints);
                   State() == Do(Do(settled, ChargeCounter(r, answered), plan), RecordUsage(r, recorded), plan)
    {
      if r !in phases || !ended { return; }
      if !phases[r].Admitted? { return; }
      phases := phases[r := Done];
      if released { leases := leases - {r}; }
      if !reported { return; }
      var provider := usage.costMicros;
      if provider == 0 { provider := catalogMicros; }
      if TotalTokens(usage) <= 0 && provider <= 0 { return; }
      var markup := Quotient(Wrap(provider * markupBasisPoints), 10_000);
      var charge := Wrap(provider + markup);
      if answered && charge > 0 { counter := counter + charge; }
      if stored && !monthOver && usage.promptTokens >= 0 && usage.completionTokens >= 0 && provider >= 0 && markup >= 0 {
        ledger := ledger + charge;
      }
    }
  }
}
