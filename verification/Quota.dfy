/**
 The month's usage counter in Redis: a value that expires and, beside it, one expiring claim per request, so that a
 replayed charge is absorbed. Counter and claim each have their own time-to-live; the theorems say when a claim lives
 long enough. Times are milliseconds of one clock. The keys hash their parts; the model uses the parts themselves.
 */
module Quota {
  import opened Common

  const HOUR: int := 3_600_000

  datatype CounterKey = CounterKey(tenantId: string, budget: string)

  /** A key without a deadline never expires. */
  type Deadline = Option<int>

  datatype Counter = Counter(value: int, deadline: Deadline)

  datatype Claim = Claim(counter: CounterKey, request: string)

  /** The keys as Redis keeps them; one whose deadline has passed no longer exists for any command. */
  datatype Keys = Keys(now: int, counters: map<CounterKey, Counter>, claims: map<Claim, Deadline>)

  datatype Charged = Charged(total: int, applied: bool)

  datatype Error = InvalidAmount | RequestRequired | InvalidKey | ScriptError

  predicate Pending(d: Deadline, now: int) {
    d.None? || now < d.value
  }

  predicate CounterExists(s: Keys, c: CounterKey) {
    c in s.counters && Pending(s.counters[c].deadline, s.now)
  }

  predicate ClaimExists(s: Keys, m: Claim) {
    m in s.claims && Pending(s.claims[m], s.now)
  }

  function Value(s: Keys, c: CounterKey): int {
    if CounterExists(s, c) then s.counters[c].value else 0
  }

  /** A positive time-to-live below a millisecond must not become "no expiry". */
  function TtlMillis(nanos: int): (millis: int)
    ensures millis == 0 <==> nanos <= 0
    ensures 0 < nanos < 1_000_000 ==> millis == 1
    ensures nanos >= 1_000_000 ==> millis * 1_000_000 <= nanos < (millis + 1) * 1_000_000
  {
    if nanos <= 0 then 0 else if nanos / 1_000_000 == 0 then 1 else nanos / 1_000_000
  }

  function DeadlineIn(now: int, ttl: int): Deadline {
    if ttl == 0 then None else Some(now + ttl)
  }

  /** INCRBY, then PEXPIRE only when the command created the key. */
  function Increment(s: Keys, c: CounterKey, amount: int, ttl: int): Counter {
    if CounterExists(s, c) then Counter(s.counters[c].value + amount, s.counters[c].deadline)
    else Counter(amount, DeadlineIn(s.now, ttl))
  }

  /** The script of ChargeOnce; INCRBY refuses a sum beyond 64 bits and the script stops there. */
  function ChargeOnceScript(s: Keys, c: CounterKey, request: string, amount: int, ttl: int): (Keys, Result<Charged, Error>) {
    if ClaimExists(s, Claim(c, request)) then (s, Ok(Charged(Value(s, c), false)))
    else if Value(s, c) + amount > MAX_INT64 then (s, Err(ScriptError))
    else
      var counter := Increment(s, c, amount, ttl);
      (s.(counters := s.counters[c := counter], claims := s.claims[Claim(c, request) := DeadlineIn(s.now, ttl)]),
       Ok(Charged(counter.value, true)))
  }

  class Redis {
    var now: int
    var counters: map<CounterKey, Counter>
    var claims: map<Claim, Deadline>

    ghost function State(): Keys
      reads this
    {
      Keys(now, counters, claims)
    }

    constructor ()
      ensures State() == Keys(0, map[], map[])
    {
      now, counters, claims := 0, map[], map[];
    }

    method Tick(millis: nat)
      modifies this`now
      ensures State() == old(State()).(now := old(now) + millis)
    {
      now := now + millis;
    }

    /** The counter's value; a missing key reads as zero. */
    method Usage(tenantId: string, budget: string) returns (reply: Result<int, Error>)
      ensures if TrimSpace(tenantId) == "" || TrimSpace(budget) == "" then reply == Err(InvalidKey)
              else reply == Ok(Value(State(), CounterKey(tenantId, budget)))
    {
      if TrimSpace(tenantId) == "" || TrimSpace(budget) == "" { return Err(InvalidKey); }
      var c := CounterKey(tenantId, budget);
      if c !in counters || !Pending(counters[c].deadline, now) { return Ok(0); }
      return Ok(counters[c].value);
    }

    /** Deletes the counter; the claims charged to it stay until they expire. */
    method Reset(tenantId: string, budget: string) returns (ok: bool)
      modifies this`counters
      ensures ok == (TrimSpace(tenantId) != "" && TrimSpace(budget) != "")
      ensures counters == if ok then old(counters) - {CounterKey(tenantId, budget)} else old(counters)
    {
      if TrimSpace(tenantId) == "" || TrimSpace(budget) == "" { return false; }
      counters := counters - {CounterKey(tenantId, budget)};
      return true;
    }

    method Add(c: CounterKey, amount: int, ttl: int) returns (reply: Result<int, Error>)
      requires amount > 0
      modifies this`counters
      ensures if Value(old(State()), c) + amount > MAX_INT64 then reply == Err(ScriptError) && counters == old(counters)
              else
                && counters == old(counters)[c := Increment(old(State()), c, amount, ttl)]
                && reply == Ok(Increment(old(State()), c, amount, ttl).value)
    {
      var existed := c in counters && Pending(counters[c].deadline, now);
      var total := if existed then counters[c].value + amount else amount;
      if total > MAX_INT64 { return Err(ScriptError); }
      counters := counters[c := Counter(total, if existed then counters[c].deadline else None)];
      if !existed && ttl != 0 { counters := counters[c := Counter(total, Some(now + ttl))]; }
      return Ok(total);
    }

    /** Not idempotent: every call adds. */
    method Charge(tenantId: string, budget: string, amount: int, ttlNanos: int) returns (reply: Result<int, Error>)
      modifies this`counters
      ensures if amount <= 0 then reply == Err(InvalidAmount)
              else if TrimSpace(tenantId) == "" || TrimSpace(budget) == "" then reply == Err(InvalidKey)
              else
                var c := CounterKey(tenantId, budget);
                if Value(old(State()), c) + amount > MAX_INT64 then reply == Err(ScriptError)
                else
                  && reply == Ok(Value(old(State()), c) + amount)
                  && counters == old(counters)[c := Increment(old(State()), c, amount, TtlMillis(ttlNanos))]
      ensures reply.Err? ==> counters == old(counters)
    {
      if amount <= 0 { return Err(InvalidAmount); }
      if TrimSpace(tenantId) == "" || TrimSpace(budget) == "" { return Err(InvalidKey); }
      reply := Add(CounterKey(tenantId, budget), amount, TtlMillis(ttlNanos));
    }

    method ChargeOnce(tenantId: string, budget: string, request: string, amount: int, ttlNanos: int)
      returns (reply: Result<Charged, Error>)
      modifies this`counters, this`claims
      ensures if amount <= 0 then reply == Err(InvalidAmount) && State() == old(State())
              else if TrimSpace(request) == "" then reply == Err(RequestRequired) && State() == old(State())
              else if TrimSpace(tenantId) == "" || TrimSpace(budget) == "" then
                reply == Err(InvalidKey) && State() == old(State())
              else (State(), reply)
                   == ChargeOnceScript(old(State()), CounterKey(tenantId, budget), request, amount, TtlMillis(ttlNanos))
    {
      if amount <= 0 { return Err(InvalidAmount); }
      if TrimSpace(request) == "" { return Err(RequestRequired); }
      if TrimSpace(tenantId) == "" || TrimSpace(budget) == "" { return Err(InvalidKey); }
      var c, ttl := CounterKey(tenantId, budget), TtlMillis(ttlNanos);
      var m := Claim(c, request);
      if m in claims && Pending(claims[m], now) {
        var total := Usage(tenantId, budget);
        return Ok(Charged(total.value, false));
      }
      var total := Add(c, amount, ttl);
      if total.Err? { return Err(ScriptError); }
      claims := claims[m := if ttl != 0 then Some(now + ttl) else None];
      return Ok(Charged(total.value, true));
    }
  }

  // ---------- one charge and its replays ----------

  predicate Outlives(claim: Deadline, counter: Deadline) {
    claim.None? || (counter.Some? && counter.value <= claim.value)
  }

  function After(s: Keys, millis: nat): Keys {
    s.(now := s.now + millis)
  }

  /**
   After a charge that was applied, a replay is absorbed at every later moment of the counter's life if and only if
   the claim was given a deadline no earlier than the counter's. A counter's deadline is the one of its first charge,
   so a caller whose later charges use a shorter time-to-live would pay twice.
   */
  lemma ReplayAbsorbedIff(s: Keys, c: CounterKey, request: string, amount: int, ttl: nat, again: int)
    requires !ClaimExists(s, Claim(c, request)) && 0 < amount && 0 < again
    requires Value(s, c) + amount + again <= MAX_INT64
    ensures var s' := ChargeOnceScript(s, c, request, amount, ttl).0;
            (forall d: nat :: CounterExists(After(s', d), c)
               ==> ChargeOnceScript(After(s', d), c, request, again, ttl).1 == Ok(Charged(Value(s, c) + amount, false)))
            <==> Outlives(DeadlineIn(s.now, ttl), s'.counters[c].deadline)
  {
    var s' := ChargeOnceScript(s, c, request, amount, ttl).0;
    if !Outlives(DeadlineIn(s.now, ttl), s'.counters[c].deadline) {
      assert CounterExists(After(s', ttl), c) && !ClaimExists(After(s', ttl), Claim(c, request));
      assert ChargeOnceScript(After(s', ttl), c, request, again, ttl).1 == Ok(Charged(Value(s, c) + amount + again, true));
    }
  }

  /**
   The family of replays that are paid twice: the counter is created with a long time-to-live, a second request is
   charged with a shorter one, and its replay comes after the claim has expired and before the counter has.
   */
  lemma ShorterClaimPaysTwice(s: Keys, c: CounterKey, first: string, request: string, amount: int, long: nat, short: nat, wait: nat)
    requires !CounterExists(s, c) && !ClaimExists(s, Claim(c, first)) && !ClaimExists(s, Claim(c, request)) && first != request
    requires 0 < short <= wait < long && 0 < amount && 3 * amount <= MAX_INT64
    ensures var s1 := ChargeOnceScript(s, c, first, amount, long).0;
            var (s2, charged) := ChargeOnceScript(s1, c, request, amount, short);
            && charged == Ok(Charged(2 * amount, true))
            && ChargeOnceScript(After(s2, wait), c, request, amount, short).1 == Ok(Charged(3 * amount, true))
  {
    var s1 := ChargeOnceScript(s, c, first, amount, long).0;
    assert s1.counters[c] == Counter(amount, Some(s.now + long));
    var s2 := ChargeOnceScript(s1, c, request, amount, short).0;
    assert s2.counters[c] == Counter(2 * amount, Some(s.now + long)) && s2.claims[Claim(c, request)] == Some(s.now + short);
    assert CounterExists(After(s2, wait), c) && !ClaimExists(After(s2, wait), Claim(c, request));
  }

  /** One of them: charges of 5 with lives of an hour and a minute, the second repeated after two minutes. */
  lemma DoubleCharge()
    ensures var c := CounterKey("tenant", "2025-01");
            var s1 := ChargeOnceScript(Keys(0, map[], map[]), c, "first", 5, HOUR).0;
            var (s2, charged) := ChargeOnceScript(s1, c, "second", 5, 60_000);
            && charged == Ok(Charged(10, true))
            && ChargeOnceScript(After(s2, 120_000), c, "second", 5, 60_000).1 == Ok(Charged(15, true))
  {
    assert "first"[0] != "second"[0];
    ShorterClaimPaysTwice(Keys(0, map[], map[]), CounterKey("tenant", "2025-01"), "first", "second", 5, HOUR, 60_000, 120_000);
  }

  // ---------- runs of the plugin ----------

  /** When the keys of a charge made now expire: a day after the month's end, but at least an hour from now. */
  function Horizon(now: int, windowEnd: int): int {
    var ttl := windowEnd - now + 24 * HOUR;
    now + if ttl < HOUR then HOUR else ttl
  }

  /** The plugin's charge, seen as the script. */
  function PluginCharge(s: Keys, c: CounterKey, request: string, amount: int, windowEnd: int): (Keys, Result<Charged, Error>) {
    ChargeOnceScript(s, c, request, amount, Horizon(s.now, windowEnd) - s.now)
  }

  datatype Op =
    | Charge(counter: CounterKey, request: string, amount: int)
    | Reset(counter: CounterKey)
    | Tick(millis: nat)

  /** The plugin charges only positive amounts; the end of the month is a function of the budget's name. */
  function Do(s: Keys, op: Op, windowEnd: string -> int): Keys {
    match op
    case Charge(c, request, amount) =>
      if amount <= 0 then s else PluginCharge(s, c, request, amount, windowEnd(c.budget)).0
    case Reset(c) => s.(counters := s.counters - {c})
    case Tick(d) => s.(now := s.now + d)
  }

  function Run(ops: seq<Op>, windowEnd: string -> int): Keys {
    if ops == [] then Keys(0, map[], map[]) else Do(Run(ops[..|ops| - 1], windowEnd), ops[|ops| - 1], windowEnd)
  }

  /** What was charged to a counter, in order. */
  datatype Entry = Entry(request: string, amount: int)

  function Sum(entries: seq<Entry>): int {
    if entries == [] then 0 else Sum(entries[..|entries| - 1]) + entries[|entries| - 1].amount
  }

  predicate Mentions(entries: seq<Entry>, request: string) {
    exists i :: 0 <= i < |entries| && entries[i].request == request
  }

  ghost predicate OncePerRequest(entries: seq<Entry>) {
    forall i, j :: 0 <= i < j < |entries| ==> entries[i].request != entries[j].request
  }

  predicate Applies(s: Keys, op: Op, c: CounterKey, windowEnd: int) {
    op.Charge? && op.counter == c && op.amount > 0
    && PluginCharge(s, c, op.request, op.amount, windowEnd).1 == Ok(Charged(Value(s, c) + op.amount, true))
  }

  function NextApplied(before: seq<Entry>, s: Keys, op: Op, c: CounterKey, windowEnd: int): seq<Entry> {
    if op == Reset(c) then []
    else if Applies(s, op, c, windowEnd) then (if CounterExists(s, c) then before else []) + [Entry(op.request, op.amount)]
    else before
  }

  /** The charges applied to the counter in its present life. */
  function Applied(ops: seq<Op>, c: CounterKey, windowEnd: string -> int): seq<Entry> {
    if ops == [] then [] else
    NextApplied(Applied(ops[..|ops| - 1], c, windowEnd), Run(ops[..|ops| - 1], windowEnd), ops[|ops| - 1], c, windowEnd(c.budget))
  }

  /** Every claim of the present life outlives the counter, and no later claim can be shorter. */
  ghost predicate LifeOk(s: Keys, c: CounterKey, entries: seq<Entry>, windowEnd: int) {
    CounterExists(s, c) ==>
      && s.counters[c].value == Sum(entries)
      && s.counters[c].deadline.Some? && s.counters[c].deadline.value <= Horizon(s.now, windowEnd)
      && OncePerRequest(entries)
      && forall i :: 0 <= i < |entries| ==>
           Claim(c, entries[i].request) in s.claims
           && Outlives(s.claims[Claim(c, entries[i].request)], s.counters[c].deadline)
  }

  lemma SumSnoc(entries: seq<Entry>, e: Entry)
    ensures Sum(entries + [e]) == Sum(entries) + e.amount
  {
  }

  /** A charge that is applied is not among the entries of a living counter. */
  lemma ChargeKeepsLife(s: Keys, c: CounterKey, entries: seq<Entry>, request: string, amount: int, windowEnd: int)
    requires LifeOk(s, c, entries, windowEnd) && amount > 0
    requires !ClaimExists(s, Claim(c, request)) && Value(s, c) + amount <= MAX_INT64
    ensures LifeOk(ChargeOnceScript(s, c, request, amount, Horizon(s.now, windowEnd) - s.now).0, c,
                   (if CounterExists(s, c) then entries else []) + [Entry(request, amount)], windowEnd)
  {
    var before := if CounterExists(s, c) then entries else [];
    assert !Mentions(before, request);
    SumSnoc(before, Entry(request, amount));
  }

  /** Nothing of the counter changes, except that time may pass. */
  lemma LifeUntouched(s: Keys, s': Keys, c: CounterKey, entries: seq<Entry>, windowEnd: int)
    requires LifeOk(s, c, entries, windowEnd) && s.now <= s'.now
    requires c in s'.counters ==> c in s.counters && s'.counters[c] == s.counters[c]
    requires forall r :: Claim(c, r) in s.claims ==> Claim(c, r) in s'.claims && s'.claims[Claim(c, r)] == s.claims[Claim(c, r)]
    ensures LifeOk(s', c, entries, windowEnd)
  {
  }

  lemma OtherCounter(s: Keys, op: Op, c: CounterKey, windowEnd: string -> int)
    requires !op.Tick? && op.counter != c
    ensures var s' := Do(s, op, windowEnd);
            && s'.now == s.now && (c in s'.counters <==> c in s.counters) && (c in s.counters ==> s'.counters[c] == s.counters[c])
            && forall r :: Claim(c, r) in s.claims ==> Claim(c, r) in s'.claims && s'.claims[Claim(c, r)] == s.claims[Claim(c, r)]
  {
  }

  lemma StepKeepsLife(s: Keys, op: Op, c: CounterKey, before: seq<Entry>, windowEnd: string -> int)
    requires LifeOk(s, c, before, windowEnd(c.budget))
    ensures LifeOk(Do(s, op, windowEnd), c, NextApplied(before, s, op, c, windowEnd(c.budget)), windowEnd(c.budget))
  {
    if op.Tick? {
      LifeUntouched(s, Do(s, op, windowEnd), c, before, windowEnd(c.budget));
    } else if op.counter != c {
      OtherCounter(s, op, c, windowEnd);
      LifeUntouched(s, Do(s, op, windowEnd), c, before, windowEnd(c.budget));
    } else if Applies(s, op, c, windowEnd(c.budget)) {
      ChargeKeepsLife(s, c, before, op.request, op.amount, windowEnd(c.budget));
    } else if op.Charge? {
      assert Do(s, op, windowEnd) == s;
    }
  }

  lemma {:induction false} AppliedCounted(ops: seq<Op>, c: CounterKey, windowEnd: string -> int)
    ensures LifeOk(Run(ops, windowEnd), c, Applied(ops, c, windowEnd), windowEnd(c.budget))
    decreases |ops|
  {
    if ops != [] {
      var prefix := ops[..|ops| - 1];
      AppliedCounted(prefix, c, windowEnd);
      StepKeepsLife(Run(prefix, windowEnd), ops[|ops| - 1], c, Applied(prefix, c, windowEnd), windowEnd);
    }
  }

  /**
   Exactly once, per life of a counter: at every point of every run of charges, replays, resets and time, whoever
   makes them, the counter is the sum of the charges applied since it was created, and no request is among them twice.
   */
  lemma {:induction false} CounterIsSumOfDistinctRequests(ops: seq<Op>, c: CounterKey, windowEnd: string -> int)
    requires CounterExists(Run(ops, windowEnd), c)
    ensures Value(Run(ops, windowEnd), c) == Sum(Applied(ops, c, windowEnd))
    ensures OncePerRequest(Applied(ops, c, windowEnd))
  {
    AppliedCounted(ops, c, windowEnd);
  }

  // ---------- the whole month, told without claims ----------

  /** One more operation: a charge for a request that was not seen yet is added. */
  function Next(before: seq<Entry>, op: Op, c: CounterKey): seq<Entry> {
    if op.Charge? && op.counter == c && op.amount > 0 && !Mentions(before, op.request)
    then before + [Entry(op.request, op.amount)] else before
  }

  /** The first charge each request asked for, whatever the keys say. */
  function FirstCharges(ops: seq<Op>, c: CounterKey): seq<Entry> {
    if ops == [] then [] else
    Next(FirstCharges(ops[..|ops| - 1], c), ops[|ops| - 1], c)
  }

  ghost predicate MonthOk(s: Keys, c: CounterKey, entries: seq<Entry>, windowEnd: int) {
    && (entries != [] <==> c in s.counters)
    && (entries != [] ==> s.counters[c].value == Sum(entries) && Outlives(s.counters[c].deadline, Some(windowEnd + 24 * HOUR)))
    && forall r ::
         && (Mentions(entries, r) <==> Claim(c, r) in s.claims)
         && (Claim(c, r) in s.claims ==> Outlives(s.claims[Claim(c, r)], Some(windowEnd + 24 * HOUR)))
  }

  lemma SumsGrow(ops: seq<Op>, c: CounterKey)
    requires ops != []
    ensures 0 <= Sum(FirstCharges(ops[..|ops| - 1], c)) <= Sum(FirstCharges(ops, c))
    decreases |ops|
  {
    var prefix, op := ops[..|ops| - 1], ops[|ops| - 1];
    if prefix != [] { SumsGrow(prefix, c); }
    SumSnoc(FirstCharges(prefix, c), Entry(if op.Charge? then op.request else "", if op.Charge? then op.amount else 0));
  }

  lemma MentionsSnoc(entries: seq<Entry>, e: Entry)
    ensures forall r :: Mentions(entries + [e], r) <==> Mentions(entries, r) || r == e.request
  {
    forall r | Mentions(entries, r) || r == e.request ensures Mentions(entries + [e], r) {
      if r == e.request {
        assert (entries + [e])[|entries|].request == r;
      } else {
        var i :| 0 <= i < |entries| && entries[i].request == r;
        assert (entries + [e])[i].request == r;
      }
    }
  }

  /** One charge to the counter, before the horizon. */
  lemma MonthCharge(s: Keys, c: CounterKey, before: seq<Entry>, e: Entry, windowEnd: int)
    requires MonthOk(s, c, before, windowEnd) && s.now < windowEnd + 24 * HOUR && !Mentions(before, e.request)
    requires Sum(before) + e.amount <= MAX_INT64
    ensures MonthOk(ChargeOnceScript(s, c, e.request, e.amount, Horizon(s.now, windowEnd) - s.now).0, c, before + [e], windowEnd)
  {
    SumSnoc(before, e);
    MentionsSnoc(before, e);
    assert !ClaimExists(s, Claim(c, e.request));
  }

  lemma OtherStep(s: Keys, op: Op, c: CounterKey, before: seq<Entry>, windowEnd: string -> int)
    requires op != Reset(c) && MonthOk(s, c, before, windowEnd(c.budget)) && s.now < windowEnd(c.budget) + 24 * HOUR
    requires !(op.Charge? && op.counter == c && op.amount > 0 && !Mentions(before, op.request))
    ensures MonthOk(Do(s, op, windowEnd), c, before, windowEnd(c.budget))
  {
  }

  lemma NowGrows(s: Keys, op: Op, windowEnd: string -> int)
    ensures s.now <= Do(s, op, windowEnd).now
  {
  }

  lemma MonthValue(s: Keys, c: CounterKey, entries: seq<Entry>, windowEnd: int)
    requires MonthOk(s, c, entries, windowEnd) && s.now < windowEnd + 24 * HOUR
    ensures Value(s, c) == Sum(entries)
  {
  }

  lemma MonthStep(s: Keys, op: Op, c: CounterKey, before: seq<Entry>, windowEnd: string -> int)
    requires op != Reset(c) && Do(s, op, windowEnd).now < windowEnd(c.budget) + 24 * HOUR
    requires Sum(before) <= MAX_INT64 && Sum(Next(before, op, c)) <= MAX_INT64
    requires s.now < windowEnd(c.budget) + 24 * HOUR && MonthOk(s, c, before, windowEnd(c.budget))
    ensures MonthOk(Do(s, op, windowEnd), c, Next(before, op, c), windowEnd(c.budget))
  {
    if op.Charge? && op.counter == c && op.amount > 0 && !Mentions(before, op.request) {
      SumSnoc(before, Entry(op.request, op.amount));
      MonthCharge(s, c, before, Entry(op.request, op.amount), windowEnd(c.budget));
    } else {
      OtherStep(s, op, c, before, windowEnd);
    }
  }

  /**
   Exactly once, told without the keys: until a day after the month's end, and with no reset, the counter is the sum
   over the distinct requests of the first charge each of them asked for, in every interleaving of charges and replays.
   */
  lemma {:induction false} MonthCountsFirstCharges(ops: seq<Op>, c: CounterKey, windowEnd: string -> int)
    requires Reset(c) !in ops
    requires Run(ops, windowEnd).now < windowEnd(c.budget) + 24 * HOUR
    requires Sum(FirstCharges(ops, c)) <= MAX_INT64
    ensures MonthOk(Run(ops, windowEnd), c, FirstCharges(ops, c), windowEnd(c.budget))
    ensures Value(Run(ops, windowEnd), c) == Sum(FirstCharges(ops, c))
    decreases |ops|
  {
    if ops != [] {
      var prefix, op := ops[..|ops| - 1], ops[|ops| - 1];
      SumsGrow(ops, c);
      NowGrows(Run(prefix, windowEnd), op, windowEnd);
      MonthCountsFirstCharges(prefix, c, windowEnd);
      MonthStep(Run(prefix, windowEnd), op, c, FirstCharges(prefix, c), windowEnd);
    }
    MonthValue(Run(ops, windowEnd), c, FirstCharges(ops, c), windowEnd(c.budget));
  }
}
