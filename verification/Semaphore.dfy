/**
 The cluster-wide expiring semaphore. Its scripts keep three structures in Redis: a sorted set of tokens per tenant
 and one per provider, purged only when someone acquires, and one expiring key per lease. The class below performs
 the scripts; it is proved against one eager table of unexpired leases, about which the bound is stated.
 Times are milliseconds of one clock; a key and a score with the same deadline expire at the same instant.
 */
module Semaphore {
  import opened Common

  type Token = string

  /** An unexpired lease. */
  datatype Slot = Slot(tenantId: string, provider: string, expires: int)

  type Live = map<Token, Slot>

  /** What Acquire hands to its caller. */
  datatype Lease = Lease(token: Token, tenantId: string, provider: string)

  datatype Reply = Granted | Unavailable | InvalidRequest | LeaseExpired | ScriptError

  const NANOS_PER_MILLI: int := 1_000_000

  // ---------- the eager table ----------

  function OfTenant(live: Live, t: string): set<Token> {
    set k | k in live && live[k].tenantId == t
  }

  function OfProvider(live: Live, p: string): set<Token> {
    set k | k in live && live[k].provider == p
  }

  /** A limit of zero is no limit. */
  predicate Admits(live: Live, t: string, p: string, tenantLimit: int, providerLimit: int) {
    (tenantLimit > 0 ==> |OfTenant(live, t)| < tenantLimit) && (providerLimit > 0 ==> |OfProvider(live, p)| < providerLimit)
  }

  function Unexpired(live: Live, now: int): Live {
    map k | k in live && live[k].expires > now :: live[k]
  }

  // ---------- runs of the eager table, and the bound ----------

  datatype Op =
    | Acquire(token: Token, tenantId: string, provider: string, ttl: nat)
    | Renew(token: Token, ttl: nat)
    | Release(token: Token)
    | Tick(millis: nat)

  datatype State = State(now: int, live: Live)

  /** Each tenant and each provider has its own limit, the same for every request. */
  datatype Limits = Limits(tenant: string -> nat, provider: string -> nat)

  function Do(s: State, op: Op, limits: Limits): State {
    match op
    case Acquire(k, t, p, ttl) =>
      if k !in s.live && Admits(s.live, t, p, limits.tenant(t), limits.provider(p))
      then s.(live := Unexpired(s.live[k := Slot(t, p, s.now + ttl)], s.now)) else s
    case Renew(k, ttl) =>
      if k in s.live then s.(live := Unexpired(s.live[k := s.live[k].(expires := s.now + ttl)], s.now)) else s
    case Release(k) => s.(live := s.live - {k})
    case Tick(d) => State(s.now + d, Unexpired(s.live, s.now + d))
  }

  function Run(s: State, ops: seq<Op>, limits: Limits): State
    decreases |ops|
  {
    if ops == [] then s else Do(Run(s, ops[..|ops| - 1], limits), ops[|ops| - 1], limits)
  }

  ghost predicate WithinLimits(live: Live, limits: Limits) {
    && (forall t :: limits.tenant(t) > 0 ==> |OfTenant(live, t)| <= limits.tenant(t))
    && (forall p :: limits.provider(p) > 0 ==> |OfProvider(live, p)| <= limits.provider(p))
  }

  lemma SubsetSize(a: set<Token>, b: set<Token>)
    requires a <= b
    ensures |a| <= |b|
  {
    assert |b| == |a| + |b - a| by { assert a + (b - a) == b; }
  }

  /** Fewer leases, or the same with other deadlines, stay within the limits. */
  lemma ShrinkWithin(a: Live, b: Live, limits: Limits)
    requires WithinLimits(a, limits)
    requires forall k :: k in b ==> k in a && b[k].tenantId == a[k].tenantId && b[k].provider == a[k].provider
    ensures WithinLimits(b, limits)
  {
    forall t ensures |OfTenant(b, t)| <= |OfTenant(a, t)| { SubsetSize(OfTenant(b, t), OfTenant(a, t)); }
    forall p ensures |OfProvider(b, p)| <= |OfProvider(a, p)| { SubsetSize(OfProvider(b, p), OfProvider(a, p)); }
  }

  lemma GrantSizes(live: Live, k: Token, slot: Slot)
    requires k !in live
    ensures forall t :: |OfTenant(live[k := slot], t)| == |OfTenant(live, t)| + (if t == slot.tenantId then 1 else 0)
    ensures forall p :: |OfProvider(live[k := slot], p)| == |OfProvider(live, p)| + (if p == slot.provider then 1 else 0)
  {
    var more := live[k := slot];
    forall t ensures OfTenant(more, t) == if t == slot.tenantId then OfTenant(live, t) + {k} else OfTenant(live, t) {
    }
    forall p ensures OfProvider(more, p) == if p == slot.provider then OfProvider(live, p) + {k} else OfProvider(live, p) {
    }
  }

  lemma GrantWithin(live: Live, k: Token, slot: Slot, limits: Limits)
    requires WithinLimits(live, limits) && k !in live
    requires Admits(live, slot.tenantId, slot.provider, limits.tenant(slot.tenantId), limits.provider(slot.provider))
    ensures WithinLimits(live[k := slot], limits)
  {
    GrantSizes(live, k, slot);
  }

  lemma DoWithin(s: State, op: Op, limits: Limits)
    requires WithinLimits(s.live, limits)
    ensures WithinLimits(Do(s, op, limits).live, limits)
  {
    if op.Acquire? && op.token !in s.live
       && Admits(s.live, op.tenantId, op.provider, limits.tenant(op.tenantId), limits.provider(op.provider)) {
      var slot := Slot(op.tenantId, op.provider, s.now + op.ttl);
      GrantWithin(s.live, op.token, slot, limits);
      ShrinkWithin(s.live[op.token := slot], Do(s, op, limits).live, limits);
    } else {
      ShrinkWithin(s.live, Do(s, op, limits).live, limits);
    }
  }

  /**
   The bound: at every instant of every run of acquire, renew, release and the passing of time, the live leases of
   each tenant and of each provider that has a limit do not exceed it.
   */
  lemma {:induction false} NeverOverLimit(now: int, ops: seq<Op>, limits: Limits)
    ensures WithinLimits(Run(State(now, map[]), ops, limits).live, limits)
    decreases |ops|
  {
    if ops == [] {
      forall t ensures OfTenant(map[], t) == {} {}
      forall p ensures OfProvider(map[], p) == {} {}
    } else {
      NeverOverLimit(now, ops[..|ops| - 1], limits);
      DoWithin(Run(State(now, map[]), ops[..|ops| - 1], limits), ops[|ops| - 1], limits);
    }
  }

  // ---------- the scripts over Redis ----------

  type SortedSet = map<Token, int>

  /** ZREMRANGEBYSCORE key -inf now. */
  function Purge(z: SortedSet, now: int): SortedSet {
    map k | k in z && z[k] > now :: z[k]
  }

  function SetAt(sets: map<string, SortedSet>, key: string): SortedSet {
    if key in sets then sets[key] else map[]
  }

  datatype Dimension = ByTenant | ByProvider

  function KeyOf(d: Dimension, slot: Slot): string {
    match d case ByTenant => slot.tenantId case ByProvider => slot.provider
  }

  function Members(d: Dimension, live: Live, key: string): set<Token> {
    match d case ByTenant => OfTenant(live, key) case ByProvider => OfProvider(live, key)
  }

  /** What the sorted sets say of a token whose score has not passed is what the eager table says. */
  predicate TokenAgrees(d: Dimension, sets: map<string, SortedSet>, live: Live, now: int, key: string, k: Token) {
    var z := SetAt(sets, key);
    if k in live && KeyOf(d, live[k]) == key then k in z && z[k] == live[k].expires > now else k !in z || z[k] <= now
  }

  ghost predicate SetsAgree(d: Dimension, sets: map<string, SortedSet>, live: Live, now: int) {
    forall key, k :: TokenAgrees(d, sets, live, now, key, k)
  }

  /** ZCARD after the purge counts the live leases, and purging changes nothing that counts. */
  lemma Purged(d: Dimension, sets: map<string, SortedSet>, live: Live, now: int, key: string)
    requires SetsAgree(d, sets, live, now)
    ensures |Purge(SetAt(sets, key), now)| == |Members(d, live, key)|
    ensures SetsAgree(d, sets[key := Purge(SetAt(sets, key), now)], live, now)
  {
    var z := Purge(SetAt(sets, key), now);
    var sets' := sets[key := z];
    forall k ensures k in z <==> k in Members(d, live, key) { assert TokenAgrees(d, sets, live, now, key, k); }
    assert z.Keys == Members(d, live, key);
    forall x, k ensures TokenAgrees(d, sets', live, now, x, k) { assert TokenAgrees(d, sets, live, now, x, k); }
  }

  /** ZADD of a token that is new, or that this key holds already. */
  lemma Added(d: Dimension, sets: map<string, SortedSet>, live: Live, now: int, k: Token, slot: Slot)
    requires SetsAgree(d, sets, live, now) && (k in live ==> KeyOf(d, live[k]) == KeyOf(d, slot))
    requires forall x :: x in live ==> live[x].expires > now
    ensures var key := KeyOf(d, slot);
            SetsAgree(d, sets[key := SetAt(sets, key)[k := slot.expires]], Unexpired(live[k := slot], now), now)
  {
    var key := KeyOf(d, slot);
    var sets' := sets[key := SetAt(sets, key)[k := slot.expires]];
    var live' := Unexpired(live[k := slot], now);
    forall x, y ensures TokenAgrees(d, sets', live', now, x, y) { assert TokenAgrees(d, sets, live, now, x, y); }
  }

  /** ZREM of a token from the set that holds it if it is live. */
  lemma Removed(d: Dimension, sets: map<string, SortedSet>, live: Live, now: int, k: Token, key: string)
    requires SetsAgree(d, sets, live, now) && (k in live ==> KeyOf(d, live[k]) == key)
    ensures SetsAgree(d, sets[key := SetAt(sets, key) - {k}], live - {k}, now)
  {
    var sets' := sets[key := SetAt(sets, key) - {k}];
    var live' := live - {k};
    forall x, y ensures TokenAgrees(d, sets', live', now, x, y) { assert TokenAgrees(d, sets, live, now, x, y); }
  }

  /** Time passes: what has expired in the table no longer counts in the sets, although it is still there. */
  lemma Elapsed(d: Dimension, sets: map<string, SortedSet>, live: Live, now: int, later: int)
    requires SetsAgree(d, sets, live, now) && now <= later
    ensures SetsAgree(d, sets, Unexpired(live, later), later)
  {
    var live' := Unexpired(live, later);
    forall x, y ensures TokenAgrees(d, sets, live', later, x, y) { assert TokenAgrees(d, sets, live, now, x, y); }
  }

  /** One entry in each set and the lease key, seen from the eager table. */
  lemma SlotWritten(tenants: map<string, SortedSet>, providers: map<string, SortedSet>, leases: Live, now: int, k: Token, slot: Slot)
    requires SetsAgree(ByTenant, tenants, Unexpired(leases, now), now) && SetsAgree(ByProvider, providers, Unexpired(leases, now), now)
    requires k in Unexpired(leases, now) ==> leases[k].tenantId == slot.tenantId && leases[k].provider == slot.provider
    ensures var t, p := slot.tenantId, slot.provider;
            && SetsAgree(ByTenant, tenants[t := SetAt(tenants, t)[k := slot.expires]], Unexpired(leases[k := slot], now), now)
            && SetsAgree(ByProvider, providers[p := SetAt(providers, p)[k := slot.expires]], Unexpired(leases[k := slot], now), now)
    ensures slot.expires <= now && k !in Unexpired(leases, now) ==> Unexpired(leases[k := slot], now) == Unexpired(leases, now)
  {
    Added(ByTenant, tenants, Unexpired(leases, now), now, k, slot);
    Added(ByProvider, providers, Unexpired(leases, now), now, k, slot);
    assert Unexpired(leases[k := slot], now) == Unexpired(Unexpired(leases, now)[k := slot], now);
  }

  /** The three structures agree, and every lease key is one that was issued. */
  ghost predicate KeysOk(tenants: map<string, SortedSet>, providers: map<string, SortedSet>, leases: Live,
                         issued: map<Token, Lease>, now: int)
  {
    && SetsAgree(ByTenant, tenants, Unexpired(leases, now), now)
    && SetsAgree(ByProvider, providers, Unexpired(leases, now), now)
    && forall k :: k in leases ==> k in issued && issued[k] == Lease(k, leases[k].tenantId, leases[k].provider)
  }

  /** One entry in each set and the lease key. */
  lemma WrittenOk(tenants: map<string, SortedSet>, providers: map<string, SortedSet>, leases: Live,
                  issued: map<Token, Lease>, now: int, k: Token, slot: Slot)
    requires KeysOk(tenants, providers, leases, issued, now)
    requires k in issued ==> issued[k] == Lease(k, slot.tenantId, slot.provider)
    ensures var t, p := slot.tenantId, slot.provider;
            KeysOk(tenants[t := SetAt(tenants, t)[k := slot.expires]], providers[p := SetAt(providers, p)[k := slot.expires]],
                   leases[k := slot], issued[k := Lease(k, t, p)], now)
  {
    SlotWritten(tenants, providers, leases, now, k, slot);
  }

  /** The entries without the lease key: they have expired already. */
  lemma ScoresOk(tenants: map<string, SortedSet>, providers: map<string, SortedSet>, leases: Live,
                 issued: map<Token, Lease>, now: int, k: Token, slot: Slot)
    requires KeysOk(tenants, providers, leases, issued, now) && k !in leases && slot.expires <= now
    ensures var t, p := slot.tenantId, slot.provider;
            KeysOk(tenants[t := SetAt(tenants, t)[k := slot.expires]], providers[p := SetAt(providers, p)[k := slot.expires]],
                   leases, issued, now)
  {
    SlotWritten(tenants, providers, leases, now, k, slot);
  }

  lemma UnexpiredAfter(leases: Live, now: int, k: Token, slot: Slot)
    ensures Unexpired(leases[k := slot], now) == Unexpired(Unexpired(leases, now)[k := slot], now)
  {
  }

  lemma AllUnexpired(leases: Live, now: int, k: Token, slot: Slot)
    requires slot.expires > now
    ensures Unexpired(Unexpired(leases, now)[k := slot], now) == Unexpired(leases, now)[k := slot]
  {
  }

  class Redis {
    var now: int
    var tenantSets: map<string, SortedSet>
    var providerSets: map<string, SortedSet>
    var leaseKeys: map<Token, Slot>
    ghost var issued: map<Token, Lease>

    /** The eager table: the lease keys that have not expired. */
    ghost function Table(): Live
      reads this
    {
      Unexpired(leaseKeys, now)
    }

    ghost function Eager(): State
      reads this
    {
      State(now, Table())
    }

    ghost predicate Valid()
      reads this
    {
      KeysOk(tenantSets, providerSets, leaseKeys, issued, now)
    }

    /** A lease that Acquire returned; its caller keeps it unchanged. */
    ghost predicate Genuine(lease: Lease)
      reads this
    {
      lease.token in issued ==> issued[lease.token] == lease
    }

    constructor ()
      ensures Valid() && Table() == map[] && issued == map[]
    {
      now, tenantSets, providerSets, leaseKeys, issued := 0, map[], map[], map[], map[];
    }

    method Tick(millis: nat, ghost limits: Limits)
      requires Valid()
      modifies this`now
      ensures Valid() && now == old(now) + millis
      ensures Table() == Unexpired(old(Table()), now)
      ensures Eager() == Do(old(Eager()), Op.Tick(millis), limits)
    {
      Elapsed(ByTenant, tenantSets, Table(), now, now + millis);
      Elapsed(ByProvider, providerSets, Table(), now, now + millis);
      assert Unexpired(leaseKeys, now + millis) == Unexpired(Table(), now + millis);
      now := now + millis;
    }

    /** The first half of the script: purge both sets, then compare their sizes with the limits. */
    method PurgeAndCount(t: string, p: string, tenantLimit: int, providerLimit: int) returns (admits: bool)
      requires Valid()
      modifies this`tenantSets, this`providerSets
      ensures Valid()
      ensures admits <==> Admits(Table(), t, p, tenantLimit, providerLimit)
    {
      Purged(ByTenant, tenantSets, Table(), now, t);
      Purged(ByProvider, providerSets, Table(), now, p);
      tenantSets := tenantSets[t := Purge(SetAt(tenantSets, t), now)];
      providerSets := providerSets[p := Purge(SetAt(providerSets, p), now)];
      if tenantLimit > 0 && |tenantSets[t]| >= tenantLimit { return false; }
      if providerLimit > 0 && |providerSets[p]| >= providerLimit { return false; }
      return true;
    }

    /** ZADD to both sets. */
    method AddScores(t: string, p: string, token: Token, score: int)
      modifies this`tenantSets, this`providerSets
      ensures tenantSets == old(tenantSets)[t := SetAt(old(tenantSets), t)[token := score]]
      ensures providerSets == old(providerSets)[p := SetAt(old(providerSets), p)[token := score]]
    {
      tenantSets := tenantSets[t := SetAt(tenantSets, t)[token := score]];
      providerSets := providerSets[p := SetAt(providerSets, p)[token := score]];
    }

    /** The second half: one entry in each set and the lease key; with a zero time-to-live the last command fails. */
    method Grant(t: string, p: string, ttl: nat, token: Token) returns (set_: bool)
      requires Valid() && token !in issued
      modifies this`tenantSets, this`providerSets, this`leaseKeys, this`issued
      ensures Valid() && set_ == (ttl > 0)
      ensures Table() == if ttl == 0 then old(Table()) else old(Table())[token := Slot(t, p, now + ttl)]
      ensures issued == if ttl == 0 then old(issued) else old(issued)[token := Lease(token, t, p)]
    {
      if ttl == 0 {
        ScoresOk(tenantSets, providerSets, leaseKeys, issued, now, token, Slot(t, p, now));
        AddScores(t, p, token, now);
        return false;
      }
      AllUnexpired(leaseKeys, now, token, Slot(t, p, now + ttl));
      PutLease(t, p, token, now + ttl);
      return true;
    }

    /** One entry in each set and the lease key, for a new token or one that its owner still holds. */
    method PutLease(t: string, p: string, token: Token, expires: int)
      requires Valid() && Genuine(Lease(token, t, p))
      modifies this`tenantSets, this`providerSets, this`leaseKeys, this`issued
      ensures Valid()
      ensures Table() == Unexpired(old(Table())[token := Slot(t, p, expires)], now)
      ensures issued == old(issued)[token := Lease(token, t, p)]
    {
      WrittenOk(tenantSets, providerSets, leaseKeys, issued, now, token, Slot(t, p, expires));
      UnexpiredAfter(leaseKeys, now, token, Slot(t, p, expires));
      AddScores(t, p, token, expires);
      leaseKeys, issued := leaseKeys[token := Slot(t, p, expires)], issued[token := Lease(token, t, p)];
    }

    /** A token is fresh; `limits` are the limits that every request passes. */
    method Acquire(t: string, p: string, tenantLimit: int, providerLimit: int, ttlNanos: int, token: Token, ghost limits: Limits)
      returns (reply: Reply)
      requires Valid() && token !in issued
      requires tenantLimit >= 0 ==> limits.tenant(t) == tenantLimit
      requires providerLimit >= 0 ==> limits.provider(p) == providerLimit
      modifies this`tenantSets, this`providerSets, this`leaseKeys, this`issued
      ensures Valid()
      ensures var ttl := ttlNanos / NANOS_PER_MILLI;
              if TrimSpace(t) == "" || TrimSpace(p) == "" || tenantLimit < 0 || providerLimit < 0 || ttlNanos <= 0 then
                reply == InvalidRequest && Table() == old(Table())
              else if !Admits(old(Table()), t, p, tenantLimit, providerLimit) then
                reply == Unavailable && Table() == old(Table())
              else if ttl == 0 then reply == ScriptError && Table() == old(Table())
              else reply == Granted && Table() == old(Table())[token := Slot(t, p, now + ttl)]
      ensures reply != InvalidRequest ==> Eager() == Do(old(Eager()), Op.Acquire(token, t, p, ttlNanos / NANOS_PER_MILLI), limits)
      ensures issued == if reply == Granted then old(issued)[token := Lease(token, t, p)] else old(issued)
    {
      if TrimSpace(t) == "" || TrimSpace(p) == "" || tenantLimit < 0 || providerLimit < 0 || ttlNanos <= 0 {
        return InvalidRequest;
      }
      var ttl := ttlNanos / NANOS_PER_MILLI;
      var admits := PurgeAndCount(t, p, tenantLimit, providerLimit);
      if !admits { return Unavailable; }
      var done := Grant(t, p, ttl, token);
      if !done { return ScriptError; }
      return Granted;
    }

    /** Renews a lease whose key still exists; a lease that has expired is not brought back. */
    method Renew(lease: Lease, ttlNanos: int, ghost limits: Limits) returns (reply: Reply)
      requires Valid() && Genuine(lease)
      modifies this`tenantSets, this`providerSets, this`leaseKeys, this`issued
      ensures Valid() && issued == old(issued)
      ensures var ttl := ttlNanos / NANOS_PER_MILLI;
              var live := old(Table());
              if lease.token == "" || lease.tenantId == "" || lease.provider == "" || ttlNanos <= 0 then
                reply == InvalidRequest && Table() == live
              else if lease.token !in live then reply == LeaseExpired && Table() == live
              else
                reply == Granted
                && Table() == Unexpired(live[lease.token := live[lease.token].(expires := now + ttl)], now)
      ensures reply != InvalidRequest ==> Eager() == Do(old(Eager()), Op.Renew(lease.token, ttlNanos / NANOS_PER_MILLI), limits)
    {
      if lease.token == "" || lease.tenantId == "" || lease.provider == "" || ttlNanos <= 0 { return InvalidRequest; }
      var ttl := ttlNanos / NANOS_PER_MILLI;
      if lease.token !in leaseKeys || leaseKeys[lease.token].expires <= now { return LeaseExpired; }
      assert leaseKeys[lease.token] == Slot(lease.tenantId, lease.provider, leaseKeys[lease.token].expires);
      PutLease(lease.tenantId, lease.provider, lease.token, now + ttl);
      assert issued == old(issued);
      return Granted;
    }

    /** Releasing takes away this lease and nothing else; an expired or released token takes away nothing. */
    method Release(lease: Lease, ghost limits: Limits) returns (reply: Reply)
      requires Valid() && Genuine(lease)
      modifies this`tenantSets, this`providerSets, this`leaseKeys
      ensures Valid()
      ensures if lease.token == "" || lease.tenantId == "" || lease.provider == "" then
                reply == InvalidRequest && Table() == old(Table())
              else reply == Granted && Table() == old(Table()) - {lease.token}
      ensures reply != InvalidRequest ==> Eager() == Do(old(Eager()), Op.Release(lease.token), limits)
    {
      if lease.token == "" || lease.tenantId == "" || lease.provider == "" { return InvalidRequest; }
      var t, p := lease.tenantId, lease.provider;
      ghost var live := Table();
      Removed(ByTenant, tenantSets, live, now, lease.token, t);
      Removed(ByProvider, providerSets, live, now, lease.token, p);
      assert Unexpired(leaseKeys - {lease.token}, now) == live - {lease.token};
      tenantSets := tenantSets[t := SetAt(tenantSets, t) - {lease.token}];
      providerSets := providerSets[p := SetAt(providerSets, p) - {lease.token}];
      leaseKeys := leaseKeys - {lease.token};
      return Granted;
    }
  }
}
