/**
 Any number of gateways. What the caches hold in every run, when the cache of one gateway is right for a tenant,
 and how the gateway that projects a change last decides which caches are right from then on.
 */
module ProjectionFleet {
  import opened Common
  import opened ControlPlane
  import opened Projection
  import opened ProjectionSafety
  import opened ProjectionCache

  /** An entry is never ahead of its key, and at the key's own generation it is the key as it is now, and active. */
  ghost predicate EntryOk(db: Db, id: KeyId, e: Projected) {
    id in db.keys &&
    var k := db.keys[id];
    && e.tenantId == k.tenantId && e.generation <= k.desiredGeneration
    && (e.generation == k.desiredGeneration ==> k.desiredState.DesiredActive? && e == ProjectedOf(k))
  }

  ghost predicate SnapshotOk(db: Db, m: Snapshot) {
    forall id :: id in m ==> EntryOk(db, id, m[id])
  }

  ghost predicate RowsOk(db: Db, t: TenantId, rows: seq<Key>) {
    forall i :: 0 <= i < |rows| ==> rows[i].tenantId == t && EntryOk(db, rows[i].id, ProjectedOf(rows[i]))
  }

  ghost predicate MemoryOk(db: Db, gw: Gateway) {
    && SnapshotOk(db, gw.cache)
    && (forall t :: gw.Fence(t) > 0 ==> t in gw.restored)
    && (gw.phase.Restoring? ==> gw.phase.tenantId !in gw.restored && RowsOk(db, gw.phase.tenantId, gw.phase.rows))
  }

  ghost predicate FleetOk(w: World) {
    && Safe(w)
    && SnapshotOk(w.db, w.store)
    && forall n :: n in w.gateways ==> MemoryOk(w.db, w.gateways[n])
  }

  /** A row keeps its identity, and its desired state changes only together with its generation. */
  ghost predicate Evolves(a: Db, b: Db) {
    forall id :: id in a.keys ==>
      id in b.keys && KeyProgress(a.keys[id], b.keys[id])
      && (a.keys[id].desiredGeneration == b.keys[id].desiredGeneration ==> a.keys[id].desiredState == b.keys[id].desiredState)
  }

  /** One transaction that committed. */
  lemma TxEvolves(db: Db, r: Result<(Db, Mutation), TxError>, t: TenantId, keyId: KeyId, name: string, secret: string)
    requires DbOk(db) && r.Ok?
    requires r == CreateTx(db, t, name, keyId, secret) || r == RevokeTx(db, t, keyId) || r == RetryTx(db, t, keyId)
    ensures Evolves(db, r.value.0) && Rely(db, r.value.0)
  {
    TxDb(db, r, t, keyId, name, secret);
    if r == CreateTx(db, t, name, keyId, secret) {
      CreateTxOk(db, t, name, keyId, secret);
    } else {
      MutatedEvolves(db, t, keyId, r);
    }
  }

  lemma MutatedEvolves(db: Db, t: TenantId, keyId: string, r: Result<(Db, Mutation), TxError>)
    requires DbOk(db) && (r == RevokeTx(db, t, keyId) || r == RetryTx(db, t, keyId)) && r.Ok?
    ensures Evolves(db, r.value.0)
  {
    MutateTxOk(db, t, keyId, r);
    var (d, m) := r.value;
    if m.change.Some? {
      assert KeyOk(db, m.key.id);
    }
  }

  lemma TxStepEvolves(w: World, a: Action)
    requires Safe(w) && (a.Create? || a.Revoke? || a.Retry? || a.Publish?)
    ensures Evolves(w.db, Do(w, a).db) && Rely(w.db, Do(w, a).db)
  {
    match a {
      case Create(t, name, id, secret) =>
        var r := CreateTx(w.db, t, name, id, secret);
        if r.Ok? { TxEvolves(w.db, r, t, id, name, secret); }
      case Revoke(t, id) =>
        var r := RevokeTx(w.db, t, id);
        if r.Ok? { TxEvolves(w.db, r, t, id, "", ""); }
      case Retry(t, id) =>
        var r := RetryTx(w.db, t, id);
        if r.Ok? { TxEvolves(w.db, r, t, id, "", ""); }
      case Publish(t, entity) =>
    }
  }

  lemma SettledEvolves(db: Db, id: KeyId, outcome: Outcome)
    requires DbOk(db) && id in db.keys && db.keys[id].Dirty()
    ensures var d := db.(keys := db.keys[id := Settled(db.keys[id], outcome)]); Evolves(db, d) && Rely(db, d)
  {
    SettleOk(db, id, outcome);
  }

  lemma SelfEvolves(db: Db)
    ensures Evolves(db, db) && Rely(db, db)
  {
  }

  lemma ProjectOneEvolves(w: World, n: NodeId, outcome: Outcome)
    requires Safe(w) && n in w.gateways && w.gateways[n].phase.Projecting? && w.gateways[n].phase.ids != []
    ensures var d := ProjectOne(w, n, outcome).db; Evolves(w.db, d) && Rely(w.db, d)
  {
    var p := w.gateways[n].phase;
    var id := p.ids[0];
    if !outcome.Unread? && id in w.db.keys && w.db.keys[id].tenantId == p.tenantId && w.db.keys[id].Dirty() {
      SettledEvolves(w.db, id, outcome);
    } else {
      SelfEvolves(w.db);
    }
  }

  lemma StepEvolves(w: World, a: Action)
    requires Safe(w)
    ensures Evolves(w.db, Do(w, a).db) && Rely(w.db, Do(w, a).db)
  {
    if a.Create? || a.Revoke? || a.Retry? || a.Publish? {
      TxStepEvolves(w, a);
    } else if a.ProjectNext? && a.node in w.gateways && w.gateways[a.node].phase.Projecting? && w.gateways[a.node].phase.ids != [] {
      ProjectOneEvolves(w, a.node, a.outcome);
    } else {
      assert Do(w, a).db == w.db;
      SelfEvolves(w.db);
    }
  }

  lemma {:induction false} RunEvolves(w: World, actions: seq<Action>)
    requires Safe(w)
    ensures Evolves(w.db, Run(w, actions).db) && Rely(w.db, Run(w, actions).db)
    decreases |actions|
  {
    if actions != [] {
      var last := |actions| - 1;
      RunEvolves(w, actions[..last]);
      RunSafe(w, actions[..last]);
      StepEvolves(Run(w, actions[..last]), actions[last]);
      EvolvesOn(w.db, Run(w, actions[..last]).db, Run(w, actions).db);
    }
  }

  lemma EvolvesOn(a: Db, b: Db, c: Db)
    requires Evolves(a, b) && Rely(a, b) && Evolves(b, c) && Rely(b, c)
    ensures Evolves(a, c) && Rely(a, c)
  {
  }

  lemma MemoryStable(a: Db, b: Db, gw: Gateway)
    requires Evolves(a, b) && MemoryOk(a, gw)
    ensures MemoryOk(b, gw)
  {
    if gw.phase.Restoring? {
      forall i | 0 <= i < |gw.phase.rows| ensures EntryOk(b, gw.phase.rows[i].id, ProjectedOf(gw.phase.rows[i])) {
        assert EntryOk(a, gw.phase.rows[i].id, ProjectedOf(gw.phase.rows[i]));
      }
    }
  }

  /** Every entry of `m'` is one of `m` or fits the tables. */
  ghost predicate Grown(db: Db, m: Snapshot, m': Snapshot) {
    forall id :: id in m' ==> (id in m && m'[id] == m[id]) || EntryOk(db, id, m'[id])
  }

  lemma ApplyGrows(db: Db, id: KeyId, m: Snapshot)
    requires DbOk(db) && id in db.keys
    ensures Grown(db, m, Apply(m, db.keys[id]))
  {
    assert KeyOk(db, id);
  }

  lemma ProjectOneGrows(w: World, n: NodeId, outcome: Outcome)
    requires DbOk(w.db) && n in w.gateways && w.gateways[n].phase.Projecting? && w.gateways[n].phase.ids != []
    ensures var w' := ProjectOne(w, n, outcome);
            Grown(w.db, w.store, w'.store) && Grown(w.db, w.gateways[n].cache, w'.gateways[n].cache) && !w'.gateways[n].phase.Restoring?
  {
    var id := w.gateways[n].phase.ids[0];
    if id in w.db.keys {
      ApplyGrows(w.db, id, w.store);
      ApplyGrows(w.db, id, w.gateways[n].cache);
    }
  }

  lemma RestoreOneGrows(w: World, n: NodeId, outcome: Outcome)
    requires n in w.gateways && w.gateways[n].phase.Restoring? && w.gateways[n].phase.rows != [] && MemoryOk(w.db, w.gateways[n])
    ensures var w' := RestoreOne(w, n, outcome);
            Grown(w.db, w.store, w'.store) && MemoryOk(w.db, w'.gateways[n])
  {
    var rows := w.gateways[n].phase.rows;
    assert EntryOk(w.db, rows[0].id, ProjectedOf(rows[0]));
  }

  lemma DyingGrows(w: World, n: NodeId, wrote: bool)
    requires FleetOk(w)
    ensures Grown(w.db, w.store, DoDie(w, n, wrote).store)
  {
    if n in w.gateways {
      var p := w.gateways[n].phase;
      if p.Restoring? && p.rows != [] {
        assert MemoryOk(w.db, w.gateways[n]);
        assert EntryOk(w.db, p.rows[0].id, ProjectedOf(p.rows[0]));
      } else if p.Projecting? && p.ids != [] && p.ids[0] in w.db.keys {
        ApplyGrows(w.db, p.ids[0], w.store);
      }
    }
  }

  lemma ListingOk(db: Db, t: TenantId, rows: seq<Key>)
    requires DbOk(db) && IsActiveListing(db, t, rows)
    ensures RowsOk(db, t, rows)
  {
  }

  /** Memories that fit the old tables fit the new ones. */
  lemma FleetEvolves(w: World, w': World)
    requires FleetOk(w) && Safe(w') && Evolves(w.db, w'.db) && Grown(w.db, w.store, w'.store)
    requires forall n :: n in w'.gateways ==> MemoryOk(w.db, w'.gateways[n])
    ensures FleetOk(w')
  {
    forall n | n in w'.gateways ensures MemoryOk(w'.db, w'.gateways[n]) {
      MemoryStable(w.db, w'.db, w'.gateways[n]);
    }
    assert SnapshotOk(w.db, w'.store);
  }

  /** A step of one gateway leaves the memory of the others alone. */
  lemma OneMemory(w: World, w': World, n: NodeId)
    requires FleetOk(w) && n in w.gateways && n in w'.gateways && w'.gateways == w.gateways[n := w'.gateways[n]]
    requires MemoryOk(w.db, w'.gateways[n])
    ensures forall x :: x in w'.gateways ==> MemoryOk(w.db, w'.gateways[x])
  {
  }

  lemma DeliverMemory(w: World, a: Action)
    requires FleetOk(w) && (a.Deliver? || a.ReadFails?) && a.node in w.gateways
    ensures Do(w, a).db == w.db && Do(w, a).store == w.store && Do(w, a).gateways == w.gateways[a.node := Do(w, a).gateways[a.node]]
    ensures MemoryOk(w.db, Do(w, a).gateways[a.node])
  {
    assert MemoryOk(w.db, w.gateways[a.node]);
  }

  lemma ReadActiveMemory(w: World, n: NodeId, rows: seq<Key>)
    requires FleetOk(w) && n in w.gateways
    ensures var w' := Do(w, ReadActive(n, rows));
            w'.db == w.db && w'.store == w.store && w'.gateways == w.gateways[n := w'.gateways[n]] && MemoryOk(w.db, w'.gateways[n])
  {
    var p := w.gateways[n].phase;
    assert MemoryOk(w.db, w.gateways[n]);
    if p.Reloading? && IsActiveListing(w.db, p.tenantId, rows) {
      ListingOk(w.db, p.tenantId, rows);
    }
  }

  lemma RestoreMemory(w: World, a: Action)
    requires FleetOk(w) && a.RestoreNext? && a.node in w.gateways
    ensures Do(w, a).db == w.db && Do(w, a).gateways == w.gateways[a.node := Do(w, a).gateways[a.node]]
    ensures MemoryOk(w.db, Do(w, a).gateways[a.node]) && Grown(w.db, w.store, Do(w, a).store)
  {
    var p := w.gateways[a.node].phase;
    assert MemoryOk(w.db, w.gateways[a.node]);
    if p.Restoring? && p.rows != [] {
      RestoreOneGrows(w, a.node, a.outcome);
    }
  }

  lemma ListedMemory(w: World, a: Action)
    requires FleetOk(w) && (a.ReadDirty? || a.Finish?) && a.node in w.gateways
    ensures Do(w, a).db == w.db && Do(w, a).store == w.store && Do(w, a).gateways == w.gateways[a.node := Do(w, a).gateways[a.node]]
    ensures MemoryOk(w.db, Do(w, a).gateways[a.node])
  {
    assert MemoryOk(w.db, w.gateways[a.node]) && PhaseOk(w.db, w.gateways[a.node]);
  }

  lemma ProjectMemory(w: World, a: Action)
    requires FleetOk(w) && a.ProjectNext? && a.node in w.gateways
    ensures Do(w, a).gateways == w.gateways[a.node := Do(w, a).gateways[a.node]]
    ensures MemoryOk(w.db, Do(w, a).gateways[a.node]) && Grown(w.db, w.store, Do(w, a).store)
  {
    var p := w.gateways[a.node].phase;
    assert MemoryOk(w.db, w.gateways[a.node]);
    if p.Projecting? && p.ids != [] {
      ProjectOneGrows(w, a.node, a.outcome);
    }
  }

  lemma GatewayStepFleet(w: World, a: Action)
    requires FleetOk(w) && !a.Create? && !a.Revoke? && !a.Retry? && !a.Publish? && !a.Boot? && !a.Die?
    requires a.node in w.gateways && Safe(Do(w, a)) && Evolves(w.db, Do(w, a).db)
    ensures FleetOk(Do(w, a))
  {
    var w' := Do(w, a);
    if a.ProjectNext? { ProjectMemory(w, a); }
    else if a.RestoreNext? { RestoreMemory(w, a); }
    else if a.ReadDirty? || a.Finish? { ListedMemory(w, a); }
    else if a.ReadActive? { ReadActiveMemory(w, a.node, a.rows); }
    else { DeliverMemory(w, a); }
    OneMemory(w, w', a.node);
    FleetEvolves(w, w');
  }

  lemma BootFleet(w: World, n: NodeId, loaded: set<KeyId>)
    requires FleetOk(w) && Safe(Do(w, Boot(n, loaded)))
    ensures FleetOk(Do(w, Boot(n, loaded)))
  {
  }

  lemma DieFleet(w: World, n: NodeId, wrote: bool)
    requires FleetOk(w) && Safe(DoDie(w, n, wrote))
    ensures FleetOk(DoDie(w, n, wrote))
  {
    DyingGrows(w, n, wrote);
    var w' := DoDie(w, n, wrote);
    assert w'.db == w.db && Grown(w.db, w.store, w'.store);
    assert forall x :: x in w'.gateways ==> x in w.gateways && w'.gateways[x] == w.gateways[x];
  }

  lemma StepFleet(w: World, a: Action)
    requires FleetOk(w)
    ensures FleetOk(Do(w, a))
  {
    StepSafe(w, a);
    StepEvolves(w, a);
    if a.Create? || a.Revoke? || a.Retry? || a.Publish? {
      assert Do(w, a) == w.(db := Do(w, a).db);
      FleetEvolves(w, Do(w, a));
    } else if a.Boot? {
      BootFleet(w, a.node, a.loaded);
    } else if a.Die? {
      DieFleet(w, a.node, a.wrote);
    } else if a.node in w.gateways {
      GatewayStepFleet(w, a);
    }
  }

  lemma {:induction false} RunFleet(w: World, actions: seq<Action>)
    requires FleetOk(w)
    ensures FleetOk(Run(w, actions))
    decreases |actions|
  {
    if actions != [] {
      var last := |actions| - 1;
      RunFleet(w, actions[..last]);
      StepFleet(Run(w, actions[..last]), actions[last]);
    }
  }

  // ---------- the statements about runs ----------

  /**
   Every run, any number of gateways, any failures: an entry of the store or of any cache belongs to a key of the
   same tenant and is not ahead of it; if it has the key's generation, the key should be active and the entry is the
   key as it is now. So a gateway can only be behind, and one number per key tells whether it is.
   */
  lemma {:induction false} EntriesAreNeverAhead(tenants: set<TenantId>, actions: seq<Action>)
    ensures var w := Run(Start(tenants), actions);
            && (forall id :: id in w.store ==> EntryOk(w.db, id, w.store[id]))
            && (forall n, id :: n in w.gateways && id in w.gateways[n].cache ==> EntryOk(w.db, id, w.gateways[n].cache[id]))
  {
    RunFleet(Start(tenants), actions);
    var w := Run(Start(tenants), actions);
    forall n, id | n in w.gateways && id in w.gateways[n].cache ensures EntryOk(w.db, id, w.gateways[n].cache[id]) {
      assert MemoryOk(w.db, w.gateways[n]);
    }
  }

  /** The cache holds exactly the desired-active keys of the tenant, as they are now. */
  ghost predicate Exact(db: Db, t: TenantId, cache: Snapshot) {
    forall id ::
      && (id in cache && cache[id].tenantId == t <==>
            id in db.keys && db.keys[id].tenantId == t && db.keys[id].desiredState.DesiredActive?)
      && (id in cache && cache[id].tenantId == t ==> cache[id] == ProjectedOf(db.keys[id]))
  }

  /** What a gateway can compare without looking at names or secrets. */
  ghost predicate GenerationsMatch(db: Db, t: TenantId, cache: Snapshot) {
    forall id :: id in db.keys && db.keys[id].tenantId == t ==> KnownAt(db.keys[id], cache)
  }

  /** A key that should be active is cached at its generation; a revoked one is not cached. */
  predicate KnownAt(k: Key, cache: Snapshot) {
    match k.desiredState
    case DesiredActive => k.id in cache && cache[k.id].generation == k.desiredGeneration
    case DesiredRevoked => k.id !in cache
  }

  lemma KnownAtAgrees(db: Db, id: KeyId, cache: Snapshot)
    requires DbOk(db) && SnapshotOk(db, cache) && id in db.keys && !db.keys[id].Dirty()
    ensures Agrees(db.keys[id], cache) <==> KnownAt(db.keys[id], cache)
  {
    assert KeyOk(db, id);
  }

  /**
   For every run with any number of gateways, and every gateway of it: its cache is exact for a tenant iff
   the generations match. At a caught-up fence no row of the tenant is outstanding, so nothing will be sent to
   a gateway that does not match.
   */
  lemma {:induction false} CacheExactIff(tenants: set<TenantId>, actions: seq<Action>, n: NodeId, t: TenantId)
    requires n in Run(Start(tenants), actions).gateways
    ensures var w := Run(Start(tenants), actions);
            && (Exact(w.db, t, w.gateways[n].cache) <==> GenerationsMatch(w.db, t, w.gateways[n].cache))
            && (w.gateways[n].Fence(t) == w.db.Current(t) ==>
                  forall id :: id in w.db.keys && w.db.keys[id].tenantId == t ==> !w.db.keys[id].Dirty())
  {
    RunFleet(Start(tenants), actions);
    var w := Run(Start(tenants), actions);
    ExactIff(w, n, t);
    assert GatewayOk(w.db, w.gateways[n]);
    forall id | id in w.db.keys && w.db.keys[id].tenantId == t && w.gateways[n].Fence(t) == w.db.Current(t)
      ensures !w.db.keys[id].Dirty()
    {
      assert KeyOk(w.db, id);
    }
  }

  lemma ExactIff(w: World, n: NodeId, t: TenantId)
    requires FleetOk(w) && n in w.gateways
    ensures Exact(w.db, t, w.gateways[n].cache) <==> GenerationsMatch(w.db, t, w.gateways[n].cache)
  {
    var cache := w.gateways[n].cache;
    assert MemoryOk(w.db, w.gateways[n]);
    if Exact(w.db, t, cache) {
      forall id | id in w.db.keys && w.db.keys[id].tenantId == t ensures KnownAt(w.db.keys[id], cache) {
        assert KeyOk(w.db, id);
        assert id in cache ==> EntryOk(w.db, id, cache[id]);
      }
    }
    if GenerationsMatch(w.db, t, cache) {
      forall id | id in w.db.keys && w.db.keys[id].tenantId == t
        ensures id in cache <==> w.db.keys[id].desiredState.DesiredActive?
        ensures id in cache ==> cache[id] == ProjectedOf(w.db.keys[id])
      {
        assert KeyOk(w.db, id) && KnownAt(w.db.keys[id], cache);
        assert id in cache ==> EntryOk(w.db, id, cache[id]);
      }
    }
  }

  // ---------- who projected last ----------

  predicate SameEntry(a: Snapshot, b: Snapshot, id: KeyId) {
    (id in a <==> id in b) && (id in a ==> a[id] == b[id])
  }

  /** Gateway `n` runs and has restored the tenant of the key, whose row is up to date. */
  ghost predicate Heard(w: World, n: NodeId, id: KeyId) {
    && n in w.gateways && id in w.db.keys && !w.db.keys[id].Dirty()
    && w.db.keys[id].tenantId in w.gateways[n].restored
  }

  ghost predicate Ends(a: Action, n: NodeId) {
    (a.Boot? || a.Die?) && a.node == n
  }

  lemma RestoringKeepsEntry(w: World, n: NodeId, id: KeyId, outcome: Outcome)
    requires FleetOk(w) && Heard(w, n, id) && w.gateways[n].phase.Restoring? && w.gateways[n].phase.rows != []
    ensures var gw := RestoreOne(w, n, outcome).gateways[n];
            gw.restored == w.gateways[n].restored && SameEntry(w.gateways[n].cache, gw.cache, id)
  {
    var row := w.gateways[n].phase.rows[0];
    assert MemoryOk(w.db, w.gateways[n]);
    assert row.tenantId == w.gateways[n].phase.tenantId && EntryOk(w.db, row.id, ProjectedOf(row));
  }

  lemma ProjectingKeepsEntry(w: World, n: NodeId, id: KeyId, outcome: Outcome)
    requires FleetOk(w) && Heard(w, n, id) && w.gateways[n].phase.Projecting? && w.gateways[n].phase.ids != []
    ensures var gw := ProjectOne(w, n, outcome).gateways[n];
            gw.restored == w.gateways[n].restored && SameEntry(w.gateways[n].cache, gw.cache, id)
  {
    var x := w.gateways[n].phase.ids[0];
    if x in w.db.keys { assert KeyOk(w.db, x); }
  }

  lemma ReadingKeepsEntry(w: World, n: NodeId, a: Action)
    requires a.Deliver? || a.ReadFails? || a.ReadActive? || a.ReadDirty? || a.Finish?
    requires n in w.gateways && a.node == n
    ensures var gw := w.gateways[n]; var w' := Do(w, a);
            n in w'.gateways && w'.gateways[n].restored == gw.restored && w'.gateways[n].cache == gw.cache
  {
  }

  lemma OwnStepKeepsEntry(w: World, n: NodeId, id: KeyId, a: Action)
    requires FleetOk(w) && Heard(w, n, id)
    requires !a.Create? && !a.Revoke? && !a.Retry? && !a.Publish? && !a.Boot? && !a.Die? && a.node == n
    ensures var w' := Do(w, a);
            n in w'.gateways && w.gateways[n].restored <= w'.gateways[n].restored
            && SameEntry(w.gateways[n].cache, w'.gateways[n].cache, id)
  {
    var p := w.gateways[n].phase;
    if a.RestoreNext? {
      if p.Restoring? && p.rows != [] { RestoringKeepsEntry(w, n, id, a.outcome); }
    } else if a.ProjectNext? {
      if p.Projecting? && p.ids != [] { ProjectingKeepsEntry(w, n, id, a.outcome); }
    } else {
      ReadingKeepsEntry(w, n, a);
    }
  }

  lemma StepKeepsEntry(w: World, n: NodeId, id: KeyId, a: Action)
    requires FleetOk(w) && Heard(w, n, id) && !Ends(a, n)
    ensures var w' := Do(w, a);
            n in w'.gateways && w.gateways[n].restored <= w'.gateways[n].restored
            && SameEntry(w.gateways[n].cache, w'.gateways[n].cache, id)
  {
    if !a.Create? && !a.Revoke? && !a.Retry? && !a.Publish? && !a.Boot? && !a.Die? && a.node == n {
      OwnStepKeepsEntry(w, n, id, a);
    } else {
      OtherStepLeaves(w, n, a);
    }
  }

  lemma OtherStepLeaves(w: World, n: NodeId, a: Action)
    requires n in w.gateways
    requires a.Create? || a.Revoke? || a.Retry? || a.Publish? || a.node != n
    ensures n in Do(w, a).gateways && Do(w, a).gateways[n] == w.gateways[n]
  {
  }

  lemma StillClean(a: Db, b: Db, c: Db, id: KeyId)
    requires Evolves(a, b) && Evolves(b, c) && id in a.keys && id in c.keys
    requires c.keys[id].desiredGeneration == a.keys[id].desiredGeneration && !a.keys[id].Dirty()
    ensures id in b.keys && b.keys[id].desiredGeneration == a.keys[id].desiredGeneration
    ensures !b.keys[id].Dirty() && !c.keys[id].Dirty() && b.keys[id].tenantId == a.keys[id].tenantId == c.keys[id].tenantId
  {
    assert KeyProgress(a.keys[id], b.keys[id]) && KeyProgress(b.keys[id], c.keys[id]);
  }

  /** The gateway goes on from `w` to `w'` with the entry it had. */
  ghost predicate Unmoved(w: World, w': World, n: NodeId, id: KeyId)
    requires n in w.gateways
  {
    Heard(w', n, id) && w.gateways[n].restored <= w'.gateways[n].restored && SameEntry(w.gateways[n].cache, w'.gateways[n].cache, id)
  }

  lemma UnmovedStep(w: World, mid: World, n: NodeId, id: KeyId, a: Action)
    requires n in w.gateways && FleetOk(mid) && Unmoved(w, mid, n, id) && !Ends(a, n)
    requires id in Do(mid, a).db.keys && !Do(mid, a).db.keys[id].Dirty()
    requires Do(mid, a).db.keys[id].tenantId == mid.db.keys[id].tenantId
    ensures Unmoved(w, Do(mid, a), n, id)
  {
    StepKeepsEntry(mid, n, id, a);
  }

  lemma GenerationBetween(w: World, id: KeyId, prefix: seq<Action>, a: Action)
    requires FleetOk(w) && id in w.db.keys && !w.db.keys[id].Dirty()
    requires var w' := Do(Run(w, prefix), a); id in w'.db.keys && w'.db.keys[id].desiredGeneration == w.db.keys[id].desiredGeneration
    ensures var mid, w' := Run(w, prefix), Do(Run(w, prefix), a);
            && FleetOk(mid) && id in mid.db.keys && mid.db.keys[id].desiredGeneration == w.db.keys[id].desiredGeneration
            && !w'.db.keys[id].Dirty() && w'.db.keys[id].tenantId == mid.db.keys[id].tenantId
  {
    RunFleet(w, prefix);
    RunEvolves(w, prefix);
    StepEvolves(Run(w, prefix), a);
    StillClean(w.db, Run(w, prefix).db, Do(Run(w, prefix), a).db, id);
  }

  /** Nothing tells a gateway about a row that is up to date, however long it runs. */
  lemma {:induction false} EntryStays(w: World, n: NodeId, id: KeyId, after: seq<Action>)
    requires FleetOk(w) && Heard(w, n, id)
    requires forall i :: 0 <= i < |after| ==> !Ends(after[i], n)
    requires var w' := Run(w, after); id in w'.db.keys && w'.db.keys[id].desiredGeneration == w.db.keys[id].desiredGeneration
    ensures Unmoved(w, Run(w, after), n, id)
    decreases |after|
  {
    if after != [] {
      var last := |after| - 1;
      var prefix, a := after[..last], after[last];
      assert Run(w, after) == Do(Run(w, prefix), a);
      GenerationBetween(w, id, prefix, a);
      EntryStays(w, n, id, prefix);
      UnmovedStep(w, Run(w, prefix), n, id, a);
    }
  }

  /** The key as a projection would write it does not change while its generation does not. */
  lemma SameGenerationSameKey(a: Db, b: Db, id: KeyId, cache: Snapshot, cache': Snapshot)
    requires DbOk(a) && Evolves(a, b) && id in a.keys && a.keys[id].desiredGeneration == b.keys[id].desiredGeneration
    requires SameEntry(cache, cache', id)
    ensures KnownAt(a.keys[id], cache) <==> KnownAt(b.keys[id], cache')
  {
    assert KeyOk(a, id);
  }

  /**
   Whose projection was last decides. Gateway `m` projects a key that waits; gateway `n` (the same one or another)
   has restored the tenant. However the system goes on while `n` is not restarted and the key is not changed again,
   the cache of `n` agrees with the key iff `n` did the projection, or knew the key at this generation before.
   */
  lemma {:induction false} LastProjectorDecides(tenants: set<TenantId>, before: seq<Action>, m: NodeId, after: seq<Action>, n: NodeId, id: KeyId)
    requires var w := Run(Start(tenants), before);
             && n in w.gateways && m in w.gateways
             && w.gateways[m].phase.Projecting? && w.gateways[m].phase.ids != [] && w.gateways[m].phase.ids[0] == id
             && id in w.db.keys && w.db.keys[id].Dirty() && w.db.keys[id].tenantId == w.gateways[m].phase.tenantId
             && w.db.keys[id].tenantId in w.gateways[n].restored
    requires forall i :: 0 <= i < |after| ==> !Ends(after[i], n)
    requires var w := Run(Start(tenants), before);
             var w' := Run(Start(tenants), before + [ProjectNext(m, Written(true))] + after);
             id in w'.db.keys && w'.db.keys[id].desiredGeneration == w.db.keys[id].desiredGeneration
    ensures var w := Run(Start(tenants), before);
            var w' := Run(Start(tenants), before + [ProjectNext(m, Written(true))] + after);
            n in w'.gateways &&
            (Agrees(w'.db.keys[id], w'.gateways[n].cache) <==> m == n || KnownAt(w.db.keys[id], w.gateways[n].cache))
  {
    RunFleet(Start(tenants), before);
    var w := Run(Start(tenants), before);
    var w1 := Do(w, ProjectNext(m, Written(true)));
    RunAround(Start(tenants), before, ProjectNext(m, Written(true)), after);
    JustProjected(w, m, n, id);
    RunFleet(w1, after);
    RunEvolves(w1, after);
    EntryStays(w1, n, id, after);
    var w' := Run(w1, after);
    SameGenerationSameKey(w1.db, w'.db, id, w1.gateways[n].cache, w'.gateways[n].cache);
    assert MemoryOk(w'.db, w'.gateways[n]);
    KnownAtAgrees(w'.db, id, w'.gateways[n].cache);
  }

  /** Right after the projection, whether or not gateway `n` has restored the tenant. */
  lemma JustProjected(w: World, m: NodeId, n: NodeId, id: KeyId)
    requires FleetOk(w) && m in w.gateways && n in w.gateways
    requires w.gateways[m].phase.Projecting? && w.gateways[m].phase.ids != [] && w.gateways[m].phase.ids[0] == id
    requires id in w.db.keys && w.db.keys[id].Dirty() && w.db.keys[id].tenantId == w.gateways[m].phase.tenantId
    ensures var w1 := Do(w, ProjectNext(m, Written(true)));
            && FleetOk(w1) && n in w1.gateways && id in w1.db.keys && !w1.db.keys[id].Dirty()
            && w1.gateways[n].restored == w.gateways[n].restored && w1.db.keys[id].tenantId == w.db.keys[id].tenantId
            && w1.db.keys[id].desiredGeneration == w.db.keys[id].desiredGeneration
            && (KnownAt(w1.db.keys[id], w1.gateways[n].cache) <==> m == n || KnownAt(w.db.keys[id], w.gateways[n].cache))
  {
    StepFleet(w, ProjectNext(m, Written(true)));
    assert KeyOk(w.db, id);
  }

  /**
   A caught-up gateway that is right for a tenant stays right and one that is wrong stays wrong, whatever the others
   do, until it is restarted or the tenant is changed again.
   */
  lemma {:induction false} CaughtUpStaysAsItIs(tenants: set<TenantId>, before: seq<Action>, after: seq<Action>, n: NodeId, t: TenantId)
    requires var w := Run(Start(tenants), before);
             n in w.gateways && w.gateways[n].Fence(t) == w.db.Current(t) > 0
    requires forall i :: 0 <= i < |after| ==> !Ends(after[i], n)
    requires Run(Start(tenants), before + after).db.Current(t) == Run(Start(tenants), before).db.Current(t)
    ensures var w, w' := Run(Start(tenants), before), Run(Start(tenants), before + after);
            n in w'.gateways && (Exact(w'.db, t, w'.gateways[n].cache) <==> Exact(w.db, t, w.gateways[n].cache))
  {
    RunFleet(Start(tenants), before);
    RunConcat(Start(tenants), before, after);
    var w := Run(Start(tenants), before);
    var w' := Run(w, after);
    RunFleet(w, after);
    RunEvolves(w, after);
    StaysUp(w, n, after);
    assert MemoryOk(w.db, w.gateways[n]);
    forall id | id in w'.db.keys && w'.db.keys[id].tenantId == t
      ensures id in w.db.keys && w.db.keys[id].tenantId == t
      ensures KnownAt(w.db.keys[id], w.gateways[n].cache) <==> KnownAt(w'.db.keys[id], w'.gateways[n].cache)
    {
      UnchangedKey(w, n, t, id, after);
    }
    ExactIff(w, n, t);
    ExactIff(w', n, t);
  }

  lemma UnchangedKey(w: World, n: NodeId, t: TenantId, id: KeyId, after: seq<Action>)
    requires FleetOk(w) && n in w.gateways && w.gateways[n].Fence(t) == w.db.Current(t) > 0
    requires forall i :: 0 <= i < |after| ==> !Ends(after[i], n)
    requires var w' := Run(w, after); w'.db.Current(t) == w.db.Current(t) && id in w'.db.keys && w'.db.keys[id].tenantId == t
    ensures id in w.db.keys && w.db.keys[id].tenantId == t
    ensures n in Run(w, after).gateways
    ensures KnownAt(w.db.keys[id], w.gateways[n].cache) <==> KnownAt(Run(w, after).db.keys[id], Run(w, after).gateways[n].cache)
  {
    var w' := Run(w, after);
    RunFleet(w, after);
    RunEvolves(w, after);
    assert KeyOk(w'.db, id);
    assert id in w.db.keys && w.db.keys[id].desiredGeneration == w'.db.keys[id].desiredGeneration;
    assert KeyOk(w.db, id) && GatewayOk(w.db, w.gateways[n]) && MemoryOk(w.db, w.gateways[n]);
    EntryStays(w, n, id, after);
    SameGenerationSameKey(w.db, w'.db, id, w.gateways[n].cache, w'.gateways[n].cache);
  }

  lemma StepStaysUp(w: World, n: NodeId, a: Action)
    requires n in w.gateways && !Ends(a, n)
    ensures n in Do(w, a).gateways
  {
  }

  lemma {:induction false} StaysUp(w: World, n: NodeId, after: seq<Action>)
    requires n in w.gateways && forall i :: 0 <= i < |after| ==> !Ends(after[i], n)
    ensures n in Run(w, after).gateways
    decreases |after|
  {
    if after != [] {
      var last := |after| - 1;
      StaysUp(w, n, after[..last]);
      StepStaysUp(Run(w, after[..last]), n, after[last]);
    }
  }
}
