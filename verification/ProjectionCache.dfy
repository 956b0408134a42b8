/**
 What the runtime cache of a gateway holds. With one gateway process at a time (it may die and be started
 again without bound) a fence that has reached the tenant's generation means that the cache holds exactly the
 keys that should be active. With two gateways this is false, and `TwoGatewaysDisagree` shows how.
 */
module ProjectionCache {
  import opened Common
  import opened ControlPlane
  import opened Projection
  import opened ProjectionSafety

  /** A row that is up to date is in the snapshot, as it is now, iff it should be active. */
  predicate Agrees(k: Key, m: Snapshot) {
    !k.Dirty() ==>
      if k.desiredState.DesiredActive? then k.id in m && m[k.id] == ProjectedOf(k) else k.id !in m
  }

  ghost predicate Owned(db: Db, m: Snapshot) {
    forall id :: id in m ==> id in db.keys && m[id].tenantId == db.keys[id].tenantId
  }

  ghost predicate StoreOk(w: World) {
    Owned(w.db, w.store) && forall id :: id in w.db.keys ==> Agrees(w.db.keys[id], w.store)
  }

  ghost predicate CacheOk(db: Db, gw: Gateway) {
    && Owned(db, gw.cache)
    && (forall id :: id in db.keys && !db.keys[id].Dirty() && db.keys[id].desiredState.DesiredRevoked? ==> id !in gw.cache)
    && (forall id :: id in db.keys && db.keys[id].tenantId in gw.restored ==> Agrees(db.keys[id], gw.cache))
    && (forall t :: gw.Fence(t) > 0 ==> t in gw.restored)
    && (gw.phase.Restoring? ==> RestoreOk(db, gw, gw.phase.tenantId, gw.phase.rows))
  }

  /** Every clean active row of the tenant is in the cache already or still in the snapshot to be replayed. */
  ghost predicate RestoreOk(db: Db, gw: Gateway, t: TenantId, rows: seq<Key>) {
    && (forall i :: 0 <= i < |rows| ==> ReplayOk(db, t, rows[i]))
    && (forall id :: id in db.keys && CleanActive(db.keys[id], t) ==>
          (id in gw.cache && gw.cache[id] == ProjectedOf(db.keys[id])) || db.keys[id] in rows)
  }

  /** Replaying a snapshot row is harmless: its key has not changed, or is dirty and will be projected again. */
  ghost predicate ReplayOk(db: Db, t: TenantId, row: Key) {
    && row.id in db.keys && db.keys[row.id].tenantId == row.tenantId == t && row.desiredState.DesiredActive?
    && (db.keys[row.id].Dirty() || db.keys[row.id] == row)
  }

  ghost predicate CacheSafe(w: World, n: NodeId) {
    && Safe(w)
    && StoreOk(w)
    && w.gateways.Keys <= {n}
    && (n in w.gateways ==> CacheOk(w.db, w.gateways[n]))
  }

  /** A control-plane transaction changes rows only by making them dirty. */
  ghost predicate Dirties(a: Db, b: Db) {
    forall id :: (id in a.keys ==> id in b.keys && b.keys[id].tenantId == a.keys[id].tenantId)
                 && (id in b.keys ==> b.keys[id].Dirty() || (id in a.keys && a.keys[id] == b.keys[id]))
  }

  lemma CacheStable(w: World, db: Db, n: NodeId)
    requires CacheSafe(w, n) && Safe(w.(db := db)) && Dirties(w.db, db)
    ensures CacheSafe(w.(db := db), n)
  {
    if n in w.gateways {
      var gw := w.gateways[n];
      if gw.phase.Restoring? {
        forall i | 0 <= i < |gw.phase.rows| ensures ReplayOk(db, gw.phase.tenantId, gw.phase.rows[i]) {
          assert ReplayOk(w.db, gw.phase.tenantId, gw.phase.rows[i]);
        }
        assert RestoreOk(db, gw, gw.phase.tenantId, gw.phase.rows);
      }
      assert CacheOk(db, gw);
    }
  }

  lemma TxDirties(db: Db, r: Result<(Db, Mutation), TxError>, t: TenantId, keyId: KeyId, name: string, secret: string)
    requires DbOk(db) && r.Ok?
    requires r == CreateTx(db, t, name, keyId, secret) || r == RevokeTx(db, t, keyId) || r == RetryTx(db, t, keyId)
    ensures Dirties(db, r.value.0)
  {
    if r == CreateTx(db, t, name, keyId, secret) {
      CreateTxOk(db, t, name, keyId, secret);
    } else {
      MutateTxOk(db, t, keyId, r);
    }
  }

  lemma TxCacheSafe(w: World, n: NodeId, a: Action)
    requires CacheSafe(w, n) && (a.Create? || a.Revoke? || a.Retry? || a.Publish?)
    ensures CacheSafe(Do(w, a), n)
  {
    TxSafe(w, a);
    var w' := Do(w, a);
    assert w' == w.(db := w'.db);
    match a {
      case Create(t, name, id, secret) =>
        var r := CreateTx(w.db, t, name, id, secret);
        if r.Ok? { TxDirties(w.db, r, t, id, name, secret); }
      case Revoke(t, id) =>
        var r := RevokeTx(w.db, t, id);
        if r.Ok? { TxDirties(w.db, r, t, id, "", ""); }
      case Retry(t, id) =>
        var r := RetryTx(w.db, t, id);
        if r.Ok? { TxDirties(w.db, r, t, id, "", ""); }
      case Publish(t, entity) =>
    }
    CacheStable(w, w'.db, n);
  }

  /** `m'` differs from `m` at most at `id`. */
  ghost predicate SameElsewhere(m: Snapshot, m': Snapshot, id: KeyId) {
    forall x :: x != id ==> (x in m' <==> x in m) && (x in m' ==> m'[x] == m[x])
  }

  /** Replace one row and one entry: rows that agreed with the snapshot still do. */
  lemma AgreeElsewhere(db: Db, row: Key, m: Snapshot, m': Snapshot)
    requires DbOk(db) && row.id in db.keys && SameElsewhere(m, m', row.id)
    requires Agrees(row, m')
    ensures forall x :: x in db.keys && Agrees(db.keys[x], m) ==> Agrees(db.keys[row.id := row][x], m')
  {
  }

  lemma SettledAgrees(k: Key, outcome: Outcome, m: Snapshot)
    requires k.Dirty() && (outcome == Written(true) ==> m == Apply(m, k))
    ensures Agrees(Settled(k, outcome), m)
  {
  }

  lemma ApplyElsewhere(m: Snapshot, k: Key)
    ensures SameElsewhere(m, Apply(m, k), k.id)
  {
  }

  lemma ApplyOwned(db: Db, row: Key, k: Key, m: Snapshot)
    requires Owned(db, m) && row.tenantId == k.tenantId && row.id == k.id
    ensures Owned(db.(keys := db.keys[k.id := row]), Apply(m, k))
    ensures k.id in db.keys && db.keys[k.id] == k ==> Owned(db.(keys := db.keys[k.id := row]), m)
  {
  }

  /** Settling one dirty row together with its entry of a snapshot, the store's or the cache's. */
  lemma SettleSnapshot(db: Db, id: KeyId, outcome: Outcome, m: Snapshot, m': Snapshot)
    requires DbOk(db) && id in db.keys && db.keys[id].Dirty() && Owned(db, m)
    requires m' == m || m' == Apply(m, db.keys[id])
    requires outcome == Written(true) ==> m' == Apply(m, db.keys[id])
    ensures var keys := db.keys[id := Settled(db.keys[id], outcome)];
            Owned(db.(keys := keys), m') && (forall x :: x in keys && Agrees(db.keys[x], m) ==> Agrees(keys[x], m'))
  {
    var k, row := db.keys[id], Settled(db.keys[id], outcome);
    assert KeyOk(db, id);
    assert row.id == id && row.tenantId == k.tenantId;
    SettledAgrees(k, outcome, m');
    ApplyElsewhere(m, k);
    ApplyOwned(db, row, k, m);
    AgreeElsewhere(db, row, m, m');
  }

  lemma ProjectOneStore(w: World, n: NodeId, outcome: Outcome)
    requires DbOk(w.db) && StoreOk(w) && n in w.gateways && w.gateways[n].phase.Projecting? && w.gateways[n].phase.ids != []
    ensures StoreOk(ProjectOne(w, n, outcome))
  {
    var p := w.gateways[n].phase;
    var id := p.ids[0];
    if !outcome.Unread? && id in w.db.keys && w.db.keys[id].tenantId == p.tenantId && w.db.keys[id].Dirty() {
      SettleSnapshot(w.db, id, outcome, w.store, ProjectOne(w, n, outcome).store);
    }
  }

  lemma RevokedGone(db: Db, row: Key, m: Snapshot, m': Snapshot)
    requires DbOk(db) && row.id in db.keys && SameElsewhere(m, m', row.id) && Agrees(row, m')
    requires forall id :: id in db.keys && !db.keys[id].Dirty() && db.keys[id].desiredState.DesiredRevoked? ==> id !in m
    ensures var keys := db.keys[row.id := row];
            forall id :: id in keys && !keys[id].Dirty() && keys[id].desiredState.DesiredRevoked? ==> id !in m'
  {
  }

  /** One row and its cache entry are replaced together. */
  lemma CacheReplaced(db: Db, gw: Gateway, row: Key, cache: Snapshot, phase: Phase)
    requires DbOk(db) && CacheOk(db, gw) && row.id in db.keys && row.tenantId == db.keys[row.id].tenantId && !phase.Restoring?
    requires SameElsewhere(gw.cache, cache, row.id) && Agrees(row, cache)
    requires Owned(db.(keys := db.keys[row.id := row]), cache)
    ensures CacheOk(db.(keys := db.keys[row.id := row]), gw.(cache := cache, phase := phase))
  {
    AgreeElsewhere(db, row, gw.cache, cache);
    RevokedGone(db, row, gw.cache, cache);
  }

  lemma SettledKeepsOwner(k: Key, outcome: Outcome)
    ensures Settled(k, outcome).id == k.id && Settled(k, outcome).tenantId == k.tenantId
  {
  }

  lemma CacheSettled(db: Db, gw: Gateway, id: KeyId, outcome: Outcome, cache: Snapshot, phase: Phase)
    requires DbOk(db) && CacheOk(db, gw) && id in db.keys && db.keys[id].Dirty() && !phase.Restoring?
    requires cache == gw.cache || cache == Apply(gw.cache, db.keys[id])
    requires outcome == Written(true) ==> cache == Apply(gw.cache, db.keys[id])
    ensures CacheOk(db.(keys := db.keys[id := Settled(db.keys[id], outcome)]), gw.(cache := cache, phase := phase))
  {
    var k := db.keys[id];
    assert KeyOk(db, id);
    SettledKeepsOwner(k, outcome);
    SettledAgrees(k, outcome, cache);
    ApplyElsewhere(gw.cache, k);
    ApplyOwned(db, Settled(k, outcome), k, gw.cache);
    CacheReplaced(db, gw, Settled(k, outcome), cache, phase);
  }

  lemma ProjectOneCache(w: World, n: NodeId, outcome: Outcome)
    requires DbOk(w.db) && n in w.gateways && CacheOk(w.db, w.gateways[n])
    requires w.gateways[n].phase.Projecting? && w.gateways[n].phase.ids != []
    ensures CacheOk(ProjectOne(w, n, outcome).db, ProjectOne(w, n, outcome).gateways[n])
  {
    var p := w.gateways[n].phase;
    var id := p.ids[0];
    if !outcome.Unread? && id in w.db.keys && w.db.keys[id].tenantId == p.tenantId && w.db.keys[id].Dirty() {
      var gw := ProjectOne(w, n, outcome).gateways[n];
      CacheSettled(w.db, w.gateways[n], id, outcome, gw.cache, gw.phase);
    }
  }

  lemma ReplayedAgrees(db: Db, t: TenantId, row: Key, m: Snapshot)
    requires DbOk(db) && ReplayOk(db, t, row)
    ensures Agrees(db.keys[row.id], m[row.id := ProjectedOf(row)])
    ensures db.keys[row.id].id == row.id
  {
  }

  lemma RestoreOneStore(w: World, n: NodeId, k: Key, t: TenantId)
    requires CacheSafe(w, n) && ReplayOk(w.db, t, k)
    ensures StoreOk(w.(store := w.store[k.id := ProjectedOf(k)]))
  {
  }

  lemma RestoreOneCache(w: World, n: NodeId)
    requires CacheSafe(w, n) && n in w.gateways && w.gateways[n].phase.Restoring? && w.gateways[n].phase.rows != []
    ensures var gw := w.gateways[n]; var k := gw.phase.rows[0];
            CacheOk(w.db, gw.(cache := gw.cache[k.id := ProjectedOf(k)], phase := gw.phase.(rows := gw.phase.rows[1..])))
  {
    var gw := w.gateways[n];
    var p := gw.phase;
    var k := p.rows[0];
    var cache := gw.cache[k.id := ProjectedOf(k)];
    assert ReplayOk(w.db, p.tenantId, k);
    ReplayedAgrees(w.db, p.tenantId, k, gw.cache);
    AgreeElsewhere(w.db, w.db.keys[k.id], gw.cache, cache);
    RevokedGone(w.db, w.db.keys[k.id], gw.cache, cache);
    assert w.db.keys[k.id := w.db.keys[k.id]] == w.db.keys;
    RestoreShrinks(w.db, gw, cache);
  }

  lemma RestoreShrinks(db: Db, gw: Gateway, cache: Snapshot)
    requires DbOk(db) && gw.phase.Restoring? && gw.phase.rows != []
    requires RestoreOk(db, gw, gw.phase.tenantId, gw.phase.rows)
    requires cache == gw.cache[gw.phase.rows[0].id := ProjectedOf(gw.phase.rows[0])]
    ensures var rows := gw.phase.rows[1..];
            RestoreOk(db, gw.(cache := cache, phase := gw.phase.(rows := rows)), gw.phase.tenantId, rows)
  {
  }

  lemma RestoreOneCacheSafe(w: World, n: NodeId, outcome: Outcome)
    requires CacheSafe(w, n) && n in w.gateways && w.gateways[n].phase.Restoring? && w.gateways[n].phase.rows != []
    ensures StoreOk(RestoreOne(w, n, outcome)) && CacheOk(w.db, RestoreOne(w, n, outcome).gateways[n])
  {
    var p := w.gateways[n].phase;
    assert ReplayOk(w.db, p.tenantId, p.rows[0]);
    RestoreOneStore(w, n, p.rows[0], p.tenantId);
    RestoreOneCache(w, n);
  }

  /** The snapshot that restoreTenantOnce reads is a good place to start replaying from. */
  lemma ReadActiveCacheSafe(w: World, n: NodeId, rows: seq<Key>)
    requires CacheSafe(w, n) && n in w.gateways
    ensures CacheOk(w.db, Do(w, ReadActive(n, rows)).gateways[n])
  {
    var gw := w.gateways[n];
    var gw' := Do(w, ReadActive(n, rows)).gateways[n];
    if gw' != gw {
      forall i | 0 <= i < |rows| ensures ReplayOk(w.db, gw.phase.tenantId, rows[i]) {
        assert KeyOk(w.db, rows[i].id);
      }
      assert RestoreOk(w.db, gw', gw.phase.tenantId, rows);
    }
  }

  /** A target write without its commit is a refused projection that wrote. */
  lemma DyingWrite(w: World, n: NodeId)
    requires DbOk(w.db) && StoreOk(w) && n in w.gateways && w.gateways[n].phase.Projecting? && w.gateways[n].phase.ids != []
    ensures StoreOk(DoDie(w, n, true))
  {
    var lost := Refused(true, "", false);
    ProjectOneStore(w, n, lost);
    assert ProjectOne(w, n, lost).db.keys == w.db.keys;
    assert DoDie(w, n, true).store == ProjectOne(w, n, lost).store;
  }

  lemma AllReplayed(db: Db, gw: Gateway, t: TenantId)
    requires DbOk(db) && CacheOk(db, gw) && gw.phase.Restoring? && gw.phase.rows == [] && gw.phase.tenantId == t
    ensures forall id :: id in db.keys && db.keys[id].tenantId == t ==> Agrees(db.keys[id], gw.cache)
  {
  }

  /** Once the snapshot is replayed the cache agrees with every row of the tenant that is up to date. */
  lemma RestoredCacheSafe(w: World, n: NodeId, outcome: Outcome)
    requires CacheSafe(w, n) && n in w.gateways && w.gateways[n].phase.Restoring? && w.gateways[n].phase.rows == []
    ensures CacheOk(w.db, Do(w, RestoreNext(n, outcome)).gateways[n])
  {
    var gw := w.gateways[n];
    var p := gw.phase;
    AllReplayed(w.db, gw, p.tenantId);
    var gw' := gw.(restored := gw.restored + {p.tenantId}, phase := Reloading(p.tenantId, p.generation));
    assert Do(w, RestoreNext(n, outcome)) == w.(gateways := w.gateways[n := gw']);
  }

  lemma StoreSafeWhenDying(w: World, n: NodeId, wrote: bool)
    requires CacheSafe(w, n)
    ensures StoreOk(DoDie(w, n, wrote))
  {
    if wrote && n in w.gateways {
      var p := w.gateways[n].phase;
      if p.Restoring? && p.rows != [] {
        assert ReplayOk(w.db, p.tenantId, p.rows[0]);
        RestoreOneStore(w, n, p.rows[0], p.tenantId);
      } else if p.Projecting? && p.ids != [] {
        DyingWrite(w, n);
      }
    }
  }

  lemma BootCacheSafe(w: World, n: NodeId, loaded: set<KeyId>)
    requires CacheSafe(w, n)
    ensures CacheOk(w.db, Do(w, Boot(n, loaded)).gateways[n])
  {
    var gw := Do(w, Boot(n, loaded)).gateways[n];
    forall id | id in w.db.keys && !w.db.keys[id].Dirty() && w.db.keys[id].desiredState.DesiredRevoked? ensures id !in gw.cache {
      assert KeyOk(w.db, id);
      assert Agrees(w.db.keys[id], w.store);
    }
  }

  lemma QuietStepCacheSafe(w: World, n: NodeId, a: Action)
    requires CacheSafe(w, n) && n in w.gateways
    requires (a.Deliver? || a.ReadFails? || a.ReadDirty? || a.Finish?) && a.node == n
    ensures var w' := Do(w, a); StoreOk(w') && CacheOk(w'.db, w'.gateways[n])
  {
    assert PhaseOk(w.db, w.gateways[n]);
  }

  lemma GatewayStepCacheSafe(w: World, n: NodeId, a: Action)
    requires CacheSafe(w, n) && n in w.gateways
    requires !a.Create? && !a.Revoke? && !a.Retry? && !a.Publish? && !a.Boot? && !a.Die? && a.node == n
    ensures var w' := Do(w, a); StoreOk(w') && w'.gateways.Keys == w.gateways.Keys && CacheOk(w'.db, w'.gateways[n])
  {
    var p := w.gateways[n].phase;
    match a {
      case ProjectNext(_, outcome) =>
        if p.Projecting? && p.ids != [] { ProjectOneStore(w, n, outcome); ProjectOneCache(w, n, outcome); }
      case RestoreNext(_, outcome) =>
        if p.Restoring? && p.rows != [] { RestoreOneCacheSafe(w, n, outcome); }
        else if p.Restoring? { RestoredCacheSafe(w, n, outcome); }
      case ReadActive(_, rows) => ReadActiveCacheSafe(w, n, rows);
      case Deliver(_, _, _) => QuietStepCacheSafe(w, n, a);
      case ReadFails(_) => QuietStepCacheSafe(w, n, a);
      case ReadDirty(_, _) => QuietStepCacheSafe(w, n, a);
      case Finish(_) => QuietStepCacheSafe(w, n, a);
    }
  }

  lemma StepCacheSafe(w: World, n: NodeId, a: Action)
    requires CacheSafe(w, n) && (a.Boot? ==> a.node == n)
    ensures CacheSafe(Do(w, a), n)
  {
    StepSafe(w, a);
    if a.Create? || a.Revoke? || a.Retry? || a.Publish? {
      TxCacheSafe(w, n, a);
    } else if a.Boot? {
      BootCacheSafe(w, n, a.loaded);
    } else if a.Die? {
      if a.node == n { StoreSafeWhenDying(w, n, a.wrote); }
    } else if a.node in w.gateways {
      GatewayStepCacheSafe(w, n, a);
    }
  }

  /** Only gateway `n` is ever started in this run, as often as one likes. */
  ghost predicate Solo(actions: seq<Action>, n: NodeId) {
    forall i :: 0 <= i < |actions| && actions[i].Boot? ==> actions[i].node == n
  }

  lemma {:induction false} RunCacheSafe(w: World, actions: seq<Action>, n: NodeId)
    requires CacheSafe(w, n) && Solo(actions, n)
    ensures CacheSafe(Run(w, actions), n)
    decreases |actions|
  {
    if actions != [] {
      var last := |actions| - 1;
      RunCacheSafe(w, actions[..last], n);
      StepCacheSafe(Run(w, actions[..last]), n, actions[last]);
    }
  }

  /**
   One gateway, any interleaving with control-plane writes, any failures and any number of restarts, including a
   death between a target write and its commit: once a tenant is restored, each of its rows that is up to date is
   in the runtime cache with its current generation iff it should be active; and the Bifrost store always agrees.
   */
  lemma {:induction false} CacheAgreement(tenants: set<TenantId>, actions: seq<Action>, n: NodeId)
    requires Solo(actions, n) && n in Run(Start(tenants), actions).gateways
    ensures var w := Run(Start(tenants), actions);
            && (forall id :: id in w.db.keys ==> Agrees(w.db.keys[id], w.store))
            && (forall id :: id in w.db.keys && w.db.keys[id].tenantId in w.gateways[n].restored ==>
                  Agrees(w.db.keys[id], w.gateways[n].cache))
  {
    RunCacheSafe(Start(tenants), actions, n);
  }

  /**
   One gateway: when its fence equals the tenant's generation, the cache holds exactly the tenant's
   desired-active keys, each with the generation at which it was last changed.
   */
  lemma {:induction false} CaughtUpCacheIsExact(tenants: set<TenantId>, actions: seq<Action>, n: NodeId, t: TenantId)
    requires Solo(actions, n) && n in Run(Start(tenants), actions).gateways
    requires var w := Run(Start(tenants), actions);
             w.gateways[n].Fence(t) == w.db.Current(t) > 0
    ensures var w := Run(Start(tenants), actions);
            var cache := w.gateways[n].cache;
            forall id ::
              && (id in cache && cache[id].tenantId == t <==>
                    id in w.db.keys && w.db.keys[id].tenantId == t && w.db.keys[id].desiredState.DesiredActive?)
              && (id in cache && cache[id].tenantId == t ==> cache[id] == ProjectedOf(w.db.keys[id]))
  {
    RunCacheSafe(Start(tenants), actions, n);
    var w := Run(Start(tenants), actions);
    forall id | id in w.db.keys && w.db.keys[id].tenantId == t
      ensures Agrees(w.db.keys[id], w.gateways[n].cache) && !w.db.keys[id].Dirty() && w.db.keys[id].id == id
    {
      assert KeyOk(w.db, id);
    }
  }

  // ---------- two gateways ----------

  lemma {:induction false} RunCons(w: World, a: Action, rest: seq<Action>)
    ensures Run(w, [a] + rest) == Run(Do(w, a), rest)
  {
    RunConcat(w, [a], rest);
    assert [a][..0] == [];
    assert Run(w, [a][..0]) == w;
  }

  /** A whole ProjectTenant by a fresh process, for a tenant whose only key is dirty. */
  function FirstPass(n: NodeId, t: TenantId, g: nat, id: KeyId): seq<Action> {
    [Deliver(n, t, g)] + ([ReadActive(n, [])] + ([RestoreNext(n, Written(true))] + ProjectPass(n, id)))
  }

  function ProjectPass(n: NodeId, id: KeyId): seq<Action> {
    [ReadDirty(n, [id])] + ([ProjectNext(n, Written(true))] + ([Finish(n)] + []))
  }

  /** A ProjectTenant of a restored tenant that finds nothing to do. */
  function IdlePass(n: NodeId, t: TenantId, g: nat): seq<Action> {
    [Deliver(n, t, g)] + ([ReadDirty(n, [])] + ([Finish(n)] + []))
  }

  lemma EmptyRestore(w: World, n: NodeId, t: TenantId, g: nat, rest: seq<Action>)
    requires n in w.gateways && w.gateways[n] == Gateway(map[], {}, map[], Idle)
    requires Announced(w.db, t, g) && g > 0 && IsActiveListing(w.db, t, [])
    ensures Run(w, [Deliver(n, t, g)] + ([ReadActive(n, [])] + ([RestoreNext(n, Written(true))] + rest)))
         == Run(w.(gateways := w.gateways[n := Gateway(map[], {t}, map[], Reloading(t, g))]), rest)
  {
    var w1 := Do(w, Deliver(n, t, g));
    var w2 := Do(w1, ReadActive(n, []));
    assert w2 == w.(gateways := w.gateways[n := Gateway(map[], {}, map[], Restoring(t, g, []))]);
    var w3 := Do(w2, RestoreNext(n, Written(true)));
    assert {} + {t} == {t};
    assert w3 == w.(gateways := w.gateways[n := Gateway(map[], {t}, map[], Reloading(t, g))]);
    RunCons(w, Deliver(n, t, g), [ReadActive(n, [])] + ([RestoreNext(n, Written(true))] + rest));
    RunCons(w1, ReadActive(n, []), [RestoreNext(n, Written(true))] + rest);
    RunCons(w2, RestoreNext(n, Written(true)), rest);
  }

  lemma {:induction false} RunThree(w: World, a: Action, b: Action, c: Action)
    ensures Run(w, [a] + ([b] + ([c] + []))) == Do(Do(Do(w, a), b), c)
  {
    RunCons(w, a, [b] + ([c] + []));
    RunCons(Do(w, a), b, [c] + []);
    RunCons(Do(Do(w, a), b), c, []);
  }

  lemma ProjectPassResult(w: World, n: NodeId, t: TenantId, g: nat, id: KeyId)
    requires n in w.gateways && w.gateways[n] == Gateway(map[], {t}, map[], Reloading(t, g))
    requires id in w.db.keys && w.db.keys[id].Dirty() && w.db.keys[id].tenantId == t && IsDirtyListing(w.db, t, [id])
    ensures var k := w.db.keys[id];
            Do(Do(Do(w, ReadDirty(n, [id])), ProjectNext(n, Written(true))), Finish(n)) ==
            World(w.db.(keys := w.db.keys[id := Settled(k, Written(true))]), Apply(w.store, k),
                  w.gateways[n := Gateway(map[t := g], {t}, Apply(map[], k), Idle)])
  {
  }

  lemma FirstPassResult(w: World, n: NodeId, t: TenantId, g: nat, id: KeyId)
    requires n in w.gateways && w.gateways[n] == Gateway(map[], {}, map[], Idle)
    requires Announced(w.db, t, g) && g > 0
    requires w.db.keys.Keys == {id} && w.db.keys[id].Dirty() && w.db.keys[id].tenantId == t
    ensures var k := w.db.keys[id];
            Run(w, FirstPass(n, t, g, id)) ==
            World(w.db.(keys := w.db.keys[id := Settled(k, Written(true))]), Apply(w.store, k),
                  w.gateways[n := Gateway(map[t := g], {t}, Apply(map[], k), Idle)])
  {
    assert IsActiveListing(w.db, t, []);
    EmptyRestore(w, n, t, g, ProjectPass(n, id));
    var w3 := w.(gateways := w.gateways[n := Gateway(map[], {t}, map[], Reloading(t, g))]);
    ProjectPassResult(w3, n, t, g, id);
    RunThree(w3, ReadDirty(n, [id]), ProjectNext(n, Written(true)), Finish(n));
  }

  lemma IdleSteps(w: World, n: NodeId, t: TenantId, g: nat)
    requires n in w.gateways && w.gateways[n].phase.Idle? && t in w.gateways[n].restored
    requires Announced(w.db, t, g) && g > w.gateways[n].Fence(t) && IsDirtyListing(w.db, t, [])
    ensures var gw := w.gateways[n];
            Do(Do(w, Deliver(n, t, g)), ReadDirty(n, []))
            == w.(gateways := w.gateways[n := gw.(phase := Projecting(t, g, [], false))])
  {
  }

  lemma IdlePassResult(w: World, n: NodeId, t: TenantId, g: nat)
    requires n in w.gateways && w.gateways[n].phase.Idle? && t in w.gateways[n].restored
    requires Announced(w.db, t, g) && g > w.gateways[n].Fence(t)
    requires forall id :: id in w.db.keys ==> !w.db.keys[id].Dirty()
    ensures var gw := w.gateways[n];
            Run(w, IdlePass(n, t, g)) == w.(gateways := w.gateways[n := gw.(fence := gw.fence[t := g])])
  {
    var gw := w.gateways[n];
    assert IsDirtyListing(w.db, t, []);
    IdleSteps(w, n, t, g);
    RunThree(w, Deliver(n, t, g), ReadDirty(n, []), Finish(n));
    var w2 := w.(gateways := w.gateways[n := gw.(phase := Projecting(t, g, [], false))]);
    assert w2.gateways[n := gw.(fence := gw.fence[t := g])] == w.gateways[n := gw.(fence := gw.fence[t := g])];
  }

  lemma {:induction false} RunSegment(w: World, a: Action, b: Action, xs: seq<Action>, rest: seq<Action>)
    ensures Run(w, [a] + ([b] + (xs + rest))) == Run(Run(Do(Do(w, a), b), xs), rest)
  {
    RunCons(w, a, [b] + (xs + rest));
    RunCons(Do(w, a), b, xs + rest);
    RunConcat(Do(Do(w, a), b), xs, rest);
  }

  /** Gateway 1 projects the creation of a key, gateway 2 its revocation. */
  function DisagreementRun(): seq<Action> {
    [Create("t", "name", "k", "secret")] + ([Boot(1, {})] + (FirstPass(1, "t", 1, "k") + RevokedElsewhere()))
  }

  function RevokedElsewhere(): seq<Action> {
    [Revoke("t", "k")] + ([Boot(2, {})] + (FirstPass(2, "t", 2, "k") + IdlePass(1, "t", 2)))
  }

  const CREATED: Key := Key("k", "t", "name", "secret", Pending, DesiredActive, 1, 0, "")

  lemma AfterCreate(w: World)
    requires w == Do(Start({"t"}), Create("t", "name", "k", "secret"))
    ensures w.db.keys == map["k" := CREATED] && w.db.generations == map["t" := 1] && Announced(w.db, "t", 1)
    ensures w.store == map[] && w.gateways == map[]
  {
    assert TrimSpace("t") == "t" && TrimSpace("name") == "name" && TrimSpace(ENTITY_PREFIX + "k") != "";
    assert CreateTx(Start({"t"}).db, "t", "name", "k", "secret").Ok?;
    assert w.db.outbox[0].tenantId == "t" && w.db.outbox[0].generation == 1;
  }

  lemma AfterRevoke(w: World, w': World)
    requires w.db.keys == map["k" := Settled(CREATED, Written(true))] && w.db.generations == map["t" := 1]
    requires w' == Do(w, Revoke("t", "k"))
    ensures w'.db.keys.Keys == {"k"} && w'.db.keys["k"].Dirty() && w'.db.keys["k"].tenantId == "t"
    ensures w'.db.keys["k"].desiredState.DesiredRevoked? && w'.db.keys["k"].id == "k"
    ensures w'.db.generations == map["t" := 2] && Announced(w'.db, "t", 2)
    ensures w'.gateways == w.gateways
  {
    assert TrimSpace("k") == "k" && TrimSpace("t") == "t" && TrimSpace(ENTITY_PREFIX + "k") != "";
    assert w'.db.outbox[|w.db.outbox|].tenantId == "t" && w'.db.outbox[|w.db.outbox|].generation == 2;
  }

  lemma BootsEmpty(w: World, n: NodeId)
    ensures Do(w, Boot(n, {})) == w.(gateways := w.gateways[n := Gateway(map[], {}, map[], Idle)])
  {
  }

  lemma CreationIsLearnt() returns (w: World)
    ensures Run(Start({"t"}), DisagreementRun()) == Run(w, RevokedElsewhere())
    ensures w.db.keys == map["k" := Settled(CREATED, Written(true))] && w.db.generations == map["t" := 1]
    ensures w.gateways == map[1 := Gateway(map["t" := 1], {"t"}, map["k" := ProjectedOf(CREATED)], Idle)]
  {
    var w0 := Start({"t"});
    var create := Create("t", "name", "k", "secret");
    var w1 := Do(w0, create);
    AfterCreate(w1);
    RunSegment(w0, create, Boot(1, {}), FirstPass(1, "t", 1, "k"), RevokedElsewhere());
    BootsEmpty(w1, 1);
    w := LearntFrom(w1);
  }

  lemma LearntFrom(w1: World) returns (w: World)
    requires w1.db.keys == map["k" := CREATED] && w1.db.generations == map["t" := 1] && Announced(w1.db, "t", 1)
    requires w1.gateways == map[]
    ensures w == Run(w1.(gateways := w1.gateways[1 := Gateway(map[], {}, map[], Idle)]), FirstPass(1, "t", 1, "k"))
    ensures w.db.keys == map["k" := Settled(CREATED, Written(true))] && w.db.generations == map["t" := 1]
    ensures w.gateways == map[1 := Gateway(map["t" := 1], {"t"}, map["k" := ProjectedOf(CREATED)], Idle)]
  {
    var w2 := w1.(gateways := w1.gateways[1 := Gateway(map[], {}, map[], Idle)]);
    FirstPassResult(w2, 1, "t", 1, "k");
    w := Run(w2, FirstPass(1, "t", 1, "k"));
  }

  lemma RevocationIsMissed(w3: World) returns (w: World)
    requires w3.db.keys == map["k" := Settled(CREATED, Written(true))] && w3.db.generations == map["t" := 1]
    requires w3.gateways == map[1 := Gateway(map["t" := 1], {"t"}, map["k" := ProjectedOf(CREATED)], Idle)]
    ensures Run(w3, RevokedElsewhere()) == Run(w, IdlePass(1, "t", 2))
    ensures w.db.keys.Keys == {"k"} && w.db.keys["k"].status.Revoked? && !w.db.keys["k"].Dirty()
    ensures w.db.generations == map["t" := 2] && Announced(w.db, "t", 2)
    ensures 1 in w.gateways && w.gateways[1] == w3.gateways[1]
  {
    var w4 := Do(w3, Revoke("t", "k"));
    AfterRevoke(w3, w4);
    var w5 := Do(w4, Boot(2, {}));
    assert w5.gateways[2] == Gateway(map[], {}, map[], Idle);
    FirstPassResult(w5, 2, "t", 2, "k");
    RunSegment(w3, Revoke("t", "k"), Boot(2, {}), FirstPass(2, "t", 2, "k"), IdlePass(1, "t", 2));
    w := Run(w5, FirstPass(2, "t", 2, "k"));
    assert Announced(w.db, "t", 2) by { assert Announced(w5.db, "t", 2); }
  }

  /**
   With two gateways a fence that has reached the tenant's generation does not make the cache right:
   gateway 1 ends with its fence at the current generation and still holds a key that is revoked and settled.
   */
  lemma TwoGatewaysDisagree()
    ensures var w := Run(Start({"t"}), DisagreementRun());
            && 1 in w.gateways && w.gateways[1].Fence("t") == w.db.Current("t") == 2
            && "k" in w.db.keys && w.db.keys["k"].status.Revoked? && !w.db.keys["k"].Dirty()
            && "k" in w.gateways[1].cache
  {
    var w3 := CreationIsLearnt();
    var w6 := RevocationIsMissed(w3);
    IdlePassResult(w6, 1, "t", 2);
  }
}
