/**
 The virtual-key projection protocol as a state machine. Any number of gateway processes share the
 control plane's tables and the Bifrost store; each has its own fence, its own once-per-process restore set
 and its own runtime cache, all lost when it dies. One action is one atomic step: a control-plane
 transaction, the receipt of a notification, one read, or the projection of one key. What is left to chance (delivery, failures,
 crashes, the order of query results) is an argument of the action, so a run is a sequence of actions and a
 statement about every sequence is a statement about every interleaving.
 */
module Projection {
  import opened Common
  import opened ControlPlane

  type NodeId = int

  /** A key as the data plane holds it. */
  datatype Projected = Projected(tenantId: TenantId, name: string, secret: string, generation: nat)

  type Snapshot = map<KeyId, Projected>

  datatype Phase =
    | Idle
    | Reloading(tenantId: TenantId, generation: nat)
    | Restoring(tenantId: TenantId, generation: nat, rows: seq<Key>)
    | Projecting(tenantId: TenantId, generation: nat, ids: seq<KeyId>, failed: bool)

  datatype Gateway = Gateway(fence: map<TenantId, nat>, restored: set<TenantId>, cache: Snapshot, phase: Phase)
  {
    function Fence(t: TenantId): nat {
      if t in fence then fence[t] else 0
    }
  }

  datatype World = World(db: Db, store: Snapshot, gateways: map<NodeId, Gateway>)

  /**
   How one write to the target ends. `Refused` is an error return; the Bifrost row may have been written
   all the same (`wrote`), the cache has not. The other flag says whether the control-plane transaction commits.
   */
  datatype Outcome =
    | Written(commits: bool)
    | Refused(wrote: bool, reason: string, marks: bool)
    | Unread

  datatype Action =
    | Create(tenantId: TenantId, name: string, id: KeyId, secret: string)
    | Revoke(tenantId: TenantId, keyId: KeyId)
    | Retry(tenantId: TenantId, keyId: KeyId)
    | Publish(tenantId: TenantId, entity: string)
    | Boot(node: NodeId, loaded: set<KeyId>)
    | Die(node: NodeId, wrote: bool)
    | Deliver(node: NodeId, tenantId: TenantId, generation: nat)
    | ReadFails(node: NodeId)
    | ReadActive(node: NodeId, rows: seq<Key>)
    | RestoreNext(node: NodeId, outcome: Outcome)
    | ReadDirty(node: NodeId, ids: seq<KeyId>)
    | ProjectNext(node: NodeId, outcome: Outcome)
    | Finish(node: NodeId)

  // ---------- the target ----------

  function ProjectedOf(k: Key): Projected {
    Projected(k.tenantId, k.name, k.secret, k.desiredGeneration)
  }

  /** Upsert or Delete, as the row's desired state asks. */
  function Apply(m: Snapshot, k: Key): Snapshot {
    match k.desiredState
    case DesiredActive => m[k.id := ProjectedOf(k)]
    case DesiredRevoked => m - {k.id}
  }

  // ---------- the reads ----------

  predicate CleanActive(k: Key, t: TenantId) {
    k.tenantId == t && k.desiredState.DesiredActive? && k.status.Active? && !k.Dirty()
  }

  /** `rows` is an answer to the query of restoreTenantOnce. */
  ghost predicate IsActiveListing(db: Db, t: TenantId, rows: seq<Key>) {
    && (forall i :: 0 <= i < |rows| ==> CleanActive(rows[i], t) && rows[i].id in db.keys && db.keys[rows[i].id] == rows[i])
    && (forall id :: id in db.keys && CleanActive(db.keys[id], t) ==> db.keys[id] in rows)
    && Distinct(rows)
  }

  /** `ids` is the answer to the query of ProjectTenant, oldest desired generation first. */
  ghost predicate IsDirtyListing(db: Db, t: TenantId, ids: seq<KeyId>) {
    && (forall i :: 0 <= i < |ids| ==> ids[i] in db.keys && db.keys[ids[i]].tenantId == t && db.keys[ids[i]].Dirty())
    && (forall id :: id in db.keys && db.keys[id].tenantId == t && db.keys[id].Dirty() ==> id in ids)
    && (forall i, j :: 0 <= i < j < |ids| ==> db.keys[ids[i]].desiredGeneration < db.keys[ids[j]].desiredGeneration)
  }

  // ---------- the projection of one key ----------

  /** The row after a projection attempt whose control-plane transaction commits. */
  function Settled(k: Key, outcome: Outcome): Key {
    match outcome
    case Written(true) =>
      k.(status := if k.desiredState.DesiredActive? then Active else ControlPlane.Revoked,
         appliedGeneration := k.desiredGeneration, lastError := "")
    case Refused(_, reason, true) => k.(status := Failed, lastError := reason)
    case _ => k
  }

  function WritesStore(outcome: Outcome): bool {
    outcome.Written? || (outcome.Refused? && outcome.wrote)
  }

  /** projectOne for the first id of the list, under the row lock. */
  function ProjectOne(w: World, n: NodeId, outcome: Outcome): World
    requires n in w.gateways && w.gateways[n].phase.Projecting? && w.gateways[n].phase.ids != []
  {
    var gw := w.gateways[n];
    var p := gw.phase;
    var id := p.ids[0];
    var next := p.(ids := p.ids[1..]);
    if outcome.Unread? then
      w.(gateways := w.gateways[n := gw.(phase := next.(failed := true))])
    else if id !in w.db.keys || w.db.keys[id].tenantId != p.tenantId || !w.db.keys[id].Dirty() then
      w.(gateways := w.gateways[n := gw.(phase := next)])
    else
      var k := w.db.keys[id];
      var cache := if outcome.Written? then Apply(gw.cache, k) else gw.cache;
      var failed := p.failed || outcome != Written(true);
      World(
        w.db.(keys := w.db.keys[id := Settled(k, outcome)]),
        if WritesStore(outcome) then Apply(w.store, k) else w.store,
        w.gateways[n := gw.(cache := cache, phase := next.(failed := failed))])
  }

  /** One iteration of restoreTenantOnce: an upsert from the snapshot, with no row lock held. */
  function RestoreOne(w: World, n: NodeId, outcome: Outcome): World
    requires n in w.gateways && w.gateways[n].phase.Restoring? && w.gateways[n].phase.rows != []
  {
    var gw := w.gateways[n];
    var p := gw.phase;
    var k := p.rows[0];
    var store := if WritesStore(outcome) then w.store[k.id := ProjectedOf(k)] else w.store;
    var gw' := if outcome.Written? then gw.(cache := gw.cache[k.id := ProjectedOf(k)], phase := p.(rows := p.rows[1..]))
               else gw.(phase := Idle);
    w.(store := store, gateways := w.gateways[n := gw'])
  }

  // ---------- one step, and a run ----------

  ghost function DoTx(w: World, r: Result<(Db, Mutation), TxError>): World {
    match r
    case Ok((db, _)) => w.(db := db)
    case Err(_) => w
  }

  /** The effect of an action; an action that is not enabled does nothing. */
  ghost function Do(w: World, a: Action): World {
    match a
    case Create(t, name, id, secret) => DoTx(w, CreateTx(w.db, t, name, id, secret))
    case Revoke(t, id) => DoTx(w, RevokeTx(w.db, t, id))
    case Retry(t, id) => DoTx(w, RetryTx(w.db, t, id))
    case Publish(t, entity) =>
      (match PublishTx(w.db, t, entity) case Ok((db, _)) => w.(db := db) case Err(_) => w)
    case Boot(n, loaded) =>
      var cache := map id | id in w.store && id in loaded :: w.store[id];
      w.(gateways := w.gateways[n := Gateway(map[], {}, cache, Idle)])
    case Die(n, wrote) => DoDie(w, n, wrote)
    case _ => if a.node in w.gateways then DoGateway(w, a) else w
  }

  /** The process may die after the target's write reached the Bifrost store and before anything else happened. */
  ghost function DoDie(w: World, n: NodeId, wrote: bool): World {
    if n !in w.gateways then w else
    var p := w.gateways[n].phase;
    var store :=
      if !wrote then w.store
      else if p.Restoring? && p.rows != [] then w.store[p.rows[0].id := ProjectedOf(p.rows[0])]
      else if p.Projecting? && p.ids != [] && p.ids[0] in w.db.keys
              && w.db.keys[p.ids[0]].tenantId == p.tenantId && w.db.keys[p.ids[0]].Dirty()
      then Apply(w.store, w.db.keys[p.ids[0]])
      else w.store;
    w.(store := store, gateways := w.gateways - {n})
  }

  ghost function DoGateway(w: World, a: Action): World
    requires !a.Create? && !a.Revoke? && !a.Retry? && !a.Publish? && !a.Boot? && !a.Die?
    requires a.node in w.gateways
  {
    var n := a.node;
    var gw := w.gateways[n];
    var p := gw.phase;
    match a
    case Deliver(_, t, g) =>
      // Only committed changes are ever announced; they may arrive late, twice, in any order or never.
      if p.Idle? && Announced(w.db, t, g) && g > gw.Fence(t)
      then w.(gateways := w.gateways[n := gw.(phase := Reloading(t, g))])
      else w
    case ReadFails(_) =>
      if p.Reloading? then w.(gateways := w.gateways[n := gw.(phase := Idle)]) else w
    case ReadActive(_, rows) =>
      if p.Reloading? && p.tenantId !in gw.restored && IsActiveListing(w.db, p.tenantId, rows)
      then w.(gateways := w.gateways[n := gw.(phase := Restoring(p.tenantId, p.generation, rows))])
      else w
    case RestoreNext(_, outcome) =>
      if p.Restoring? && p.rows != [] then RestoreOne(w, n, outcome)
      else if p.Restoring? then
        w.(gateways := w.gateways[n := gw.(restored := gw.restored + {p.tenantId}, phase := Reloading(p.tenantId, p.generation))])
      else w
    case ReadDirty(_, ids) =>
      if p.Reloading? && p.tenantId in gw.restored && IsDirtyListing(w.db, p.tenantId, ids)
      then w.(gateways := w.gateways[n := gw.(phase := Projecting(p.tenantId, p.generation, ids, false))])
      else w
    case ProjectNext(_, outcome) =>
      if p.Projecting? && p.ids != [] then ProjectOne(w, n, outcome) else w
    case Finish(_) =>
      if p.Projecting? && p.ids == [] then
        var fence := if p.failed then gw.fence else gw.fence[p.tenantId := p.generation];
        w.(gateways := w.gateways[n := gw.(fence := fence, phase := Idle)])
      else w
  }

  ghost function Run(w: World, actions: seq<Action>): World
    decreases |actions|
  {
    if actions == [] then w else Do(Run(w, actions[..|actions| - 1]), actions[|actions| - 1])
  }

  /** Empty tables, an empty store and no gateway: where every deployment starts. */
  function Start(tenants: set<TenantId>): World {
    World(Db(tenants, map[], map[], []), map[], map[])
  }

  lemma {:induction false} RunConcat(w: World, xs: seq<Action>, ys: seq<Action>)
    ensures Run(w, xs + ys) == Run(Run(w, xs), ys)
  {
    if ys == [] {
      assert xs + ys == xs;
    } else {
      var last := |ys| - 1;
      assert (xs + ys)[..|xs + ys| - 1] == xs + ys[..last];
      RunConcat(w, xs, ys[..last]);
    }
  }
}
