/**
 Safety of the generation fence over every run of the projection protocol, with any number of gateways: a
 fence never passes a key that still waits for projection, generations only rise, and revocation is final.
 */
module ProjectionSafety {
  import opened Common
  import opened ControlPlane
  import opened Projection

  /** Nothing of tenant `t` that was asked for at or before `g` is outstanding, except perhaps keys in `ids`. */
  ghost predicate SettledUpTo(db: Db, t: TenantId, g: nat, ids: seq<KeyId>) {
    forall id :: id in db.keys && db.keys[id].tenantId == t && db.keys[id].desiredGeneration <= g && db.keys[id].Dirty() ==>
      id in ids
  }

  ghost predicate GatewayOk(db: Db, gw: Gateway) {
    && (forall t :: gw.Fence(t) <= db.Current(t))
    && (forall id :: id in db.keys && db.keys[id].desiredGeneration <= gw.Fence(db.keys[id].tenantId) ==> !db.keys[id].Dirty())
    && PhaseOk(db, gw)
  }

  ghost predicate PhaseOk(db: Db, gw: Gateway) {
    var p := gw.phase;
    && (!p.Idle? ==> 1 <= p.generation <= db.Current(p.tenantId))
    && (p.Projecting? ==> p.tenantId in gw.restored)
    && (p.Projecting? && !p.failed ==> SettledUpTo(db, p.tenantId, p.generation, p.ids))
  }

  ghost predicate Safe(w: World) {
    && DbOk(w.db)
    && forall n :: n in w.gateways ==> GatewayOk(w.db, w.gateways[n])
  }

  /**
   What a gateway may assume of the steps of everybody else: a row either keeps its desired generation
   and does not become dirty, or moves to a generation that nobody had seen.
   */
  ghost predicate Rely(a: Db, b: Db) {
    && (forall t :: a.Current(t) <= b.Current(t))
    && forall id :: id in b.keys ==>
         || b.keys[id].desiredGeneration > a.Current(b.keys[id].tenantId)
         || (&& id in a.keys && a.keys[id].tenantId == b.keys[id].tenantId
             && a.keys[id].desiredGeneration == b.keys[id].desiredGeneration
             && (b.keys[id].Dirty() ==> a.keys[id].Dirty()))
  }

  lemma OthersStable(w: World, db: Db)
    requires Safe(w) && DbOk(db) && Rely(w.db, db)
    ensures Safe(w.(db := db))
  {
  }

  lemma OutboxUntouched(a: Db, b: Db)
    requires OutboxOk(a) && b.outbox == a.outbox && b.generations == a.generations
    ensures OutboxOk(b)
  {
    forall t, g | 1 <= g <= b.Current(t) ensures Announced(b, t, g) {
      assert Announced(a, t, g);
    }
  }

  lemma ProgressReflexive(db: Db)
    ensures Progress(db, db) && Rely(db, db)
  {
  }

  lemma SettledRow(k: Key, outcome: Outcome)
    requires StatusOk(k) && k.Dirty()
    ensures var s := Settled(k, outcome);
            StatusOk(s) && KeyProgress(k, s) && s.desiredGeneration == k.desiredGeneration
  {
  }

  lemma ReplaceRow(db: Db, id: KeyId, row: Key)
    requires DbOk(db) && id in db.keys && db.keys[id].Dirty()
    requires StatusOk(row) && KeyProgress(db.keys[id], row) && row.desiredGeneration == db.keys[id].desiredGeneration
    ensures var d := db.(keys := db.keys[id := row]); DbOk(d) && Rely(db, d) && Progress(db, d)
  {
    var d := db.(keys := db.keys[id := row]);
    OutboxUntouched(db, d);
    assert KeyOk(db, id);
    forall x | x in d.keys ensures KeyOk(d, x) { assert KeyOk(db, x); }
    assert DesiredUnique(d);
  }

  /** Settling a dirty row keeps the tables consistent, whatever the outcome. */
  lemma SettleOk(db: Db, id: KeyId, outcome: Outcome)
    requires DbOk(db) && id in db.keys && db.keys[id].Dirty()
    ensures var d := db.(keys := db.keys[id := Settled(db.keys[id], outcome)]);
            DbOk(d) && Rely(db, d) && Progress(db, d)
  {
    assert KeyOk(db, id);
    SettledRow(db.keys[id], outcome);
    ReplaceRow(db, id, Settled(db.keys[id], outcome));
  }

  lemma ProjectOneDb(w: World, n: NodeId, outcome: Outcome)
    requires Safe(w) && n in w.gateways && w.gateways[n].phase.Projecting? && w.gateways[n].phase.ids != []
    ensures var d := ProjectOne(w, n, outcome).db;
            DbOk(d) && Rely(w.db, d) && Progress(w.db, d)
  {
    var p := w.gateways[n].phase;
    var id := p.ids[0];
    if !outcome.Unread? && id in w.db.keys && w.db.keys[id].tenantId == p.tenantId && w.db.keys[id].Dirty() {
      SettleOk(w.db, id, outcome);
    } else {
      ProgressReflexive(w.db);
    }
  }

  /** Taking the first id off the list is sound: it is no longer dirty, or the pass has failed. */
  lemma ProjectOnePhase(w: World, n: NodeId, outcome: Outcome)
    requires Safe(w) && n in w.gateways && w.gateways[n].phase.Projecting? && w.gateways[n].phase.ids != []
    ensures var w' := ProjectOne(w, n, outcome); PhaseOk(w'.db, w'.gateways[n])
  {
    var w' := ProjectOne(w, n, outcome);
    var p := w.gateways[n].phase;
    var p' := w'.gateways[n].phase;
    assert PhaseOk(w.db, w.gateways[n]);
    assert p.ids == [p.ids[0]] + p.ids[1..];
    if !p'.failed {
      forall id | id in w'.db.keys && w'.db.keys[id].tenantId == p.tenantId
                  && w'.db.keys[id].desiredGeneration <= p.generation && w'.db.keys[id].Dirty()
        ensures id in p'.ids
      {
        assert id in p.ids;
      }
    }
  }

  /** A step that changes one gateway, and perhaps the store. */
  lemma OneGatewaySafe(w: World, w': World, n: NodeId, gw: Gateway)
    requires Safe(w) && w'.db == w.db && w'.gateways == w.gateways[n := gw] && GatewayOk(w.db, gw)
    ensures Safe(w')
  {
  }

  lemma PhaseChanged(db: Db, gw: Gateway, gw': Gateway)
    requires GatewayOk(db, gw) && PhaseOk(db, gw') && gw'.fence == gw.fence
    ensures GatewayOk(db, gw')
  {
  }

  lemma ProjectOneMoves(w: World, n: NodeId, outcome: Outcome)
    requires n in w.gateways && w.gateways[n].phase.Projecting? && w.gateways[n].phase.ids != []
    ensures var w' := ProjectOne(w, n, outcome);
            n in w'.gateways && w'.gateways == w.gateways[n := w'.gateways[n]] && w'.gateways[n].fence == w.gateways[n].fence
  {
  }

  /** One gateway moves on, and the tables change in a way that the others can rely on. */
  lemma MovedSafe(w: World, w': World, n: NodeId)
    requires Safe(w) && DbOk(w'.db) && Rely(w.db, w'.db)
    requires n in w.gateways && n in w'.gateways && w'.gateways == w.gateways[n := w'.gateways[n]]
    requires w'.gateways[n].fence == w.gateways[n].fence && PhaseOk(w'.db, w'.gateways[n])
    ensures Safe(w')
  {
    OthersStable(w, w'.db);
    PhaseChanged(w'.db, w.gateways[n], w'.gateways[n]);
    OneGatewaySafe(w.(db := w'.db), w', n, w'.gateways[n]);
  }

  lemma ProjectOneSafe(w: World, n: NodeId, outcome: Outcome)
    requires Safe(w) && n in w.gateways && w.gateways[n].phase.Projecting? && w.gateways[n].phase.ids != []
    ensures Safe(ProjectOne(w, n, outcome)) && Progress(w.db, ProjectOne(w, n, outcome).db)
  {
    ProjectOneDb(w, n, outcome);
    ProjectOnePhase(w, n, outcome);
    ProjectOneMoves(w, n, outcome);
    MovedSafe(w, ProjectOne(w, n, outcome), n);
  }

  lemma TxDb(db: Db, r: Result<(Db, Mutation), TxError>, t: TenantId, keyId: KeyId, name: string, secret: string)
    requires DbOk(db) && r.Ok?
    requires r == CreateTx(db, t, name, keyId, secret) || r == RevokeTx(db, t, keyId) || r == RetryTx(db, t, keyId)
    ensures DbOk(r.value.0) && Rely(db, r.value.0) && Progress(db, r.value.0)
  {
    if r == CreateTx(db, t, name, keyId, secret) {
      CreateTxOk(db, t, name, keyId, secret);
    } else {
      MutateTxOk(db, t, keyId, r);
    }
  }

  lemma TxSafe(w: World, a: Action)
    requires Safe(w) && (a.Create? || a.Revoke? || a.Retry? || a.Publish?)
    ensures Safe(Do(w, a)) && Progress(w.db, Do(w, a).db)
  {
    ProgressReflexive(w.db);
    match a {
      case Create(t, name, id, secret) =>
        var r := CreateTx(w.db, t, name, id, secret);
        if r.Ok? { TxDb(w.db, r, t, id, name, secret); OthersStable(w, r.value.0); }
      case Revoke(t, id) =>
        var r := RevokeTx(w.db, t, id);
        if r.Ok? { TxDb(w.db, r, t, id, "", ""); OthersStable(w, r.value.0); }
      case Retry(t, id) =>
        var r := RetryTx(w.db, t, id);
        if r.Ok? { TxDb(w.db, r, t, id, "", ""); OthersStable(w, r.value.0); }
      case Publish(t, entity) =>
        var r := PublishTx(w.db, t, entity);
        if r.Ok? { PublishKeepsOutbox(w.db, t, entity); OthersStable(w, r.value.0); }
    }
  }

  lemma DeliveredOk(w: World, a: Action)
    requires Safe(w) && (a.Deliver? || a.ReadFails? || a.ReadActive?) && a.node in w.gateways
    ensures Do(w, a).db == w.db && Do(w, a).gateways == w.gateways[a.node := Do(w, a).gateways[a.node]]
    ensures GatewayOk(w.db, Do(w, a).gateways[a.node])
  {
    assert GatewayOk(w.db, w.gateways[a.node]);
  }

  lemma RestoredOk(w: World, a: Action)
    requires Safe(w) && a.RestoreNext? && a.node in w.gateways
    ensures Do(w, a).db == w.db && Do(w, a).gateways == w.gateways[a.node := Do(w, a).gateways[a.node]]
    ensures GatewayOk(w.db, Do(w, a).gateways[a.node])
  {
    assert GatewayOk(w.db, w.gateways[a.node]);
  }

  lemma ListedOk(w: World, a: Action)
    requires Safe(w) && (a.ReadDirty? || a.Finish?) && a.node in w.gateways
    ensures Do(w, a).db == w.db && Do(w, a).gateways == w.gateways[a.node := Do(w, a).gateways[a.node]]
    ensures GatewayOk(w.db, Do(w, a).gateways[a.node])
  {
    assert GatewayOk(w.db, w.gateways[a.node]);
  }

  lemma GatewayStepSafe(w: World, a: Action)
    requires Safe(w) && !a.Create? && !a.Revoke? && !a.Retry? && !a.Publish? && !a.Boot? && !a.Die?
    requires a.node in w.gateways
    ensures Safe(Do(w, a)) && Progress(w.db, Do(w, a).db)
  {
    var p := w.gateways[a.node].phase;
    if a.ProjectNext? {
      if p.Projecting? && p.ids != [] { ProjectOneSafe(w, a.node, a.outcome); } else { ProgressReflexive(w.db); }
    } else {
      if a.RestoreNext? { RestoredOk(w, a); }
      else if a.ReadDirty? || a.Finish? { ListedOk(w, a); }
      else { DeliveredOk(w, a); }
      OneGatewaySafe(w, Do(w, a), a.node, Do(w, a).gateways[a.node]);
      ProgressReflexive(w.db);
    }
  }

  lemma StepSafe(w: World, a: Action)
    requires Safe(w)
    ensures Safe(Do(w, a)) && Progress(w.db, Do(w, a).db)
  {
    if a.Create? || a.Revoke? || a.Retry? || a.Publish? {
      TxSafe(w, a);
    } else if !a.Boot? && !a.Die? && a.node in w.gateways {
      GatewayStepSafe(w, a);
    }
  }

  /** Whatever happens after a safe state, the state stays safe and nothing is undone. */
  lemma {:induction false} RunSafe(w: World, actions: seq<Action>)
    requires Safe(w)
    ensures Safe(Run(w, actions)) && Progress(w.db, Run(w, actions).db)
    decreases |actions|
  {
    if actions != [] {
      var last := |actions| - 1;
      RunSafe(w, actions[..last]);
      StepSafe(Run(w, actions[..last]), actions[last]);
    }
  }

  // ---------- the statements about runs ----------

  /**
   Fence safety, for every interleaving of any number of gateways: a key whose desired generation is at
   or below the fence of some gateway has been applied; no fence runs ahead of the tenant's generation;
   no two keys of a tenant share a desired generation.
   */
  lemma {:induction false} FenceSafety(tenants: set<TenantId>, actions: seq<Action>)
    ensures var w := Run(Start(tenants), actions);
            && DesiredUnique(w.db)
            && (forall id :: id in w.db.keys ==>
                  w.db.keys[id].appliedGeneration <= w.db.keys[id].desiredGeneration <= w.db.Current(w.db.keys[id].tenantId))
            && (forall n, t :: n in w.gateways ==> w.gateways[n].Fence(t) <= w.db.Current(t))
            && (forall n, id :: n in w.gateways && id in w.db.keys
                                && w.db.keys[id].desiredGeneration <= w.gateways[n].Fence(w.db.keys[id].tenantId) ==>
                  w.db.keys[id].appliedGeneration == w.db.keys[id].desiredGeneration)
  {
    RunSafe(Start(tenants), actions);
    var w := Run(Start(tenants), actions);
    forall id | id in w.db.keys
      ensures w.db.keys[id].appliedGeneration <= w.db.keys[id].desiredGeneration <= w.db.Current(w.db.keys[id].tenantId)
    {
      assert KeyOk(w.db, id);
    }
    forall n, id | n in w.gateways && id in w.db.keys
                   && w.db.keys[id].desiredGeneration <= w.gateways[n].Fence(w.db.keys[id].tenantId)
      ensures w.db.keys[id].appliedGeneration == w.db.keys[id].desiredGeneration
    {
      assert KeyOk(w.db, id);
      assert GatewayOk(w.db, w.gateways[n]);
    }
  }

  /**
   The key state machine over all runs: a row is applied at its desired generation exactly when its status is
   active or revoked, and then the status is the desired state; every other status means work is outstanding.
   */
  lemma {:induction false} StatusTellsTheTruth(tenants: set<TenantId>, actions: seq<Action>, id: KeyId)
    requires id in Run(Start(tenants), actions).db.keys
    ensures var k := Run(Start(tenants), actions).db.keys[id];
            && (k.appliedGeneration == k.desiredGeneration <==> k.status.Active? || k.status.Revoked?)
            && (k.status.Active? ==> k.desiredState.DesiredActive?)
            && (k.status.Revoked? ==> k.desiredState.DesiredRevoked?)
            && (k.status.Pending? || k.status.Revoking? || k.status.Failed? ==> k.Dirty())
  {
    RunSafe(Start(tenants), actions);
    assert KeyOk(Run(Start(tenants), actions).db, id);
  }

  lemma RevokeMarks(db: Db, t: TenantId, keyId: KeyId)
    requires DbOk(db) && RevokeTx(db, t, keyId).Ok?
    ensures var d := RevokeTx(db, t, keyId).value.0; var id := TrimSpace(keyId);
            id in d.keys && d.keys[id].tenantId == t && d.keys[id].desiredState.DesiredRevoked?
            && id in db.keys && (db.keys[id].status.Revoked? ==> d.keys[id] == db.keys[id])
  {
  }

  lemma {:induction false} RunAround(w: World, before: seq<Action>, a: Action, after: seq<Action>)
    ensures Run(w, before + [a] + after) == Run(Do(Run(w, before), a), after)
  {
    RunConcat(w, before + [a], after);
    RunConcat(w, before, [a]);
    var w' := Run(w, before);
    assert [a][..0] == [];
    assert Run(w', [a][..0]) == w';
  }

  lemma StaysRevoked(a: Db, b: Db, t: TenantId, keyId: KeyId)
    requires Progress(a, b) && t != ""
    requires var id := TrimSpace(keyId); id in a.keys && a.keys[id].tenantId == t && a.keys[id].desiredState.DesiredRevoked?
    ensures var id := TrimSpace(keyId); id in b.keys && b.keys[id].tenantId == t && b.keys[id].desiredState.DesiredRevoked?
    ensures RevealTx(b, t, keyId) == Err(KeyUnavailable)
  {
  }

  /**
   Revocation is final: once RevokeTx has committed for a key, no later state of any continuation makes it
   desired-active again, so RevealTx never returns its secret; and from the state in which its row has become
   revoked, whenever that is, the row never changes.
   */
  lemma {:induction false} RevocationIsFinal(tenants: set<TenantId>, before: seq<Action>, later: seq<Action>, after: seq<Action>,
                                             t: TenantId, keyId: KeyId)
    requires RevokeTx(Run(Start(tenants), before).db, t, keyId).Ok?
    ensures var w := Run(Start(tenants), before + [Revoke(t, keyId)] + later);
            var w' := Run(Start(tenants), before + [Revoke(t, keyId)] + later + after);
            var id := TrimSpace(keyId);
            && RevealTx(w.db, t, keyId) == Err(KeyUnavailable) == RevealTx(w'.db, t, keyId)
            && id in w.db.keys && id in w'.db.keys
            && (w.db.keys[id].status.Revoked? ==> w'.db.keys[id] == w.db.keys[id])
  {
    var w0 := Run(Start(tenants), before);
    var w1 := Do(w0, Revoke(t, keyId));
    RunSafe(Start(tenants), before);
    StepSafe(w0, Revoke(t, keyId));
    RevokeMarks(w0.db, t, keyId);
    RunAround(Start(tenants), before, Revoke(t, keyId), later);
    RunSafe(w1, later);
    RunConcat(Start(tenants), before + [Revoke(t, keyId)] + later, after);
    RunSafe(Run(w1, later), after);
    StaysRevoked(w1.db, Run(w1, later).db, t, keyId);
    StaysRevoked(Run(w1, later).db, Run(Run(w1, later), after).db, t, keyId);
  }
}
