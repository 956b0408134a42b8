/**
 The control plane's tables: tenant virtual keys, one generation counter per tenant and the
 durable outbox. Every transaction is one atomic step, written as a function of the database value;
 the class `Store` performs the same transactions by assigning to its tables.
 */
module ControlPlane {
  import opened Common

  type TenantId = string
  type KeyId = string

  datatype Status = Pending | Active | Failed | Revoking | Revoked

  datatype DesiredState = DesiredActive | DesiredRevoked

  datatype Key = Key(
    id: KeyId,
    tenantId: TenantId,
    name: string,
    secret: string,
    status: Status,
    desiredState: DesiredState,
    desiredGeneration: nat,
    appliedGeneration: nat,
    lastError: string)
  {
    /** The projector has work to do for this row. */
    predicate Dirty() {
      appliedGeneration < desiredGeneration
    }
  }

  datatype Change = Change(tenantId: TenantId, generation: nat, entity: string)

  datatype Mutation = Mutation(key: Key, before: Option<Key>, change: Option<Change>)

  datatype TxError =
    | TenantRequired
    | EntityRequired
    | NameRequired
    | TenantNotFound
    | KeyNotFound
    | KeyUnavailable
    | InvalidTransition
    | UniqueViolation

  datatype Db = Db(
    tenants: set<TenantId>,
    keys: map<KeyId, Key>,
    generations: map<TenantId, nat>,
    outbox: seq<Change>)
  {
    /** The current generation of a tenant, zero before its first change. */
    function Current(t: TenantId): nat {
      if t in generations then generations[t] else 0
    }
  }

  const ENTITY_PREFIX := "virtual_key:"

  const MAX_NAME_BYTES := 120

  // ---------- transactions ----------

  /** Allocates the tenant's next generation and appends the outbox row that records it. */
  function PublishTx(db: Db, t: TenantId, entity: string): Result<(Db, Change), TxError> {
    if TrimSpace(t) == "" then Err(TenantRequired)
    else if TrimSpace(entity) == "" then Err(EntityRequired)
    else
      var change := Change(t, db.Current(t) + 1, TrimSpace(entity));
      Ok((db.(generations := db.generations[t := change.generation], outbox := db.outbox + [change]), change))
  }

  /** `id` and `secret` are the fresh random values; a clash on a unique index rolls everything back. */
  function CreateTx(db: Db, t: TenantId, rawName: string, id: KeyId, secret: string): Result<(Db, Mutation), TxError> {
    var name := TrimSpace(rawName);
    if t == "" then Err(TenantRequired)
    else if name == "" || |name| > MAX_NAME_BYTES then Err(NameRequired)
    else if t !in db.tenants then Err(TenantNotFound)
    else
      match PublishTx(db, t, ENTITY_PREFIX + id)
      case Err(e) => Err(e)
      case Ok((published, change)) =>
        if id in db.keys || NameTaken(db, t, name) then Err(UniqueViolation)
        else
          var row := Key(id, t, name, secret, Pending, DesiredActive, change.generation, 0, "");
          Ok((published.(keys := published.keys[id := row]), Mutation(row, None, Some(change))))
  }

  predicate NameTaken(db: Db, t: TenantId, name: string) {
    exists id :: id in db.keys && db.keys[id].tenantId == t && db.keys[id].name == name
  }

  function LockKey(db: Db, t: TenantId, keyId: string): Result<Key, TxError> {
    var id := TrimSpace(keyId);
    if t == "" then Err(TenantRequired)
    else if id in db.keys && db.keys[id].tenantId == t then Ok(db.keys[id])
    else Err(KeyNotFound)
  }

  function RevokeTx(db: Db, t: TenantId, keyId: string): Result<(Db, Mutation), TxError> {
    match LockKey(db, t, keyId)
    case Err(e) => Err(e)
    case Ok(row) =>
      if row.status.Revoked? || row.status.Revoking? then Ok((db, Mutation(row, None, None)))
      else
        match PublishTx(db, t, ENTITY_PREFIX + keyId)
        case Err(e) => Err(e)
        case Ok((published, change)) =>
          var next := row.(status := Revoking, desiredState := DesiredRevoked,
                           desiredGeneration := change.generation, lastError := "");
          Ok((published.(keys := published.keys[TrimSpace(keyId) := next]), Mutation(next, Some(row), Some(change))))
  }

  function RetryTx(db: Db, t: TenantId, keyId: string): Result<(Db, Mutation), TxError> {
    match LockKey(db, t, keyId)
    case Err(e) => Err(e)
    case Ok(row) =>
      if !row.status.Failed? then Err(InvalidTransition)
      else
        match PublishTx(db, t, ENTITY_PREFIX + keyId)
        case Err(e) => Err(e)
        case Ok((published, change)) =>
          var next := row.(status := if row.desiredState.DesiredRevoked? then Revoking else Pending,
                           desiredGeneration := change.generation, lastError := "");
          Ok((published.(keys := published.keys[TrimSpace(keyId) := next]), Mutation(next, Some(row), Some(change))))
  }

  /** The credential of one key, for an authorised portal request. */
  function RevealTx(db: Db, t: TenantId, keyId: string): Result<string, TxError> {
    match LockKey(db, t, keyId)
    case Err(e) => Err(e)
    case Ok(row) =>
      if !row.desiredState.DesiredActive? || row.status.Revoking? || row.status.Revoked? then Err(KeyUnavailable)
      else Ok(row.secret)
  }

  // ---------- the invariant of the tables ----------

  /** The status column tells exactly whether the row is projected and what it was projected as. */
  ghost predicate StatusOk(k: Key) {
    && k.appliedGeneration <= k.desiredGeneration
    && (k.status.Active? <==> !k.Dirty() && k.desiredState.DesiredActive?)
    && (k.status.Revoked? <==> !k.Dirty() && k.desiredState.DesiredRevoked?)
    && (k.status.Revoking? ==> k.desiredState.DesiredRevoked?)
    && (k.status.Pending? ==> k.desiredState.DesiredActive?)
  }

  ghost predicate KeyOk(db: Db, id: KeyId)
    requires id in db.keys
  {
    var k := db.keys[id];
    k.id == id && StatusOk(k) && 1 <= k.desiredGeneration <= db.Current(k.tenantId)
  }

  /** Some outbox row announces generation `g` of tenant `t`. */
  ghost predicate Announced(db: Db, t: TenantId, g: nat) {
    exists i :: 0 <= i < |db.outbox| && db.outbox[i].tenantId == t && db.outbox[i].generation == g
  }

  /** The outbox holds the generations 1 to the current one of each tenant, each once and in order. */
  ghost predicate OutboxOk(db: Db) {
    && (forall t :: t in db.generations ==> t != "" && db.generations[t] > 0)
    && (forall i :: 0 <= i < |db.outbox| ==>
          1 <= db.outbox[i].generation <= db.Current(db.outbox[i].tenantId))
    && (forall i, j :: 0 <= i < j < |db.outbox| && db.outbox[i].tenantId == db.outbox[j].tenantId ==>
          db.outbox[i].generation < db.outbox[j].generation)
    && (forall t, g :: 1 <= g <= db.Current(t) ==> Announced(db, t, g))
  }

  /** No two keys of a tenant wait for, or were applied at, the same generation. */
  ghost predicate DesiredUnique(db: Db) {
    forall a, b :: a in db.keys && b in db.keys && a != b && db.keys[a].tenantId == db.keys[b].tenantId ==>
      db.keys[a].desiredGeneration != db.keys[b].desiredGeneration
  }

  ghost predicate DbOk(db: Db) {
    && (forall id :: id in db.keys ==> KeyOk(db, id))
    && DesiredUnique(db)
    && OutboxOk(db)
  }

  /** What no step of the system undoes: identity, revocation, and the rise of every generation. */
  ghost predicate Progress(a: Db, b: Db) {
    && (forall t :: a.Current(t) <= b.Current(t))
    && a.outbox <= b.outbox
    && (forall id :: id in a.keys ==> id in b.keys && KeyProgress(a.keys[id], b.keys[id]))
  }

  ghost predicate KeyProgress(a: Key, b: Key) {
    && b.id == a.id && b.tenantId == a.tenantId && b.name == a.name && b.secret == a.secret
    && a.desiredGeneration <= b.desiredGeneration
    && a.appliedGeneration <= b.appliedGeneration
    && (a.desiredState.DesiredRevoked? ==> b.desiredState.DesiredRevoked?)
    && (a.status.Revoked? ==> b == a)
  }

  // ---------- lemmas about one transaction ----------

  lemma PublishKeepsOutbox(db: Db, t: TenantId, entity: string)
    requires DbOk(db) && PublishTx(db, t, entity).Ok?
    ensures var (d, c) := PublishTx(db, t, entity).value;
            OutboxOk(d) && DbOk(d) && Progress(db, d) && d.keys == db.keys
            && c.generation == db.Current(t) + 1 == d.Current(t)
            && (forall u :: u != t ==> d.Current(u) == db.Current(u))
  {
    var (d, c) := PublishTx(db, t, entity).value;
    forall u, g | 1 <= g <= d.Current(u) ensures Announced(d, u, g) {
      if u == t && g == c.generation {
        assert d.outbox[|db.outbox|] == c;
      } else {
        assert Announced(db, u, g);
        var i :| 0 <= i < |db.outbox| && db.outbox[i].tenantId == u && db.outbox[i].generation == g;
        assert d.outbox[i] == db.outbox[i];
      }
    }
  }

  /**
   Writing a row whose desired generation was just allocated keeps the tables consistent: this is
   why the generation and the row are written in one transaction.
   */
  lemma SaveAtNewGeneration(db: Db, id: KeyId, row: Key, g: nat)
    requires DbOk(db) && row.id == id && StatusOk(row)
    requires row.desiredGeneration == g == db.Current(row.tenantId) && g > 0
    requires forall other :: other in db.keys && other != id && db.keys[other].tenantId == row.tenantId ==>
      db.keys[other].desiredGeneration < g
    ensures DbOk(db.(keys := db.keys[id := row]))
  {
    var d := db.(keys := db.keys[id := row]);
    assert forall t, g :: 1 <= g <= d.Current(t) && Announced(db, t, g) ==> Announced(d, t, g);
    forall x | x in d.keys ensures KeyOk(d, x) {
      if x != id { assert KeyOk(db, x); }
    }
  }

  lemma CreateTxOk(db: Db, t: TenantId, name: string, id: KeyId, secret: string)
    requires DbOk(db) && CreateTx(db, t, name, id, secret).Ok?
    ensures var d := CreateTx(db, t, name, id, secret).value.0;
            DbOk(d) && Progress(db, d) && id in d.keys && d.keys[id].Dirty()
            && d.keys == db.keys[id := d.keys[id]] && id !in db.keys
            && d.keys[id].desiredGeneration > db.Current(t) && d.keys[id].tenantId == t
            && (forall u :: u != t ==> d.Current(u) == db.Current(u))
  {
    PublishKeepsOutbox(db, t, ENTITY_PREFIX + id);
    var (published, change) := PublishTx(db, t, ENTITY_PREFIX + id).value;
    forall other | other in published.keys && published.keys[other].tenantId == t
      ensures published.keys[other].desiredGeneration < change.generation
    {
      assert KeyOk(db, other);
    }
    SaveAtNewGeneration(published, id, CreateTx(db, t, name, id, secret).value.1.key, change.generation);
  }

  /** Revoking or retrying leaves the tables alone or moves one row to a generation nobody has seen. */
  lemma {:induction false} MutateTxOk(db: Db, t: TenantId, keyId: string, r: Result<(Db, Mutation), TxError>)
    requires DbOk(db) && (r == RevokeTx(db, t, keyId) || r == RetryTx(db, t, keyId)) && r.Ok?
    ensures var (d, m) := r.value; var id := m.key.id;
            DbOk(d) && Progress(db, d) && id in db.keys && db.keys[id].tenantId == t
            && (m.change.None? ==> d == db)
            && (m.change.Some? ==> d.keys == db.keys[id := m.key] && m.key.Dirty()
                                   && m.key.desiredGeneration > db.Current(t))
            && (forall u :: u != t ==> d.Current(u) == db.Current(u))
  {
    var (d, m) := r.value;
    var id := TrimSpace(keyId);
    assert KeyOk(db, id);
    if m.change.Some? {
      PublishKeepsOutbox(db, t, ENTITY_PREFIX + keyId);
      var (published, change) := PublishTx(db, t, ENTITY_PREFIX + keyId).value;
      forall other | other in published.keys && published.keys[other].tenantId == t
        ensures published.keys[other].desiredGeneration < change.generation
      {
        assert KeyOk(db, other);
      }
      SaveAtNewGeneration(published, id, m.key, change.generation);
    }
  }

  /**
   RevealTx tests three columns; in a consistent database the desired state alone decides, so the
   two status tests never change its answer.
   */
  lemma RevealTxIffDesiredActive(db: Db, t: TenantId, keyId: string)
    requires DbOk(db) && LockKey(db, t, keyId).Ok?
    ensures RevealTx(db, t, keyId).Ok? <==> LockKey(db, t, keyId).value.desiredState.DesiredActive?
  {
  }

  // ---------- the tables as mutable state ----------

  class Store {
    var tenants: set<TenantId>
    var keys: map<KeyId, Key>
    var generations: map<TenantId, nat>
    var outbox: seq<Change>

    ghost function Tables(): Db
      reads this
    {
      Db(tenants, keys, generations, outbox)
    }

    constructor (tenants: set<TenantId>)
      ensures Tables() == Db(tenants, map[], map[], []) && DbOk(Tables())
    {
      this.tenants := tenants;
      keys, generations, outbox := map[], map[], [];
    }

    method Publish(t: TenantId, entity: string) returns (r: Result<Change, TxError>)
      requires DbOk(Tables())
      modifies this
      ensures DbOk(Tables()) && Progress(old(Tables()), Tables())
      ensures match PublishTx(old(Tables()), t, entity)
              case Ok((d, change)) => r == Ok(change) && Tables() == d
              case Err(e) => r == Err(e) && Tables() == old(Tables())
    {
      if TrimSpace(t) == "" { return Err(TenantRequired); }
      if TrimSpace(entity) == "" { return Err(EntityRequired); }
      ghost var before := Tables();
      var generation := 1;
      if t in generations { generation := generations[t] + 1; }
      generations := generations[t := generation];
      var change := Change(t, generation, TrimSpace(entity));
      outbox := outbox + [change];
      PublishKeepsOutbox(before, t, entity);
      return Ok(change);
    }

    method Create(t: TenantId, rawName: string, id: KeyId, secret: string) returns (r: Result<Mutation, TxError>)
      requires DbOk(Tables())
      modifies this
      ensures DbOk(Tables()) && Progress(old(Tables()), Tables())
      ensures match CreateTx(old(Tables()), t, rawName, id, secret)
              case Ok((d, m)) => r == Ok(m) && Tables() == d
              case Err(e) => r == Err(e) && Tables() == old(Tables())
    {
      var name := TrimSpace(rawName);
      if t == "" { return Err(TenantRequired); }
      if name == "" || |name| > MAX_NAME_BYTES { return Err(NameRequired); }
      if t !in tenants { return Err(TenantNotFound); }
      ghost var before := Tables();
      var savedGenerations, savedOutbox := generations, outbox;
      var published := Publish(t, ENTITY_PREFIX + id);
      if published.Err? { return Err(published.error); }
      if id in keys || NameTaken(Db(tenants, keys, generations, outbox), t, name) {
        generations, outbox := savedGenerations, savedOutbox;
        assert Tables() == before;
        return Err(UniqueViolation);
      }
      var row := Key(id, t, name, secret, Pending, DesiredActive, published.value.generation, 0, "");
      keys := keys[id := row];
      assert CreateTx(before, t, rawName, id, secret) == Ok((Tables(), Mutation(row, None, Some(published.value))));
      CreateTxOk(before, t, rawName, id, secret);
      return Ok(Mutation(row, None, Some(published.value)));
    }

    method Revoke(t: TenantId, keyId: string) returns (r: Result<Mutation, TxError>)
      requires DbOk(Tables())
      modifies this
      ensures DbOk(Tables()) && Progress(old(Tables()), Tables())
      ensures match RevokeTx(old(Tables()), t, keyId)
              case Ok((d, m)) => r == Ok(m) && Tables() == d
              case Err(e) => r == Err(e) && Tables() == old(Tables())
    {
      var id := TrimSpace(keyId);
      if t == "" { return Err(TenantRequired); }
      if id !in keys || keys[id].tenantId != t { return Err(KeyNotFound); }
      var row := keys[id];
      if row.status.Revoked? || row.status.Revoking? { return Ok(Mutation(row, None, None)); }
      ghost var before := Tables();
      var published := Publish(t, ENTITY_PREFIX + keyId);
      if published.Err? { return Err(published.error); }
      var next := row.(status := Revoking, desiredState := DesiredRevoked);
      next := next.(desiredGeneration := published.value.generation, lastError := "");
      keys := keys[id := next];
      assert RevokeTx(before, t, keyId) == Ok((Tables(), Mutation(next, Some(row), Some(published.value))));
      MutateTxOk(before, t, keyId, RevokeTx(before, t, keyId));
      return Ok(Mutation(next, Some(row), Some(published.value)));
    }

    method Retry(t: TenantId, keyId: string) returns (r: Result<Mutation, TxError>)
      requires DbOk(Tables())
      modifies this
      ensures DbOk(Tables()) && Progress(old(Tables()), Tables())
      ensures match RetryTx(old(Tables()), t, keyId)
              case Ok((d, m)) => r == Ok(m) && Tables() == d
              case Err(e) => r == Err(e) && Tables() == old(Tables())
    {
      var id := TrimSpace(keyId);
      if t == "" { return Err(TenantRequired); }
      if id !in keys || keys[id].tenantId != t { return Err(KeyNotFound); }
      var row := keys[id];
      if !row.status.Failed? { return Err(InvalidTransition); }
      ghost var before := Tables();
      var published := Publish(t, ENTITY_PREFIX + keyId);
      if published.Err? { return Err(published.error); }
      var next := row;
      if row.desiredState.DesiredRevoked? { next := next.(status := Revoking); } else { next := next.(status := Pending); }
      next := next.(desiredGeneration := published.value.generation, lastError := "");
      keys := keys[id := next];
      assert RetryTx(before, t, keyId) == Ok((Tables(), Mutation(next, Some(row), Some(published.value))));
      MutateTxOk(before, t, keyId, RetryTx(before, t, keyId));
      return Ok(Mutation(next, Some(row), Some(published.value)));
    }
  }
}
