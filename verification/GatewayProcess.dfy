/**
 One gateway process in the form of its source: a target over a store and a cache, a projector that loops over
 rows, and a reconciler with a fence. Each method is proved against a statement of its whole effect, and
 returns the sequence of protocol actions it performed, so all that holds of every run holds of it.
 */
module GatewayProcess {
  import opened Common
  import opened ControlPlane
  import opened Projection
  import opened ProjectionSafety

  const INCOMPLETE := "incomplete virtual key projection"

  /** How the environment answers a write for each key; a key not named is written and committed. */
  type Fate = map<KeyId, Outcome>

  function FateOf(id: KeyId, fate: Fate): Outcome {
    if id in fate then fate[id] else Written(true)
  }

  /** The target looks at what it is given before it writes; a revocation needs no secret. */
  predicate Complete(k: Key) {
    k.id != "" && k.tenantId != "" && (k.desiredState.DesiredActive? ==> k.secret != "")
  }

  function OutcomeFor(k: Key, fate: Fate): Outcome {
    match FateOf(k.id, fate)
    case Unread => Unread
    case Written(commits) => if Complete(k) then Written(commits) else Refused(false, INCOMPLETE, commits)
    case Refused(wrote, reason, marks) =>
      if Complete(k) then Refused(wrote, reason, marks) else Refused(false, INCOMPLETE, marks)
  }

  /** The row is written, in the cache and committed. */
  predicate Settles(k: Key, fate: Fate) {
    OutcomeFor(k, fate) == Written(true)
  }

  /** The tenant's rows after one pass of the projector: every dirty row is attempted, no other row moves. */
  function ProjectAll(keys: map<KeyId, Key>, t: TenantId, fate: Fate): map<KeyId, Key> {
    map id | id in keys ::
      if keys[id].tenantId == t && keys[id].Dirty() then Settled(keys[id], OutcomeFor(keys[id], fate)) else keys[id]
  }

  predicate DirtyOf(keys: map<KeyId, Key>, t: TenantId, id: KeyId) {
    id in keys && keys[id].tenantId == t && keys[id].Dirty()
  }

  /** Some outstanding row of the tenant stays outstanding. */
  predicate SomeUnsettled(keys: map<KeyId, Key>, t: TenantId, fate: Fate) {
    exists id :: id in keys && DirtyOf(keys, t, id) && !Settles(keys[id], fate)
  }

  /** Some row of the restore snapshot is not accepted. */
  predicate SomeRejected(keys: map<KeyId, Key>, t: TenantId, fate: Fate) {
    exists id :: id in keys && CleanActive(keys[id], t) && !OutcomeFor(keys[id], fate).Written?
  }

  class Target {
    var store: Snapshot
    var cache: Snapshot

    constructor ()
      ensures store == map[] && cache == map[]
    {
      store, cache := map[], map[];
    }

    /**
     The row is written in a transaction; the cache follows only when that succeeded. The transaction may report an
     error although it took effect.
     */
    method Upsert(id: KeyId, projected: Projected, outcome: Outcome) returns (ok: bool)
      modifies this
      ensures var complete := id != "" && projected.tenantId != "" && projected.secret != "";
              && ok == (complete && outcome.Written?)
              && store == (if complete && WritesStore(outcome) then old(store)[id := projected] else old(store))
              && cache == (if ok then old(cache)[id := projected] else old(cache))
    {
      if id == "" || projected.tenantId == "" || projected.secret == "" { return false; }
      if !WritesStore(outcome) { return false; }
      store := store[id := projected];
      if !outcome.Written? { return false; }
      cache := cache[id := store[id]];
      return true;
    }

    /** Deleting a key that is not there succeeds. */
    method Delete(t: TenantId, id: KeyId, outcome: Outcome) returns (ok: bool)
      modifies this
      ensures var complete := t != "" && id != "";
              && ok == (complete && outcome.Written?)
              && store == (if complete && WritesStore(outcome) then old(store) - {id} else old(store))
              && cache == (if ok then old(cache) - {id} else old(cache))
    {
      if t == "" || id == "" { return false; }
      if !WritesStore(outcome) { return false; }
      if id in store { store := store - {id}; }
      if !outcome.Written? { return false; }
      cache := cache - {id};
      return true;
    }
  }

  predicate IsOldest(keys: map<KeyId, Key>, ids: set<KeyId>, id: KeyId)
    requires ids <= keys.Keys
  {
    id in ids && forall other :: other in ids ==> keys[id].desiredGeneration <= keys[other].desiredGeneration
  }

  lemma {:induction false} OldestExists(keys: map<KeyId, Key>, ids: set<KeyId>)
    requires ids != {} && ids <= keys.Keys
    ensures exists id :: IsOldest(keys, ids, id)
    decreases ids
  {
    var x :| x in ids;
    var others := ids - {x};
    if others == {} {
      assert ids == {x};
      assert IsOldest(keys, ids, x);
    } else {
      OldestExists(keys, others);
      var y :| IsOldest(keys, others, y);
      if keys[x].desiredGeneration < keys[y].desiredGeneration {
        assert IsOldest(keys, ids, x);
      } else {
        assert IsOldest(keys, ids, y);
      }
    }
  }

  /** `ids` is the oldest part of the tenant's dirty rows, in order; `rest` are the others. */
  ghost predicate SplitByAge(keys: map<KeyId, Key>, t: TenantId, ids: seq<KeyId>, rest: set<KeyId>) {
    && (forall id :: id in rest ==> DirtyOf(keys, t, id))
    && (forall i :: 0 <= i < |ids| ==> DirtyOf(keys, t, ids[i]))
    && (forall id :: DirtyOf(keys, t, id) ==> id in ids || id in rest)
    && (forall i, j :: 0 <= i < j < |ids| ==> keys[ids[i]].desiredGeneration < keys[ids[j]].desiredGeneration)
    && (forall i, id :: 0 <= i < |ids| && id in rest ==> keys[ids[i]].desiredGeneration < keys[id].desiredGeneration)
  }

  lemma SplitStep(db: Db, t: TenantId, ids: seq<KeyId>, rest: set<KeyId>, oldest: KeyId)
    requires DesiredUnique(db) && SplitByAge(db.keys, t, ids, rest)
    requires rest <= db.keys.Keys && IsOldest(db.keys, rest, oldest)
    ensures SplitByAge(db.keys, t, ids + [oldest], rest - {oldest})
  {
  }

  /** The query of ProjectTenant: the dirty rows, oldest desired generation first. */
  method ListDirty(keys: map<KeyId, Key>, t: TenantId, ghost db: Db) returns (ids: seq<KeyId>)
    requires DbOk(db) && db.keys == keys
    ensures IsDirtyListing(db, t, ids)
  {
    var rest := set id | id in keys && DirtyOf(keys, t, id);
    ids := [];
    while rest != {}
      invariant rest <= keys.Keys && SplitByAge(keys, t, ids, rest)
      decreases rest
    {
      OldestExists(keys, rest);
      var oldest :| oldest in rest && IsOldest(keys, rest, oldest);
      SplitStep(db, t, ids, rest, oldest);
      rest, ids := rest - {oldest}, ids + [oldest];
    }
    assert forall i :: 0 <= i < |ids| ==> DirtyOf(keys, t, ids[i]);
    assert forall id :: DirtyOf(keys, t, id) ==> id in ids;
  }

  lemma KeyedById(db: Db)
    requires DbOk(db)
    ensures forall id :: id in db.keys ==> db.keys[id].id == id
  {
  }

  /** The query of restoreTenantOnce. */
  method ListActive(keys: map<KeyId, Key>, t: TenantId, ghost db: Db) returns (rows: seq<Key>)
    requires DbOk(db) && db.keys == keys
    ensures IsActiveListing(db, t, rows)
  {
    var rest := set id | id in keys && CleanActive(keys[id], t);
    rows := [];
    KeyedById(db);
    while rest != {}
      invariant rest <= keys.Keys && forall id :: id in rest ==> CleanActive(keys[id], t)
      invariant forall i :: 0 <= i < |rows| ==> CleanActive(rows[i], t) && rows[i].id in keys && keys[rows[i].id] == rows[i] && rows[i].id !in rest
      invariant forall id :: id in keys && CleanActive(keys[id], t) ==> keys[id] in rows || id in rest
      invariant Distinct(rows)
      decreases rest
    {
      var id :| id in rest;
      rest := rest - {id};
      rows := rows + [keys[id]];
    }
  }

  // ---------- one row ----------

  /** The pass has dealt with the ids before `i` and with nothing else. */
  ghost predicate PassedUpTo(before: map<KeyId, Key>, now: map<KeyId, Key>, t: TenantId, fate: Fate, ids: seq<KeyId>, i: nat)
    requires i <= |ids|
  {
    && now.Keys == before.Keys
    && (forall id :: id in before && id in ids[..i] ==> now[id] == ProjectAll(before, t, fate)[id])
    && (forall id :: id in before && id !in ids[..i] ==> now[id] == before[id])
  }

  lemma PassStep(before: map<KeyId, Key>, now: map<KeyId, Key>, t: TenantId, fate: Fate, ids: seq<KeyId>, i: nat)
    requires i < |ids| && PassedUpTo(before, now, t, fate, ids, i)
    requires DirtyOf(before, t, ids[i]) && ids[i] !in ids[..i]
    ensures PassedUpTo(before, now[ids[i] := Settled(before[ids[i]], OutcomeFor(before[ids[i]], fate))], t, fate, ids, i + 1)
  {
  }

  lemma PassedRow(db: Db, id: KeyId, row: Key, outcome: Outcome)
    requires DbOk(db) && id in db.keys
    requires row == db.keys[id] || (db.keys[id].Dirty() && row == Settled(db.keys[id], outcome))
    ensures row.id == id && StatusOk(row) && row.tenantId == db.keys[id].tenantId
    ensures row.desiredGeneration == db.keys[id].desiredGeneration
    ensures 1 <= row.desiredGeneration <= db.Current(row.tenantId)
  {
  }

  /** In the middle of a pass the tables are still consistent. */
  lemma PassedOk(db: Db, now: Db, t: TenantId, fate: Fate, ids: seq<KeyId>, i: nat)
    requires DbOk(db) && i <= |ids| && PassedUpTo(db.keys, now.keys, t, fate, ids, i)
    requires now == db.(keys := now.keys)
    ensures DbOk(now)
  {
    OutboxUntouched(db, now);
    forall id | id in now.keys
      ensures KeyOk(now, id) && now.keys[id].desiredGeneration == db.keys[id].desiredGeneration
              && now.keys[id].tenantId == db.keys[id].tenantId
    {
      PassedRow(db, id, now.keys[id], OutcomeFor(db.keys[id], fate));
    }
  }

  predicate Healthy(keys: map<KeyId, Key>, ids: seq<KeyId>, fate: Fate) {
    forall id :: id in ids && id in keys ==> Settles(keys[id], fate)
  }

  lemma NextSettled(db: Db, now: Db, t: TenantId, fate: Fate, ids: seq<KeyId>, i: nat)
    requires DbOk(db) && IsDirtyListing(db, t, ids) && i < |ids|
    requires now == db.(keys := now.keys) && PassedUpTo(db.keys, now.keys, t, fate, ids, i)
    ensures DbOk(now) && DirtyOf(now.keys, t, ids[i])
    ensures now.keys[ids[i]] == db.keys[ids[i]]
    ensures PassedUpTo(db.keys, now.keys[ids[i] := Settled(now.keys[ids[i]], OutcomeFor(now.keys[ids[i]], fate))], t, fate, ids, i + 1)
  {
    PassedOk(db, now, t, fate, ids, i);
    ListingDistinct(db, t, ids, i);
    assert now.keys[ids[i]] == db.keys[ids[i]];
    PassStep(db.keys, now.keys, t, fate, ids, i);
  }

  lemma NextHealthy(keys: map<KeyId, Key>, ids: seq<KeyId>, fate: Fate, i: nat)
    requires i < |ids| && ids[i] in keys
    ensures ids[i..] != [] && ids[i..][0] == ids[i] && ids[i..][1..] == ids[i + 1..]
    ensures Healthy(keys, ids[..i + 1], fate) <==> Healthy(keys, ids[..i], fate) && Settles(keys[ids[i]], fate)
  {
  }

  /** Where the loop stands after `i` rows. */
  ghost predicate RowsDone(db: Db, now: Db, t: TenantId, fate: Fate, ids: seq<KeyId>, i: nat, failed: bool)
    requires i <= |ids|
  {
    && now == db.(keys := now.keys)
    && PassedUpTo(db.keys, now.keys, t, fate, ids, i)
    && (failed <==> !Healthy(db.keys, ids[..i], fate))
  }

  /** What the loop needs to know about the row it is about to project. */
  lemma NextRow(db: Db, now: Db, t: TenantId, fate: Fate, ids: seq<KeyId>, i: nat, failed: bool)
    requires DbOk(db) && IsDirtyListing(db, t, ids) && i < |ids| && RowsDone(db, now, t, fate, ids, i, failed)
    ensures DbOk(now) && DirtyOf(now.keys, t, ids[i])
    ensures ids[i..] != [] && ids[i..][0] == ids[i] && ids[i..][1..] == ids[i + 1..]
    ensures var k := now.keys[ids[i]];
            var keys := now.keys[ids[i] := Settled(k, OutcomeFor(k, fate))];
            RowsDone(db, now.(keys := keys), t, fate, ids, i + 1, failed || !Settles(k, fate))
  {
    NextSettled(db, now, t, fate, ids, i);
    NextHealthy(db.keys, ids, fate, i);
  }

  lemma HealthyListing(db: Db, t: TenantId, ids: seq<KeyId>, fate: Fate)
    requires IsDirtyListing(db, t, ids)
    ensures Healthy(db.keys, ids, fate) <==> !SomeUnsettled(db.keys, t, fate)
  {
  }

  lemma PassEnd(db: Db, now: map<KeyId, Key>, t: TenantId, fate: Fate, ids: seq<KeyId>)
    requires IsDirtyListing(db, t, ids) && PassedUpTo(db.keys, now, t, fate, ids, |ids|)
    ensures now == ProjectAll(db.keys, t, fate)
  {
  }

  lemma ListingDistinct(db: Db, t: TenantId, ids: seq<KeyId>, i: nat)
    requires IsDirtyListing(db, t, ids) && i < |ids|
    ensures DirtyOf(db.keys, t, ids[i]) && ids[i] !in ids[..i]
  {
  }

  // ---------- one action, seen from the process ----------

  /** The protocol state in which `gw` is gateway `n`. */
  function Assemble(db: Db, store: Snapshot, others: map<NodeId, Gateway>, n: NodeId, gw: Gateway): World {
    World(db, store, others[n := gw])
  }

  lemma RunSnoc(w: World, trace: seq<Action>, a: Action)
    ensures Run(w, trace + [a]) == Do(Run(w, trace), a)
  {
  }

  lemma DoReadActive(db: Db, store: Snapshot, others: map<NodeId, Gateway>, n: NodeId, gw: Gateway, rows: seq<Key>)
    requires gw.phase.Reloading? && gw.phase.tenantId !in gw.restored && IsActiveListing(db, gw.phase.tenantId, rows)
    ensures Do(Assemble(db, store, others, n, gw), ReadActive(n, rows))
         == Assemble(db, store, others, n, gw.(phase := Restoring(gw.phase.tenantId, gw.phase.generation, rows)))
  {
  }

  lemma DoRestoreNext(db: Db, store: Snapshot, others: map<NodeId, Gateway>, n: NodeId, gw: Gateway, outcome: Outcome)
    requires gw.phase.Restoring? && gw.phase.rows != []
    ensures var k := gw.phase.rows[0];
            Do(Assemble(db, store, others, n, gw), RestoreNext(n, outcome)) ==
            Assemble(db, if WritesStore(outcome) then store[k.id := ProjectedOf(k)] else store, others, n,
                     if outcome.Written?
                     then gw.(cache := gw.cache[k.id := ProjectedOf(k)], phase := gw.phase.(rows := gw.phase.rows[1..]))
                     else gw.(phase := Idle))
  {
  }

  lemma DoRestoreEnd(db: Db, store: Snapshot, others: map<NodeId, Gateway>, n: NodeId, gw: Gateway)
    requires gw.phase.Restoring? && gw.phase.rows == []
    ensures Do(Assemble(db, store, others, n, gw), RestoreNext(n, Written(true)))
         == Assemble(db, store, others, n, gw.(restored := gw.restored + {gw.phase.tenantId},
                                               phase := Reloading(gw.phase.tenantId, gw.phase.generation)))
  {
  }

  lemma DoReadDirty(db: Db, store: Snapshot, others: map<NodeId, Gateway>, n: NodeId, gw: Gateway, ids: seq<KeyId>)
    requires gw.phase.Reloading? && gw.phase.tenantId in gw.restored && IsDirtyListing(db, gw.phase.tenantId, ids)
    ensures Do(Assemble(db, store, others, n, gw), ReadDirty(n, ids))
         == Assemble(db, store, others, n, gw.(phase := Projecting(gw.phase.tenantId, gw.phase.generation, ids, false)))
  {
  }

  lemma DoProjectNext(db: Db, store: Snapshot, others: map<NodeId, Gateway>, n: NodeId, gw: Gateway, outcome: Outcome)
    requires gw.phase.Projecting? && gw.phase.ids != [] && DirtyOf(db.keys, gw.phase.tenantId, gw.phase.ids[0])
    ensures var id := gw.phase.ids[0];
            var k := db.keys[id];
            var next := gw.phase.(ids := gw.phase.ids[1..], failed := gw.phase.failed || outcome != Written(true));
            Do(Assemble(db, store, others, n, gw), ProjectNext(n, outcome)) ==
            Assemble(db.(keys := db.keys[id := Settled(k, outcome)]), if WritesStore(outcome) then Apply(store, k) else store,
                     others, n, gw.(cache := if outcome.Written? then Apply(gw.cache, k) else gw.cache, phase := next))
  {
    if outcome.Unread? {
      assert db.keys[gw.phase.ids[0] := db.keys[gw.phase.ids[0]]] == db.keys;
    }
  }

  lemma ActiveListing(db: Db, t: TenantId, rows: seq<Key>, fate: Fate)
    requires DbOk(db) && IsActiveListing(db, t, rows)
    ensures (forall j :: 0 <= j < |rows| ==> OutcomeFor(rows[j], fate).Written?) <==> !SomeRejected(db.keys, t, fate)
  {
  }

  // ---------- the projector ----------

  class Projector {
    const tables: Store
    const target: Target
    var restored: set<TenantId>

    constructor (tables: Store, target: Target)
      ensures this.tables == tables && this.target == target && restored == {}
    {
      this.tables, this.target := tables, target;
      restored := {};
    }

    /** The protocol state of which this process is gateway `n`. */
    ghost function View(n: NodeId, others: map<NodeId, Gateway>, fence: map<TenantId, nat>, phase: Phase): World
      reads this, tables, target
    {
      Assemble(tables.Tables(), target.store, others, n, Gateway(fence, restored, target.cache, phase))
    }

    /** One upsert from the snapshot is one protocol action. */
    method RestoreRow(t: TenantId, rows: seq<Key>, fate: Fate, ghost g: nat,
                      ghost n: NodeId, ghost others: map<NodeId, Gateway>, ghost fence: map<TenantId, nat>)
      returns (ok: bool)
      requires rows != [] && rows[0].desiredState.DesiredActive?
      modifies target
      ensures ok == OutcomeFor(rows[0], fate).Written?
      ensures Do(old(View(n, others, fence, Restoring(t, g, rows))), RestoreNext(n, OutcomeFor(rows[0], fate)))
           == View(n, others, fence, if ok then Restoring(t, g, rows[1..]) else Idle)
    {
      DoRestoreNext(tables.Tables(), target.store, others, n,
                    Gateway(fence, restored, target.cache, Restoring(t, g, rows)), OutcomeFor(rows[0], fate));
      ok := target.Upsert(rows[0].id, ProjectedOf(rows[0]), FateOf(rows[0].id, fate));
    }

    /** The loop of restoreTenantOnce: it stops at the first row that fails. */
    method RestoreRows(t: TenantId, rows: seq<Key>, fate: Fate, ghost g: nat,
                       ghost n: NodeId, ghost others: map<NodeId, Gateway>, ghost fence: map<TenantId, nat>)
      returns (ok: bool, ghost trace: seq<Action>)
      requires forall j :: 0 <= j < |rows| ==> rows[j].desiredState.DesiredActive?
      modifies target
      ensures ok <==> forall j :: 0 <= j < |rows| ==> OutcomeFor(rows[j], fate).Written?
      ensures Run(old(View(n, others, fence, Restoring(t, g, rows))), trace)
           == View(n, others, fence, if ok then Restoring(t, g, []) else Idle)
    {
      ghost var w0 := View(n, others, fence, Restoring(t, g, rows));
      trace := [];
      var i := 0;
      assert rows[0..] == rows;
      while i < |rows|
        invariant 0 <= i <= |rows|
        invariant forall j :: 0 <= j < i ==> OutcomeFor(rows[j], fate).Written?
        invariant Run(w0, trace) == View(n, others, fence, Restoring(t, g, rows[i..]))
      {
        ghost var a := RestoreNext(n, OutcomeFor(rows[i], fate));
        RunSnoc(w0, trace, a);
        trace := trace + [a];
        assert rows[i..][1..] == rows[i + 1..];
        var upserted := RestoreRow(t, rows[i..], fate, g, n, others, fence);
        if !upserted { return false, trace; }
        i := i + 1;
      }
      assert rows[i..] == [];
      ok := true;
    }

    method RestoreTenantOnce(t: TenantId, fate: Fate, ghost g: nat,
                             ghost n: NodeId, ghost others: map<NodeId, Gateway>, ghost fence: map<TenantId, nat>)
      returns (ok: bool, ghost trace: seq<Action>)
      requires DbOk(tables.Tables())
      modifies this, target
      ensures ok <==> t in old(restored) || !SomeRejected(tables.keys, t, fate)
      ensures restored == if ok then old(restored) + {t} else old(restored)
      ensures Run(old(View(n, others, fence, Reloading(t, g))), trace)
           == View(n, others, fence, if ok then Reloading(t, g) else Idle)
    {
      trace := [];
      if t in restored { return true, trace; }
      ghost var w0 := View(n, others, fence, Reloading(t, g));
      ghost var db := tables.Tables();
      var rows := ListActive(tables.keys, t, db);
      DoReadActive(db, target.store, others, n, Gateway(fence, restored, target.cache, Reloading(t, g)), rows);
      RunSnoc(w0, trace, ReadActive(n, rows));
      ghost var rest;
      ok, rest := RestoreRows(t, rows, fate, g, n, others, fence);
      ActiveListing(db, t, rows, fate);
      RunConcat(w0, [] + [ReadActive(n, rows)], rest);
      trace := [] + [ReadActive(n, rows)] + rest;
      if !ok { return; }
      DoRestoreEnd(db, target.store, others, n, Gateway(fence, restored, target.cache, Restoring(t, g, [])));
      RunSnoc(w0, trace, RestoreNext(n, Written(true)));
      restored := restored + {t};
      trace := trace + [RestoreNext(n, Written(true))];
    }

    /**
     One row under its lock. The target's write and the row's update are two transactions: the target may have
     written although it reports an error, and the row's update may be lost although the target succeeded.
     */
    method ProjectOne(t: TenantId, id: KeyId, fate: Fate) returns (ok: bool)
      requires DbOk(tables.Tables())
      modifies tables`keys, target
      ensures var keys := old(tables.keys);
              if DirtyOf(keys, t, id) then
                var k := keys[id];
                var outcome := OutcomeFor(k, fate);
                ok == (outcome == Written(true))
                && tables.keys == keys[id := Settled(k, outcome)]
                && target.store == (if WritesStore(outcome) then Apply(old(target.store), k) else old(target.store))
                && target.cache == (if outcome.Written? then Apply(old(target.cache), k) else old(target.cache))
              else
                ok == !FateOf(id, fate).Unread?
                && tables.keys == keys && target.store == old(target.store) && target.cache == old(target.cache)
    {
      var outcome := FateOf(id, fate);
      if outcome.Unread? {
        assert id in tables.keys ==> tables.keys[id := tables.keys[id]] == tables.keys && KeyOk(tables.Tables(), id);
        return false;
      }
      if id !in tables.keys || tables.keys[id].tenantId != t { return true; }
      var row := tables.keys[id];
      if row.appliedGeneration >= row.desiredGeneration { return true; }
      assert row.id == id by { assert KeyOk(tables.Tables(), id); }
      ok := ProjectRow(row, outcome);
      var commits := if outcome.Written? then outcome.commits else outcome.marks;
      var settled :=
        if ok then
          row.(status := if row.desiredState.DesiredActive? then Active else ControlPlane.Revoked,
               appliedGeneration := row.desiredGeneration, lastError := "")
        else
          row.(status := Failed, lastError := if Complete(row) then outcome.reason else INCOMPLETE);
      if commits { tables.keys := tables.keys[id := settled]; }
      else { assert tables.keys[id := row] == tables.keys; }
      ok := ok && commits;
    }

    /** The call of the target that the desired state asks for. */
    method ProjectRow(row: Key, outcome: Outcome) returns (ok: bool)
      modifies target
      ensures ok == (Complete(row) && outcome.Written?)
      ensures target.store == (if Complete(row) && WritesStore(outcome) then Apply(old(target.store), row) else old(target.store))
      ensures target.cache == (if ok then Apply(old(target.cache), row) else old(target.cache))
    {
      match row.desiredState {
        case DesiredActive => ok := target.Upsert(row.id, ProjectedOf(row), outcome);
        case DesiredRevoked => ok := target.Delete(row.tenantId, row.id, outcome);
      }
    }

    /** `ProjectOne` is one protocol action. */
    method ProjectNextRow(t: TenantId, ids: seq<KeyId>, fate: Fate, joined: bool, ghost g: nat,
                          ghost n: NodeId, ghost others: map<NodeId, Gateway>, ghost fence: map<TenantId, nat>)
      returns (failed: bool)
      requires DbOk(tables.Tables()) && ids != [] && DirtyOf(tables.keys, t, ids[0])
      modifies tables`keys, target
      ensures var k := old(tables.keys)[ids[0]];
              && failed == (joined || !Settles(k, fate))
              && tables.keys == old(tables.keys)[ids[0] := Settled(k, OutcomeFor(k, fate))]
              && Do(old(View(n, others, fence, Projecting(t, g, ids, joined))), ProjectNext(n, OutcomeFor(k, fate)))
                 == View(n, others, fence, Projecting(t, g, ids[1..], failed))
    {
      DoProjectNext(tables.Tables(), target.store, others, n,
                    Gateway(fence, restored, target.cache, Projecting(t, g, ids, joined)), OutcomeFor(tables.keys[ids[0]], fate));
      var ok := ProjectOne(t, ids[0], fate);
      failed := joined || !ok;
    }

    /** One iteration of ProjectTenant's loop. */
    method ProjectListedNext(t: TenantId, ids: seq<KeyId>, i: nat, fate: Fate, joined: bool, ghost g: nat, ghost db: Db,
                             ghost n: NodeId, ghost others: map<NodeId, Gateway>, ghost fence: map<TenantId, nat>,
                             ghost w0: World, ghost past: seq<Action>)
      returns (failed: bool, ghost trace: seq<Action>)
      requires DbOk(db) && IsDirtyListing(db, t, ids) && i < |ids| && RowsDone(db, tables.Tables(), t, fate, ids, i, joined)
      requires Run(w0, past) == View(n, others, fence, Projecting(t, g, ids[i..], joined))
      modifies tables`keys, target
      ensures RowsDone(db, tables.Tables(), t, fate, ids, i + 1, failed)
      ensures Run(w0, trace) == View(n, others, fence, Projecting(t, g, ids[i + 1..], failed))
    {
      NextRow(db, tables.Tables(), t, fate, ids, i, joined);
      ghost var a := ProjectNext(n, OutcomeFor(tables.keys[ids[i]], fate));
      RunSnoc(w0, past, a);
      trace := past + [a];
      failed := ProjectNextRow(t, ids[i..], fate, joined, g, n, others, fence);
    }

    /** The loop of ProjectTenant: every listed row is attempted, whether or not an earlier one failed. */
    method ProjectListed(t: TenantId, ids: seq<KeyId>, fate: Fate, ghost g: nat, ghost db: Db,
                         ghost n: NodeId, ghost others: map<NodeId, Gateway>, ghost fence: map<TenantId, nat>)
      returns (failed: bool, ghost trace: seq<Action>)
      requires DbOk(db) && tables.Tables() == db && IsDirtyListing(db, t, ids)
      modifies tables`keys, target
      ensures failed <==> !Healthy(db.keys, ids, fate)
      ensures PassedUpTo(db.keys, tables.keys, t, fate, ids, |ids|)
      ensures Run(old(View(n, others, fence, Projecting(t, g, ids, false))), trace)
           == View(n, others, fence, Projecting(t, g, [], failed))
    {
      ghost var w0 := View(n, others, fence, Projecting(t, g, ids, false));
      trace, failed := [], false;
      var i := 0;
      assert ids[0..] == ids;
      while i < |ids|
        invariant 0 <= i <= |ids|
        invariant RowsDone(db, tables.Tables(), t, fate, ids, i, failed)
        invariant Run(w0, trace) == View(n, others, fence, Projecting(t, g, ids[i..], failed))
      {
        failed, trace := ProjectListedNext(t, ids, i, fate, failed, g, db, n, others, fence, w0, trace);
        i := i + 1;
      }
      assert ids[i..] == [] && ids[..i] == ids;
    }

    /** One pass over a tenant: restore if this process has not done so, then every dirty row. */
    method ProjectTenant(t: TenantId, g: nat, fate: Fate,
                         ghost n: NodeId, ghost others: map<NodeId, Gateway>, ghost fence: map<TenantId, nat>)
      returns (ok: bool, ghost trace: seq<Action>)
      requires DbOk(tables.Tables()) && t != "" && g > 0
      modifies this, tables`keys, target
      ensures var keys := old(tables.keys);
              var restores := t in old(restored) || !SomeRejected(keys, t, fate);
              && (ok <==> restores && !SomeUnsettled(keys, t, fate))
              && tables.keys == (if restores then ProjectAll(keys, t, fate) else keys)
      ensures Run(old(View(n, others, fence, Reloading(t, g))), trace)
           == View(n, others, fence, if t !in restored then Idle else Projecting(t, g, [], !ok))
      ensures ok ==> t in restored
    {
      ghost var w0 := View(n, others, fence, Reloading(t, g));
      ghost var db := tables.Tables();
      var restoredOk;
      restoredOk, trace := RestoreTenantOnce(t, fate, g, n, others, fence);
      if !restoredOk { return false, trace; }
      var ids := ListDirty(tables.keys, t, db);
      DoReadDirty(db, target.store, others, n, Gateway(fence, restored, target.cache, Reloading(t, g)), ids);
      RunSnoc(w0, trace, ReadDirty(n, ids));
      trace := trace + [ReadDirty(n, ids)];
      var failed;
      ghost var rest;
      failed, rest := ProjectListed(t, ids, fate, g, db, n, others, fence);
      RunConcat(w0, trace, rest);
      trace := trace + rest;
      ok := !failed;
      HealthyListing(db, t, ids, fate);
      PassEnd(db, tables.keys, t, fate, ids);
    }
  }

  // ---------- the reconciler ----------

  lemma DoDeliver(db: Db, store: Snapshot, others: map<NodeId, Gateway>, n: NodeId, gw: Gateway, t: TenantId, g: nat)
    requires gw.phase.Idle? && Announced(db, t, g) && g > gw.Fence(t)
    ensures Do(Assemble(db, store, others, n, gw), Deliver(n, t, g))
         == Assemble(db, store, others, n, gw.(phase := Reloading(t, g)))
  {
  }

  lemma DoFinish(db: Db, store: Snapshot, others: map<NodeId, Gateway>, n: NodeId, gw: Gateway)
    requires gw.phase.Projecting? && gw.phase.ids == []
    ensures var p := gw.phase;
            Do(Assemble(db, store, others, n, gw), Finish(n)) ==
            Assemble(db, store, others, n,
                     gw.(fence := if p.failed then gw.fence else gw.fence[p.tenantId := p.generation], phase := Idle))
  {
  }

  /** Nothing of the tenant is outstanding. */
  predicate AllClean(keys: map<KeyId, Key>, t: TenantId) {
    forall id :: id in keys && keys[id].tenantId == t ==> !keys[id].Dirty()
  }

  /** Every key of the tenant is complete, is accepted by the target and committed. */
  predicate Accepts(keys: map<KeyId, Key>, t: TenantId, fate: Fate) {
    forall id :: id in keys && keys[id].tenantId == t ==> Settles(keys[id], fate)
  }

  /** Rows outside `ts` are untouched; no row becomes dirty, and none is asked for anew. */
  ghost predicate OnlyProjects(before: map<KeyId, Key>, now: map<KeyId, Key>, ts: set<TenantId>) {
    && now.Keys == before.Keys
    && forall id :: id in before ==>
         && now[id] == before[id].(status := now[id].status, appliedGeneration := now[id].appliedGeneration, lastError := now[id].lastError)
         && (now[id].Dirty() ==> before[id].Dirty())
         && (before[id].tenantId !in ts ==> now[id] == before[id])
  }

  lemma ProjectAllEffect(keys: map<KeyId, Key>, t: TenantId, fate: Fate)
    ensures OnlyProjects(keys, ProjectAll(keys, t, fate), {t})
    ensures !SomeUnsettled(keys, t, fate) ==> AllClean(ProjectAll(keys, t, fate), t)
    ensures Accepts(keys, t, fate) ==> !SomeUnsettled(keys, t, fate) && !SomeRejected(keys, t, fate)
  {
  }

  /** Nothing of the tenant is outstanding and the fence is at its generation. */
  predicate Converged(db: Db, current: map<TenantId, nat>, t: TenantId) {
    AllClean(db.keys, t) && t in current && current[t] == db.Current(t)
  }

  /**
   Where a pass stands after the tenants in `done`: only their rows have moved, those that the target accepts
   have converged, and an error is reported only if it refuses some key.
   */
  ghost predicate PassState(before: Db, now: Db, current: map<TenantId, nat>, done: set<TenantId>, fate: Fate, ok: bool) {
    && now == before.(keys := now.keys)
    && OnlyProjects(before.keys, now.keys, done)
    && (forall t :: t in done && Accepts(before.keys, t, fate) ==> Converged(now, current, t))
    && ((forall t :: t in done ==> Accepts(before.keys, t, fate)) ==> ok)
  }

  /** What one call of Observe at the tenant's current generation does to the tables and the fence. */
  ghost predicate Observed(a: Db, b: Db, fence: map<TenantId, nat>, fence': map<TenantId, nat>, t: TenantId,
                           fate: Fate, ok: bool) {
    && b == a.(keys := b.keys)
    && OnlyProjects(a.keys, b.keys, {t})
    && (fence' == fence || fence' == fence[t := a.Current(t)])
    && (Accepts(a.keys, t, fate) ==> ok)
    && (ok ==> Converged(b, fence', t))
  }

  lemma OnlyProjectsThen(a: map<KeyId, Key>, b: map<KeyId, Key>, c: map<KeyId, Key>, done: set<TenantId>, t: TenantId)
    requires OnlyProjects(a, b, done) && OnlyProjects(b, c, {t})
    ensures OnlyProjects(a, c, done + {t})
  {
  }

  lemma AcceptsSame(a: map<KeyId, Key>, b: map<KeyId, Key>, done: set<TenantId>, u: TenantId, fate: Fate)
    requires OnlyProjects(a, b, done)
    ensures Accepts(a, u, fate) <==> Accepts(b, u, fate)
    ensures AllClean(a, u) ==> AllClean(b, u)
  {
  }

  /** A tenant that was converged stays converged while another is projected. */
  lemma PassStateStep(before: Db, a: Db, b: Db, fence: map<TenantId, nat>, fence': map<TenantId, nat>,
                      done: set<TenantId>, t: TenantId, fate: Fate, joined: bool, ok: bool)
    requires PassState(before, a, fence, done, fate, joined) && Observed(a, b, fence, fence', t, fate, ok) && t !in done
    ensures PassState(before, b, fence', done + {t}, fate, joined && ok)
  {
    OnlyProjectsThen(before.keys, a.keys, b.keys, done, t);
    AcceptsSame(before.keys, a.keys, done, t, fate);
    forall u | u in done && Accepts(before.keys, u, fate) ensures Converged(b, fence', u) {
      AcceptsSame(a.keys, b.keys, {t}, u, fate);
    }
    if forall u :: u in done + {t} ==> Accepts(before.keys, u, fate) {
      assert t in done + {t};
    }
  }

  /** The generation a pass reads was announced; if the fence is there already the tenant has converged. */
  lemma AnnouncedNow(w: World, n: NodeId, t: TenantId)
    requires Safe(w) && n in w.gateways && t in w.db.generations
    ensures t != "" && w.db.generations[t] > 0 && Announced(w.db, t, w.db.generations[t])
    ensures w.db.generations[t] <= w.gateways[n].Fence(t) ==> Converged(w.db, w.gateways[n].fence, t)
  {
  }

  lemma PassStart(db: Db, current: map<TenantId, nat>, fate: Fate)
    ensures PassState(db, db, current, {}, fate, true)
  {
  }

  /**
   Convergence: a pass in which the target accepts every key, whatever earlier passes left behind, ends with no
   outstanding row of any tenant, every fence at its tenant's generation, and no error.
   */
  lemma HealthyPassFinishes(before: Db, now: Db, current: map<TenantId, nat>, fate: Fate, ok: bool)
    requires DbOk(before) && PassState(before, now, current, before.generations.Keys, fate, ok)
    requires forall t :: t in before.generations ==> Accepts(before.keys, t, fate)
    ensures ok && forall id :: id in now.keys ==> !now.keys[id].Dirty()
    ensures forall t :: t in now.generations ==> t in current && current[t] == now.Current(t)
  {
  }

  lemma PassOn(w0: World, past: seq<Action>, w: World, trace: seq<Action>)
    requires Safe(w) && Run(w0, past) == w
    ensures Run(w0, past + trace) == Run(w, trace) && Safe(Run(w, trace))
  {
    RunConcat(w0, past, trace);
    RunSafe(w, trace);
  }

  class Reconciler {
    const projector: Projector
    var current: map<TenantId, nat>

    constructor (projector: Projector)
      ensures this.projector == projector && current == map[]
    {
      this.projector := projector;
      current := map[];
    }

    function Tables(): Store {
      projector.tables
    }

    ghost function View(n: NodeId, others: map<NodeId, Gateway>): World
      reads this, projector, projector.tables, projector.target
    {
      projector.View(n, others, current, Idle)
    }

    function Generation(t: TenantId): nat
      reads this
    {
      if t in current then current[t] else 0
    }

    /**
     The fence moves only after the whole tenant was projected without an error. A notification that was announced
     makes a run of the protocol; one that never was is acted on all the same, and may take the fence too far.
     */
    method Observe(t: TenantId, g: nat, fate: Fate, ghost n: NodeId, ghost others: map<NodeId, Gateway>)
      returns (ok: bool, ghost trace: seq<Action>)
      requires DbOk(Tables().Tables())
      modifies this, projector, Tables()`keys, projector.target
      ensures Announced(old(Tables().Tables()), t, g) ==> Run(old(View(n, others)), trace) == View(n, others)
      ensures if t == "" || g == 0 then !ok && current == old(current) && Tables().keys == old(Tables().keys)
              else if g <= old(Generation(t)) then ok && current == old(current) && Tables().keys == old(Tables().keys)
              else
                && (Accepts(old(Tables().keys), t, fate) ==> ok)
                && current == (if ok then old(current)[t := g] else old(current))
                && OnlyProjects(old(Tables().keys), Tables().keys, {t})
                && (ok ==> AllClean(Tables().keys, t))
    {
      trace := [];
      if t == "" || g == 0 { return false, trace; }
      if t in current && g <= current[t] { return true, trace; }
      ghost var w0 := View(n, others);
      ghost var announced := Announced(Tables().Tables(), t, g);
      ghost var keys := Tables().keys;
      if announced {
        DoDeliver(Tables().Tables(), projector.target.store, others, n,
                  Gateway(current, projector.restored, projector.target.cache, Idle), t, g);
        RunSnoc(w0, [], Deliver(n, t, g));
      }
      ghost var rest;
      ok, rest := projector.ProjectTenant(t, g, fate, n, others, current);
      RunConcat(w0, [] + [Deliver(n, t, g)], rest);
      trace := [] + [Deliver(n, t, g)] + rest;
      ProjectAllEffect(keys, t, fate);
      if t in projector.restored && announced {
        DoFinish(Tables().Tables(), projector.target.store, others, n,
                 Gateway(current, projector.restored, projector.target.cache, Projecting(t, g, [], !ok)));
        RunSnoc(w0, trace, Finish(n));
        trace := trace + [Finish(n)];
      }
      if ok { current := current[t := g]; }
    }

    /** Observe at the tenant's current generation, as Reconcile calls it. */
    method ObserveCurrent(t: TenantId, fate: Fate, ghost n: NodeId, ghost others: map<NodeId, Gateway>)
      returns (ok: bool, ghost trace: seq<Action>)
      requires Safe(View(n, others)) && t in Tables().generations
      modifies this, projector, Tables()`keys, projector.target
      ensures Run(old(View(n, others)), trace) == View(n, others)
      ensures Observed(old(Tables().Tables()), Tables().Tables(), old(current), current, t, fate, ok)
    {
      AnnouncedNow(View(n, others), n, t);
      ok, trace := Observe(t, Tables().generations[t], fate, n, others);
    }

    /** One iteration of Reconcile. */
    method ReconcileNext(t: TenantId, fate: Fate, joined: bool, ghost n: NodeId, ghost others: map<NodeId, Gateway>,
                         ghost before: Db, ghost done: set<TenantId>, ghost w0: World, ghost past: seq<Action>)
      returns (ok: bool, ghost trace: seq<Action>)
      requires Run(w0, past) == View(n, others) && Safe(View(n, others)) && t in before.generations && t !in done
      requires PassState(before, Tables().Tables(), current, done, fate, joined)
      modifies this, projector, Tables()`keys, projector.target
      ensures Run(w0, trace) == View(n, others) && Safe(View(n, others))
      ensures PassState(before, Tables().Tables(), current, done + {t}, fate, ok)
    {
      ghost var db, w := Tables().Tables(), View(n, others);
      ghost var fence := current;
      var observed;
      observed, trace := ObserveCurrent(t, fate, n, others);
      PassOn(w0, past, w, trace);
      trace := past + trace;
      ok := joined && observed;
      PassStateStep(before, db, Tables().Tables(), fence, current, done, t, fate, joined, observed);
    }

    /**
     One pass over every tenant, while nothing else changes the tables. A tenant all of whose keys the target
     accepts ends with no outstanding row and with the fence at its generation, whatever happens to the others;
     no row becomes dirty. The state stays safe, so the next pass may rely on the same: once the target accepts
     everything, one more pass finishes the rest.
     */
    method Reconcile(fate: Fate, ghost n: NodeId, ghost others: map<NodeId, Gateway>)
      returns (ok: bool, ghost trace: seq<Action>)
      requires Safe(View(n, others))
      modifies this, projector, Tables()`keys, projector.target
      ensures Run(old(View(n, others)), trace) == View(n, others) && Safe(View(n, others))
      ensures PassState(old(Tables().Tables()), Tables().Tables(), current, Tables().generations.Keys, fate, ok)
    {
      ghost var w0, before := View(n, others), Tables().Tables();
      ghost var done := {};
      var rest := Tables().generations.Keys;
      trace, ok := [], true;
      PassStart(before, current, fate);
      while rest != {}
        invariant done !! rest && done + rest == before.generations.Keys
        invariant Run(w0, trace) == View(n, others) && Safe(View(n, others))
        invariant PassState(before, Tables().Tables(), current, done, fate, ok)
        decreases rest
      {
        var t :| t in rest;
        ok, trace := ReconcileNext(t, fate, ok, n, others, before, done, w0, trace);
        rest, done := rest - {t}, done + {t};
      }
    }
  }
}
