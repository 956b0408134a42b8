/**
 The two ordered migration sets over a live database. A run interleaves attempts to apply the next pending
 migration of either set, each in a transaction that may fail for any reason, with arbitrary statements of arbitrary
 sessions. The statements say what the order and the gates buy.
 */
module Migrations {
  import opened Common
  import opened Policy
  import opened Tables
  import opened Statements
  import opened Isolation
  import opened Binding

  datatype Migration =
    | AddColumn(table: Table)
    | InstallPolicy(table: Table)
    | SetNotNull(table: Table)
    | AddParentKey(table: Table)
    | AddForeignKey(fk: TenantFK)

  datatype MigrationError =
    | NoSuchTable
    | NoSuchColumn
    | NotClassified
    | BackfillRequired(rows: nat)
    | ColumnContainsNulls
    | TenantColumnNullable
    | NoParentKey
    | ExistingRowsViolate
    | ConnectionFailed

  // ---------- the sets, in order ----------

  function AddColumns(tables: seq<Table>): seq<Migration> {
    seq(|tables|, i requires 0 <= i < |tables| => AddColumn(tables[i]))
  }

  function InstallPolicies(tables: seq<Table>): seq<Migration> {
    seq(|tables|, i requires 0 <= i < |tables| => InstallPolicy(tables[i]))
  }

  function SetNotNulls(tables: seq<Table>): seq<Migration> {
    seq(|tables|, i requires 0 <= i < |tables| => SetNotNull(tables[i]))
  }

  function AddParentKeys(tables: seq<Table>): seq<Migration> {
    seq(|tables|, i requires 0 <= i < |tables| => AddParentKey(tables[i]))
  }

  function AddForeignKeys(fks: seq<TenantFK>): seq<Migration> {
    seq(|fks|, i requires 0 <= i < |fks| => AddForeignKey(fks[i]))
  }

  /** Phases 1 and 2: every column before any policy. */
  function WideningSet(): seq<Migration> {
    AddColumns(TenantScopedTables()) + InstallPolicies(TenantScopedTables())
  }

  /** Phase 3: NOT NULL everywhere, then the parent keys, then the edges. `parents` is what ParentTables returns. */
  function TighteningSet(parents: seq<Table>): seq<Migration> {
    SetNotNulls(B_CLASS_TABLES) + AddParentKeys(parents) + AddForeignKeys(TENANT_FKS)
  }

  // ---------- one migration ----------

  /** The rows without a tenant that the session sees. */
  function Unattributed(db: Database, s: Session, t: Table): set<Id> {
    set id | id in VisibleRows(db, s, t) && VisibleRows(db, s, t)[id].tenant.None?
  }

  /** The gate of the strict kind, counted in platform mode on the migration's own connection. */
  function AssertBackfilled(db: Database, s: Session, t: Table, kind: PolicyKind): Option<MigrationError> {
    if !kind.PolicyStrict? then None
    else
      match Begin(s, AcrossTenants(""), true)
      case Err(_) => Some(ConnectionFailed)
      case Ok(enabled) =>
        var n := |Unattributed(db, enabled, t)|;
        if n > 0 then Some(BackfillRequired(n)) else None
  }

  function Apply(db: Database, s: Session, m: Migration): Result<Database, MigrationError> {
    match m
    case AddColumn(t) =>
      if t !in db.tables then Err(NoSuchTable)
      else Ok(db.(schema := db.schema.(columns := db.schema.columns + {t})))
    case InstallPolicy(t) =>
      (match PolicyKindFor(t)
       case None => Err(NotClassified)
       case Some(kind) =>
         var gate := AssertBackfilled(db, s, t, kind);
         if gate.Some? then Err(gate.value)
         else if t !in db.schema.columns then Err(NoSuchColumn)
         else Ok(db.(schema := db.schema.(policies := db.schema.policies[t := kind]))))
    case SetNotNull(t) =>
      var gate := AssertBackfilled(db, s, t, PolicyStrict);
      if gate.Some? then Err(gate.value)
      else if t !in db.schema.columns then Err(NoSuchColumn)
      else if exists id :: id in db.RowsOf(t) && db.RowsOf(t)[id].tenant.None? then Err(ColumnContainsNulls)
      else Ok(db.(schema := db.schema.(notNull := db.schema.notNull + {t})))
    case AddParentKey(t) =>
      if t !in db.schema.columns then Err(NoSuchColumn)
      else Ok(db.(schema := db.schema.(parentKeys := db.schema.parentKeys + {t})))
    case AddForeignKey(fk) =>
      if PolicyKindFor(fk.parent).None? then Err(NotClassified)
      else if fk.child !in db.schema.columns then Err(NoSuchColumn)
      else if fk.child !in db.schema.notNull then Err(TenantColumnNullable)
      else if fk in db.schema.fks then Ok(db)
      else if fk.parent !in db.schema.parentKeys then Err(NoParentKey)
      else if !ForeignKeyHolds(fk, db.RowsOf(fk.child), db.RowsOf(fk.parent)) then Err(ExistingRowsViolate)
      else Ok(db.(schema := db.schema.(fks := db.schema.fks + {fk})))
  }

  // ---------- a run ----------

  datatype Site = Site(db: Database, applied: set<Migration>)

  datatype Event =
    | Data(session: Session, statement: Statement)
    | Advance(migrations: seq<Migration>, connection: Session, interrupted: bool)

  /** The migrator takes the first migration of its set that is not recorded; a failure records nothing. */
  ghost function Step(site: Site, e: Event): Site {
    match e
    case Data(s, st) =>
      (match Exec(site.db, s, st) case Done(db, _) => site.(db := db) case Failed(_) => site)
    case Advance(set_, s, interrupted) =>
      var i := FirstPending(set_, site.applied);
      if interrupted || i == |set_| then site
      else
        match Apply(site.db, s, set_[i])
        case Ok(db) => Site(db, site.applied + {set_[i]})
        case Err(_) => site
  }

  function FirstPending(migrations: seq<Migration>, applied: set<Migration>): (i: nat)
    ensures i <= |migrations|
    ensures forall j :: 0 <= j < i ==> migrations[j] in applied
    ensures i < |migrations| ==> migrations[i] !in applied
  {
    if migrations == [] || migrations[0] !in applied then 0
    else 1 + FirstPending(migrations[1..], applied)
  }

  ghost function RunSite(site: Site, events: seq<Event>): Site
    decreases |events|
  {
    if events == [] then site else Step(RunSite(site, events[..|events| - 1]), events[|events| - 1])
  }

  /** Only the two sets are ever run, on connections taken from the pool. */
  ghost predicate Legal(events: seq<Event>, parents: seq<Table>) {
    forall i :: 0 <= i < |events| && events[i].Advance? ==>
      && (events[i].migrations == WideningSet() || events[i].migrations == TighteningSet(parents))
      && IdleSession(events[i].connection)
  }

  /** Before the first run: upstream's tables and keys, with any rows that satisfy them, and nothing of ours. */
  ghost predicate Untouched(site: Site) {
    && site.applied == {}
    && site.db.schema == Schema({}, map[], {}, {}, {}, site.db.schema.upstream, site.db.schema.unique)
    && Consistent(site.db)
    && forall t, id :: t in site.db.tables && id in site.db.tables[t] ==> site.db.tables[t][id].tenant.None?
  }

  // ---------- platform mode counts what is there ----------

  /** The gate's count is the true one, whatever policy is installed and whatever the connection served before. */
  lemma GateCountsAllRows(db: Database, s: Session, t: Table)
    requires IdleSession(s)
    ensures Begin(s, AcrossTenants(""), true).Ok?
    ensures Unattributed(db, Begin(s, AcrossTenants(""), true).value, t)
         == set id | id in db.RowsOf(t) && db.RowsOf(t)[id].tenant.None?
  {
    BeginFromIdle(s, AcrossTenants(""), true);
    var enabled := Begin(s, AcrossTenants(""), true).value;
    forall id ensures id in VisibleRows(db, enabled, t) <==> id in db.RowsOf(t) {
      if id in db.RowsOf(t) && t in db.schema.policies {
        PolicyMeaning(db.schema.policies[t], enabled, db.RowsOf(t)[id].tenant);
      }
    }
    forall id ensures id in Unattributed(db, enabled, t) <==> id in db.RowsOf(t) && db.RowsOf(t)[id].tenant.None? {
    }
  }

  /** Without platform mode the same count over an installed strict policy is zero, whatever is in the table. */
  lemma UngatedCountIsBlind(db: Database, s: Session, t: Table)
    requires IdleSession(s) && t in db.schema.policies && db.schema.policies[t].PolicyStrict?
    ensures Unattributed(db, s, t) == {}
  {
    forall id ensures id !in Unattributed(db, s, t) {
      if id in db.RowsOf(t) { PolicyMeaning(PolicyStrict, s, db.RowsOf(t)[id].tenant); }
    }
  }

  lemma NothingMissing(rows: Rows)
    ensures |set id | id in rows && rows[id].tenant.None?| == 0 <==> forall id :: id in rows ==> rows[id].tenant.Some?
  {
    var nulls := set id | id in rows && rows[id].tenant.None?;
    if forall id :: id in rows ==> rows[id].tenant.Some? {
      assert forall id :: id !in nulls;
    } else {
      var id :| id in rows && rows[id].tenant.None?;
      assert id in nulls;
    }
  }

  /** A strict policy is installed iff the table has its column and no row that every tenant would lose sight of. */
  lemma StrictPolicyHidesNothing(db: Database, s: Session, t: Table)
    requires IdleSession(s) && PolicyKindFor(t) == Some(PolicyStrict)
    ensures Apply(db, s, InstallPolicy(t)).Ok? <==>
              t in db.schema.columns && forall id :: id in db.RowsOf(t) ==> db.RowsOf(t)[id].tenant.Some?
  {
    GateCountsAllRows(db, s, t);
    NothingMissing(db.RowsOf(t));
  }

  // ---------- soundness of the constraints ----------

  /** CrossTenantPairs of one edge: child rows whose parent row belongs to another tenant or to none. */
  function CrossTenantPairs(db: Database, s: Session, fk: TenantFK): set<Id> {
    var parents := VisibleRows(db, s, fk.parent);
    set id | id in VisibleRows(db, s, fk.child)
             && var row := VisibleRows(db, s, fk.child)[id];
                fk.column in row.refs && row.refs[fk.column] in parents && parents[row.refs[fk.column]].tenant != row.tenant
  }

  ghost predicate Sound(site: Site) {
    && Consistent(site.db)
    && forall fk :: fk in site.db.schema.fks ==> fk.child in site.db.schema.notNull && fk.parent in site.db.schema.parentKeys
  }

  lemma ApplySound(db: Database, s: Session, m: Migration)
    requires Sound(Site(db, {})) && Apply(db, s, m).Ok?
    ensures Sound(Site(Apply(db, s, m).value, {}))
  {
    var next := Apply(db, s, m).value;
    assert next.tables == db.tables && forall t :: next.RowsOf(t) == db.RowsOf(t);
    assert next.schema.unique == db.schema.unique && next.schema.upstream == db.schema.upstream;
    forall t | t in next.tables ensures NotNullHolds(next.schema, t, next.tables[t]) {
      AttributedStay(db, s, m, t);
    }
  }

  lemma AttributedStay(db: Database, s: Session, m: Migration, t: Table)
    requires Apply(db, s, m).Ok? && t in db.tables && NotNullHolds(db.schema, t, db.tables[t])
    ensures NotNullHolds(Apply(db, s, m).value.schema, t, db.tables[t])
  {
    assert db.RowsOf(t) == db.tables[t];
    if m.SetNotNull? && m.table == t {
      forall id | id in db.tables[t] ensures db.tables[t][id].tenant.Some? {
      }
    }
  }

  lemma StepSound(site: Site, e: Event)
    requires Sound(site)
    ensures Sound(Step(site, e))
  {
    match e {
      case Data(s, st) =>
        if Exec(site.db, s, st).Done? { ExecConsistent(site.db, s, st); }
      case Advance(migrations, s, interrupted) =>
        var i := FirstPending(migrations, site.applied);
        if !interrupted && i < |migrations| && Apply(site.db, s, migrations[i]).Ok? {
          assert Sound(Site(site.db, {}));
          ApplySound(site.db, s, migrations[i]);
        }
    }
  }

  lemma {:induction false} RunSound(site: Site, events: seq<Event>)
    requires Sound(site)
    ensures Sound(RunSite(site, events))
    decreases |events|
  {
    if events != [] {
      RunSound(site, events[..|events| - 1]);
      StepSound(RunSite(site, events[..|events| - 1]), events[|events| - 1]);
    }
  }

  /**
   Migration soundness: in every run of both sets, with failures, resumption and any statements by anyone in between,
   wherever a composite foreign key exists its child's tenant column is NOT NULL and not a single child row, seen
   by any session, points at a parent row of another tenant.
   */
  lemma {:induction false} NoCrossTenantPairs(site: Site, events: seq<Event>, fk: TenantFK, s: Session)
    requires Untouched(site) && fk in RunSite(site, events).db.schema.fks
    ensures var db := RunSite(site, events).db;
            fk.child in db.schema.notNull && CrossTenantPairs(db, s, fk) == {}
  {
    assert Sound(site);
    RunSound(site, events);
    var db := RunSite(site, events).db;
    assert ForeignKeyHolds(fk, db.RowsOf(fk.child), db.RowsOf(fk.parent));
    forall id | id in db.RowsOf(fk.child) ensures db.RowsOf(fk.child)[id].tenant.Some? {
      assert NotNullHolds(db.schema, fk.child, db.tables[fk.child]);
    }
    forall id | id in VisibleRows(db, s, fk.child) ensures id !in CrossTenantPairs(db, s, fk) {
      assert MatchSimple(fk, db.RowsOf(fk.child)[id], db.RowsOf(fk.parent));
    }
  }

  const VERSION_EDGE: TenantFK := TenantFK("fk_pv_tenant_prompt", PromptVersions, PromptId, Prompts)

  lemma VersionEdgeIsListed()
    ensures VERSION_EDGE in TENANT_FKS
  {
    assert PROMPT_FKS[1] == VERSION_EDGE;
  }

  /** A prompt of tenant b and a version without a tenant that points at it; the column is still nullable. */
  function NullableCrossing(): Database {
    Database(map[Prompts := map[1 := Row(Some("b"), map[], map[])], PromptVersions := map[2 := Row(None, map[PromptId := 1], map[])]],
             Schema({Prompts, PromptVersions}, map[], {}, {Prompts}, {VERSION_EDGE}, {}, {}))
  }

  /**
   Why NOT NULL has to come first: with a nullable child column the same constraint is satisfied by a row that
   crosses tenants, and the pre-flight count, which compares with IS DISTINCT FROM, reports it.
   */
  lemma NullableColumnLetsPairsThrough()
    ensures VERSION_EDGE in TENANT_FKS && VERSION_EDGE in NullableCrossing().schema.fks
    ensures Consistent(NullableCrossing()) && 2 in CrossTenantPairs(NullableCrossing(), NEVER_USED, VERSION_EDGE)
  {
    VersionEdgeIsListed();
    var db := NullableCrossing();
    assert MatchSimple(VERSION_EDGE, db.RowsOf(PromptVersions)[2], db.RowsOf(Prompts));
  }

  // ---------- what a complete run gives ----------

  /** The schema shows exactly what is recorded. */
  ghost predicate Recorded(site: Site) {
    var schema := site.db.schema;
    && (forall t :: t in schema.policies ==> PolicyKindFor(t) == Some(schema.policies[t]))
    && (forall t :: InstallPolicy(t) in site.applied ==> t in schema.policies)
    && (forall t :: SetNotNull(t) in site.applied ==> t in schema.notNull)
    && (forall fk :: fk in schema.fks <==> AddForeignKey(fk) in site.applied)
  }

  /** The order between the passes, as the registry shows it. */
  ghost predicate PassesInOrder(applied: set<Migration>, parents: seq<Table>) {
    && ((exists t :: InstallPolicy(t) in applied) ==> forall t :: t in TenantScopedTables() ==> AddColumn(t) in applied)
    && ((exists p :: AddParentKey(p) in applied) ==> forall t :: t in B_CLASS_TABLES ==> SetNotNull(t) in applied)
    && ((exists fk :: AddForeignKey(fk) in applied) ==>
          && (forall t :: t in B_CLASS_TABLES ==> SetNotNull(t) in applied)
          && (forall p :: p in parents ==> AddParentKey(p) in applied))
    && (forall fk :: AddForeignKey(fk) in applied ==> fk in TENANT_FKS)
  }

  ghost predicate Orderly(site: Site, parents: seq<Table>) {
    Recorded(site) && PassesInOrder(site.applied, parents)
  }

  /** When a policy is the first pending migration, every column migration is recorded. */
  lemma WideningOrder(applied: set<Migration>)
    requires FirstPending(WideningSet(), applied) < |WideningSet()|
    ensures var m := WideningSet()[FirstPending(WideningSet(), applied)];
            && (m.AddColumn? || m.InstallPolicy?)
            && (m.InstallPolicy? ==> forall t :: t in TenantScopedTables() ==> AddColumn(t) in applied)
  {
    var tables := TenantScopedTables();
    var i := FirstPending(WideningSet(), applied);
    if i < |tables| {
      assert WideningSet()[i] == AddColumn(tables[i]);
    } else {
      assert WideningSet()[i] == InstallPolicy(tables[i - |tables|]);
      forall t | t in tables ensures AddColumn(t) in applied {
        var k :| 0 <= k < |tables| && tables[k] == t;
        assert WideningSet()[k] == AddColumn(t);
      }
    }
  }

  /** The first pending migration of three passes, and the passes before it that are recorded. */
  lemma PassOrder(a: seq<Migration>, b: seq<Migration>, c: seq<Migration>, applied: set<Migration>)
    requires FirstPending(a + b + c, applied) < |a + b + c|
    ensures var m := (a + b + c)[FirstPending(a + b + c, applied)];
            && (m in a || m in b || m in c)
            && (m !in a ==> forall x :: x in a ==> x in applied)
            && (m !in a && m !in b ==> forall x :: x in b ==> x in applied)
  {
    var all := a + b + c;
    var i := FirstPending(all, applied);
    if i >= |a| {
      forall x | x in a ensures x in applied {
        var k :| 0 <= k < |a| && a[k] == x;
        assert all[k] == x;
      }
    }
    if i >= |a| + |b| {
      forall x | x in b ensures x in applied {
        var k :| 0 <= k < |b| && b[k] == x;
        assert all[|a| + k] == x;
      }
    }
  }

  lemma Sections(tables: seq<Table>, fks: seq<TenantFK>)
    ensures forall m :: m in SetNotNulls(tables) <==> m.SetNotNull? && m.table in tables
    ensures forall m :: m in AddParentKeys(tables) <==> m.AddParentKey? && m.table in tables
    ensures forall m :: m in AddForeignKeys(fks) <==> m.AddForeignKey? && m.fk in fks
  {
    forall t | t in tables ensures SetNotNull(t) in SetNotNulls(tables) && AddParentKey(t) in AddParentKeys(tables) {
      var k :| 0 <= k < |tables| && tables[k] == t;
      assert SetNotNulls(tables)[k] == SetNotNull(t) && AddParentKeys(tables)[k] == AddParentKey(t);
    }
    forall fk | fk in fks ensures AddForeignKey(fk) in AddForeignKeys(fks) {
      var k :| 0 <= k < |fks| && fks[k] == fk;
      assert AddForeignKeys(fks)[k] == AddForeignKey(fk);
    }
  }

  /** When an edge is the first pending migration, every NOT NULL and every parent key is recorded. */
  lemma TighteningOrder(parents: seq<Table>, applied: set<Migration>)
    requires FirstPending(TighteningSet(parents), applied) < |TighteningSet(parents)|
    ensures var m := TighteningSet(parents)[FirstPending(TighteningSet(parents), applied)];
            && (m.SetNotNull? || m.AddParentKey? || (m.AddForeignKey? && m.fk in TENANT_FKS))
            && (!m.SetNotNull? ==> forall t :: t in B_CLASS_TABLES ==> SetNotNull(t) in applied)
            && (m.AddForeignKey? ==> forall p :: p in parents ==> AddParentKey(p) in applied)
  {
    PassOrder(SetNotNulls(B_CLASS_TABLES), AddParentKeys(parents), AddForeignKeys(TENANT_FKS), applied);
    Sections(B_CLASS_TABLES, TENANT_FKS);
    Sections(parents, TENANT_FKS);
  }

  lemma StepOrderly(site: Site, e: Event, parents: seq<Table>)
    requires Orderly(site, parents)
    requires e.Advance? ==> e.migrations == WideningSet() || e.migrations == TighteningSet(parents)
    ensures Orderly(Step(site, e), parents)
  {
    match e {
      case Data(s, st) =>
        if Exec(site.db, s, st).Done? { assert Exec(site.db, s, st).db.schema == site.db.schema; }
      case Advance(migrations, s, interrupted) =>
        var i := FirstPending(migrations, site.applied);
        if !interrupted && i < |migrations| && Apply(site.db, s, migrations[i]).Ok? {
          if migrations == WideningSet() { WideningOrder(site.applied); } else { TighteningOrder(parents, site.applied); }
          AdvanceOrderly(site, s, migrations[i], parents);
        }
    }
  }

  lemma AdvanceOrderly(site: Site, s: Session, m: Migration, parents: seq<Table>)
    requires Orderly(site, parents) && Apply(site.db, s, m).Ok?
    requires m.InstallPolicy? ==> forall t :: t in TenantScopedTables() ==> AddColumn(t) in site.applied
    requires m.AddParentKey? || m.AddForeignKey? ==> forall t :: t in B_CLASS_TABLES ==> SetNotNull(t) in site.applied
    requires m.AddForeignKey? ==> m.fk in TENANT_FKS && forall p :: p in parents ==> AddParentKey(p) in site.applied
    ensures Orderly(Site(Apply(site.db, s, m).value, site.applied + {m}), parents)
  {
  }

  lemma {:induction false} RunOrderly(site: Site, events: seq<Event>, parents: seq<Table>)
    requires Orderly(site, parents) && Legal(events, parents)
    ensures Orderly(RunSite(site, events), parents)
    decreases |events|
  {
    if events != [] {
      var last := |events| - 1;
      RunOrderly(site, events[..last], parents);
      StepOrderly(RunSite(site, events[..last]), events[last], parents);
    }
  }

  /** No edge exists while a single B-class table still allows a row without a tenant. */
  lemma {:induction false} EdgesWaitForEveryTable(site: Site, events: seq<Event>, parents: seq<Table>, fk: TenantFK, t: Table)
    requires Untouched(site) && Legal(events, parents)
    requires fk in RunSite(site, events).db.schema.fks && t in B_CLASS_TABLES
    ensures t in RunSite(site, events).db.schema.notNull
  {
    RunOrderly(site, events, parents);
    assert AddForeignKey(fk) in RunSite(site, events).applied;
    assert SetNotNull(t) in RunSite(site, events).applied;
  }

  /** Once every policy migration is recorded, whatever edges exist stay inside the strict tables. */
  lemma {:induction false} PoliciesMakeEdgesStrict(site: Site, parents: seq<Table>)
    requires Orderly(site, parents) && forall t :: t in TenantScopedTables() ==> InstallPolicy(t) in site.applied
    ensures EdgesStrict(site.db.schema)
  {
    forall fk | fk in site.db.schema.fks
      ensures fk.child in site.db.schema.policies && site.db.schema.policies[fk.child].PolicyStrict?
              && fk.parent in site.db.schema.policies && site.db.schema.policies[fk.parent].PolicyStrict?
    {
      assert AddForeignKey(fk) in site.applied;
      EdgesAreStrict(fk);
      StrictIffBClass(fk.child);
      StrictIffBClass(fk.parent);
      assert InstallPolicy(fk.child) in site.applied && InstallPolicy(fk.parent) in site.applied;
    }
  }
}
