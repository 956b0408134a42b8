/**
 The migration sets and tenant isolation together: which recorded migrations it takes, exactly, before tenants cannot
 observe or reach each other's rows.
 */
module MigratedIsolation {
  import opened Common
  import opened Policy
  import opened Tables
  import opened Statements
  import opened Isolation
  import opened IsolationLimits
  import opened Binding
  import opened Migrations
  import opened MigrationProgress
  import opened OpenKeys

  /** A column points at one table only, and where an edge is listed for it at that edge's parent. */
  ghost predicate ColumnsPointOnce(upstream: set<UpstreamFK>) {
    && (forall e, f :: e in upstream && f in upstream && e.child == f.child && e.column == f.column ==> e.parent == f.parent)
    && (forall e, fk :: e in upstream && fk in TENANT_FKS && e.child == fk.child && e.column == fk.column ==> e.parent == fk.parent)
  }

  /** An end of the key is in a table that gets a tenant. */
  predicate Touches(e: UpstreamFK) {
    e.child in TenantScopedTables() || e.parent in TenantScopedTables()
  }

  ghost predicate PoliciesRecorded(site: Site) {
    forall t :: t in TenantScopedTables() ==> InstallPolicy(t) in site.applied
  }

  ghost predicate Complete(site: Site, parents: seq<Table>) {
    && (forall m :: m in WideningSet() ==> m in site.applied)
    && (forall m :: m in TighteningSet(parents) ==> m in site.applied)
  }

  /** The edge over this key has been added. */
  ghost predicate EdgeRecorded(site: Site, e: UpstreamFK) {
    exists fk :: SameEdge(e, fk) && AddForeignKey(fk) in site.applied
  }

  ghost predicate Listed(e: UpstreamFK) {
    exists fk :: fk in TENANT_FKS && SameEdge(e, fk)
  }

  lemma StepKeepsUpstream(site: Site, e: Event)
    ensures Step(site, e).db.schema.upstream == site.db.schema.upstream
  {
    if e.Data? && Exec(site.db, e.session, e.statement).Done? {
      assert Exec(site.db, e.session, e.statement).db.schema == site.db.schema;
    }
  }

  lemma {:induction false} UpstreamStays(site: Site, events: seq<Event>)
    ensures RunSite(site, events).db.schema.upstream == site.db.schema.upstream
    decreases |events|
  {
    if events != [] {
      UpstreamStays(site, events[..|events| - 1]);
      StepKeepsUpstream(RunSite(site, events[..|events| - 1]), events[|events| - 1]);
    }
  }

  /** Wherever the runs have got to, once the policies are recorded. */
  ghost predicate PoliciesInForce(site: Site) {
    var schema := site.db.schema;
    && EdgesEnforced(schema) && Consistent(site.db)
    && (forall t :: t in schema.policies <==> t in TenantScopedTables())
    && (forall fk :: fk in schema.fks <==> AddForeignKey(fk) in site.applied)
    && (forall fk :: fk in schema.fks ==> fk in TENANT_FKS)
  }

  lemma SchemaAfter(site: Site, events: seq<Event>, parents: seq<Table>)
    requires Untouched(site) && Legal(events, parents) && PoliciesRecorded(RunSite(site, events))
    ensures PoliciesInForce(RunSite(site, events))
    ensures RunSite(site, events).db.schema.upstream == site.db.schema.upstream
  {
    var now := RunSite(site, events);
    RunOrderly(site, events, parents);
    RunSound(site, events);
    UpstreamStays(site, events);
    PoliciesMakeEdgesStrict(now, parents);
    forall t ensures t in now.db.schema.policies <==> t in TenantScopedTables() {
      StrictIffBClass(t);
    }
    forall fk | fk in now.db.schema.fks ensures fk in TENANT_FKS {
      assert AddForeignKey(fk) in now.applied;
    }
  }

  lemma PointsOnceAfter(site: Site)
    requires PoliciesInForce(site) && ColumnsPointOnce(site.db.schema.upstream)
    ensures PointsOnce(site.db.schema)
  {
    var schema := site.db.schema;
    forall x, y | EdgeOf(schema, x) && EdgeOf(schema, y) && x.Child() == y.Child() && x.Column() == y.Column()
      ensures x.Parent() == y.Parent()
    {
      if x.Composite? { ColumnTellsParent(x.fk); }
      if y.Composite? { ColumnTellsParent(y.fk); }
    }
  }

  lemma RecordedIsCovered(site: Site, e: UpstreamFK)
    requires PoliciesInForce(site)
    ensures EdgeRecorded(site, e) <==> CoveredEdge(site.db.schema, e)
  {
    if EdgeRecorded(site, e) {
      var fk :| SameEdge(e, fk) && AddForeignKey(fk) in site.applied;
      assert fk in site.db.schema.fks;
    }
  }

  /**
   However far the constraints have got, with all policies recorded and whatever keys upstream declares. Tenants cannot
   observe each other, but for hidden unique keys, if and only if the edge over every key into a tenant table is recorded
   and no key out of one refuses a delete that can start in a table without a tenant. They cannot reach each other's
   rows if and only if the edge over every key that acts on a tenant table is recorded. And both if and only if the
   edge over every key with an end in a tenant table is.
   */
  lemma {:induction false} IsolatedIffEdgesRecorded(site: Site, events: seq<Event>, parents: seq<Table>)
    requires Untouched(site) && Legal(events, parents) && ColumnsPointOnce(site.db.schema.upstream)
    requires PoliciesRecorded(RunSite(site, events))
    ensures var now := RunSite(site, events); var upstream := site.db.schema.upstream;
            && (Isolated(now.db.schema) <==>
                  (forall e :: e in upstream && e.parent in TenantScopedTables() ==> EdgeRecorded(now, e)) && NeverRefuses(now.db.schema))
            && (KeepsOut(now.db.schema) <==>
                  forall e :: e in upstream && !e.onDelete.NoAction? && e.child in TenantScopedTables() ==> EdgeRecorded(now, e))
            && (Isolated(now.db.schema) && KeepsOut(now.db.schema) <==>
                  forall e :: e in upstream && Touches(e) ==> EdgeRecorded(now, e))
  {
    var now := RunSite(site, events);
    SchemaAfter(site, events, parents);
    PointsOnceAfter(now);
    IsolatedIffSealed(now.db.schema);
    KeepsOutIffActionsCovered(now.db.schema);
    SeparatedIffCovered(now.db.schema);
    forall e ensures EdgeRecorded(now, e) <==> CoveredEdge(now.db.schema, e) {
      RecordedIsCovered(now, e);
    }
  }

  /** The state that the edges exist to end: every policy recorded, no edge yet, and one key that upstream declares. */
  lemma {:induction false} PoliciesAloneLeak(site: Site, events: seq<Event>, parents: seq<Table>, e: UpstreamFK)
    requires Untouched(site) && Legal(events, parents) && ColumnsPointOnce(site.db.schema.upstream)
    requires PoliciesRecorded(RunSite(site, events)) && RunSite(site, events).db.schema.fks == {}
    requires e in site.db.schema.upstream
    ensures e.parent in TenantScopedTables() ==> !Isolated(RunSite(site, events).db.schema)
    ensures e.child in TenantScopedTables() && !e.onDelete.NoAction? ==> !KeepsOut(RunSite(site, events).db.schema)
  {
    SchemaAfter(site, events, parents);
    IsolatedIffEdgesRecorded(site, events, parents);
    RecordedIsCovered(RunSite(site, events), e);
  }

  lemma CompleteRecords(site: Site, parents: seq<Table>)
    requires Orderly(site, parents) && Complete(site, parents)
    ensures PoliciesRecorded(site)
    ensures forall fk :: AddForeignKey(fk) in site.applied <==> fk in TENANT_FKS
  {
    forall t | t in TenantScopedTables() ensures InstallPolicy(t) in site.applied {
      WideningMembers(t);
    }
    forall fk | fk in TENANT_FKS ensures AddForeignKey(fk) in site.applied {
      TighteningMembers(parents, AddForeignKey(fk));
    }
  }

  /**
   What both sets achieve together, exactly, whatever keys upstream declares: the same, with the listed edges for the
   recorded ones.
   */
  lemma {:induction false} MigratedIsolatedIff(site: Site, events: seq<Event>, parents: seq<Table>)
    requires Untouched(site) && Legal(events, parents) && ColumnsPointOnce(site.db.schema.upstream)
    requires Complete(RunSite(site, events), parents)
    ensures var schema := RunSite(site, events).db.schema; var upstream := site.db.schema.upstream;
            && (Isolated(schema) <==> (forall e :: e in upstream && e.parent in TenantScopedTables() ==> Listed(e)) && NeverRefuses(schema))
            && (KeepsOut(schema) <==> forall e :: e in upstream && !e.onDelete.NoAction? && e.child in TenantScopedTables() ==> Listed(e))
            && (Isolated(schema) && KeepsOut(schema) <==> forall e :: e in upstream && Touches(e) ==> Listed(e))
  {
    var now := RunSite(site, events);
    RunOrderly(site, events, parents);
    CompleteRecords(now, parents);
    IsolatedIffEdgesRecorded(site, events, parents);
    forall e ensures EdgeRecorded(now, e) <==> Listed(e) {
    }
  }

  lemma StrictEndsOnly(e: UpstreamFK)
    requires PolicyKindFor(e.parent) != Some(PolicyStrict)
    ensures !Listed(e)
  {
    forall fk | fk in TENANT_FKS ensures fk.parent != e.parent { EdgesAreStrict(fk); }
  }

  // ---------- the two keys that are left open ----------

  const POOL_COLUMN: Column := OtherColumn("table_key_id")
  const MODEL_CONFIG_COLUMN: Column := OtherColumn("model_config_id")
  const MODEL_CONFIGS: Table := Other("governance_model_configs")

  /** The key of provider configurations into the shared pool. */
  predicate PoolKey(e: UpstreamFK) {
    e.child == GovernanceVirtualKeyProviderConfigKeys && e.column == POOL_COLUMN && e.parent == C_CLASS_TABLE
  }

  /** The key of budgets into a table without a tenant. */
  predicate ModelConfigKey(e: UpstreamFK) {
    e.child == GovernanceBudgets && e.column == MODEL_CONFIG_COLUMN && e.parent == MODEL_CONFIGS
  }

  lemma TwoEnds(e: UpstreamFK)
    requires PoolKey(e) || ModelConfigKey(e)
    ensures e.child in TenantScopedTables() && (e.parent in TenantScopedTables() <==> PoolKey(e)) && !Listed(e)
  {
    StrictIffBClass(e.child);
    StrictIffBClass(e.parent);
    StrictEndsOnly(e);
  }

  /** The edge that is left out because its parent is the shared pool stays open, whatever upstream's key does. */
  lemma {:induction false} PoolKeyStaysOpen(site: Site, events: seq<Event>, parents: seq<Table>, e: UpstreamFK)
    requires Untouched(site) && Legal(events, parents) && ColumnsPointOnce(site.db.schema.upstream)
    requires Complete(RunSite(site, events), parents)
    requires e in site.db.schema.upstream && PoolKey(e)
    ensures !Isolated(RunSite(site, events).db.schema)
    ensures !e.onDelete.NoAction? ==> !KeepsOut(RunSite(site, events).db.schema)
  {
    MigratedIsolatedIff(site, events, parents);
    TwoEnds(e);
  }

  /**
   The other edge, whose parent has no tenant: if some key on it acts, a delete of a model configuration reaches other
   tenants' budgets; if none does, it is refused because of a budget that the session does not see.
   */
  lemma {:induction false} ModelConfigKeyStaysOpen(site: Site, events: seq<Event>, parents: seq<Table>, e: UpstreamFK)
    requires Untouched(site) && Legal(events, parents) && ColumnsPointOnce(site.db.schema.upstream)
    requires Complete(RunSite(site, events), parents)
    requires e in site.db.schema.upstream && ModelConfigKey(e)
    ensures var schema := RunSite(site, events).db.schema;
            if Acts(schema, e.child, e.column, e.parent) then !KeepsOut(schema) else !Isolated(schema)
  {
    var now := RunSite(site, events);
    MigratedIsolatedIff(site, events, parents);
    RunOrderly(site, events, parents);
    CompleteRecords(now, parents);
    SchemaAfter(site, events, parents);
    TwoEnds(e);
    if Acts(now.db.schema, e.child, e.column, e.parent) {
      var f :| f in site.db.schema.upstream && !f.onDelete.NoAction? && f.child == e.child && f.column == e.column && f.parent == e.parent;
      TwoEnds(f);
    } else {
      assert Reaches(now.db.schema, [], e.parent);
    }
  }

  /** What is open after complete runs: the keys with an end in a tenant table that are not listed. */
  lemma {:induction false} OpenAfterwards(site: Site, events: seq<Event>, parents: seq<Table>, e: UpstreamFK)
    requires Untouched(site) && Legal(events, parents) && Complete(RunSite(site, events), parents)
    ensures Open(RunSite(site, events).db.schema, e) <==> e in site.db.schema.upstream && Touches(e) && !Listed(e)
  {
    var now := RunSite(site, events);
    RunOrderly(site, events, parents);
    CompleteRecords(now, parents);
    SchemaAfter(site, events, parents);
    RecordedIsCovered(now, e);
    assert EdgeRecorded(now, e) <==> Listed(e);
  }

  /** Where upstream declares the listed edges and those two, those two are what a transaction has to avoid. */
  lemma {:induction false} TwoKeysAreOpen(site: Site, events: seq<Event>, parents: seq<Table>, e: UpstreamFK)
    requires Untouched(site) && Legal(events, parents) && Complete(RunSite(site, events), parents)
    requires forall f :: f in site.db.schema.upstream && Touches(f) ==> Listed(f) || PoolKey(f) || ModelConfigKey(f)
    ensures Open(RunSite(site, events).db.schema, e) <==> e in site.db.schema.upstream && (PoolKey(e) || ModelConfigKey(e))
  {
    OpenAfterwards(site, events, parents, e);
    if PoolKey(e) || ModelConfigKey(e) { TwoEnds(e); }
  }

  // ---------- every deployment ----------

  /**
   Two deployments, whatever keys upstream declares, at any point of their runs once the policies are recorded. A
   tenant's transaction that points over an unmatched key at rows it sees only, and deletes no row that such a pointer
   could hold, cannot tell the two apart as long as they look the same to it, but for hidden unique keys; and it changes
   nothing that its tenant does not own.
   */
  lemma {:induction false} MigratedMeansIsolated(
      site0: Site, events: seq<Event>, site1: Site, events': seq<Event>, parents: seq<Table>,
      s: Session, program: Program, steps: nat)
    requires Untouched(site0) && Untouched(site1) && Legal(events, parents) && Legal(events', parents)
    requires PoliciesRecorded(RunSite(site0, events)) && ModeOf(s).BoundTo?
    requires var a, b := RunSite(site0, events).db, RunSite(site1, events').db;
             LookSame(a, b, s) && AllAvoid(a, s, program, [], steps)
    ensures var a, b := RunSite(site0, events).db, RunSite(site1, events').db;
            && (SameResult(a, b, s, program, [], steps)
                <==> FirstCollision(a, s, program, [], steps) == FirstCollision(b, s, program, [], steps))
            && OwnChangesOnly(a, After(a, RunTx(a, s, program, [], steps)), s)
  {
    RunSound(site1, events');
    SchemaAfter(site0, events, parents);
    IsolatedBesidesOpenKeys(RunSite(site0, events).db, RunSite(site1, events').db, s, program, steps);
  }

  lemma {:induction false} NothingToAvoid(db: Database, s: Session, program: Program, answers: seq<int>, steps: nat)
    requires Consistent(db) && forall e :: !Open(db.schema, e)
    ensures AllAvoid(db, s, program, answers, steps)
    decreases steps
  {
    if steps > 0 && program(answers).Some? {
      var r := Exec(db, s, program(answers).value);
      if r.Done? {
        ExecConsistent(db, s, program(answers).value);
        NothingToAvoid(r.db, s, program, answers + [r.answer], steps - 1);
      }
    }
  }

  /** Where every key with an end in a tenant table is listed, every transaction avoids the others. */
  lemma {:induction false} ListedKeysNeedNoAvoiding(
      site: Site, events: seq<Event>, parents: seq<Table>, s: Session, program: Program, steps: nat)
    requires Untouched(site) && Legal(events, parents) && Complete(RunSite(site, events), parents)
    requires forall e :: e in site.db.schema.upstream && Touches(e) ==> Listed(e)
    ensures AllAvoid(RunSite(site, events).db, s, program, [], steps)
  {
    RunSound(site, events);
    forall e ensures !Open(RunSite(site, events).db.schema, e) {
      OpenAfterwards(site, events, parents, e);
    }
    NothingToAvoid(RunSite(site, events).db, s, program, [], steps);
  }

  // ---------- complete runs exist ----------

  /** A fresh installation: upstream's tables, the widened ones among them, without rows, and its keys. */
  function Fresh(tables: set<Table>, upstream: set<UpstreamFK>, unique: set<UniqueKey>): Site {
    Site(Database(map t | t in tables :: map[], Schema({}, map[], {}, {}, {}, upstream, unique)), {})
  }

  function BothSets(parents: seq<Table>): seq<Event> {
    Attempts(WideningSet(), NEVER_USED, |WideningSet()|) + Attempts(TighteningSet(parents), NEVER_USED, |TighteningSet(parents)|)
  }

  lemma {:induction false} RunBoth(site: Site, xs: seq<Event>, ys: seq<Event>)
    ensures RunSite(site, xs + ys) == RunSite(RunSite(site, xs), ys)
    decreases |ys|
  {
    if ys == [] {
      assert xs + ys == xs;
    } else {
      assert (xs + ys)[..|xs + ys| - 1] == xs + ys[..|ys| - 1];
      RunBoth(site, xs, ys[..|ys| - 1]);
    }
  }

  lemma NothingInTheWay(db: Database, m: Migration)
    requires forall t :: db.RowsOf(t) == map[]
    requires m.AddColumn? ==> m.table in db.tables
    ensures Ready(db, m)
  {
  }

  lemma FreshWidens(start: Site, parents: seq<Table>)
    requires AreParents(parents) && SchemaShows(start) && (forall t :: start.db.RowsOf(t) == map[])
    requires forall t :: t in TenantScopedTables() ==> t in start.db.tables
    ensures var site := RunSite(start, Attempts(WideningSet(), NEVER_USED, |WideningSet()|));
            && Finished(site, WideningSet()) && SchemaShows(site) && ColumnsAdded(site.applied)
            && site.db.tables == start.db.tables
  {
    forall m | m in WideningSet() ensures Ready(start.db, m) {
      var i :| 0 <= i < |WideningSet()| && WideningSet()[i] == m;
      WideningTables(i);
      NothingInTheWay(start.db, m);
    }
    FinishesIff(start, WideningSet(), NEVER_USED, parents, |WideningSet()|);
    AttemptsSound(start, WideningSet(), NEVER_USED, parents, |WideningSet()|);
    forall t | t in TenantScopedTables() ensures AddColumn(t) in WideningSet() {
      WideningMembers(t);
    }
  }

  lemma EmptyTightens(site: Site, parents: seq<Table>)
    requires AreParents(parents) && SchemaShows(site) && ColumnsAdded(site.applied) && forall t :: site.db.RowsOf(t) == map[]
    ensures var now := RunSite(site, Attempts(TighteningSet(parents), NEVER_USED, |TighteningSet(parents)|));
            Finished(now, TighteningSet(parents)) && site.applied <= now.applied
  {
    forall m | m in TighteningSet(parents) ensures Ready(site.db, m) {
      TighteningMembers(parents, m);
      NothingInTheWay(site.db, m);
    }
    FinishesIff(site, TighteningSet(parents), NEVER_USED, parents, |TighteningSet(parents)|);
    AttemptsSound(site, TighteningSet(parents), NEVER_USED, parents, |TighteningSet(parents)|);
  }

  lemma BothSetsLegal(parents: seq<Table>)
    ensures Legal(BothSets(parents), parents)
  {
  }

  lemma FreshIsEmpty(tables: set<Table>, upstream: set<UpstreamFK>, unique: set<UniqueKey>)
    ensures Untouched(Fresh(tables, upstream, unique)) && SchemaShows(Fresh(tables, upstream, unique))
    ensures forall t :: Fresh(tables, upstream, unique).db.RowsOf(t) == map[]
  {
  }

  /** Whatever keys upstream declares, the two sets one after the other complete a fresh installation. */
  lemma {:induction false} FreshCompletes(tables: set<Table>, upstream: set<UpstreamFK>, unique: set<UniqueKey>, parents: seq<Table>)
    requires AreParents(parents) && forall t :: t in TenantScopedTables() ==> t in tables
    ensures Untouched(Fresh(tables, upstream, unique)) && Legal(BothSets(parents), parents)
    ensures Complete(RunSite(Fresh(tables, upstream, unique), BothSets(parents)), parents)
  {
    var start := Fresh(tables, upstream, unique);
    FreshIsEmpty(tables, upstream, unique);
    BothSetsLegal(parents);
    FreshWidens(start, parents);
    var first := Attempts(WideningSet(), NEVER_USED, |WideningSet()|);
    var mid := RunSite(start, first);
    assert forall t :: mid.db.RowsOf(t) == map[];
    EmptyTightens(mid, parents);
    RunBoth(start, first, Attempts(TighteningSet(parents), NEVER_USED, |TighteningSet(parents)|));
    BothFinished(mid, RunSite(start, BothSets(parents)), parents);
  }

  lemma BothFinished(mid: Site, now: Site, parents: seq<Table>)
    requires Finished(mid, WideningSet()) && Finished(now, TighteningSet(parents)) && mid.applied <= now.applied
    ensures Complete(now, parents)
  {
  }
}
