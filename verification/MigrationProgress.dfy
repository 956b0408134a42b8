/**
 When the migrator gets through. Each set is a list that halts at its first failure and resumes there; whether it ever
 ends is a matter of the rows alone, and the two pre-flight counts tell it before the first attempt.
 */
module MigrationProgress {
  import opened Common
  import opened Policy
  import opened Tables
  import opened Statements
  import opened Binding
  import opened Migrations

  predicate Attributed(db: Database, t: Table) {
    forall id :: id in db.RowsOf(t) ==> db.RowsOf(t)[id].tenant.Some?
  }

  /** What a migration asks of tables and rows. */
  predicate Ready(db: Database, m: Migration) {
    match m
    case AddColumn(t) => t in db.tables
    case InstallPolicy(t) => PolicyKindFor(t) == Some(PolicyStrict) ==> Attributed(db, t)
    case SetNotNull(t) => Attributed(db, t)
    case AddParentKey(_) => true
    case AddForeignKey(fk) => ForeignKeyHolds(fk, db.RowsOf(fk.child), db.RowsOf(fk.parent))
  }

  /** What a migration asks of those before it. */
  predicate Prepared(applied: set<Migration>, m: Migration) {
    match m
    case AddColumn(_) => true
    case InstallPolicy(t) => PolicyKindFor(t).Some? && AddColumn(t) in applied
    case SetNotNull(t) => AddColumn(t) in applied
    case AddParentKey(t) => AddColumn(t) in applied
    case AddForeignKey(fk) =>
      PolicyKindFor(fk.parent).Some? && AddColumn(fk.child) in applied && SetNotNull(fk.child) in applied
      && AddParentKey(fk.parent) in applied
  }

  /** Columns, NOT NULLs and parent keys that are recorded are there. */
  ghost predicate SchemaShows(site: Site) {
    var schema := site.db.schema;
    && (forall t :: AddColumn(t) in site.applied ==> t in schema.columns)
    && (forall t :: SetNotNull(t) in site.applied ==> t in schema.notNull)
    && (forall t :: AddParentKey(t) in site.applied ==> t in schema.parentKeys)
    && (forall fk :: fk in schema.fks ==> ForeignKeyHolds(fk, site.db.RowsOf(fk.child), site.db.RowsOf(fk.parent)))
  }

  lemma Empty<T>(ids: set<T>)
    requires forall id :: id !in ids
    ensures ids == {}
  {
  }

  /** A session in platform mode, as the counts and the gate take it from an idle connection. */
  function PlatformOf(s: Session): Session
    requires IdleSession(s)
  {
    BeginFromIdle(s, AcrossTenants(""), true);
    Begin(s, AcrossTenants(""), true).value
  }

  lemma PlatformSeesAll(db: Database, s: Session, t: Table)
    requires IdleSession(s)
    ensures VisibleRows(db, PlatformOf(s), t) == db.RowsOf(t)
  {
    BeginFromIdle(s, AcrossTenants(""), true);
    forall id ensures id in VisibleRows(db, PlatformOf(s), t) <==> id in db.RowsOf(t) {
      if id in db.RowsOf(t) && t in db.schema.policies {
        PolicyMeaning(db.schema.policies[t], PlatformOf(s), db.RowsOf(t)[id].tenant);
      }
    }
  }

  lemma CountIff(db: Database, s: Session, t: Table)
    requires IdleSession(s)
    ensures Unattributed(db, PlatformOf(s), t) == {} <==> Attributed(db, t)
  {
    PlatformSeesAll(db, s, t);
    var nulls := Unattributed(db, PlatformOf(s), t);
    forall id ensures id in nulls <==> id in db.RowsOf(t) && db.RowsOf(t)[id].tenant.None? {
    }
    if Attributed(db, t) {
      forall id ensures id !in nulls {}
      Empty(nulls);
    }
  }

  /** The gate asks the same question. */
  lemma GateIff(db: Database, s: Session, t: Table)
    requires IdleSession(s)
    ensures AssertBackfilled(db, s, t, PolicyStrict) == None <==> Attributed(db, t)
  {
    BeginFromIdle(s, AcrossTenants(""), true);
    CountIff(db, s, t);
  }

  /** A prepared migration succeeds if and only if the rows are ready for it, and leaves the rows alone. */
  lemma ApplyIff(site: Site, s: Session, m: Migration)
    requires SchemaShows(site) && IdleSession(s) && Prepared(site.applied, m)
    ensures Apply(site.db, s, m).Ok? <==> Ready(site.db, m)
    ensures Apply(site.db, s, m).Ok? ==>
              Apply(site.db, s, m).value.tables == site.db.tables && Apply(site.db, s, m).value.schema.upstream == site.db.schema.upstream
    ensures Apply(site.db, s, m).Ok? ==> SchemaShows(Site(Apply(site.db, s, m).value, site.applied + {m}))
  {
    if m.InstallPolicy? || m.SetNotNull? { GateIff(site.db, s, m.table); }
    if Apply(site.db, s, m).Ok? {
      var db := Apply(site.db, s, m).value;
      assert forall t :: db.RowsOf(t) == site.db.RowsOf(t);
    }
  }

  // ---------- the next migration is prepared ----------

  ghost predicate ColumnsAdded(applied: set<Migration>) {
    forall t :: t in TenantScopedTables() ==> AddColumn(t) in applied
  }

  /** What ParentTables returns for the listed edges. */
  ghost predicate AreParents(parents: seq<Table>) {
    forall t :: t in parents <==> exists fk :: fk in TENANT_FKS && fk.parent == t
  }

  /** One of the two sets, the second only over columns that are there. */
  ghost predicate Runnable(migrations: seq<Migration>, applied: set<Migration>, parents: seq<Table>) {
    migrations == WideningSet() || (migrations == TighteningSet(parents) && ColumnsAdded(applied))
  }

  lemma WideningTables(i: nat)
    requires i < |WideningSet()|
    ensures var m := WideningSet()[i]; (m.AddColumn? || m.InstallPolicy?) && m.table in TenantScopedTables()
  {
    var tables := TenantScopedTables();
    if i < |tables| { assert WideningSet()[i] == AddColumn(tables[i]); }
    else { assert WideningSet()[i] == InstallPolicy(tables[i - |tables|]); }
  }

  lemma TighteningTables(parents: seq<Table>, i: nat)
    requires i < |TighteningSet(parents)| && AreParents(parents)
    ensures var m := TighteningSet(parents)[i];
            match m
            case SetNotNull(t) => t in B_CLASS_TABLES
            case AddParentKey(t) => t in B_CLASS_TABLES
            case AddForeignKey(fk) => fk in TENANT_FKS
            case _ => false
  {
    Sections(B_CLASS_TABLES, TENANT_FKS);
    Sections(parents, TENANT_FKS);
    var m := TighteningSet(parents)[i];
    assert m in SetNotNulls(B_CLASS_TABLES) || m in AddParentKeys(parents) || m in AddForeignKeys(TENANT_FKS);
    if m.AddParentKey? {
      var fk :| fk in TENANT_FKS && fk.parent == m.table;
      EdgesAreStrict(fk);
      StrictIffBClass(m.table);
    }
  }

  lemma NextPrepared(migrations: seq<Migration>, applied: set<Migration>, parents: seq<Table>)
    requires Runnable(migrations, applied, parents) && AreParents(parents) && FirstPending(migrations, applied) < |migrations|
    ensures Prepared(applied, migrations[FirstPending(migrations, applied)])
  {
    var i := FirstPending(migrations, applied);
    var m := migrations[i];
    if migrations == WideningSet() {
      WideningOrder(applied);
      WideningTables(i);
      StrictIffBClass(m.table);
    } else {
      TighteningOrder(parents, applied);
      TighteningTables(parents, i);
      match m {
        case AddForeignKey(fk) =>
          EdgesAreStrict(fk);
          StrictIffBClass(fk.child);
          StrictIffBClass(fk.parent);
        case SetNotNull(t) => StrictIffBClass(t);
        case AddParentKey(t) => StrictIffBClass(t);
      }
    }
  }

  // ---------- attempts ----------

  /** The migrator is started again and again, one migration a step, and nothing else happens. */
  function Attempts(migrations: seq<Migration>, s: Session, n: nat): seq<Event> {
    seq(n, _ => Advance(migrations, s, false))
  }

  lemma RunAttempt(site: Site, migrations: seq<Migration>, s: Session, n: nat)
    requires n > 0
    ensures RunSite(site, Attempts(migrations, s, n)) == Step(RunSite(site, Attempts(migrations, s, n - 1)), Advance(migrations, s, false))
  {
    assert Attempts(migrations, s, n)[..n - 1] == Attempts(migrations, s, n - 1);
  }

  lemma StepIs(site: Site, migrations: seq<Migration>, s: Session)
    ensures var i := FirstPending(migrations, site.applied);
            Step(site, Advance(migrations, s, false)) ==
            if i == |migrations| then site
            else match Apply(site.db, s, migrations[i])
                 case Ok(db) => Site(db, site.applied + {migrations[i]})
                 case Err(_) => site
  {
  }

  lemma StaysRunnable(migrations: seq<Migration>, applied: set<Migration>, more: set<Migration>, parents: seq<Table>)
    requires Runnable(migrations, applied, parents) && applied <= more
    ensures Runnable(migrations, more, parents)
  {
  }

  /** One attempt records the first pending migration if and only if the rows are ready for it. */
  lemma AttemptIff(site: Site, migrations: seq<Migration>, s: Session, parents: seq<Table>)
    requires SchemaShows(site) && IdleSession(s) && Runnable(migrations, site.applied, parents) && AreParents(parents)
    ensures var next := Step(site, Advance(migrations, s, false)); var i := FirstPending(migrations, site.applied);
            && SchemaShows(next) && next.db.tables == site.db.tables && next.db.schema.upstream == site.db.schema.upstream
            && next.applied == if i < |migrations| && Ready(site.db, migrations[i]) then site.applied + {migrations[i]} else site.applied
  {
    var i := FirstPending(migrations, site.applied);
    StepIs(site, migrations, s);
    if i < |migrations| {
      NextPrepared(migrations, site.applied, parents);
      ApplyIff(site, s, migrations[i]);
    }
  }

  lemma ReadyOfRows(a: Database, b: Database, m: Migration)
    requires a.tables == b.tables
    ensures Ready(a, m) <==> Ready(b, m)
  {
    assert forall t :: a.RowsOf(t) == b.RowsOf(t);
  }

  lemma {:induction false} PendingMoves(migrations: seq<Migration>, applied: set<Migration>, i: nat)
    requires i < |migrations| && FirstPending(migrations, applied) == i
    ensures FirstPending(migrations, applied + {migrations[i]}) > i
  {
    var j := FirstPending(migrations, applied + {migrations[i]});
    assert forall k :: 0 <= k < i ==> migrations[k] in applied;
    assert j < |migrations| ==> migrations[j] !in applied && j != i;
  }

  /** The state after `n` attempts: nothing that is not ready was recorded, and no attempt was wasted if all is ready. */
  ghost predicate Attempted(site: Site, now: Site, migrations: seq<Migration>, parents: seq<Table>, n: nat) {
    && SchemaShows(now) && now.db.tables == site.db.tables && now.db.schema.upstream == site.db.schema.upstream
    && Runnable(migrations, now.applied, parents) && site.applied <= now.applied
    && (forall m :: m in now.applied ==> m in site.applied || Ready(site.db, m))
    && ((forall m :: m in migrations ==> m in site.applied || Ready(site.db, m)) ==>
          FirstPending(migrations, now.applied) == |migrations| || n <= FirstPending(migrations, now.applied))
  }

  lemma AttemptedStep(site: Site, now: Site, migrations: seq<Migration>, s: Session, parents: seq<Table>, n: nat)
    requires IdleSession(s) && AreParents(parents) && Attempted(site, now, migrations, parents, n)
    ensures Attempted(site, Step(now, Advance(migrations, s, false)), migrations, parents, n + 1)
  {
    AttemptIff(now, migrations, s, parents);
    StaysRunnable(migrations, now.applied, Step(now, Advance(migrations, s, false)).applied, parents);
    var i := FirstPending(migrations, now.applied);
    if i < |migrations| {
      ReadyOfRows(site.db, now.db, migrations[i]);
      PendingMoves(migrations, now.applied, i);
    }
  }

  lemma {:induction false} AttemptsSound(site: Site, migrations: seq<Migration>, s: Session, parents: seq<Table>, n: nat)
    requires SchemaShows(site) && IdleSession(s) && Runnable(migrations, site.applied, parents) && AreParents(parents)
    ensures Attempted(site, RunSite(site, Attempts(migrations, s, n)), migrations, parents, n)
    decreases n
  {
    if n > 0 {
      AttemptsSound(site, migrations, s, parents, n - 1);
      RunAttempt(site, migrations, s, n);
      AttemptedStep(site, RunSite(site, Attempts(migrations, s, n - 1)), migrations, s, parents, n - 1);
    }
  }

  /** The set is recorded in full. */
  ghost predicate Finished(site: Site, migrations: seq<Migration>) {
    forall m :: m in migrations ==> m in site.applied
  }

  lemma PendingMeansUnfinished(migrations: seq<Migration>, applied: set<Migration>)
    ensures FirstPending(migrations, applied) == |migrations| <==> forall m :: m in migrations ==> m in applied
  {
    var i := FirstPending(migrations, applied);
    if i < |migrations| { assert migrations[i] in migrations; }
  }

  /**
   A set gets through, in as many attempts as it has migrations, if and only if the rows are ready for every migration
   that is not recorded yet; otherwise no number of attempts gets it through.
   */
  lemma {:induction false} FinishesIff(site: Site, migrations: seq<Migration>, s: Session, parents: seq<Table>, n: nat)
    requires SchemaShows(site) && IdleSession(s) && Runnable(migrations, site.applied, parents) && AreParents(parents)
    requires n >= |migrations|
    ensures Finished(RunSite(site, Attempts(migrations, s, n)), migrations)
            <==> forall m :: m in migrations ==> m in site.applied || Ready(site.db, m)
  {
    AttemptsSound(site, migrations, s, parents, n);
    PendingMeansUnfinished(migrations, RunSite(site, Attempts(migrations, s, n)).applied);
  }

  // ---------- what the pre-flight counts tell ----------

  /** The count joins child and parent, so it is exact where upstream's key keeps every pointer from dangling. */
  lemma PairsIff(db: Database, s: Session, fk: TenantFK, e: UpstreamFK)
    requires IdleSession(s) && KeysHold(db) && e in db.schema.upstream && SameEdge(e, fk) && Attributed(db, fk.child)
    ensures CrossTenantPairs(db, PlatformOf(s), fk) == {} <==> ForeignKeyHolds(fk, db.RowsOf(fk.child), db.RowsOf(fk.parent))
  {
    PlatformSeesAll(db, s, fk.child);
    PlatformSeesAll(db, s, fk.parent);
    var pairs := CrossTenantPairs(db, PlatformOf(s), fk);
    assert UpstreamHolds(e, db.RowsOf(e.child), db.RowsOf(e.parent));
    forall id ensures id in pairs <==> id in db.RowsOf(fk.child) && !MatchSimple(fk, db.RowsOf(fk.child)[id], db.RowsOf(fk.parent)) {
    }
    if ForeignKeyHolds(fk, db.RowsOf(fk.child), db.RowsOf(fk.parent)) {
      forall id ensures id !in pairs {}
      Empty(pairs);
    }
  }

  /** Both pre-flight reports are empty. */
  ghost predicate PreflightClean(db: Database, s: Session)
    requires IdleSession(s)
  {
    && (forall t :: t in B_CLASS_TABLES ==> Unattributed(db, PlatformOf(s), t) == {})
    && (forall fk :: fk in TENANT_FKS ==> CrossTenantPairs(db, PlatformOf(s), fk) == {})
  }

  /** Each listed edge lies over a key that upstream declares. */
  ghost predicate UpstreamDeclares(upstream: set<UpstreamFK>) {
    forall fk :: fk in TENANT_FKS ==> exists e :: e in upstream && SameEdge(e, fk)
  }

  ghost predicate AllReady(db: Database, parents: seq<Table>) {
    forall m :: m in TighteningSet(parents) ==> Ready(db, m)
  }

  lemma TighteningMembers(parents: seq<Table>, m: Migration)
    ensures m in TighteningSet(parents) <==>
              (m.SetNotNull? && m.table in B_CLASS_TABLES) || (m.AddParentKey? && m.table in parents)
              || (m.AddForeignKey? && m.fk in TENANT_FKS)
  {
    Sections(B_CLASS_TABLES, TENANT_FKS);
    Sections(parents, TENANT_FKS);
    var a, b, c := SetNotNulls(B_CLASS_TABLES), AddParentKeys(parents), AddForeignKeys(TENANT_FKS);
    assert m in a + b + c <==> m in a || m in b || m in c;
  }

  /** What both say of the rows. */
  ghost predicate RowsFit(db: Database) {
    && (forall t :: t in B_CLASS_TABLES ==> Attributed(db, t))
    && (forall fk :: fk in TENANT_FKS ==> ForeignKeyHolds(fk, db.RowsOf(fk.child), db.RowsOf(fk.parent)))
  }

  lemma ReadyFits(db: Database, parents: seq<Table>)
    requires AllReady(db, parents)
    ensures RowsFit(db)
  {
    forall t | t in B_CLASS_TABLES ensures Attributed(db, t) {
      TighteningMembers(parents, SetNotNull(t));
      assert Ready(db, SetNotNull(t));
    }
    forall fk | fk in TENANT_FKS ensures ForeignKeyHolds(fk, db.RowsOf(fk.child), db.RowsOf(fk.parent)) {
      TighteningMembers(parents, AddForeignKey(fk));
      assert Ready(db, AddForeignKey(fk));
    }
  }

  lemma FittingIsReady(db: Database, parents: seq<Table>)
    requires RowsFit(db)
    ensures AllReady(db, parents)
  {
    forall m | m in TighteningSet(parents) ensures Ready(db, m) {
      TighteningMembers(parents, m);
    }
  }

  lemma CleanMeans(db: Database, s: Session)
    requires IdleSession(s) && KeysHold(db) && UpstreamDeclares(db.schema.upstream)
    ensures PreflightClean(db, s) <==> RowsFit(db)
  {
    forall t | t in B_CLASS_TABLES ensures Unattributed(db, PlatformOf(s), t) == {} <==> Attributed(db, t) {
      CountIff(db, s, t);
    }
    forall fk | fk in TENANT_FKS && Attributed(db, fk.child)
      ensures CrossTenantPairs(db, PlatformOf(s), fk) == {} <==> ForeignKeyHolds(fk, db.RowsOf(fk.child), db.RowsOf(fk.parent))
    {
      var e :| e in db.schema.upstream && SameEdge(e, fk);
      PairsIff(db, s, fk, e);
    }
    forall fk | fk in TENANT_FKS ensures fk.child in B_CLASS_TABLES {
      EdgesAreStrict(fk);
      StrictIffBClass(fk.child);
    }
  }

  /** What is recorded is still true of the rows. */
  lemma RecordedIsReady(site: Site, parents: seq<Table>, m: Migration)
    requires SchemaShows(site) && Recorded(site) && Consistent(site.db) && m in TighteningSet(parents) && m in site.applied
    ensures Ready(site.db, m)
  {
    TighteningMembers(parents, m);
    match m {
      case SetNotNull(t) => assert t in site.db.tables ==> NotNullHolds(site.db.schema, t, site.db.tables[t]);
      case AddForeignKey(fk) => assert fk in site.db.schema.fks;
      case AddParentKey(_) =>
    }
  }

  lemma StepShown(site: Site, e: Event)
    requires SchemaShows(site) && Consistent(site.db)
    ensures SchemaShows(Step(site, e))
  {
    match e {
      case Data(s, st) => if Exec(site.db, s, st).Done? { ExecConsistent(site.db, s, st); }
      case Advance(migrations, s, interrupted) =>
        var i := FirstPending(migrations, site.applied);
        StepIs(site, migrations, s);
        if i < |migrations| && Apply(site.db, s, migrations[i]).Ok? { ApplyShown(site, s, migrations[i]); }
    }
  }

  lemma ApplyShown(site: Site, s: Session, m: Migration)
    requires SchemaShows(site) && Apply(site.db, s, m).Ok?
    ensures SchemaShows(Site(Apply(site.db, s, m).value, site.applied + {m}))
  {
    var db := Apply(site.db, s, m).value;
    assert forall t :: db.RowsOf(t) == site.db.RowsOf(t);
  }

  lemma {:induction false} RunShown(site: Site, events: seq<Event>)
    requires Sound(site) && SchemaShows(site)
    ensures SchemaShows(RunSite(site, events))
    decreases |events|
  {
    if events != [] {
      RunShown(site, events[..|events| - 1]);
      RunSound(site, events[..|events| - 1]);
      StepShown(RunSite(site, events[..|events| - 1]), events[|events| - 1]);
    }
  }

  lemma {:induction false} UpstreamKept(site: Site, events: seq<Event>)
    ensures RunSite(site, events).db.schema.upstream == site.db.schema.upstream
    decreases |events|
  {
    if events != [] {
      UpstreamKept(site, events[..|events| - 1]);
      KeepsUpstream(RunSite(site, events[..|events| - 1]), events[|events| - 1]);
    }
  }

  lemma KeepsUpstream(site: Site, e: Event)
    ensures Step(site, e).db.schema.upstream == site.db.schema.upstream
  {
  }

  /**
   The pre-flight is exact. At any point of any run, with all columns added: if nothing but the tightening runs from now
   on, it gets through if and only if no B-class table has a row without a tenant and no listed edge has a pair that
   crosses tenants, both counted in platform mode before it starts. Otherwise no number of attempts helps.
   */
  lemma {:induction false} TighteningFinishesIffClean(start: Site, events: seq<Event>, parents: seq<Table>, s: Session, n: nat)
    requires Untouched(start) && Legal(events, parents) && AreParents(parents) && UpstreamDeclares(start.db.schema.upstream)
    requires ColumnsAdded(RunSite(start, events).applied) && IdleSession(s) && n >= |TighteningSet(parents)|
    ensures var site := RunSite(start, events);
            Finished(RunSite(site, Attempts(TighteningSet(parents), s, n)), TighteningSet(parents)) <==> PreflightClean(site.db, s)
  {
    var site := RunSite(start, events);
    RunSound(start, events);
    RunShown(start, events);
    RunOrderly(start, events, parents);
    UpstreamKept(start, events);
    FinishesIff(site, TighteningSet(parents), s, parents, n);
    CleanMeans(site.db, s);
    if AllReady(site.db, parents) { ReadyFits(site.db, parents); }
    if RowsFit(site.db) { FittingIsReady(site.db, parents); }
    forall m | m in TighteningSet(parents) && m in site.applied ensures Ready(site.db, m) {
      RecordedIsReady(site, parents, m);
    }
  }

  lemma WideningMembers(t: Table)
    requires t in TenantScopedTables()
    ensures AddColumn(t) in WideningSet() && InstallPolicy(t) in WideningSet()
  {
    var tables := TenantScopedTables();
    var k :| 0 <= k < |tables| && tables[k] == t;
    assert WideningSet()[k] == AddColumn(t) && WideningSet()[|tables| + k] == InstallPolicy(t);
  }

  ghost predicate WideningReady(site: Site) {
    forall m :: m in WideningSet() ==> m in site.applied || Ready(site.db, m)
  }

  lemma WideningMeans(site: Site)
    ensures WideningReady(site) <==>
              && (forall t :: t in TenantScopedTables() && AddColumn(t) !in site.applied ==> t in site.db.tables)
              && (forall t :: t in B_CLASS_TABLES && InstallPolicy(t) !in site.applied ==> Attributed(site.db, t))
  {
    forall t | t in TenantScopedTables()
      ensures AddColumn(t) in WideningSet() && InstallPolicy(t) in WideningSet()
      ensures t in B_CLASS_TABLES <==> PolicyKindFor(t) == Some(PolicyStrict)
    {
      WideningMembers(t);
      StrictIffBClass(t);
    }
    forall t | t in B_CLASS_TABLES ensures t in TenantScopedTables() {
      StrictIffBClass(t);
    }
    if WideningReady(site) {
      forall t | t in B_CLASS_TABLES && InstallPolicy(t) !in site.applied ensures Attributed(site.db, t) {
        assert Ready(site.db, InstallPolicy(t));
      }
      forall t | t in TenantScopedTables() && AddColumn(t) !in site.applied ensures t in site.db.tables {
        assert Ready(site.db, AddColumn(t));
      }
    }
    forall m | m in WideningSet() ensures (m.AddColumn? || m.InstallPolicy?) && m.table in TenantScopedTables() {
      var i :| 0 <= i < |WideningSet()| && WideningSet()[i] == m;
      WideningTables(i);
    }
  }

  /**
   The widening gets through if and only if every table that still wants its column exists and none that still wants a
   strict policy has a row without a tenant, as counted before it starts.
   */
  lemma {:induction false} WideningFinishesIff(start: Site, events: seq<Event>, parents: seq<Table>, s: Session, n: nat)
    requires Untouched(start) && Legal(events, parents) && AreParents(parents)
    requires IdleSession(s) && n >= |WideningSet()|
    ensures var site := RunSite(start, events);
            Finished(RunSite(site, Attempts(WideningSet(), s, n)), WideningSet()) <==>
              && (forall t :: t in TenantScopedTables() && AddColumn(t) !in site.applied ==> t in site.db.tables)
              && (forall t :: t in B_CLASS_TABLES && InstallPolicy(t) !in site.applied ==> Unattributed(site.db, PlatformOf(s), t) == {})
  {
    var site := RunSite(start, events);
    RunSound(start, events);
    RunShown(start, events);
    FinishesIff(site, WideningSet(), s, parents, n);
    WideningMeans(site);
    forall t ensures Unattributed(site.db, PlatformOf(s), t) == {} <==> Attributed(site.db, t) {
      CountIff(site.db, s, t);
    }
  }
}
