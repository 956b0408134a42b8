/** The migration steps as they change the schema in place, and the runner that applies a set in order. */
module Migrator {
  import opened Common
  import opened Policy
  import opened Tables
  import opened Statements
  import opened Migrations

  class Catalog {
    const upstream: set<UpstreamFK>
    const unique: set<UniqueKey>
    var tables: map<Table, Rows>
    var columns: set<Table>
    var policies: map<Table, PolicyKind>
    var notNull: set<Table>
    var parentKeys: set<Table>
    var fks: set<TenantFK>
    var applied: set<Migration>

    function Db(): Database
      reads this
    {
      Database(tables, Schema(columns, policies, notNull, parentKeys, fks, upstream, unique))
    }

    ghost function State(): Site
      reads this
    {
      Site(Db(), applied)
    }

    constructor (tables: map<Table, Rows>, upstream: set<UpstreamFK>, unique: set<UniqueKey>)
      ensures State() == Site(Database(tables, Schema({}, map[], {}, {}, {}, upstream, unique)), {})
    {
      this.tables, this.upstream, this.unique := tables, upstream, unique;
      columns, policies, notNull, parentKeys, fks, applied := {}, map[], {}, {}, {}, {};
    }

    method AddTenantColumn(t: Table, ghost s: Session) returns (error: Option<MigrationError>)
      modifies this`columns
      ensures match Apply(old(Db()), s, AddColumn(t))
              case Ok(db) => error == None && Db() == db
              case Err(e) => error == Some(e) && Db() == old(Db())
    {
      if t !in tables { return Some(NoSuchTable); }
      columns := columns + {t};
      return None;
    }

    /** The policy is dropped and created again, so that a changed predicate takes effect. */
    method InstallTenantPolicy(t: Table, s: Session) returns (error: Option<MigrationError>)
      modifies this`policies
      ensures match Apply(old(Db()), s, InstallPolicy(t))
              case Ok(db) => error == None && Db() == db
              case Err(e) => error == Some(e) && Db() == old(Db())
    {
      var kind := PolicyKindFor(t);
      if kind.None? { return Some(NotClassified); }
      error := AssertBackfilled(Db(), s, t, kind.value);
      if error.Some? { return; }
      if t !in columns { return Some(NoSuchColumn); }
      ghost var before := policies;
      policies := policies - {t};
      policies := policies[t := kind.value];
      assert policies == before[t := kind.value];
    }

    method SetTenantColumnNotNull(t: Table, s: Session) returns (error: Option<MigrationError>)
      modifies this`notNull
      ensures match Apply(old(Db()), s, SetNotNull(t))
              case Ok(db) => error == None && Db() == db
              case Err(e) => error == Some(e) && Db() == old(Db())
    {
      error := AssertBackfilled(Db(), s, t, PolicyStrict);
      if error.Some? { return; }
      if t !in columns { return Some(NoSuchColumn); }
      if t in tables && exists id :: id in tables[t] && tables[t][id].tenant.None? { return Some(ColumnContainsNulls); }
      notNull := notNull + {t};
    }

    method AddParentTenantKey(p: Table, ghost s: Session) returns (error: Option<MigrationError>)
      modifies this`parentKeys
      ensures match Apply(old(Db()), s, AddParentKey(p))
              case Ok(db) => error == None && Db() == db
              case Err(e) => error == Some(e) && Db() == old(Db())
    {
      if p !in columns { return Some(NoSuchColumn); }
      if p !in parentKeys { parentKeys := parentKeys + {p}; }
      return None;
    }

    method AddTenantFK(fk: TenantFK, ghost s: Session) returns (error: Option<MigrationError>)
      modifies this`fks
      ensures match Apply(old(Db()), s, AddForeignKey(fk))
              case Ok(db) => error == None && Db() == db
              case Err(e) => error == Some(e) && Db() == old(Db())
    {
      if PolicyKindFor(fk.parent).None? { return Some(NotClassified); }
      if fk.child !in columns { return Some(NoSuchColumn); }
      if fk.child !in notNull { return Some(TenantColumnNullable); }
      if fk in fks { return None; }
      if fk.parent !in parentKeys { return Some(NoParentKey); }
      if !ForeignKeyHolds(fk, Db().RowsOf(fk.child), Db().RowsOf(fk.parent)) { return Some(ExistingRowsViolate); }
      fks := fks + {fk};
      return None;
    }

    method RunOne(m: Migration, s: Session) returns (error: Option<MigrationError>)
      modifies this`columns, this`policies, this`notNull, this`parentKeys, this`fks
      ensures match Apply(old(Db()), s, m)
              case Ok(db) => error == None && Db() == db
              case Err(e) => error == Some(e) && Db() == old(Db())
    {
      match m {
        case AddColumn(t) => error := AddTenantColumn(t, s);
        case InstallPolicy(t) => error := InstallTenantPolicy(t, s);
        case SetNotNull(t) => error := SetTenantColumnNotNull(t, s);
        case AddParentKey(t) => error := AddParentTenantKey(t, s);
        case AddForeignKey(fk) => error := AddTenantFK(fk, s);
      }
    }

    /** The first pending migration, and the record that it was applied. */
    method ApplyPending(migrations: seq<Migration>, i: nat, s: Session) returns (error: Option<MigrationError>)
      requires i < |migrations| && FirstPending(migrations, applied) == i
      modifies this`columns, this`policies, this`notNull, this`parentKeys, this`fks, this`applied
      ensures State() == Step(old(State()), Advance(migrations, s, false))
      ensures error.None? ==> applied == old(applied) + {migrations[i]}
      ensures error.Some? ==> applied == old(applied) && Apply(Db(), s, migrations[i]) == Err(error.value)
    {
      error := RunOne(migrations[i], s);
      if error.Some? { return; }
      applied := applied + {migrations[i]};
    }

    /** One turn of the loop, added to the steps made so far: a migration that is recorded is skipped. */
    method Turn(migrations: seq<Migration>, i: nat, s: Session, ghost start: Site, ghost past: seq<Event>)
      returns (error: Option<MigrationError>, ghost events: seq<Event>)
      requires i < |migrations| && forall j :: 0 <= j < i ==> migrations[j] in applied
      requires State() == RunSite(start, past) && OnlyAdvances(past, migrations, s)
      modifies this`columns, this`policies, this`notNull, this`parentKeys, this`fks, this`applied
      ensures State() == RunSite(start, events) && OnlyAdvances(events, migrations, s)
      ensures error.None? ==> forall j :: 0 <= j <= i ==> migrations[j] in applied
      ensures error.Some? ==> i == FirstPending(migrations, applied) && Apply(Db(), s, migrations[i]) == Err(error.value)
    {
      if migrations[i] in applied { return None, past; }
      FirstPendingIs(migrations, applied, i);
      RunSnoc(start, past, Advance(migrations, s, false));
      events := past + [Advance(migrations, s, false)];
      error := ApplyPending(migrations, i, s);
    }

    /**
     Applies the pending migrations in order, each recorded as it succeeds, and halts at the first that fails. The
     run is a sequence of steps of the state machine; it ends with everything recorded, or at the first pending
     migration with that migration's own error, so running it again resumes there.
     */
    method Migrate(migrations: seq<Migration>, s: Session)
      returns (error: Option<MigrationError>, ghost events: seq<Event>)
      modifies this`columns, this`policies, this`notNull, this`parentKeys, this`fks, this`applied
      ensures State() == RunSite(old(State()), events) && OnlyAdvances(events, migrations, s)
      ensures error.None? ==> forall i :: 0 <= i < |migrations| ==> migrations[i] in applied
      ensures error.Some? ==> var i := FirstPending(migrations, applied);
                              i < |migrations| && Apply(Db(), s, migrations[i]) == Err(error.value)
    {
      ghost var start := State();
      events := [];
      for i := 0 to |migrations|
        invariant State() == RunSite(start, events) && OnlyAdvances(events, migrations, s)
        invariant forall j :: 0 <= j < i ==> migrations[j] in applied
      {
        error, events := Turn(migrations, i, s, start, events);
        if error.Some? { return; }
      }
      return None, events;
    }
  }

  /** The steps are uninterrupted attempts at this set on this connection. */
  ghost predicate OnlyAdvances(events: seq<Event>, migrations: seq<Migration>, s: Session) {
    forall i :: 0 <= i < |events| ==> events[i] == Advance(migrations, s, false)
  }

  lemma RunSnoc(site: Site, events: seq<Event>, e: Event)
    ensures RunSite(site, events + [e]) == Step(RunSite(site, events), e)
  {
  }

  lemma {:induction false} FirstPendingIs(migrations: seq<Migration>, applied: set<Migration>, i: nat)
    requires i < |migrations| && migrations[i] !in applied && forall j :: 0 <= j < i ==> migrations[j] in applied
    ensures FirstPending(migrations, applied) == i
  {
  }
}
