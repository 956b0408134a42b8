/**
 A database under row-level security: tables of rows, a schema of policies and constraints, and statements
 whose content is an arbitrary function of what the session can see. A statement either fails and changes
 nothing, or answers; constraints are checked, and deletes cascade, over all rows, seen or not. Rows are written one
 after the other, each checked for policy, NOT NULL and uniqueness before the next; foreign keys wait for the end.
 */
module Statements {
  import opened Common
  import opened Policy
  import opened Tables

  type Id = int

  /** `refs` holds the pointer columns and `data` all others, as far as they are not NULL. */
  datatype Row = Row(tenant: Option<string>, refs: map<Column, Id>, data: map<string, int>)

  datatype Entry = Entry(id: Id, row: Row)

  type Rows = map<Id, Row>

  type View = map<Table, Rows>

  datatype KeyColumn = Pointer(column: Column) | Plain(name: string)

  /**
   A unique key that upstream declares beside the primary key. The composite edges need UNIQUE (tenant_id, id) on their
   parents (`parentKeys`); that one asks nothing, since the primary key implies it.
   */
  datatype UniqueKey = UniqueKey(table: Table, columns: set<KeyColumn>)

  datatype Schema = Schema(
    columns: set<Table>,
    policies: map<Table, PolicyKind>,
    notNull: set<Table>,
    parentKeys: set<Table>,
    fks: set<TenantFK>,
    upstream: set<UpstreamFK>,
    unique: set<UniqueKey>)

  datatype Database = Database(tables: map<Table, Rows>, schema: Schema) {
    function RowsOf(t: Table): Rows {
      if t in tables then tables[t] else map[]
    }
  }

  datatype Statement =
    | Select(query: View -> int)
    | Insert(table: Table, rows: View -> seq<Entry>)
    | Update(table: Table, change: View -> seq<Entry>)
    | Delete(table: Table, ids: View -> set<Id>)

  datatype SqlError = UndefinedTable | PolicyViolation | NotNullViolation | UniqueViolation | ForeignKeyViolation

  datatype Outcome = Failed(error: SqlError) | Done(db: Database, answer: int)

  // ---------- what a session sees and may write ----------

  predicate Visible(schema: Schema, s: Session, t: Table, row: Row) {
    t !in schema.policies || UsingAllows(schema.policies[t], s, row.tenant)
  }

  predicate Writable(schema: Schema, s: Session, t: Table, row: Row) {
    t !in schema.policies || CheckAllows(schema.policies[t], s, row.tenant)
  }

  function VisibleRows(db: Database, s: Session, t: Table): Rows {
    map id | id in db.RowsOf(t) && Visible(db.schema, s, t, db.RowsOf(t)[id]) :: db.RowsOf(t)[id]
  }

  function ViewOf(db: Database, s: Session): View {
    map t | t in db.tables :: VisibleRows(db, s, t)
  }

  // ---------- constraints ----------

  predicate NotNullHolds(schema: Schema, t: Table, rows: Rows) {
    t in schema.notNull ==> forall id :: id in rows ==> rows[id].tenant.Some?
  }

  /**
   FOREIGN KEY (tenant_id, column) REFERENCES parent (tenant_id, id) MATCH SIMPLE, for one child row: a NULL in
   either referencing column satisfies it without a lookup.
   */
  predicate MatchSimple(fk: TenantFK, row: Row, parents: Rows) {
    row.tenant.None? || fk.column !in row.refs
    || (row.refs[fk.column] in parents && parents[row.refs[fk.column]].tenant == row.tenant)
  }

  predicate ForeignKeyHolds(fk: TenantFK, children: Rows, parents: Rows) {
    forall id :: id in children ==> MatchSimple(fk, children[id], parents)
  }

  predicate ForeignKeysHold(db: Database) {
    forall fk :: fk in db.schema.fks ==> ForeignKeyHolds(fk, db.RowsOf(fk.child), db.RowsOf(fk.parent))
  }

  /** FOREIGN KEY (column) REFERENCES parent (id): the row exists, whoever owns it. */
  predicate UpstreamHolds(e: UpstreamFK, children: Rows, parents: Rows) {
    forall id :: id in children ==> e.column in children[id].refs ==> children[id].refs[e.column] in parents
  }

  function ValueOf(row: Row, c: KeyColumn): Option<int> {
    match c
    case Pointer(p) => if p in row.refs then Some(row.refs[p]) else None
    case Plain(n) => if n in row.data then Some(row.data[n]) else None
  }

  /** Both rows hold the same value of the key; a NULL equals nothing. */
  predicate Clash(key: UniqueKey, a: Row, b: Row) {
    key.columns != {} && forall c :: c in key.columns ==> ValueOf(a, c).Some? && ValueOf(a, c) == ValueOf(b, c)
  }

  predicate UniqueHolds(key: UniqueKey, rows: Rows) {
    forall i, j :: i in rows && j in rows && i != j ==> !Clash(key, rows[i], rows[j])
  }

  /** Another row of the table holds one of the row's unique keys. */
  predicate Taken(schema: Schema, t: Table, rows: Rows, id: Id, row: Row) {
    exists key, other :: key in schema.unique && key.table == t && other in rows && other != id && Clash(key, row, rows[other])
  }

  predicate KeysHold(db: Database) {
    ForeignKeysHold(db) && forall e :: e in db.schema.upstream ==> UpstreamHolds(e, db.RowsOf(e.child), db.RowsOf(e.parent))
  }

  ghost predicate Consistent(db: Database) {
    && (forall t :: t in db.tables ==> NotNullHolds(db.schema, t, db.tables[t]))
    && (forall key :: key in db.schema.unique ==> UniqueHolds(key, db.RowsOf(key.table)))
    && KeysHold(db)
  }

  // ---------- what a delete takes along ----------

  type RowId = (Table, Id)

  function AllRows(db: Database): set<RowId> {
    set t, id | t in db.tables && id in db.tables[t] :: (t, id)
  }

  /** Deleting `p` deletes `r`: some cascading key of upstream's points from `r` to `p`. */
  predicate PullsDown(db: Database, p: RowId, r: RowId) {
    r.1 in db.RowsOf(r.0) &&
    exists e :: e in db.schema.upstream && e.onDelete.Cascade? && e.parent == p.0 && e.child == r.0
                && e.column in db.RowsOf(r.0)[r.1].refs && db.RowsOf(r.0)[r.1].refs[e.column] == p.1
  }

  /** `r` is reached from the deleted rows in at most `n` cascades. */
  ghost predicate Falls(db: Database, gone: set<RowId>, r: RowId, n: nat)
    decreases n
  {
    if n == 0 then r in gone
    else Falls(db, gone, r, n - 1) || exists p :: Falls(db, gone, p, n - 1) && PullsDown(db, p, r)
  }

  /** Everything that goes when these rows are deleted. */
  ghost function Doomed(db: Database, gone: set<RowId>): set<RowId> {
    set r | r in AllRows(db) && exists n: nat :: Falls(db, gone, r, n)
  }

  /** ON DELETE SET NULL clears this pointer. */
  predicate Cleared(schema: Schema, doomed: set<RowId>, t: Table, column: Column, id: Id) {
    exists e :: e in schema.upstream && e.onDelete.SetNull? && e.child == t && e.column == column && (e.parent, id) in doomed
  }

  function Survivor(schema: Schema, doomed: set<RowId>, t: Table, row: Row): Row {
    row.(refs := map c | c in row.refs && !Cleared(schema, doomed, t, c, row.refs[c]) :: row.refs[c])
  }

  function Survivors(schema: Schema, doomed: set<RowId>, t: Table, rows: Rows): Rows {
    map id | id in rows && (t, id) !in doomed :: Survivor(schema, doomed, t, rows[id])
  }

  function Without(db: Database, doomed: set<RowId>): Database {
    db.(tables := map t | t in db.tables :: Survivors(db.schema, doomed, t, db.tables[t]))
  }

  // ---------- one statement ----------

  datatype Put = Stored(rows: Rows) | Rejected(error: SqlError)

  function RowError(schema: Schema, s: Session, t: Table, row: Row): Option<SqlError> {
    if !Writable(schema, s, t, row) then Some(PolicyViolation)
    else if t in schema.notNull && row.tenant.None? then Some(NotNullViolation)
    else None
  }

  /** The primary key of a new row, or some unique key of a row, is held by another. */
  predicate Obstructed(schema: Schema, t: Table, rows: Rows, e: Entry, isNew: bool) {
    (isNew && e.id in rows) || Taken(schema, t, rows, e.id, e.row)
  }

  /** The rows go in one after the other, up to the first that is refused. New rows are inserted, others replaced. */
  function PutAll(schema: Schema, s: Session, t: Table, rows: Rows, list: seq<Entry>, isNew: bool): Put
    decreases |list|
  {
    if list == [] then Stored(rows)
    else if RowError(schema, s, t, list[0].row).Some? then Rejected(RowError(schema, s, t, list[0].row).value)
    else if Obstructed(schema, t, rows, list[0], isNew) then Rejected(UniqueViolation)
    else PutAll(schema, s, t, rows[list[0].id := list[0].row], list[1..], isNew)
  }

  function NextOf(db: Database, t: Table, rows: Rows): Database {
    db.(tables := db.tables[t := rows])
  }

  /** The rows are put in, and the foreign keys are checked at the end. */
  ghost function Write(db: Database, s: Session, t: Table, list: seq<Entry>, isNew: bool): Outcome
    requires t in db.tables
  {
    match PutAll(db.schema, s, t, db.tables[t], list, isNew)
    case Rejected(error) => Failed(error)
    case Stored(rows) => if !KeysHold(NextOf(db, t, rows)) then Failed(ForeignKeyViolation) else Done(NextOf(db, t, rows), |list|)
  }

  function RowIds(t: Table, ids: set<Id>): set<RowId> {
    set id | id in ids :: (t, id)
  }

  /** The rows go, upstream's actions run below row-level security, and the keys are checked at the end. */
  ghost function Remove(db: Database, t: Table, gone: set<Id>): Outcome {
    var next := Without(db, Doomed(db, RowIds(t, gone)));
    if !KeysHold(next) then Failed(ForeignKeyViolation) else Done(next, |gone|)
  }

  ghost function Exec(db: Database, s: Session, st: Statement): Outcome {
    var view := ViewOf(db, s);
    if st.Select? then Done(db, st.query(view))
    else if st.table !in db.tables then Failed(UndefinedTable)
    else
      match st
      case Insert(t, rows) => Write(db, s, t, rows(view), true)
      case Update(t, change) =>
        // Only visible rows can be reached; their primary keys stay.
        Write(db, s, t, Reached(change(view), view[t]), false)
      case Delete(t, ids) => Remove(db, t, ids(view) * view[t].Keys)
  }

  function Reached(list: seq<Entry>, shown: Rows): (reached: seq<Entry>)
    ensures forall i :: 0 <= i < |reached| ==> reached[i].id in shown
  {
    if list == [] then [] else (if list[0].id in shown then [list[0]] else []) + Reached(list[1..], shown)
  }

  // ---------- transactions ----------

  /** What the callback does next, given the answers so far; None ends it. */
  type Program = seq<int> -> Option<Statement>

  datatype TxResult = Committed(db: Database, answers: seq<int>) | RolledBack(answers: seq<int>, error: SqlError)

  /** At most `steps` statements; the first failure rolls the transaction back. */
  ghost function RunTx(db: Database, s: Session, program: Program, answers: seq<int>, steps: nat): TxResult
    decreases steps
  {
    if steps == 0 || program(answers).None? then Committed(db, answers)
    else
      match Exec(db, s, program(answers).value)
      case Failed(error) => RolledBack(answers, error)
      case Done(next, answer) => RunTx(next, s, program, answers + [answer], steps - 1)
  }

  function After(db: Database, r: TxResult): Database {
    match r
    case Committed(next, _) => next
    case RolledBack(_, _) => db
  }

  // ---------- what a statement keeps ----------

  ghost predicate RowsConsistent(schema: Schema, t: Table, rows: Rows) {
    NotNullHolds(schema, t, rows) && forall key :: key in schema.unique && key.table == t ==> UniqueHolds(key, rows)
  }

  lemma ClashIsMutual(key: UniqueKey, a: Row, b: Row)
    ensures Clash(key, a, b) <==> Clash(key, b, a)
  {
  }

  lemma PutKeepsUnique(key: UniqueKey, rows: Rows, id: Id, row: Row)
    requires UniqueHolds(key, rows) && forall other :: other in rows && other != id ==> !Clash(key, row, rows[other])
    ensures UniqueHolds(key, rows[id := row])
  {
    var next := rows[id := row];
    forall i, j | i in next && j in next && i != j ensures !Clash(key, next[i], next[j]) {
      if j == id { ClashIsMutual(key, next[i], row); }
    }
  }

  lemma {:induction false} PutAllConsistent(schema: Schema, s: Session, t: Table, rows: Rows, list: seq<Entry>, isNew: bool)
    requires RowsConsistent(schema, t, rows) && PutAll(schema, s, t, rows, list, isNew).Stored?
    ensures RowsConsistent(schema, t, PutAll(schema, s, t, rows, list, isNew).rows)
    ensures rows.Keys <= PutAll(schema, s, t, rows, list, isNew).rows.Keys
    decreases |list|
  {
    if list != [] {
      var e := list[0];
      forall key | key in schema.unique && key.table == t ensures UniqueHolds(key, rows[e.id := e.row]) {
        PutKeepsUnique(key, rows, e.id, e.row);
      }
      PutAllConsistent(schema, s, t, rows[e.id := e.row], list[1..], isNew);
    }
  }

  lemma NextConsistent(db: Database, t: Table, rows: Rows)
    requires Consistent(db) && t in db.tables && RowsConsistent(db.schema, t, rows) && KeysHold(NextOf(db, t, rows))
    ensures Consistent(NextOf(db, t, rows))
  {
    var next := NextOf(db, t, rows);
    forall key | key in db.schema.unique ensures UniqueHolds(key, next.RowsOf(key.table)) {
      assert key.table != t ==> next.RowsOf(key.table) == db.RowsOf(key.table);
    }
  }

  lemma WriteConsistent(db: Database, s: Session, t: Table, list: seq<Entry>, isNew: bool)
    requires Consistent(db) && t in db.tables && Write(db, s, t, list, isNew).Done?
    ensures var next := Write(db, s, t, list, isNew).db;
            Consistent(next) && next.schema == db.schema && next.tables.Keys == db.tables.Keys
  {
    assert db.RowsOf(t) == db.tables[t];
    PutAllConsistent(db.schema, s, t, db.tables[t], list, isNew);
    NextConsistent(db, t, PutAll(db.schema, s, t, db.tables[t], list, isNew).rows);
  }

  /** A pointer that is cleared frees keys and takes none. */
  lemma SurvivorsUnique(schema: Schema, doomed: set<RowId>, key: UniqueKey, rows: Rows)
    requires UniqueHolds(key, rows)
    ensures UniqueHolds(key, Survivors(schema, doomed, key.table, rows))
  {
    var next := Survivors(schema, doomed, key.table, rows);
    forall i, j | i in next && j in next && i != j ensures !Clash(key, next[i], next[j]) {
      if Clash(key, next[i], next[j]) {
        forall c | c in key.columns ensures ValueOf(rows[i], c).Some? && ValueOf(rows[i], c) == ValueOf(rows[j], c) {
          assert ValueOf(next[i], c).Some? && ValueOf(next[i], c) == ValueOf(next[j], c);
        }
        assert Clash(key, rows[i], rows[j]);
      }
    }
  }

  lemma RemoveConsistent(db: Database, t: Table, gone: set<Id>)
    requires Consistent(db) && Remove(db, t, gone).Done?
    ensures var next := Remove(db, t, gone).db;
            Consistent(next) && next.schema == db.schema && next.tables.Keys == db.tables.Keys
  {
    var doomed := Doomed(db, RowIds(t, gone));
    var next := Remove(db, t, gone).db;
    forall u | u in next.tables ensures NotNullHolds(next.schema, u, next.tables[u]) {
      assert NotNullHolds(db.schema, u, db.tables[u]);
    }
    forall key | key in db.schema.unique ensures UniqueHolds(key, next.RowsOf(key.table)) {
      SurvivorsUnique(db.schema, doomed, key, db.RowsOf(key.table));
      assert next.RowsOf(key.table) == Survivors(db.schema, doomed, key.table, db.RowsOf(key.table));
    }
  }

  lemma ExecConsistent(db: Database, s: Session, st: Statement)
    requires Consistent(db) && Exec(db, s, st).Done?
    ensures Consistent(Exec(db, s, st).db) && Exec(db, s, st).db.schema == db.schema
    ensures Exec(db, s, st).db.tables.Keys == db.tables.Keys
  {
    var view := ViewOf(db, s);
    if st.Insert? {
      WriteConsistent(db, s, st.table, st.rows(view), true);
    } else if st.Update? {
      WriteConsistent(db, s, st.table, Reached(st.change(view), view[st.table]), false);
    } else if st.Delete? {
      RemoveConsistent(db, st.table, st.ids(view) * view[st.table].Keys);
    }
  }

  lemma {:induction false} RunTxConsistent(db: Database, s: Session, program: Program, answers: seq<int>, steps: nat)
    requires Consistent(db) && RunTx(db, s, program, answers, steps).Committed?
    ensures var next := RunTx(db, s, program, answers, steps).db;
            Consistent(next) && next.schema == db.schema && next.tables.Keys == db.tables.Keys
    decreases steps
  {
    if steps > 0 && program(answers).Some? {
      ExecConsistent(db, s, program(answers).value);
      var r := Exec(db, s, program(answers).value);
      RunTxConsistent(r.db, s, program, answers + [r.answer], steps - 1);
    }
  }

  // ---------- the composite keys do not stand in the way of upstream's actions ----------

  /** What is doomed takes along everything that cascades from it. */
  lemma DoomedIsClosed(db: Database, gone: set<RowId>, p: RowId, r: RowId)
    requires p in Doomed(db, gone) && PullsDown(db, p, r) && r in AllRows(db)
    ensures r in Doomed(db, gone)
  {
    var n: nat :| Falls(db, gone, p, n);
    assert Falls(db, gone, r, n + 1);
  }

  /** Every edge has an upstream key that acts on a delete, and no upstream key merely forbids it. */
  ghost predicate DeletesHandled(schema: Schema) {
    && (forall e :: e in schema.upstream ==> !e.onDelete.NoAction?)
    && (forall fk :: fk in schema.fks ==> exists e :: e in schema.upstream && SameEdge(e, fk))
  }

  /** After the actions a surviving row still points at what it pointed at, and that survived too. */
  lemma SurvivingPointer(db: Database, gone: set<RowId>, e: UpstreamFK, id: Id)
    requires Consistent(db) && e in db.schema.upstream && !e.onDelete.NoAction?
    requires id in Without(db, Doomed(db, gone)).RowsOf(e.child)
    ensures var row := Without(db, Doomed(db, gone)).RowsOf(e.child)[id];
            e.column in row.refs ==>
              && row.refs[e.column] in Without(db, Doomed(db, gone)).RowsOf(e.parent)
              && id in db.RowsOf(e.child) && e.column in db.RowsOf(e.child)[id].refs
              && db.RowsOf(e.child)[id].refs[e.column] == row.refs[e.column] && db.RowsOf(e.child)[id].tenant == row.tenant
  {
    var doomed := Doomed(db, gone);
    var row := Without(db, doomed).RowsOf(e.child)[id];
    if e.column in row.refs {
      var p := row.refs[e.column];
      assert UpstreamHolds(e, db.RowsOf(e.child), db.RowsOf(e.parent));
      if (e.parent, p) in doomed && e.onDelete.Cascade? {
        assert PullsDown(db, (e.parent, p), (e.child, id));
        DoomedIsClosed(db, gone, (e.parent, p), (e.child, id));
      }
    }
  }

  /**
   NO ACTION on the composite keys blocks no delete: by the time they are checked upstream's own actions have removed
   the pointing rows or cleared their pointers.
   */
  lemma DeleteIsNeverBlocked(db: Database, t: Table, gone: set<Id>)
    requires Consistent(db) && DeletesHandled(db.schema)
    ensures Remove(db, t, gone).Done?
  {
    var ids := RowIds(t, gone);
    var next := Without(db, Doomed(db, ids));
    forall e | e in db.schema.upstream ensures UpstreamHolds(e, next.RowsOf(e.child), next.RowsOf(e.parent)) {
      forall id | id in next.RowsOf(e.child) && e.column in next.RowsOf(e.child)[id].refs
        ensures next.RowsOf(e.child)[id].refs[e.column] in next.RowsOf(e.parent)
      {
        SurvivingPointer(db, ids, e, id);
      }
    }
    forall fk | fk in db.schema.fks ensures ForeignKeyHolds(fk, next.RowsOf(fk.child), next.RowsOf(fk.parent)) {
      var e :| e in db.schema.upstream && SameEdge(e, fk);
      forall id | id in next.RowsOf(fk.child) ensures MatchSimple(fk, next.RowsOf(fk.child)[id], next.RowsOf(fk.parent)) {
        SurvivingPointer(db, ids, e, id);
        assert MatchSimple(fk, db.RowsOf(fk.child)[id], db.RowsOf(fk.parent));
      }
    }
  }
}
