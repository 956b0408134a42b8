/**
 What isolation takes, exactly. A schema in which a key of upstream's asks or refuses something because of a hidden row
 has two databases and a transaction that tell a tenant so; one in which a key acts on hidden rows has a transaction that
 reaches them. And two witnesses of what no composite edge closes: the unique keys that hidden rows hold.
 */
module IsolationLimits {
  import opened Common
  import opened Policy
  import opened Tables
  import opened Statements
  import opened Isolation

  /** No tenant's transaction can tell two databases of this schema apart that look the same to it, but for hidden unique keys. */
  ghost predicate Isolated(schema: Schema) {
    forall a: Database, b: Database, s: Session, program: Program, steps: nat :: a.schema == schema && Comparable(a, b, s, program, steps) ==>
      SameResult(a, b, s, program, [], steps)
  }

  /** The databases look the same, and the transaction first meets a unique key of a hidden row at the same point in both. */
  ghost predicate Comparable(a: Database, b: Database, s: Session, program: Program, steps: nat) {
    && ModeOf(s).BoundTo? && LookSame(a, b, s) && Consistent(a) && Consistent(b)
    && FirstCollision(a, s, program, [], steps) == FirstCollision(b, s, program, [], steps)
  }

  /** No tenant's transaction changes a row it does not see or writes one that is not its own. */
  ghost predicate KeepsOut(schema: Schema) {
    forall db: Database, s: Session, program: Program, steps: nat :: db.schema == schema && Consistent(db) && ModeOf(s).BoundTo? ==>
      OwnChangesOnly(db, After(db, RunTx(db, s, program, [], steps)), s)
  }

  /** A key of upstream's or a composite one: the child's column holds the id of a row of the parent. */
  datatype Edge = Declared(e: UpstreamFK) | Composite(fk: TenantFK)
  {
    function Child(): Table {
      if Declared? then e.child else fk.child
    }

    function Column(): Column {
      if Declared? then e.column else fk.column
    }

    function Parent(): Table {
      if Declared? then e.parent else fk.parent
    }
  }

  predicate EdgeOf(schema: Schema, x: Edge) {
    if x.Declared? then x.e in schema.upstream else x.fk in schema.fks
  }

  /** A column points at one table only. */
  ghost predicate PointsOnce(schema: Schema) {
    forall x, y :: EdgeOf(schema, x) && EdgeOf(schema, y) && x.Child() == y.Child() && x.Column() == y.Column() ==> x.Parent() == y.Parent()
  }

  lemma OneParent(schema: Schema, x: Edge, y: Edge)
    requires PointsOnce(schema) && EdgeOf(schema, x) && EdgeOf(schema, y) && x.Child() == y.Child() && x.Column() == y.Column()
    ensures x.Parent() == y.Parent()
  {
  }

  lemma SameColumnCovers(schema: Schema, e: UpstreamFK, fk: TenantFK)
    requires PointsOnce(schema) && e in schema.upstream && fk in schema.fks && fk.child == e.child && fk.column == e.column
    ensures CoveredEdge(schema, e)
  {
    OneParent(schema, Declared(e), Composite(fk));
    assert SameEdge(e, fk);
  }

  // ---------- rows and statements of the witnesses ----------

  const SESSION_A: Session := Session(Some("a"), None)

  function RowOf(tenant: string): Row {
    Row(Some(tenant), map[], map[])
  }

  function Pointing(tenant: string, column: Column, id: Id): Row {
    Row(Some(tenant), map[column := id], map[])
  }

  /** A transaction of one statement. */
  function Just(st: Statement): Program {
    answers => if answers == [] then Some(st) else None
  }

  lemma JustRuns(db: Database, s: Session, st: Statement)
    ensures RunTx(db, s, Just(st), [], 1)
            == match Exec(db, s, st) case Failed(error) => RolledBack([], error) case Done(next, answer) => Committed(next, [answer])
    ensures FirstCollision(db, s, Just(st), [], 1) == if Collides(db, s, st) then Some(0) else None
  {
    var r := Exec(db, s, st);
    if r.Done? { assert [] + [r.answer] == [r.answer]; }
  }

  /** One statement that fails in one of two databases that look the same. */
  lemma OneFails(a: Database, b: Database, st: Statement)
    requires LookSame(a, b, SESSION_A) && Consistent(a) && Consistent(b)
    requires !Collides(a, SESSION_A, st) && !Collides(b, SESSION_A, st)
    requires Exec(a, SESSION_A, st).Done? <==> Exec(b, SESSION_A, st).Failed?
    ensures !Isolated(a.schema)
  {
    JustRuns(a, SESSION_A, st);
    JustRuns(b, SESSION_A, st);
    assert Comparable(a, b, SESSION_A, Just(st), 1);
    assert !SameResult(a, b, SESSION_A, Just(st), [], 1);
  }

  /** Rows of tenant b are hidden from tenant a under a policy of any kind. */
  lemma OthersHidden(schema: Schema, t: Table, row: Row)
    requires t in schema.policies && row.tenant == Some("b")
    ensures !Visible(schema, SESSION_A, t, row)
  {
    PolicyMeaning(schema.policies[t], SESSION_A, row.tenant);
  }

  lemma OwnWritable(schema: Schema, t: Table, row: Row)
    requires row.tenant == Some("a")
    ensures Writable(schema, SESSION_A, t, row) && Visible(schema, SESSION_A, t, row)
  {
    if t in schema.policies { PolicyMeaning(schema.policies[t], SESSION_A, row.tenant); }
  }

  /** A row that holds no column of a key clashes with none. */
  lemma NoClash(key: UniqueKey, a: Row, b: Row)
    requires forall c :: ValueOf(a, c).Some? ==> ValueOf(a, c) != ValueOf(b, c)
    ensures !Clash(key, a, b)
  {
    if key.columns != {} {
      var c :| c in key.columns;
    }
  }

  // ---------- a key that asks for a hidden row ----------

  /** The child's table is empty; the parent's holds these rows. */
  function ParentsOnly(schema: Schema, e: UpstreamFK, parents: Rows): Database {
    Database(map[e.child := map[]][e.parent := parents], schema)
  }

  lemma BareRowsConsistent(db: Database)
    requires forall t, id :: t in db.tables && id in db.tables[t] ==>
               db.tables[t][id].tenant.Some? && db.tables[t][id].refs == map[] && db.tables[t][id].data == map[]
    ensures Consistent(db)
  {
    forall key | key in db.schema.unique ensures UniqueHolds(key, db.RowsOf(key.table)) {
      var rows := db.RowsOf(key.table);
      forall i, j | i in rows && j in rows && i != j ensures !Clash(key, rows[i], rows[j]) {
        NoClash(key, rows[i], rows[j]);
      }
    }
  }

  /** With no parent, or with one of another tenant, tenant a sees two empty tables. */
  lemma ParentsLookSame(schema: Schema, e: UpstreamFK, parents: Rows)
    requires e.parent in schema.policies
    requires forall id :: id in parents ==> parents[id] == RowOf("b")
    ensures var db := ParentsOnly(schema, e, parents);
            && Consistent(db) && db.tables.Keys == {e.child, e.parent}
            && ViewOf(db, SESSION_A) == map[e.child := map[], e.parent := map[]]
  {
    var db := ParentsOnly(schema, e, parents);
    forall id | id in parents ensures !Visible(schema, SESSION_A, e.parent, parents[id]) {
      OthersHidden(schema, e.parent, parents[id]);
    }
    var none: Rows := map[];
    forall t | t in db.tables ensures VisibleRows(db, SESSION_A, t) == none {
      assert db.RowsOf(t) == if t == e.parent then parents else none;
    }
    BareRowsConsistent(db);
  }

  /** The new row points at id 7, and only upstream's key asks whether there is such a row. */
  lemma PointingNext(schema: Schema, e: UpstreamFK, parents: Rows, rows: Rows)
    requires PointsOnce(schema) && e in schema.upstream && !CoveredEdge(schema, e) && 1 !in parents
    requires forall id :: id in parents ==> parents[id] == RowOf("b")
    requires rows == ParentsOnly(schema, e, parents).tables[e.child][1 := Pointing("a", e.column, 7)]
    ensures KeysHold(NextOf(ParentsOnly(schema, e, parents), e.child, rows)) <==> 7 in parents
  {
    var db := ParentsOnly(schema, e, parents);
    var row := Pointing("a", e.column, 7);
    var next := NextOf(db, e.child, rows);
    forall t, id | id in next.RowsOf(t)
      ensures (t == e.child && id == 1 && next.RowsOf(t)[id] == row) || next.RowsOf(t)[id] == RowOf("b")
    {
    }
    assert 1 in next.RowsOf(e.child) && next.RowsOf(e.child)[1] == row;
    if 7 in parents {
      assert 7 in next.RowsOf(e.parent);
      forall f | f in schema.upstream ensures UpstreamHolds(f, next.RowsOf(f.child), next.RowsOf(f.parent)) {
        if f.child == e.child && f.column == e.column { OneParent(schema, Declared(e), Declared(f)); }
      }
      forall fk | fk in schema.fks ensures ForeignKeyHolds(fk, next.RowsOf(fk.child), next.RowsOf(fk.parent)) {
        if fk.child == e.child && fk.column == e.column {
          SameColumnCovers(schema, e, fk);
        }
      }
    } else {
      assert !UpstreamHolds(e, next.RowsOf(e.child), next.RowsOf(e.parent));
    }
  }

  lemma PutOne(schema: Schema, s: Session, t: Table, rows: Rows, e: Entry, isNew: bool)
    requires RowError(schema, s, t, e.row).None?
    ensures PutAll(schema, s, t, rows, [e], isNew)
            == if Obstructed(schema, t, rows, e, isNew) then Rejected(UniqueViolation) else Stored(rows[e.id := e.row])
  {
    assert [e][1..] == [];
  }

  lemma PointingPut(schema: Schema, e: UpstreamFK, rows: Rows)
    requires 1 !in rows && forall id :: id in rows ==> rows[id] == RowOf("b")
    ensures var entry := Entry(1, Pointing("a", e.column, 7));
            PutAll(schema, SESSION_A, e.child, rows, [entry], true) == Stored(rows[1 := entry.row])
  {
    var entry := Entry(1, Pointing("a", e.column, 7));
    OwnWritable(schema, e.child, entry.row);
    forall key, other | key in schema.unique && other in rows ensures !Clash(key, entry.row, rows[other]) {
      NoClash(key, entry.row, rows[other]);
    }
    PutOne(schema, SESSION_A, e.child, rows, entry, true);
  }

  /** One INSERT: accepted if the parent exists, refused if it does not. */
  lemma PointingInsert(schema: Schema, e: UpstreamFK, parents: Rows, f: View -> seq<Entry>)
    requires PointsOnce(schema) && e in schema.upstream && !CoveredEdge(schema, e) && 1 !in parents
    requires forall id :: id in parents ==> parents[id] == RowOf("b")
    requires f(ViewOf(ParentsOnly(schema, e, parents), SESSION_A)) == [Entry(1, Pointing("a", e.column, 7))]
    ensures var db := ParentsOnly(schema, e, parents);
            && !Collides(db, SESSION_A, Insert(e.child, f))
            && (Exec(db, SESSION_A, Insert(e.child, f)).Done? <==> 7 in parents)
  {
    var db := ParentsOnly(schema, e, parents);
    var rows := db.tables[e.child];
    PointingPut(schema, e, rows);
    PointingNext(schema, e, parents, rows[1 := Pointing("a", e.column, 7)]);
    EntriesWithin(db, SESSION_A, Insert(e.child, f));
  }

  /** A key that no composite edge matches lets a tenant find out which ids exist, whoever owns them. */
  lemma UncoveredKeyShows(schema: Schema, e: UpstreamFK)
    requires PointsOnce(schema) && e in schema.upstream && e.parent in schema.policies && !CoveredEdge(schema, e)
    ensures !Isolated(schema)
  {
    var none: Rows := map[];
    var one: Rows := map[7 := RowOf("b")];
    var a, b := ParentsOnly(schema, e, one), ParentsOnly(schema, e, none);
    var f: View -> seq<Entry> := view => [Entry(1, Pointing("a", e.column, 7))];
    ParentsLookSame(schema, e, one);
    ParentsLookSame(schema, e, none);
    PointingInsert(schema, e, one, f);
    PointingInsert(schema, e, none, f);
    OneFails(a, b, Insert(e.child, f));
  }

  // ---------- a hidden row that keeps another from falling ----------

  /** The tables along a path of cascades. */
  function Node(root: Table, path: seq<UpstreamFK>, i: nat): Table
    requires i <= |path|
  {
    if i == 0 then root else path[i - 1].child
  }

  /** The path starts in a table without a policy and runs through tables with one. */
  ghost predicate Chain(schema: Schema, root: Table, path: seq<UpstreamFK>) {
    && root !in schema.policies
    && forall i :: 0 <= i < |path| ==>
         path[i] in schema.upstream && path[i].onDelete.Cascade? && path[i].child in schema.policies && path[i].parent == Node(root, path, i)
  }

  lemma {:induction false} ReachedByChain(schema: Schema, path: seq<UpstreamFK>, t: Table) returns (root: Table)
    requires Reaches(schema, path, t)
    ensures Chain(schema, root, path) && Node(root, path, |path|) == t
    decreases |path|
  {
    if path == [] {
      root := t;
    } else {
      var before := path[..|path| - 1];
      root := ReachedByChain(schema, before, path[|path| - 1].parent);
      forall i | 0 <= i < |path| ensures path[i] in schema.upstream && path[i].onDelete.Cascade?
                                         && path[i].child in schema.policies && path[i].parent == Node(root, path, i) {
        if i < |before| { assert before[i] == path[i]; }
        assert i > 0 ==> before[i - 1] == path[i - 1];
      }
    }
  }

  /** One row of tenant b in each table of the path, each pointing at the one before. */
  function Link(path: seq<UpstreamFK>, i: nat): Row
    requires i <= |path|
  {
    if i == 0 then RowOf("b") else Pointing("b", path[i - 1].column, i - 1)
  }

  function Links(root: Table, path: seq<UpstreamFK>, t: Table): Rows {
    map i: int | 0 <= i <= |path| && Node(root, path, i) == t :: Link(path, i)
  }

  function ChainTable(root: Table, path: seq<UpstreamFK>, x: Edge, held: bool, t: Table): Rows {
    if held && t == x.Child() then Links(root, path, t)[-1 := Pointing("b", x.Column(), |path|)] else Links(root, path, t)
  }

  function ChainTables(root: Table, path: seq<UpstreamFK>, x: Edge): set<Table> {
    (set i: nat | 0 <= i <= |path| :: Node(root, path, i)) + {x.Child()}
  }

  /** The path's rows, and perhaps another of tenant b that points at the last of them. */
  function ChainDb(schema: Schema, root: Table, path: seq<UpstreamFK>, x: Edge, held: bool): Database {
    Database(map t | t in ChainTables(root, path, x) :: ChainTable(root, path, x, held, t), schema)
  }

  lemma ChainTableRows(root: Table, path: seq<UpstreamFK>, x: Edge, held: bool, t: Table, id: Id)
    requires id in ChainTable(root, path, x, held, t)
    ensures var row := ChainTable(root, path, x, held, t)[id];
            || (held && t == x.Child() && id == -1 && row == Pointing("b", x.Column(), |path|))
            || (0 <= id <= |path| && t == Node(root, path, id) && row == Link(path, id))
  {
  }

  lemma ChainRows(schema: Schema, root: Table, path: seq<UpstreamFK>, x: Edge, held: bool, t: Table, id: Id)
    requires id in ChainDb(schema, root, path, x, held).RowsOf(t)
    ensures var row := ChainDb(schema, root, path, x, held).RowsOf(t)[id];
            || (held && t == x.Child() && id == -1 && row == Pointing("b", x.Column(), |path|))
            || (0 <= id <= |path| && t == Node(root, path, id) && row == Link(path, id))
  {
    ChainTableRows(root, path, x, held, t, id);
  }

  lemma LinkThere(schema: Schema, root: Table, path: seq<UpstreamFK>, x: Edge, held: bool, i: nat)
    requires i <= |path|
    ensures var db := ChainDb(schema, root, path, x, held);
            var t := Node(root, path, i);
            t in db.tables && i in db.RowsOf(t) && db.RowsOf(t)[i] == Link(path, i)
  {
  }

  /** Where the pointer of a row leads. */
  function Target(path: seq<UpstreamFK>, id: Id): Id {
    if id == -1 then |path| else id - 1
  }

  /** The edge over which a row of the database points. */
  function Over(path: seq<UpstreamFK>, x: Edge, id: Id): Edge
    requires id == -1 || 1 <= id <= |path|
  {
    if id == -1 then x else Declared(path[id - 1])
  }

  /** Every pointer of the database points at its neighbour over an edge of the schema. */
  lemma ChainPointer(schema: Schema, root: Table, path: seq<UpstreamFK>, x: Edge, held: bool, t: Table, id: Id, c: Column)
    requires Chain(schema, root, path) && EdgeOf(schema, x) && x.Parent() == Node(root, path, |path|)
    requires var db := ChainDb(schema, root, path, x, held); id in db.RowsOf(t) && c in db.RowsOf(t)[id].refs
    ensures id == -1 || 1 <= id <= |path|
    ensures var db := ChainDb(schema, root, path, x, held);
            var y := Over(path, x, id);
            && EdgeOf(schema, y) && y.Child() == t && y.Column() == c && y.Parent() == Node(root, path, Target(path, id))
            && db.RowsOf(t)[id].refs[c] == Target(path, id)
  {
    ChainRows(schema, root, path, x, held, t, id);
  }

  /** So whatever edge of the schema asks, it finds a row of tenant b. */
  lemma ChainFinds(schema: Schema, root: Table, path: seq<UpstreamFK>, x: Edge, held: bool, id: Id, y: Edge)
    requires Chain(schema, root, path) && PointsOnce(schema) && EdgeOf(schema, x) && x.Parent() == Node(root, path, |path|)
    requires EdgeOf(schema, y)
    requires var db := ChainDb(schema, root, path, x, held); id in db.RowsOf(y.Child()) && y.Column() in db.RowsOf(y.Child())[id].refs
    ensures var db := ChainDb(schema, root, path, x, held);
            var p := db.RowsOf(y.Child())[id].refs[y.Column()];
            p in db.RowsOf(y.Parent()) && db.RowsOf(y.Parent())[p].tenant == Some("b")
  {
    ChainPointer(schema, root, path, x, held, y.Child(), id, y.Column());
    OneParent(schema, y, Over(path, x, id));
    LinkThere(schema, root, path, x, held, Target(path, id));
  }

  lemma ChainUnique(schema: Schema, root: Table, path: seq<UpstreamFK>, x: Edge, held: bool, key: UniqueKey)
    ensures UniqueHolds(key, ChainDb(schema, root, path, x, held).RowsOf(key.table))
  {
    var rows := ChainDb(schema, root, path, x, held).RowsOf(key.table);
    forall i, j | i in rows && j in rows && i != j ensures !Clash(key, rows[i], rows[j]) {
      ChainRows(schema, root, path, x, held, key.table, i);
      ChainRows(schema, root, path, x, held, key.table, j);
      NoClash(key, rows[i], rows[j]);
    }
  }

  lemma ChainConsistent(schema: Schema, root: Table, path: seq<UpstreamFK>, x: Edge, held: bool)
    requires Chain(schema, root, path) && PointsOnce(schema) && EdgeOf(schema, x) && x.Parent() == Node(root, path, |path|)
    ensures Consistent(ChainDb(schema, root, path, x, held))
  {
    var db := ChainDb(schema, root, path, x, held);
    forall t | t in db.tables ensures NotNullHolds(schema, t, db.tables[t]) {
      forall id | id in db.tables[t] ensures db.tables[t][id].tenant.Some? {
        ChainRows(schema, root, path, x, held, t, id);
      }
    }
    forall key | key in schema.unique ensures UniqueHolds(key, db.RowsOf(key.table)) {
      ChainUnique(schema, root, path, x, held, key);
    }
    forall e | e in schema.upstream ensures UpstreamHolds(e, db.RowsOf(e.child), db.RowsOf(e.parent)) {
      forall id | id in db.RowsOf(e.child) && e.column in db.RowsOf(e.child)[id].refs
        ensures db.RowsOf(e.child)[id].refs[e.column] in db.RowsOf(e.parent)
      {
        ChainFinds(schema, root, path, x, held, id, Declared(e));
      }
    }
    forall fk | fk in schema.fks ensures ForeignKeyHolds(fk, db.RowsOf(fk.child), db.RowsOf(fk.parent)) {
      forall id | id in db.RowsOf(fk.child) ensures MatchSimple(fk, db.RowsOf(fk.child)[id], db.RowsOf(fk.parent)) {
        ChainRows(schema, root, path, x, held, fk.child, id);
        if fk.column in db.RowsOf(fk.child)[id].refs {
          ChainFinds(schema, root, path, x, held, id, Composite(fk));
        }
      }
    }
  }

  lemma ChainShows(schema: Schema, root: Table, path: seq<UpstreamFK>, x: Edge, held: bool, t: Table, id: Id)
    requires Chain(schema, root, path) && x.Child() in schema.policies
    requires id in ChainDb(schema, root, path, x, held).RowsOf(t)
    ensures Visible(schema, SESSION_A, t, ChainDb(schema, root, path, x, held).RowsOf(t)[id]) <==> t == root && id == 0
  {
    var row := ChainDb(schema, root, path, x, held).RowsOf(t)[id];
    ChainRows(schema, root, path, x, held, t, id);
    if t in schema.policies { OthersHidden(schema, t, row); }
  }

  /** Tenant a sees the row in the table without a policy and nothing else, whether or not there is the other row. */
  lemma ChainLooks(schema: Schema, root: Table, path: seq<UpstreamFK>, x: Edge, held: bool, t: Table)
    requires Chain(schema, root, path) && x.Child() in schema.policies
    ensures VisibleRows(ChainDb(schema, root, path, x, held), SESSION_A, t) == if t == root then map[0 := RowOf("b")] else map[]
  {
    var db := ChainDb(schema, root, path, x, held);
    LinkThere(schema, root, path, x, held, 0);
    var shown := VisibleRows(db, SESSION_A, t);
    var seen: Rows := if t == root then map[0 := RowOf("b")] else map[];
    forall id ensures id in shown <==> id in seen {
      if id in db.RowsOf(t) { ChainShows(schema, root, path, x, held, t, id); }
    }
    SameRows(shown, seen);
  }

  lemma SameRows<K, V>(a: map<K, V>, b: map<K, V>)
    requires forall k :: k in a <==> k in b
    requires forall k :: k in a ==> a[k] == b[k]
    ensures a == b
  {
  }

  lemma ChainsLookSame(schema: Schema, root: Table, path: seq<UpstreamFK>, x: Edge)
    requires Chain(schema, root, path) && x.Child() in schema.policies
    ensures var a, b := ChainDb(schema, root, path, x, true), ChainDb(schema, root, path, x, false);
            LookSame(a, b, SESSION_A) && root in a.tables && ViewOf(a, SESSION_A)[root].Keys == {0}
  {
    var a, b := ChainDb(schema, root, path, x, true), ChainDb(schema, root, path, x, false);
    forall t | t in a.tables ensures VisibleRows(a, SESSION_A, t) == VisibleRows(b, SESSION_A, t) {
      ChainLooks(schema, root, path, x, true, t);
      ChainLooks(schema, root, path, x, false, t);
    }
    LinkThere(schema, root, path, x, true, 0);
    ChainLooks(schema, root, path, x, true, root);
  }

  lemma ListedRow(db: Database, t: Table, id: Id)
    requires t in db.tables && id in db.tables[t]
    ensures (t, id) in AllRows(db)
  {
  }

  lemma PulledBy(db: Database, e: UpstreamFK, p: Id, id: Id)
    requires e in db.schema.upstream && e.onDelete.Cascade? && id in db.RowsOf(e.child)
    requires e.column in db.RowsOf(e.child)[id].refs && db.RowsOf(e.child)[id].refs[e.column] == p
    ensures PullsDown(db, (e.parent, p), (e.child, id))
  {
  }

  lemma FallsNext(db: Database, gone: set<RowId>, p: RowId, r: RowId, n: nat)
    requires n > 0 && Falls(db, gone, p, n - 1) && PullsDown(db, p, r)
    ensures Falls(db, gone, r, n)
  {
  }

  lemma FallenIsDoomed(db: Database, gone: set<RowId>, t: Table, id: Id, n: nat)
    requires Falls(db, gone, (t, id), n) && t in db.tables && id in db.tables[t]
    ensures (t, id) in Doomed(db, gone)
  {
    ListedRow(db, t, id);
  }

  /** A row of the path is pulled down by the one before. */
  lemma LinkPulled(schema: Schema, root: Table, path: seq<UpstreamFK>, x: Edge, held: bool, i: nat)
    requires Chain(schema, root, path) && 0 < i <= |path|
    ensures PullsDown(ChainDb(schema, root, path, x, held), (Node(root, path, i - 1), i - 1), (Node(root, path, i), i))
  {
    LinkThere(schema, root, path, x, held, i);
    PulledBy(ChainDb(schema, root, path, x, held), path[i - 1], i - 1, i);
  }

  ghost predicate LinkFalls(schema: Schema, root: Table, path: seq<UpstreamFK>, x: Edge, held: bool, i: nat)
    requires i <= |path|
  {
    Falls(ChainDb(schema, root, path, x, held), RowIds(root, {0}), (Node(root, path, i), i), i)
  }

  lemma RootFalls(schema: Schema, root: Table, path: seq<UpstreamFK>, x: Edge, held: bool)
    ensures LinkFalls(schema, root, path, x, held, 0)
  {
  }

  lemma NextFalls(schema: Schema, root: Table, path: seq<UpstreamFK>, x: Edge, held: bool, i: nat)
    requires Chain(schema, root, path) && 0 < i <= |path| && LinkFalls(schema, root, path, x, held, i - 1)
    ensures LinkFalls(schema, root, path, x, held, i)
  {
    LinkPulled(schema, root, path, x, held, i);
    FallsNext(ChainDb(schema, root, path, x, held), RowIds(root, {0}), (Node(root, path, i - 1), i - 1), (Node(root, path, i), i), i);
  }

  lemma {:induction false} LinksFall(schema: Schema, root: Table, path: seq<UpstreamFK>, x: Edge, held: bool, i: nat)
    requires Chain(schema, root, path) && i <= |path|
    ensures LinkFalls(schema, root, path, x, held, i)
    decreases i
  {
    if i == 0 {
      RootFalls(schema, root, path, x, held);
    } else {
      LinksFall(schema, root, path, x, held, i - 1);
      NextFalls(schema, root, path, x, held, i);
    }
  }

  /** When the visible row goes, the whole path goes. */
  lemma ChainFalls(schema: Schema, root: Table, path: seq<UpstreamFK>, x: Edge, held: bool, i: nat)
    requires Chain(schema, root, path) && i <= |path|
    ensures (Node(root, path, i), i) in Doomed(ChainDb(schema, root, path, x, held), RowIds(root, {0}))
  {
    LinkThere(schema, root, path, x, held, i);
    LinksFall(schema, root, path, x, held, i);
    FallenIsDoomed(ChainDb(schema, root, path, x, held), RowIds(root, {0}), Node(root, path, i), i, i);
  }

  /** Without the other row nothing is left, so nothing is refused. */
  lemma ChainGoes(schema: Schema, root: Table, path: seq<UpstreamFK>, x: Edge)
    requires Chain(schema, root, path)
    ensures Remove(ChainDb(schema, root, path, x, false), root, {0}).Done?
  {
    var db := ChainDb(schema, root, path, x, false);
    var next := Without(db, Doomed(db, RowIds(root, {0})));
    forall t, id | id in next.RowsOf(t) ensures false {
      assert id in db.RowsOf(t);
      ChainRows(schema, root, path, x, false, t, id);
      ChainFalls(schema, root, path, x, false, id);
    }
  }

  lemma OnlyNoActions(schema: Schema, x: Edge)
    requires PointsOnce(schema) && EdgeOf(schema, x) && !Acts(schema, x.Child(), x.Column(), x.Parent())
    ensures forall e :: e in schema.upstream && e.child == x.Child() && e.column == x.Column() ==> e.onDelete.NoAction?
  {
    forall e | e in schema.upstream && e.child == x.Child() && e.column == x.Column() ensures e.onDelete.NoAction? {
      OneParent(schema, Declared(e), x);
    }
  }

  /** The other row, and that it does not fall: nothing acts on it over its only pointer. */
  function Holder(path: seq<UpstreamFK>, x: Edge): Row {
    Pointing("b", x.Column(), |path|)
  }

  lemma HolderThere(schema: Schema, root: Table, path: seq<UpstreamFK>, x: Edge)
    ensures var db := ChainDb(schema, root, path, x, true);
            x.Child() in db.tables && -1 in db.tables[x.Child()] && db.tables[x.Child()][-1] == Holder(path, x)
  {
  }

  lemma HolderStays(schema: Schema, root: Table, path: seq<UpstreamFK>, x: Edge)
    requires Chain(schema, root, path) && PointsOnce(schema)
    requires EdgeOf(schema, x) && !Acts(schema, x.Child(), x.Column(), x.Parent())
    ensures var db := ChainDb(schema, root, path, x, true);
            var doomed := Doomed(db, RowIds(root, {0}));
            (x.Child(), -1) !in doomed && Survivor(schema, doomed, x.Child(), Holder(path, x)) == Holder(path, x)
  {
    var db := ChainDb(schema, root, path, x, true);
    var gone := RowIds(root, {0});
    OnlyNoActions(schema, x);
    HolderThere(schema, root, path, x);
    assert forall p :: !PullsDown(db, p, (x.Child(), -1));
    if (x.Child(), -1) in Doomed(db, gone) {
      var n: nat :| Falls(db, gone, (x.Child(), -1), n);
      NotPulled(db, gone, (x.Child(), -1), n);
    }
    NothingCleared(schema, Doomed(db, gone), x.Child(), Holder(path, x));
  }

  lemma {:induction false} NotPulled(db: Database, gone: set<RowId>, r: RowId, n: nat)
    requires r !in gone && forall p :: !PullsDown(db, p, r)
    ensures !Falls(db, gone, r, n)
    decreases n
  {
    if n > 0 { NotPulled(db, gone, r, n - 1); }
  }

  /** What is left of the two ends of the pointer. */
  lemma HolderHangs(schema: Schema, root: Table, path: seq<UpstreamFK>, x: Edge)
    requires Chain(schema, root, path) && PointsOnce(schema) && EdgeOf(schema, x) && x.Parent() == Node(root, path, |path|)
    requires !Acts(schema, x.Child(), x.Column(), x.Parent())
    ensures var db := ChainDb(schema, root, path, x, true);
            var next := Without(db, Doomed(db, RowIds(root, {0})));
            && -1 in next.RowsOf(x.Child()) && next.RowsOf(x.Child())[-1] == Holder(path, x) && |path| !in next.RowsOf(x.Parent())
  {
    HolderThere(schema, root, path, x);
    HolderStays(schema, root, path, x);
    ChainFalls(schema, root, path, x, true, |path|);
  }

  lemma HangingRefused(db: Database, x: Edge, id: Id)
    requires EdgeOf(db.schema, x) && id in db.RowsOf(x.Child()) && db.RowsOf(x.Child())[id].tenant.Some?
    requires x.Column() in db.RowsOf(x.Child())[id].refs && db.RowsOf(x.Child())[id].refs[x.Column()] !in db.RowsOf(x.Parent())
    ensures !KeysHold(db)
  {
    if x.Declared? {
      assert !UpstreamHolds(x.e, db.RowsOf(x.e.child), db.RowsOf(x.e.parent));
    } else {
      assert !MatchSimple(x.fk, db.RowsOf(x.fk.child)[id], db.RowsOf(x.fk.parent));
    }
  }

  /** So the delete is refused. */
  lemma ChainHeld(schema: Schema, root: Table, path: seq<UpstreamFK>, x: Edge)
    requires Chain(schema, root, path) && PointsOnce(schema) && EdgeOf(schema, x) && x.Parent() == Node(root, path, |path|)
    requires !Acts(schema, x.Child(), x.Column(), x.Parent())
    ensures Remove(ChainDb(schema, root, path, x, true), root, {0}) == Failed(ForeignKeyViolation)
  {
    var db := ChainDb(schema, root, path, x, true);
    HolderHangs(schema, root, path, x);
    HangingRefused(Without(db, Doomed(db, RowIds(root, {0}))), x, -1);
  }

  lemma DeletesRoot(db: Database, root: Table, f: View -> set<Id>)
    requires root in db.tables && ViewOf(db, SESSION_A)[root].Keys == {0} && f(ViewOf(db, SESSION_A)) == {0}
    ensures Exec(db, SESSION_A, Delete(root, f)) == Remove(db, root, {0}) && !Collides(db, SESSION_A, Delete(root, f))
  {
    assert f(ViewOf(db, SESSION_A)) * ViewOf(db, SESSION_A)[root].Keys == {0};
  }

  lemma RefusingEdgeShows(schema: Schema, path: seq<UpstreamFK>, x: Edge)
    requires PointsOnce(schema) && EdgeOf(schema, x) && x.Child() in schema.policies && Reaches(schema, path, x.Parent())
    requires !Acts(schema, x.Child(), x.Column(), x.Parent())
    ensures !Isolated(schema)
  {
    var root := ReachedByChain(schema, path, x.Parent());
    var a, b := ChainDb(schema, root, path, x, true), ChainDb(schema, root, path, x, false);
    var f: View -> set<Id> := view => {0};
    ChainConsistent(schema, root, path, x, true);
    ChainConsistent(schema, root, path, x, false);
    ChainsLookSame(schema, root, path, x);
    ChainHeld(schema, root, path, x);
    ChainGoes(schema, root, path, x);
    DeletesRoot(a, root, f);
    DeletesRoot(b, root, f);
    OneFails(a, b, Delete(root, f));
  }

  /**
   What isolation takes, exactly: tenants cannot observe each other, but for hidden unique keys, if and only if every key
   into a table with a policy is matched by an enforced composite edge, and no row with a policy can keep a row from
   falling that a tenant can make fall without seeing the other. Policies alone are not enough.
   */
  lemma {:induction false} IsolatedIffSealed(schema: Schema)
    requires EdgesEnforced(schema) && PointsOnce(schema)
    ensures Isolated(schema) <==> Sealed(schema)
  {
    if Sealed(schema) {
      forall a: Database, b: Database, s: Session, program: Program, steps: nat | a.schema == schema && Comparable(a, b, s, program, steps)
        ensures SameResult(a, b, s, program, [], steps)
      {
        SameResultIff(a, b, s, program, [], steps);
      }
    } else {
      NotSealed(schema);
    }
  }

  lemma NotSealed(schema: Schema)
    requires EdgesEnforced(schema) && PointsOnce(schema) && !Sealed(schema)
    ensures !Isolated(schema)
  {
    if !ParentsCovered(schema) {
      var e :| e in schema.upstream && e.parent in schema.policies && !CoveredEdge(schema, e);
      UncoveredKeyShows(schema, e);
    } else if e, path :| e in schema.upstream && e.child in schema.policies && Reaches(schema, path, e.parent)
                         && !Acts(schema, e.child, e.column, e.parent) {
      RefusingEdgeShows(schema, path, Declared(e));
    } else {
      var fk, path :| fk in schema.fks && Reaches(schema, path, fk.parent) && !Acts(schema, fk.child, fk.column, fk.parent);
      RefusingEdgeShows(schema, path, Composite(fk));
    }
  }

  // ---------- a key that acts on a hidden row ----------

  /** Tenant a's parent row 7, and a child row 9 of tenant b that points at it. */
  function CrossingPair(schema: Schema, e: UpstreamFK): Database {
    var parent, child := RowOf("a"), Pointing("b", e.column, 7);
    Database(if e.child == e.parent then map[e.child := map[7 := parent, 9 := child]]
             else map[e.parent := map[7 := parent], e.child := map[9 := child]], schema)
  }

  lemma CrossingRows(schema: Schema, e: UpstreamFK)
    ensures var db := CrossingPair(schema, e);
            && e.child in db.tables && e.parent in db.tables
            && 7 in db.RowsOf(e.parent) && db.RowsOf(e.parent)[7] == RowOf("a")
            && 9 in db.RowsOf(e.child) && db.RowsOf(e.child)[9] == Pointing("b", e.column, 7)
            && (forall t, id :: id in db.RowsOf(t) ==>
                  db.RowsOf(t)[id] == RowOf("a") || (t == e.child && id == 9 && db.RowsOf(t)[id] == Pointing("b", e.column, 7)))
            && (forall t, i, j :: i in db.RowsOf(t) && j in db.RowsOf(t) && i != j ==>
                  db.RowsOf(t)[i] == RowOf("a") || db.RowsOf(t)[j] == RowOf("a"))
  {
  }

  lemma CrossingConsistent(schema: Schema, e: UpstreamFK)
    requires PointsOnce(schema) && e in schema.upstream && !CoveredEdge(schema, e)
    ensures Consistent(CrossingPair(schema, e))
  {
    var db := CrossingPair(schema, e);
    CrossingRows(schema, e);
    forall key | key in schema.unique ensures UniqueHolds(key, db.RowsOf(key.table)) {
      var rows := db.RowsOf(key.table);
      forall i, j | i in rows && j in rows && i != j ensures !Clash(key, rows[i], rows[j]) {
        NoClash(key, rows[i], rows[j]);
      }
    }
    forall f | f in schema.upstream ensures UpstreamHolds(f, db.RowsOf(f.child), db.RowsOf(f.parent)) {
      if f.child == e.child && f.column == e.column { OneParent(schema, Declared(e), Declared(f)); }
    }
    forall fk | fk in schema.fks ensures ForeignKeyHolds(fk, db.RowsOf(fk.child), db.RowsOf(fk.parent)) {
      if fk.child == e.child && fk.column == e.column {
        SameColumnCovers(schema, e, fk);
      }
    }
  }

  /** Deleting the parent deletes the hidden child, or clears its pointer. */
  lemma HiddenChildMoves(schema: Schema, e: UpstreamFK)
    requires e in schema.upstream && !e.onDelete.NoAction?
    ensures var db := CrossingPair(schema, e);
            var next := Without(db, Doomed(db, RowIds(e.parent, {7})));
            && KeysHold(next)
            && (9 !in next.RowsOf(e.child) || next.RowsOf(e.child)[9] != Pointing("b", e.column, 7))
  {
    CrossingRows(schema, e);
    var db := CrossingPair(schema, e);
    var gone := RowIds(e.parent, {7});
    var doomed := Doomed(db, gone);
    var next := Without(db, doomed);
    ListedRow(db, e.parent, 7);
    ListedRow(db, e.child, 9);
    assert Falls(db, gone, (e.parent, 7), 0);
    if e.onDelete.Cascade? {
      PulledBy(db, e, 7, 9);
      DoomedIsClosed(db, gone, (e.parent, 7), (e.child, 9));
    } else {
      assert Cleared(schema, doomed, e.child, e.column, 7);
    }
    forall t, id | id in next.RowsOf(t) ensures next.RowsOf(t)[id].refs == map[] {
      assert id in db.RowsOf(t) && next.RowsOf(t)[id] == Survivor(schema, doomed, t, db.RowsOf(t)[id]);
    }
  }

  /** Tenant a sees its parent row and not the child. */
  lemma CrossingSeen(schema: Schema, e: UpstreamFK)
    requires e in schema.upstream && e.child in schema.policies
    ensures var db := CrossingPair(schema, e);
            e.parent in db.tables && 7 in ViewOf(db, SESSION_A)[e.parent] && e.child in db.tables && 9 in HiddenRows(db, SESSION_A, e.child)
  {
    CrossingRows(schema, e);
    OwnWritable(schema, e.parent, RowOf("a"));
    OthersHidden(schema, e.child, Pointing("b", e.column, 7));
  }

  /** It deletes what it sees. */
  lemma CrossingDelete(schema: Schema, e: UpstreamFK, f: View -> set<Id>)
    requires e in schema.upstream && !e.onDelete.NoAction? && e.child in schema.policies
    requires f(ViewOf(CrossingPair(schema, e), SESSION_A)) == {7}
    ensures var db := CrossingPair(schema, e);
            Exec(db, SESSION_A, Delete(e.parent, f)) == Done(Without(db, Doomed(db, RowIds(e.parent, {7}))), |{7}|)
  {
    CrossingSeen(schema, e);
    HiddenChildMoves(schema, e);
    var view := ViewOf(CrossingPair(schema, e), SESSION_A);
    assert f(view) * view[e.parent].Keys == {7};
  }

  lemma UncoveredActionReaches(schema: Schema, e: UpstreamFK)
    requires PointsOnce(schema) && e in schema.upstream && !e.onDelete.NoAction? && e.child in schema.policies && !CoveredEdge(schema, e)
    ensures !KeepsOut(schema)
  {
    var db := CrossingPair(schema, e);
    var f: View -> set<Id> := view => {7};
    var st := Delete(e.parent, f);
    CrossingRows(schema, e);
    CrossingConsistent(schema, e);
    CrossingSeen(schema, e);
    HiddenChildMoves(schema, e);
    CrossingDelete(schema, e, f);
    JustRuns(db, SESSION_A, st);
    assert !OwnChangesOnly(db, After(db, RunTx(db, SESSION_A, Just(st), [], 1)), SESSION_A);
  }

  /**
   What integrity takes, exactly: no tenant's transaction ever reaches a hidden row if and only if every key of
   upstream's that acts on a table with a policy is matched by an enforced composite edge.
   */
  lemma {:induction false} KeepsOutIffActionsCovered(schema: Schema)
    requires EdgesEnforced(schema) && PointsOnce(schema)
    ensures KeepsOut(schema) <==> ActionsCovered(schema)
  {
    if ActionsCovered(schema) {
      forall db: Database, s: Session, program: Program, steps: nat | db.schema == schema && Consistent(db) && ModeOf(s).BoundTo?
        ensures OwnChangesOnly(db, After(db, RunTx(db, s, program, [], steps)), s)
      {
        TxIntegrity(db, s, program, [], steps);
      }
    } else {
      var e :| e in schema.upstream && !e.onDelete.NoAction? && e.child in schema.policies && !CoveredEdge(schema, e);
      UncoveredActionReaches(schema, e);
    }
  }

  // ---------- both together ----------

  /** From a table that everybody sees into one with a policy, nothing is refused only if something acts unmatched. */
  lemma UnmatchedActs(schema: Schema, e: UpstreamFK)
    requires EdgesEnforced(schema) && NeverRefuses(schema)
    requires e in schema.upstream && e.child in schema.policies && e.parent !in schema.policies
    ensures !ActionsCovered(schema)
  {
    assert Reaches(schema, [], e.parent);
    var f :| f in schema.upstream && !f.onDelete.NoAction? && f.child == e.child && f.column == e.column && f.parent == e.parent;
    if CoveredEdge(schema, f) { MatchedHasPolicies(schema, f); }
  }

  lemma SealedIsCovered(schema: Schema)
    requires Sealed(schema) && ActionsCovered(schema)
    ensures Covered(schema)
  {
    forall e | e in schema.upstream && e.child in schema.policies ensures e.parent in schema.policies {
      if e.parent !in schema.policies { UnmatchedActs(schema, e); }
    }
  }

  /**
   Tenants can neither observe nor reach each other's rows if and only if every key of upstream's with an end in a table
   with a policy is matched by an enforced composite edge.
   */
  lemma {:induction false} SeparatedIffCovered(schema: Schema)
    requires EdgesEnforced(schema) && PointsOnce(schema)
    ensures Isolated(schema) && KeepsOut(schema) <==> Covered(schema)
  {
    IsolatedIffSealed(schema);
    KeepsOutIffActionsCovered(schema);
    if Covered(schema) {
      CoveredIsSealed(schema);
    } else if Sealed(schema) && ActionsCovered(schema) {
      SealedIsCovered(schema);
    }
  }

  /** Budgets with a policy that fall with a row of a table that has none. */
  const FALLING_BUDGETS: Schema :=
    Schema({GovernanceBudgets}, map[GovernanceBudgets := PolicyStrict], {}, {}, {},
           {UpstreamFK(GovernanceBudgets, OtherColumn("model_config_id"), Other("governance_model_configs"), Cascade)}, {})

  /** The two conditions differ: here a tenant can delete other tenants' rows and never notices. */
  lemma ReachedUnseen()
    ensures EdgesEnforced(FALLING_BUDGETS) && PointsOnce(FALLING_BUDGETS) && Isolated(FALLING_BUDGETS) && !KeepsOut(FALLING_BUDGETS)
  {
    var e := UpstreamFK(GovernanceBudgets, OtherColumn("model_config_id"), Other("governance_model_configs"), Cascade);
    assert e in FALLING_BUDGETS.upstream && forall f :: f in FALLING_BUDGETS.upstream ==> f == e;
    assert !CoveredEdge(FALLING_BUDGETS, e);
    IsolatedIffSealed(FALLING_BUDGETS);
    UncoveredActionReaches(FALLING_BUDGETS, e);
  }

  // ---------- what no edge closes ----------

  /** Sessions as upstream declares them: the token is unique among all sessions. */
  const SESSIONS_ONLY: Schema :=
    Schema({Sessions}, map[Sessions := PolicyExclusive], {}, {}, {}, {}, {UniqueKey(Sessions, {Plain("token")})})

  function SessionRow(tenant: string, token: int): Row {
    Row(Some(tenant), map[], map["token" := token])
  }

  function SessionsDb(rows: Rows): Database {
    Database(map[Sessions := rows], SESSIONS_ONLY)
  }

  lemma SessionsClash(a: Row, b: Row)
    requires "token" in a.data
    ensures Clash(UniqueKey(Sessions, {Plain("token")}), a, b) <==> "token" in b.data && a.data["token"] == b.data["token"]
  {
  }

  lemma SessionsTaken(rows: Rows, id: Id, row: Row)
    requires "token" in row.data
    ensures Taken(SESSIONS_ONLY, Sessions, rows, id, row)
        <==> exists other :: other in rows && other != id && "token" in rows[other].data && rows[other].data["token"] == row.data["token"]
  {
    var key := UniqueKey(Sessions, {Plain("token")});
    assert key in SESSIONS_ONLY.unique;
    forall other | other in rows
      ensures Clash(key, row, rows[other]) <==> "token" in rows[other].data && rows[other].data["token"] == row.data["token"]
    {
      SessionsClash(row, rows[other]);
    }
  }

  /** Tenant a's session 1 with token 10, and perhaps tenant b's session 9 with token 20. */
  function Mine(): Rows {
    map[1 := SessionRow("a", 10)]
  }

  function Ours(): Rows {
    map[1 := SessionRow("a", 10), 9 := SessionRow("b", 20)]
  }

  lemma SessionsLook(rows: Rows)
    requires rows == Mine() || rows == Ours()
    ensures var db := SessionsDb(rows);
            ViewOf(db, SESSION_A) == map[Sessions := Mine()] && Consistent(db) && Sealed(SESSIONS_ONLY)
  {
    var db := SessionsDb(rows);
    OwnWritable(SESSIONS_ONLY, Sessions, SessionRow("a", 10));
    OthersHidden(SESSIONS_ONLY, Sessions, SessionRow("b", 20));
    assert db.RowsOf(Sessions) == rows;
    assert VisibleRows(db, SESSION_A, Sessions) == Mine();
    forall key | key in SESSIONS_ONLY.unique ensures UniqueHolds(key, db.RowsOf(key.table)) {
      forall i, j | i in rows && j in rows && i != j ensures !Clash(key, rows[i], rows[j]) {
        SessionsClash(rows[i], rows[j]);
      }
    }
  }

  /** Writing one session: refused if and only if its id or its token is taken. */
  lemma SessionWrite(rows: Rows, e: Entry, isNew: bool)
    requires e.row.tenant == Some("a")
    ensures var w := Write(SessionsDb(rows), SESSION_A, Sessions, [e], isNew);
            if Obstructed(SESSIONS_ONLY, Sessions, rows, e, isNew) then w == Failed(UniqueViolation) else w.Done?
  {
    OwnWritable(SESSIONS_ONLY, Sessions, e.row);
    PutOne(SESSIONS_ONLY, SESSION_A, Sessions, rows, e, isNew);
    assert SessionsDb(rows).tables[Sessions] == rows;
    assert KeysHold(NextOf(SessionsDb(rows), Sessions, rows[e.id := e.row]));
  }

  lemma SessionExec(rows: Rows, st: Statement, e: Entry)
    requires (st.Insert? || st.Update?) && st.table == Sessions && Entries(st, map[Sessions := Mine()]) == [e]
    requires e.row.tenant == Some("a") && "token" in e.row.data && (st.Insert? || e.id in Mine()) && (rows == Mine() || rows == Ours())
    ensures var r := Exec(SessionsDb(rows), SESSION_A, st);
            if Obstructed(SESSIONS_ONLY, Sessions, rows, e, st.Insert?) then r == Failed(UniqueViolation) else r.Done?
  {
    SessionsLook(rows);
    EntriesWithin(SessionsDb(rows), SESSION_A, st);
    SessionWrite(rows, e, st.Insert?);
  }

  /** In the two databases the statement stores the entry, or is refused. */
  ghost predicate Differs(st: Statement) {
    && LookSame(SessionsDb(Mine()), SessionsDb(Ours()), SESSION_A) && Sealed(SESSIONS_ONLY)
    && Consistent(SessionsDb(Mine())) && Consistent(SessionsDb(Ours()))
    && Exec(SessionsDb(Mine()), SESSION_A, st).Done? && Exec(SessionsDb(Ours()), SESSION_A, st) == Failed(UniqueViolation)
  }

  lemma ObstructionShows(st: Statement, e: Entry)
    requires (st.Insert? || st.Update?) && st.table == Sessions && Entries(st, map[Sessions := Mine()]) == [e]
    requires e.row.tenant == Some("a") && "token" in e.row.data && (st.Insert? || e.id in Mine())
    requires !Obstructed(SESSIONS_ONLY, Sessions, Mine(), e, st.Insert?) && Obstructed(SESSIONS_ONLY, Sessions, Ours(), e, st.Insert?)
    ensures Differs(st)
  {
    SessionsLook(Mine());
    SessionsLook(Ours());
    SessionExec(Mine(), st, e);
    SessionExec(Ours(), st, e);
  }

  /** Uniqueness is checked below row-level security: another tenant's row with id 9 makes the difference. */
  lemma HiddenPrimaryKeyShows() returns (st: Statement)
    ensures st.Insert? && Differs(st)
  {
    var e := Entry(9, SessionRow("a", 30));
    st := Insert(Sessions, view => [e]);
    SessionsTaken(Mine(), 9, e.row);
    ObstructionShows(st, e);
  }

  lemma TokenTaken(e: Entry)
    requires e.row == SessionRow("a", 20) && e.id in {1, 5}
    ensures !Taken(SESSIONS_ONLY, Sessions, Mine(), e.id, e.row) && Taken(SESSIONS_ONLY, Sessions, Ours(), e.id, e.row)
  {
    SessionsTaken(Mine(), e.id, e.row);
    SessionsTaken(Ours(), e.id, e.row);
    assert 9 in Ours() && Ours()[9].data["token"] == 20;
  }

  /** The token of another tenant's session, for a session of an id of the tenant's own. */
  lemma TokenShows(st: Statement, e: Entry)
    requires (st.Insert? || st.Update?) && st.table == Sessions && Entries(st, map[Sessions := Mine()]) == [e]
    requires e.row == SessionRow("a", 20) && e.id == if st.Insert? then 5 else 1
    ensures Differs(st)
  {
    TokenTaken(e);
    ObstructionShows(st, e);
  }

  /** So does another tenant's token, to an INSERT with an id of its own and to an UPDATE of the tenant's own row. */
  lemma HiddenTokenShows() returns (insert: Statement, update: Statement)
    ensures insert.Insert? && update.Update? && Differs(insert) && Differs(update)
  {
    var another, own := Entry(5, SessionRow("a", 20)), Entry(1, SessionRow("a", 20));
    insert, update := Insert(Sessions, view => [another]), Update(Sessions, view => [own]);
    TokenShows(insert, another);
    assert Reached([own], Mine()) == [own] + Reached([own][1..], Mine());
    TokenShows(update, own);
  }
}
