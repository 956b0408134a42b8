/**
 What remains of isolation when some key that upstream declares is matched by no composite edge, as the key into the
 shared pool is not: every transaction that sets new pointers of such a key to rows it sees only, and deletes no row that
 such a pointer could hold, runs as if the key were not there, so all that holds of schemas without it holds of the
 transaction.
 */
module OpenKeys {
  import opened Common
  import opened Policy
  import opened Tables
  import opened Statements
  import opened Isolation

  /** A key with an end in a table with a policy that no composite edge matches. */
  ghost predicate Open(schema: Schema, e: UpstreamFK) {
    e in schema.upstream && (e.child in schema.policies || e.parent in schema.policies) && !CoveredEdge(schema, e)
  }

  /** The schema without the open keys. */
  ghost function Closed(schema: Schema): Schema {
    schema.(upstream := set e | e in schema.upstream && !Open(schema, e))
  }

  ghost function Strip(db: Database): Database {
    db.(schema := Closed(db.schema))
  }

  /** Each pointer of this column was there before, or leads to a row that the session sees. */
  predicate SafePointers(e: UpstreamFK, view: View, list: seq<Entry>) {
    forall i :: 0 <= i < |list| && e.column in list[i].row.refs ==> SafePointer(e, view, list[i].id, list[i].row.refs[e.column])
  }

  predicate SafePointer(e: UpstreamFK, view: View, id: Id, target: Id) {
    target in Shown(view, e.parent)
    || (id in Shown(view, e.child) && e.column in Shown(view, e.child)[id].refs && Shown(view, e.child)[id].refs[e.column] == target)
  }

  /** The statement asks nothing of the open keys. The session can tell from what it sees. */
  ghost predicate Avoids(db: Database, s: Session, st: Statement) {
    var view := ViewOf(db, s);
    st.Select? || st.table !in db.tables ||
    if st.Delete? then NoTarget(db, DeletedRows(st, view))
    else forall e :: Open(db.schema, e) && e.child == st.table ==> SafePointers(e, view, Entries(st, view))
  }

  /** Nothing that the delete takes along over the other keys can be pointed at by an open one. */
  ghost predicate NoTarget(db: Database, gone: set<RowId>) {
    forall e, r :: Open(db.schema, e) && r in Doomed(Strip(db), gone) ==> r.0 != e.parent
  }

  ghost function StripOutcome(o: Outcome): Outcome {
    match o
    case Failed(error) => Failed(error)
    case Done(db, answer) => Done(Strip(db), answer)
  }

  lemma StripLooks(db: Database, s: Session)
    ensures ViewOf(Strip(db), s) == ViewOf(db, s)
    ensures forall t :: Strip(db).RowsOf(t) == db.RowsOf(t) && HiddenRows(Strip(db), s, t) == HiddenRows(db, s, t)
    ensures forall t :: VisibleRows(Strip(db), s, t) == VisibleRows(db, s, t)
  {
    var next := Strip(db);
    forall t ensures VisibleRows(next, s, t) == VisibleRows(db, s, t) && HiddenRows(next, s, t) == HiddenRows(db, s, t) {
      assert next.RowsOf(t) == db.RowsOf(t);
      forall row ensures Visible(next.schema, s, t, row) <==> Visible(db.schema, s, t, row) {
      }
    }
  }

  lemma StripConsistent(db: Database)
    requires Consistent(db)
    ensures Consistent(Strip(db))
  {
  }

  /** The open keys hold by themselves, so the others decide. */
  lemma KeysDecide(db: Database)
    requires forall e :: Open(db.schema, e) ==> UpstreamHolds(e, db.RowsOf(e.child), db.RowsOf(e.parent))
    ensures KeysHold(db) <==> KeysHold(Strip(db))
  {
    if KeysHold(Strip(db)) {
      forall e | e in db.schema.upstream ensures UpstreamHolds(e, db.RowsOf(e.child), db.RowsOf(e.parent)) {
        if !Open(db.schema, e) { assert e in Closed(db.schema).upstream; }
      }
    }
  }

  // ---------- writes ----------

  lemma TakenStrips(schema: Schema, t: Table, rows: Rows, id: Id, row: Row)
    ensures Taken(Closed(schema), t, rows, id, row) <==> Taken(schema, t, rows, id, row)
  {
  }

  /** Policies, NOT NULL and unique keys are checked without the keys of upstream's. */
  lemma {:induction false} PutStrips(schema: Schema, s: Session, t: Table, rows: Rows, list: seq<Entry>, isNew: bool)
    ensures PutAll(Closed(schema), s, t, rows, list, isNew) == PutAll(schema, s, t, rows, list, isNew)
    decreases |list|
  {
    if list != [] {
      TakenStrips(schema, t, rows, list[0].id, list[0].row);
      PutStrips(schema, s, t, rows[list[0].id := list[0].row], list[1..], isNew);
    }
  }

  /** A row that is there after a write was there before or is one of those written. */
  lemma {:induction false} PutFrom(schema: Schema, s: Session, t: Table, rows: Rows, list: seq<Entry>, isNew: bool, id: Id)
    requires PutAll(schema, s, t, rows, list, isNew).Stored? && id in PutAll(schema, s, t, rows, list, isNew).rows
    ensures var next := PutAll(schema, s, t, rows, list, isNew).rows;
            (id in rows && next[id] == rows[id]) || Entry(id, next[id]) in list
    decreases |list|
  {
    if list != [] { PutFrom(schema, s, t, rows[list[0].id := list[0].row], list[1..], isNew, id); }
  }

  /** A safe pointer leads to a row that is there, and a write takes none away. */
  lemma SafePointerHolds(db: Database, s: Session, e: UpstreamFK, id: Id, target: Id)
    requires Consistent(db) && e in db.schema.upstream && SafePointer(e, ViewOf(db, s), id, target)
    ensures target in db.RowsOf(e.parent)
  {
    assert UpstreamHolds(e, db.RowsOf(e.child), db.RowsOf(e.parent));
    ViewShows(db, s, e.parent);
    ViewShows(db, s, e.child);
  }

  lemma SafeKeyHolds(db: Database, s: Session, t: Table, list: seq<Entry>, isNew: bool, e: UpstreamFK)
    requires Consistent(db) && t in db.tables && e in db.schema.upstream
    requires e.child == t ==> SafePointers(e, ViewOf(db, s), list)
    requires PutAll(db.schema, s, t, db.tables[t], list, isNew).Stored?
    ensures var next := NextOf(db, t, PutAll(db.schema, s, t, db.tables[t], list, isNew).rows);
            UpstreamHolds(e, next.RowsOf(e.child), next.RowsOf(e.parent))
  {
    var rows := PutAll(db.schema, s, t, db.tables[t], list, isNew).rows;
    var next := NextOf(db, t, rows);
    assert UpstreamHolds(e, db.RowsOf(e.child), db.RowsOf(e.parent));
    assert db.RowsOf(t) == db.tables[t];
    PutAllConsistent(db.schema, s, t, db.tables[t], list, isNew);
    forall id | id in next.RowsOf(e.child) && e.column in next.RowsOf(e.child)[id].refs
      ensures next.RowsOf(e.child)[id].refs[e.column] in db.RowsOf(e.parent)
    {
      if e.child == t {
        PutFrom(db.schema, s, t, db.tables[t], list, isNew, id);
        if Entry(id, rows[id]) in list { SafePointerHolds(db, s, e, id, rows[id].refs[e.column]); }
      }
    }
  }

  lemma WriteStrips(db: Database, s: Session, t: Table, list: seq<Entry>, isNew: bool)
    requires Consistent(db) && t in db.tables
    requires forall e :: Open(db.schema, e) && e.child == t ==> SafePointers(e, ViewOf(db, s), list)
    ensures Write(Strip(db), s, t, list, isNew) == StripOutcome(Write(db, s, t, list, isNew))
  {
    PutStrips(db.schema, s, t, db.tables[t], list, isNew);
    var put := PutAll(db.schema, s, t, db.tables[t], list, isNew);
    if put.Stored? {
      forall e | Open(db.schema, e)
        ensures UpstreamHolds(e, NextOf(db, t, put.rows).RowsOf(e.child), NextOf(db, t, put.rows).RowsOf(e.parent))
      {
        SafeKeyHolds(db, s, t, list, isNew, e);
      }
      KeysDecide(NextOf(db, t, put.rows));
      assert Strip(NextOf(db, t, put.rows)) == NextOf(Strip(db), t, put.rows);
    }
  }

  // ---------- deletes ----------

  lemma PullsStrips(db: Database, p: RowId, r: RowId)
    requires forall e :: Open(db.schema, e) ==> p.0 != e.parent
    ensures PullsDown(Strip(db), p, r) <==> PullsDown(db, p, r)
  {
    if PullsDown(db, p, r) {
      var e :| e in db.schema.upstream && e.onDelete.Cascade? && e.parent == p.0 && e.child == r.0
               && e.column in db.RowsOf(r.0)[r.1].refs && db.RowsOf(r.0)[r.1].refs[e.column] == p.1;
      assert !Open(db.schema, e);
      assert e in Strip(db).schema.upstream;
    }
  }

  lemma InDoomed(db: Database, gone: set<RowId>, r: RowId, n: nat)
    requires gone <= AllRows(db) && Falls(db, gone, r, n)
    ensures r in Doomed(db, gone)
  {
    FallsInTables(db, gone, r, n);
  }

  lemma {:induction false} FallsInTables(db: Database, gone: set<RowId>, r: RowId, n: nat)
    requires gone <= AllRows(db) && Falls(db, gone, r, n)
    ensures r in AllRows(db)
    decreases n
  {
    if n > 0 {
      if Falls(db, gone, r, n - 1) {
        FallsInTables(db, gone, r, n - 1);
      } else {
        var t, id := r.0, r.1;
        assert t in db.tables && id in db.tables[t] && (t, id) in AllRows(db);
      }
    }
  }

  lemma {:induction false} FallsStrips(db: Database, gone: set<RowId>, r: RowId, n: nat)
    requires gone <= AllRows(db) && NoTarget(db, gone)
    ensures Falls(db, gone, r, n) <==> Falls(Strip(db), gone, r, n)
    decreases n
  {
    if n > 0 {
      FallsStrips(db, gone, r, n - 1);
      forall p ensures Falls(db, gone, p, n - 1) && PullsDown(db, p, r) <==> Falls(Strip(db), gone, p, n - 1) && PullsDown(Strip(db), p, r) {
        FallsStrips(db, gone, p, n - 1);
        if Falls(Strip(db), gone, p, n - 1) {
          InDoomed(Strip(db), gone, p, n - 1);
          PullsStrips(db, p, r);
        }
      }
    }
  }

  lemma DoomedStrips(db: Database, gone: set<RowId>)
    requires gone <= AllRows(db) && NoTarget(db, gone)
    ensures Doomed(db, gone) == Doomed(Strip(db), gone)
  {
    assert AllRows(Strip(db)) == AllRows(db);
    forall r ensures r in Doomed(db, gone) <==> r in Doomed(Strip(db), gone) {
      if r in Doomed(db, gone) {
        var n: nat :| Falls(db, gone, r, n);
        FallsStrips(db, gone, r, n);
      }
      if r in Doomed(Strip(db), gone) {
        var n: nat :| Falls(Strip(db), gone, r, n);
        FallsStrips(db, gone, r, n);
      }
    }
  }

  lemma ClearedStrips(schema: Schema, doomed: set<RowId>, t: Table, c: Column, id: Id)
    requires forall e, r :: Open(schema, e) && r in doomed ==> r.0 != e.parent
    ensures Cleared(Closed(schema), doomed, t, c, id) <==> Cleared(schema, doomed, t, c, id)
  {
    if Cleared(schema, doomed, t, c, id) {
      var e :| e in schema.upstream && e.onDelete.SetNull? && e.child == t && e.column == c && (e.parent, id) in doomed;
      assert !Open(schema, e);
      assert e in Closed(schema).upstream;
    }
  }

  lemma WithoutStrips(db: Database, doomed: set<RowId>)
    requires forall e, r :: Open(db.schema, e) && r in doomed ==> r.0 != e.parent
    ensures Without(Strip(db), doomed) == Strip(Without(db, doomed))
  {
    forall t, id | t in db.tables && id in db.tables[t]
      ensures Survivor(db.schema, doomed, t, db.tables[t][id]) == Survivor(Closed(db.schema), doomed, t, db.tables[t][id])
    {
      var row := db.tables[t][id];
      forall c | c in row.refs ensures Cleared(Closed(db.schema), doomed, t, c, row.refs[c]) <==> Cleared(db.schema, doomed, t, c, row.refs[c]) {
        ClearedStrips(db.schema, doomed, t, c, row.refs[c]);
      }
    }
    forall t | t in db.tables
      ensures Survivors(db.schema, doomed, t, db.tables[t]) == Survivors(Closed(db.schema), doomed, t, db.tables[t])
    {
    }
    assert Without(Strip(db), doomed).tables == Without(db, doomed).tables;
  }

  /** An open key still holds: its parents are all there. */
  lemma ParentsStay(db: Database, doomed: set<RowId>, e: UpstreamFK)
    requires Consistent(db) && e in db.schema.upstream && forall r :: r in doomed ==> r.0 != e.parent
    ensures var next := Without(db, doomed); UpstreamHolds(e, next.RowsOf(e.child), next.RowsOf(e.parent))
  {
    var next := Without(db, doomed);
    assert UpstreamHolds(e, db.RowsOf(e.child), db.RowsOf(e.parent));
    assert next.RowsOf(e.parent).Keys == db.RowsOf(e.parent).Keys;
  }

  lemma RemoveStrips(db: Database, t: Table, gone: set<Id>)
    requires Consistent(db) && RowIds(t, gone) <= AllRows(db) && NoTarget(db, RowIds(t, gone))
    ensures Remove(Strip(db), t, gone) == StripOutcome(Remove(db, t, gone))
  {
    var ids := RowIds(t, gone);
    DoomedStrips(db, ids);
    var doomed := Doomed(db, ids);
    WithoutStrips(db, doomed);
    forall e | Open(db.schema, e) ensures UpstreamHolds(e, Without(db, doomed).RowsOf(e.child), Without(db, doomed).RowsOf(e.parent)) {
      ParentsStay(db, doomed, e);
    }
    KeysDecide(Without(db, doomed));
  }

  // ---------- statements and transactions ----------

  lemma ExecStrips(db: Database, s: Session, st: Statement)
    requires Consistent(db) && Avoids(db, s, st)
    ensures Exec(Strip(db), s, st) == StripOutcome(Exec(db, s, st))
  {
    StripLooks(db, s);
    var view := ViewOf(db, s);
    if !st.Select? && st.table in db.tables {
      if st.Delete? {
        DeletedAreSeen(db, s, st);
        DeletedAreSeen(Strip(db), s, st);
        SeenSame(db, db, s);
        RemoveStrips(db, st.table, st.ids(view) * view[st.table].Keys);
      } else {
        EntriesWithin(db, s, st);
        EntriesWithin(Strip(db), s, st);
        WriteStrips(db, s, st.table, Entries(st, view), st.Insert?);
      }
    }
  }

  lemma CollidesStrips(db: Database, s: Session, st: Statement)
    ensures Collides(Strip(db), s, st) <==> Collides(db, s, st)
  {
    StripLooks(db, s);
    if (st.Insert? || st.Update?) && st.table in db.tables {
      var list := Entries(st, ViewOf(db, s));
      PutStrips(db.schema, s, st.table, db.tables[st.table], list, st.Insert?);
      PutStrips(db.schema, s, st.table, VisibleRows(db, s, st.table), list, st.Insert?);
    }
  }

  /** Every statement that the transaction executes avoids the open keys. */
  ghost predicate AllAvoid(db: Database, s: Session, program: Program, answers: seq<int>, steps: nat)
    decreases steps
  {
    steps == 0 || program(answers).None? ||
    var st := program(answers).value;
    Avoids(db, s, st) &&
    match Exec(db, s, st)
    case Failed(_) => true
    case Done(next, answer) => AllAvoid(next, s, program, answers + [answer], steps - 1)
  }

  ghost function StripResult(r: TxResult): TxResult {
    match r
    case Committed(db, answers) => Committed(Strip(db), answers)
    case RolledBack(answers, error) => RolledBack(answers, error)
  }

  lemma AvoidNext(db: Database, s: Session, program: Program, answers: seq<int>, steps: nat)
    requires AllAvoid(db, s, program, answers, steps) && steps > 0 && program(answers).Some?
    ensures Avoids(db, s, program(answers).value)
    ensures var r := Exec(db, s, program(answers).value);
            r.Done? ==> AllAvoid(r.db, s, program, answers + [r.answer], steps - 1)
  {
  }

  /** One step of two runs that go on alike. */
  lemma StripNext(db: Database, s: Session, program: Program, answers: seq<int>, steps: nat)
    requires steps > 0 && program(answers).Some?
    requires Exec(Strip(db), s, program(answers).value) == StripOutcome(Exec(db, s, program(answers).value))
    requires var r := Exec(db, s, program(answers).value);
             r.Done? ==> RunTx(Strip(r.db), s, program, answers + [r.answer], steps - 1)
                         == StripResult(RunTx(r.db, s, program, answers + [r.answer], steps - 1))
    ensures RunTx(Strip(db), s, program, answers, steps) == StripResult(RunTx(db, s, program, answers, steps))
  {
  }

  lemma StatementStrips(db: Database, s: Session, st: Statement)
    requires Consistent(db) && Avoids(db, s, st)
    ensures Exec(Strip(db), s, st) == StripOutcome(Exec(db, s, st))
    ensures Exec(db, s, st).Done? ==> Consistent(Exec(db, s, st).db)
  {
    ExecStrips(db, s, st);
    if Exec(db, s, st).Done? { ExecConsistent(db, s, st); }
  }

  lemma {:induction false} StepStrips(db: Database, s: Session, program: Program, answers: seq<int>, steps: nat)
    requires Consistent(db) && AllAvoid(db, s, program, answers, steps) && steps > 0 && program(answers).Some?
    ensures RunTx(Strip(db), s, program, answers, steps) == StripResult(RunTx(db, s, program, answers, steps))
    decreases steps, 0
  {
    AvoidNext(db, s, program, answers, steps);
    StatementStrips(db, s, program(answers).value);
    var r := Exec(db, s, program(answers).value);
    if r.Done? { RunStrips(r.db, s, program, answers + [r.answer], steps - 1); }
    StripNext(db, s, program, answers, steps);
  }

  /** The transaction runs as if the open keys were not there. */
  lemma {:induction false} RunStrips(db: Database, s: Session, program: Program, answers: seq<int>, steps: nat)
    requires Consistent(db) && AllAvoid(db, s, program, answers, steps)
    ensures RunTx(Strip(db), s, program, answers, steps) == StripResult(RunTx(db, s, program, answers, steps))
    decreases steps
  {
    if steps > 0 && program(answers).Some? { StepStrips(db, s, program, answers, steps); }
  }

  lemma ClosedIsCovered(schema: Schema)
    requires EdgesEnforced(schema)
    ensures Sealed(Closed(schema)) && Contained(Closed(schema))
  {
    var closed := Closed(schema);
    forall e | e in closed.upstream && (e.child in closed.policies || e.parent in closed.policies) ensures CoveredEdge(closed, e) {
      var fk :| fk in schema.fks && SameEdge(e, fk);
    }
    CoveredIsSealed(closed);
  }

  /** Looking the same is a matter of tables and policies. */
  lemma LooksStrip(a: Database, b: Database, s: Session)
    requires a.schema == b.schema
    ensures LookSame(Strip(a), Strip(b), s) <==> LookSame(a, b, s)
  {
    StripLooks(a, s);
    StripLooks(b, s);
  }

  lemma OwnStrips(a: Database, b: Database, s: Session)
    requires ModeOf(s).BoundTo? && a.schema == b.schema && OwnChangesOnly(Strip(a), Strip(b), s)
    ensures OwnChangesOnly(a, b, s)
  {
    StripLooks(a, s);
  }

  // ---------- the session can tell whether it avoids them ----------

  /** Over the other keys a delete takes along rows that the session sees, and the same ones in both databases. */
  lemma StrippedDoomSame(a: Database, b: Database, s: Session, gone: set<RowId>)
    requires ModeOf(s).BoundTo? && LookSame(a, b, s) && Sealed(a.schema) && Contained(a.schema) && Consistent(a) && Consistent(b)
    requires gone <= SeenRows(a, s)
    ensures Doomed(a, gone) == Doomed(b, gone)
  {
    SeenSame(a, b, s);
    DoomedSeen(a, s, gone);
    DoomedSeen(b, s, gone);
    forall r | r in SeenRows(a, s) ensures r in Doomed(a, gone) <==> r in Doomed(b, gone) {
      DoomedSame(a, b, s, gone, r);
    }
  }

  lemma AvoidsSame(a: Database, b: Database, s: Session, st: Statement)
    requires ModeOf(s).BoundTo? && LookSame(a, b, s) && EdgesEnforced(a.schema) && Consistent(a) && Consistent(b)
    requires Avoids(a, s, st)
    ensures Avoids(b, s, st)
  {
    if st.Delete? && st.table in a.tables {
      ClosedIsCovered(a.schema);
      StripConsistent(a);
      StripConsistent(b);
      LooksStrip(a, b, s);
      StripLooks(a, s);
      DeletedAreSeen(Strip(a), s, st);
      StrippedDoomSame(Strip(a), Strip(b), s, DeletedRows(st, ViewOf(a, s)));
    }
  }

  lemma StrippedSame(a: Database, b: Database, s: Session, st: Statement)
    requires ModeOf(s).BoundTo? && LookSame(a, b, s) && EdgesEnforced(a.schema) && Consistent(a) && Consistent(b)
    requires !Collides(a, s, st) && !Collides(b, s, st)
    ensures SameOutcome(Exec(Strip(a), s, st), Exec(Strip(b), s, st), s)
  {
    ClosedIsCovered(a.schema);
    StripConsistent(a);
    StripConsistent(b);
    LooksStrip(a, b, s);
    CollidesStrips(a, s, st);
    CollidesStrips(b, s, st);
    SealedStatement(Strip(a), s, st);
    SealedStatement(Strip(b), s, st);
    ExecSame(Strip(a), Strip(b), s, st);
  }

  /** Two databases that look the same, one statement that avoids the open keys and meets no hidden unique key. */
  lemma StepSame(a: Database, b: Database, s: Session, st: Statement)
    requires ModeOf(s).BoundTo? && LookSame(a, b, s) && EdgesEnforced(a.schema) && Consistent(a) && Consistent(b)
    requires Avoids(a, s, st) && Avoids(b, s, st) && !Collides(a, s, st) && !Collides(b, s, st)
    ensures SameOutcome(Exec(a, s, st), Exec(b, s, st), s)
  {
    StrippedSame(a, b, s, st);
    ExecStrips(a, s, st);
    ExecStrips(b, s, st);
    var x, y := Exec(a, s, st), Exec(b, s, st);
    if x.Done? {
      ExecConsistent(a, s, st);
      ExecConsistent(b, s, st);
      LooksStrip(x.db, y.db, s);
    }
  }

  /** As without the keys: the two ends differ if and only if a hidden unique key is first met at different points. */
  lemma {:induction false} SameBesides(a: Database, b: Database, s: Session, program: Program, answers: seq<int>, steps: nat)
    requires ModeOf(s).BoundTo? && LookSame(a, b, s) && EdgesEnforced(a.schema) && Consistent(a) && Consistent(b)
    requires AllAvoid(a, s, program, answers, steps)
    ensures SameResult(a, b, s, program, answers, steps)
            <==> FirstCollision(a, s, program, answers, steps) == FirstCollision(b, s, program, answers, steps)
    decreases steps
  {
    if steps > 0 && program(answers).Some? {
      var st := program(answers).value;
      AvoidsSame(a, b, s, st);
      if Collides(a, s, st) && Collides(b, s, st) {
        CollisionFails(a, s, st);
        CollisionFails(b, s, st);
      } else if Collides(a, s, st) {
        OneCollides(a, b, s, program, answers, steps);
      } else if Collides(b, s, st) {
        OneCollides(b, a, s, program, answers, steps);
      } else {
        StepSame(a, b, s, st);
        var x, y := Exec(a, s, st), Exec(b, s, st);
        if x.Done? {
          ExecConsistent(a, s, st);
          ExecConsistent(b, s, st);
          SameBesides(x.db, y.db, s, program, answers + [x.answer], steps - 1);
          SameResultNext(a, b, s, program, answers, steps);
        }
      }
    }
  }

  lemma IntegrityBesides(db: Database, s: Session, program: Program, steps: nat)
    requires ModeOf(s).BoundTo? && EdgesEnforced(db.schema) && Consistent(db) && AllAvoid(db, s, program, [], steps)
    ensures OwnChangesOnly(db, After(db, RunTx(db, s, program, [], steps)), s)
  {
    var r := RunTx(db, s, program, [], steps);
    ClosedIsCovered(db.schema);
    StripConsistent(db);
    TxIntegrity(Strip(db), s, program, [], steps);
    RunStrips(db, s, program, [], steps);
    if r.Committed? { RunTxConsistent(db, s, program, [], steps); }
    OwnStrips(db, After(db, r), s);
  }

  /**
   Whatever keys upstream declares: a transaction that avoids the unmatched ones, which its own view tells, cannot tell
   two databases apart that look the same, but for hidden unique keys, and changes nothing that its tenant does not own.
   */
  lemma {:induction false} IsolatedBesidesOpenKeys(a: Database, b: Database, s: Session, program: Program, steps: nat)
    requires ModeOf(s).BoundTo? && LookSame(a, b, s) && EdgesEnforced(a.schema) && Consistent(a) && Consistent(b)
    requires AllAvoid(a, s, program, [], steps)
    ensures SameResult(a, b, s, program, [], steps)
            <==> FirstCollision(a, s, program, [], steps) == FirstCollision(b, s, program, [], steps)
    ensures OwnChangesOnly(a, After(a, RunTx(a, s, program, [], steps)), s)
  {
    SameBesides(a, b, s, program, [], steps);
    IntegrityBesides(a, s, program, steps);
  }
}
