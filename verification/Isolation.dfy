/**
 Tenant isolation as a two-run statement. Take two databases that look the same to a tenant and differ in any way
 in what is hidden from it. Where no key of upstream's depends on hidden rows, that tenant's transaction gets the same
 answers in both, fails at the same point with the same error, and leaves databases that still look the same, unless a
 unique key that a hidden row holds stands in its way.
 */
module Isolation {
  import opened Common
  import opened Policy
  import opened Tables
  import opened Statements

  // ---------- schemas ----------

  /** The schema that the two migration sets build towards: a composite edge never leaves the strict tables. */
  ghost predicate EdgesStrict(schema: Schema) {
    forall fk :: fk in schema.fks ==>
      && fk.child in schema.policies && schema.policies[fk.child].PolicyStrict?
      && fk.parent in schema.policies && schema.policies[fk.parent].PolicyStrict?
  }

  /** The composite edges join strict tables and no child row is exempt from them. */
  ghost predicate EdgesEnforced(schema: Schema) {
    EdgesStrict(schema) && forall fk :: fk in schema.fks ==> fk.child in schema.notNull
  }

  /** A key that upstream declares is matched by a composite edge. */
  ghost predicate CoveredEdge(schema: Schema, e: UpstreamFK) {
    exists fk :: fk in schema.fks && SameEdge(e, fk)
  }

  /** Every key that asks whether a row exists that may be hidden is matched. */
  ghost predicate ParentsCovered(schema: Schema) {
    forall e :: e in schema.upstream && e.parent in schema.policies ==> CoveredEdge(schema, e)
  }

  /** Every key that removes or changes rows that may be hidden is matched. */
  ghost predicate ActionsCovered(schema: Schema) {
    forall e :: e in schema.upstream && !e.onDelete.NoAction? && e.child in schema.policies ==> CoveredEdge(schema, e)
  }

  /** Every key with an end in a table with a policy is matched. */
  ghost predicate Covered(schema: Schema) {
    forall e :: e in schema.upstream && (e.child in schema.policies || e.parent in schema.policies) ==> CoveredEdge(schema, e)
  }

  /** Some key of upstream's on this edge removes the pointing row or clears its pointer. */
  ghost predicate Acts(schema: Schema, child: Table, column: Column, parent: Table) {
    exists e :: e in schema.upstream && !e.onDelete.NoAction? && e.child == child && e.column == column && e.parent == parent
  }

  /** From a table that everybody sees the cascades of `path` lead into this table with a policy, past hidden rows. */
  ghost predicate Reaches(schema: Schema, path: seq<UpstreamFK>, t: Table)
    decreases |path|
  {
    if path == [] then t !in schema.policies
    else
      var e := path[|path| - 1];
      e in schema.upstream && e.onDelete.Cascade? && e.child == t && t in schema.policies
      && Reaches(schema, path[..|path| - 1], e.parent)
  }

  /** No hidden row that points at a row which a tenant can make fall can keep it from falling. */
  ghost predicate NeverRefuses(schema: Schema) {
    && (forall e, path :: e in schema.upstream && e.child in schema.policies && Reaches(schema, path, e.parent) ==>
          Acts(schema, e.child, e.column, e.parent))
    && (forall fk, path :: fk in schema.fks && Reaches(schema, path, fk.parent) ==> Acts(schema, fk.child, fk.column, fk.parent))
  }

  ghost predicate Apart(schema: Schema) {
    EdgesEnforced(schema) && ParentsCovered(schema)
  }

  /** Nothing that a key of upstream's asks or refuses depends on a hidden row. */
  ghost predicate Sealed(schema: Schema) {
    Apart(schema) && NeverRefuses(schema)
  }

  ghost predicate Contained(schema: Schema) {
    EdgesEnforced(schema) && ActionsCovered(schema)
  }

  ghost predicate LookSame(a: Database, b: Database, s: Session) {
    a.schema == b.schema && a.tables.Keys == b.tables.Keys && ViewOf(a, s) == ViewOf(b, s)
  }

  /** The rows of `t` that the session does not see. */
  function HiddenRows(db: Database, s: Session, t: Table): Rows {
    map id | id in db.RowsOf(t) && !Visible(db.schema, s, t, db.RowsOf(t)[id]) :: db.RowsOf(t)[id]
  }

  ghost predicate HiddenUnmoved(a: Database, b: Database, s: Session) {
    forall t :: t in a.tables ==> t in b.tables && HiddenRows(a, s, t) == HiddenRows(b, s, t)
  }

  // ---------- foreign keys see no further than the tenant does ----------

  function Shown(view: View, t: Table): Rows {
    if t in view then view[t] else map[]
  }

  /** The constraints as the session could check them by itself. */
  ghost predicate ForeignKeysHoldInView(schema: Schema, view: View) {
    forall fk :: fk in schema.fks ==> ForeignKeyHolds(fk, Shown(view, fk.child), Shown(view, fk.parent))
  }

  ghost predicate KeysHoldInView(schema: Schema, view: View) {
    && ForeignKeysHoldInView(schema, view)
    && forall e :: e in schema.upstream ==> UpstreamHolds(e, Shown(view, e.child), Shown(view, e.parent))
  }

  /** Under a strict policy a bound session sees exactly its own rows. */
  lemma StrictShowsOwn(schema: Schema, s: Session, t: Table, row: Row)
    requires ModeOf(s).BoundTo? && t in schema.policies && schema.policies[t].PolicyStrict?
    ensures Visible(schema, s, t, row) <==> row.tenant == Some(ModeOf(s).tenant)
  {
    PolicyMeaning(schema.policies[t], s, row.tenant);
  }

  /** Whatever a bound session manages to write, it owns and sees. */
  lemma WritableIsOwned(schema: Schema, s: Session, t: Table, row: Row)
    requires ModeOf(s).BoundTo? && Writable(schema, s, t, row)
    ensures Visible(schema, s, t, row)
    ensures t in schema.policies ==> row.tenant == Some(ModeOf(s).tenant)
  {
    if t in schema.policies { PolicyMeaning(schema.policies[t], s, row.tenant); }
  }

  lemma NoKeys<K, V>(m: map<K, V>)
    requires forall k :: k !in m
    ensures m == map[]
  {
  }

  lemma ViewShows(db: Database, s: Session, t: Table)
    ensures Shown(ViewOf(db, s), t) == VisibleRows(db, s, t)
  {
    if t !in db.tables {
      forall id ensures id !in VisibleRows(db, s, t) {}
      NoKeys(VisibleRows(db, s, t));
    }
  }

  /** The constraints of the rows that the session does not see. */
  ghost predicate HiddenEdgeHolds(db: Database, s: Session, fk: TenantFK) {
    forall id :: id in HiddenRows(db, s, fk.child) ==> MatchSimple(fk, db.RowsOf(fk.child)[id], db.RowsOf(fk.parent))
  }

  ghost predicate HiddenKeyHolds(db: Database, s: Session, e: UpstreamFK) {
    forall id :: id in HiddenRows(db, s, e.child) && e.column in db.RowsOf(e.child)[id].refs ==>
      db.RowsOf(e.child)[id].refs[e.column] in db.RowsOf(e.parent)
  }

  ghost predicate HiddenHold(db: Database, s: Session) {
    && (forall fk :: fk in db.schema.fks ==> HiddenEdgeHolds(db, s, fk))
    && (forall e :: e in db.schema.upstream ==> HiddenKeyHolds(db, s, e))
  }

  /** For a row that the session sees, the parent that the edge demands is one that it sees. */
  lemma RowDependsOnView(db: Database, s: Session, fk: TenantFK, row: Row)
    requires ModeOf(s).BoundTo? && EdgesStrict(db.schema) && fk in db.schema.fks && Visible(db.schema, s, fk.child, row)
    ensures MatchSimple(fk, row, db.RowsOf(fk.parent)) <==> MatchSimple(fk, row, VisibleRows(db, s, fk.parent))
  {
    StrictShowsOwn(db.schema, s, fk.child, row);
    if row.tenant.Some? && fk.column in row.refs && row.refs[fk.column] in db.RowsOf(fk.parent) {
      StrictShowsOwn(db.schema, s, fk.parent, db.RowsOf(fk.parent)[row.refs[fk.column]]);
    }
  }

  lemma EdgeDependsOnView(db: Database, s: Session, fk: TenantFK)
    requires ModeOf(s).BoundTo? && EdgesStrict(db.schema) && fk in db.schema.fks && HiddenEdgeHolds(db, s, fk)
    ensures ForeignKeyHolds(fk, db.RowsOf(fk.child), db.RowsOf(fk.parent))
        <==> ForeignKeyHolds(fk, VisibleRows(db, s, fk.child), VisibleRows(db, s, fk.parent))
  {
    var children, parents := db.RowsOf(fk.child), db.RowsOf(fk.parent);
    var seen, shown := VisibleRows(db, s, fk.child), VisibleRows(db, s, fk.parent);
    forall id | id in seen ensures MatchSimple(fk, children[id], parents) <==> MatchSimple(fk, seen[id], shown) {
      RowDependsOnView(db, s, fk, children[id]);
    }
    if ForeignKeyHolds(fk, seen, shown) {
      forall id | id in children ensures MatchSimple(fk, children[id], parents) {
        if id !in seen { assert id in HiddenRows(db, s, fk.child); }
      }
    }
  }

  lemma EdgesDependOnView(db: Database, s: Session)
    requires ModeOf(s).BoundTo? && EdgesStrict(db.schema) && forall fk :: fk in db.schema.fks ==> HiddenEdgeHolds(db, s, fk)
    ensures ForeignKeysHold(db) <==> ForeignKeysHoldInView(db.schema, ViewOf(db, s))
  {
    forall fk | fk in db.schema.fks
      ensures ForeignKeyHolds(fk, db.RowsOf(fk.child), db.RowsOf(fk.parent))
          <==> ForeignKeyHolds(fk, Shown(ViewOf(db, s), fk.child), Shown(ViewOf(db, s), fk.parent))
    {
      EdgeDependsOnView(db, s, fk);
      ViewShows(db, s, fk.child);
      ViewShows(db, s, fk.parent);
    }
  }

  /** A hidden row and the row its edge demands belong to the same other tenant, so neither has moved. */
  lemma HiddenEdgesStay(before: Database, after: Database, s: Session, fk: TenantFK)
    requires ModeOf(s).BoundTo? && EdgesStrict(before.schema) && fk in before.schema.fks
    requires ForeignKeyHolds(fk, before.RowsOf(fk.child), before.RowsOf(fk.parent))
    requires after.schema == before.schema && after.tables.Keys == before.tables.Keys && HiddenUnmoved(before, after, s)
    ensures HiddenEdgeHolds(after, s, fk)
  {
    forall id | id in HiddenRows(after, s, fk.child)
      ensures MatchSimple(fk, after.RowsOf(fk.child)[id], after.RowsOf(fk.parent))
    {
      var row := after.RowsOf(fk.child)[id];
      assert id in HiddenRows(before, s, fk.child) && HiddenRows(before, s, fk.child)[id] == row;
      assert MatchSimple(fk, row, before.RowsOf(fk.parent));
      StrictShowsOwn(after.schema, s, fk.child, row);
      if row.tenant.Some? && fk.column in row.refs {
        var p := row.refs[fk.column];
        StrictShowsOwn(before.schema, s, fk.parent, before.RowsOf(fk.parent)[p]);
        assert p in HiddenRows(before, s, fk.parent) && p in HiddenRows(after, s, fk.parent);
      }
    }
  }

  /**
   The reason for composite foreign keys: since the referenced row must have the child's tenant, whether the
   constraints hold after a tenant's write can be told from the tenant's own view.
   */
  lemma ForeignKeysDependOnView(before: Database, after: Database, s: Session)
    requires ModeOf(s).BoundTo? && EdgesStrict(before.schema) && ForeignKeysHold(before)
    requires after.schema == before.schema && after.tables.Keys == before.tables.Keys && HiddenUnmoved(before, after, s)
    ensures ForeignKeysHold(after) <==> ForeignKeysHoldInView(after.schema, ViewOf(after, s))
  {
    forall fk | fk in after.schema.fks ensures HiddenEdgeHolds(after, s, fk) {
      HiddenEdgesStay(before, after, s, fk);
    }
    EdgesDependOnView(after, s);
  }

  /** A row that the session sees points at a row that it sees, or everybody sees the parent's table. */
  lemma PointerSeen(db: Database, s: Session, e: UpstreamFK, id: Id)
    requires ModeOf(s).BoundTo? && Apart(db.schema) && ForeignKeysHold(db)
    requires forall t :: t in db.tables ==> NotNullHolds(db.schema, t, db.tables[t])
    requires e in db.schema.upstream && id in VisibleRows(db, s, e.child)
    requires e.column in db.RowsOf(e.child)[id].refs && db.RowsOf(e.child)[id].refs[e.column] in db.RowsOf(e.parent)
    ensures db.RowsOf(e.child)[id].refs[e.column] in VisibleRows(db, s, e.parent)
  {
    if e.parent in db.schema.policies {
      var fk :| fk in db.schema.fks && SameEdge(e, fk);
      var row := db.RowsOf(e.child)[id];
      assert NotNullHolds(db.schema, fk.child, db.tables[fk.child]);
      assert ForeignKeyHolds(fk, db.RowsOf(fk.child), db.RowsOf(fk.parent));
      assert row.tenant.Some? && MatchSimple(fk, row, db.RowsOf(fk.parent));
      RowDependsOnView(db, s, fk, row);
    } else {
      var p := db.RowsOf(e.child)[id].refs[e.column];
      assert Visible(db.schema, s, e.parent, db.RowsOf(e.parent)[p]);
    }
  }

  lemma KeyHoldsInView(db: Database, s: Session, e: UpstreamFK)
    requires ModeOf(s).BoundTo? && Apart(db.schema) && KeysHold(db) && e in db.schema.upstream
    requires forall t :: t in db.tables ==> NotNullHolds(db.schema, t, db.tables[t])
    ensures UpstreamHolds(e, VisibleRows(db, s, e.child), VisibleRows(db, s, e.parent))
  {
    assert UpstreamHolds(e, db.RowsOf(e.child), db.RowsOf(e.parent));
    forall id | id in VisibleRows(db, s, e.child) && e.column in VisibleRows(db, s, e.child)[id].refs
      ensures VisibleRows(db, s, e.child)[id].refs[e.column] in VisibleRows(db, s, e.parent)
    {
      PointerSeen(db, s, e, id);
    }
  }

  lemma KeyHoldsBeyondView(db: Database, s: Session, e: UpstreamFK)
    requires HiddenKeyHolds(db, s, e) && UpstreamHolds(e, VisibleRows(db, s, e.child), VisibleRows(db, s, e.parent))
    ensures UpstreamHolds(e, db.RowsOf(e.child), db.RowsOf(e.parent))
  {
    var children, seen := db.RowsOf(e.child), VisibleRows(db, s, e.child);
    forall id | id in children && e.column in children[id].refs ensures children[id].refs[e.column] in db.RowsOf(e.parent) {
      if id in seen { assert seen[id] == children[id]; } else { assert id in HiddenRows(db, s, e.child); }
    }
  }

  /** When the hidden rows satisfy their constraints, the session can tell by itself whether all constraints hold. */
  lemma KeysDependOnView(db: Database, s: Session)
    requires ModeOf(s).BoundTo? && Apart(db.schema) && HiddenHold(db, s)
    requires forall t :: t in db.tables ==> NotNullHolds(db.schema, t, db.tables[t])
    ensures KeysHold(db) <==> KeysHoldInView(db.schema, ViewOf(db, s))
  {
    EdgesDependOnView(db, s);
    forall e | e in db.schema.upstream
      ensures Shown(ViewOf(db, s), e.child) == VisibleRows(db, s, e.child) && Shown(ViewOf(db, s), e.parent) == VisibleRows(db, s, e.parent)
      ensures KeysHold(db) ==> UpstreamHolds(e, VisibleRows(db, s, e.child), VisibleRows(db, s, e.parent))
      ensures UpstreamHolds(e, VisibleRows(db, s, e.child), VisibleRows(db, s, e.parent)) ==>
                UpstreamHolds(e, db.RowsOf(e.child), db.RowsOf(e.parent))
    {
      ViewShows(db, s, e.child);
      ViewShows(db, s, e.parent);
      if KeysHold(db) { KeyHoldsInView(db, s, e); }
      if UpstreamHolds(e, VisibleRows(db, s, e.child), VisibleRows(db, s, e.parent)) { KeyHoldsBeyondView(db, s, e); }
    }
  }

  // ---------- one write, two databases ----------

  predicate AllVisible(schema: Schema, s: Session, t: Table, rows: Rows) {
    forall id :: id in rows ==> Visible(schema, s, t, rows[id])
  }

  /** The entries can be put into these rows without touching any others: they are new, or of rows that are there. */
  predicate Within(rows: Rows, list: seq<Entry>, isNew: bool) {
    isNew || forall i :: 0 <= i < |list| ==> list[i].id in rows
  }

  lemma TakenInPart(schema: Schema, t: Table, shown: Rows, hidden: Rows, e: Entry)
    requires shown.Keys !! hidden.Keys
    ensures Taken(schema, t, shown, e.id, e.row) ==> Taken(schema, t, shown + hidden, e.id, e.row)
  {
    if Taken(schema, t, shown, e.id, e.row) {
      var key, other :| key in schema.unique && key.table == t && other in shown && other != e.id && Clash(key, e.row, shown[other]);
      assert (shown + hidden)[other] == shown[other];
    }
  }

  /**
   The same entries put into a table and into its visible part: a hidden row can only make a unique violation of what
   would have been stored, or refused for another reason.
   */
  lemma {:induction false} PutSplit(schema: Schema, s: Session, t: Table, shown: Rows, hidden: Rows, list: seq<Entry>, isNew: bool)
    requires shown.Keys !! hidden.Keys && Within(shown, list, isNew)
    ensures var part, whole := PutAll(schema, s, t, shown, list, isNew), PutAll(schema, s, t, shown + hidden, list, isNew);
            && (whole == Rejected(UniqueViolation) || (part.Rejected? && whole == part)
                || (part.Stored? && part.rows.Keys !! hidden.Keys && whole == Stored(part.rows + hidden)))
            && (part == Rejected(UniqueViolation) ==> whole == Rejected(UniqueViolation))
    decreases |list|
  {
    if list != [] && RowError(schema, s, t, list[0].row).None? {
      var e := list[0];
      TakenInPart(schema, t, shown, hidden, e);
      if !Obstructed(schema, t, shown + hidden, e, isNew) {
        assert e.id !in hidden;
        assert (shown + hidden)[e.id := e.row] == shown[e.id := e.row] + hidden;
        PutSplit(schema, s, t, shown[e.id := e.row], hidden, list[1..], isNew);
      }
    }
  }

  lemma {:induction false} PutVisible(schema: Schema, s: Session, t: Table, rows: Rows, list: seq<Entry>, isNew: bool)
    requires ModeOf(s).BoundTo? && AllVisible(schema, s, t, rows) && PutAll(schema, s, t, rows, list, isNew).Stored?
    ensures AllVisible(schema, s, t, PutAll(schema, s, t, rows, list, isNew).rows)
    decreases |list|
  {
    if list != [] {
      WritableIsOwned(schema, s, t, list[0].row);
      PutVisible(schema, s, t, rows[list[0].id := list[0].row], list[1..], isNew);
    }
  }

  lemma SplitRows(db: Database, s: Session, t: Table)
    requires t in db.tables
    ensures db.tables[t] == VisibleRows(db, s, t) + HiddenRows(db, s, t)
    ensures VisibleRows(db, s, t).Keys !! HiddenRows(db, s, t).Keys && AllVisible(db.schema, s, t, VisibleRows(db, s, t))
  {
    assert db.RowsOf(t) == db.tables[t];
  }

  /** A table put together from rows that the session sees and the hidden ones it had. */
  lemma NextLooks(db: Database, s: Session, t: Table, shown: Rows)
    requires t in db.tables && shown.Keys !! HiddenRows(db, s, t).Keys && AllVisible(db.schema, s, t, shown)
    ensures var next := NextOf(db, t, shown + HiddenRows(db, s, t));
            && VisibleRows(next, s, t) == shown && HiddenRows(next, s, t) == HiddenRows(db, s, t)
  {
    var hidden := HiddenRows(db, s, t);
    var next := NextOf(db, t, shown + hidden);
    assert next.RowsOf(t) == shown + hidden;
    forall id ensures id in VisibleRows(next, s, t) <==> id in shown {
    }
    forall id ensures id in HiddenRows(next, s, t) <==> id in hidden {
    }
  }

  lemma OthersLook(db: Database, s: Session, t: Table, rows: Rows, u: Table)
    requires t in db.tables && u != t
    ensures VisibleRows(NextOf(db, t, rows), s, u) == VisibleRows(db, s, u)
    ensures HiddenRows(NextOf(db, t, rows), s, u) == HiddenRows(db, s, u)
  {
    assert NextOf(db, t, rows).RowsOf(u) == db.RowsOf(u);
  }

  lemma TablesLook(db: Database, s: Session, t: Table, shown: Rows, u: Table)
    requires t in db.tables && shown.Keys !! HiddenRows(db, s, t).Keys && AllVisible(db.schema, s, t, shown) && u in db.tables
    ensures var next := NextOf(db, t, shown + HiddenRows(db, s, t));
            && VisibleRows(next, s, u) == (if u == t then shown else VisibleRows(db, s, u))
            && HiddenRows(next, s, u) == HiddenRows(db, s, u)
  {
    if u == t { NextLooks(db, s, t, shown); } else { OthersLook(db, s, t, shown + HiddenRows(db, s, t), u); }
  }

  lemma ViewWith(db: Database, next: Database, s: Session, t: Table, shown: Rows)
    requires t in db.tables && next.tables.Keys == db.tables.Keys
    requires forall u :: u in db.tables ==> VisibleRows(next, s, u) == if u == t then shown else VisibleRows(db, s, u)
    ensures ViewOf(next, s) == ViewOf(db, s)[t := shown]
  {
  }

  /** A write of a bound session happens inside its view, and elsewhere nothing moves. */
  lemma WriteEffect(db: Database, s: Session, t: Table, shown: Rows)
    requires t in db.tables && shown.Keys !! HiddenRows(db, s, t).Keys && AllVisible(db.schema, s, t, shown)
    ensures var next := NextOf(db, t, shown + HiddenRows(db, s, t));
            ViewOf(next, s) == ViewOf(db, s)[t := shown] && HiddenUnmoved(db, next, s)
  {
    var next := NextOf(db, t, shown + HiddenRows(db, s, t));
    forall u | u in db.tables
      ensures VisibleRows(next, s, u) == (if u == t then shown else VisibleRows(db, s, u)) && HiddenRows(next, s, u) == HiddenRows(db, s, u)
    {
      TablesLook(db, s, t, shown, u);
    }
    ViewWith(db, next, s, t, shown);
  }

  ghost predicate SameOutcome(a: Outcome, b: Outcome, s: Session) {
    if a.Done? then b.Done? && a.answer == b.answer && LookSame(a.db, b.db, s)
    else b == a
  }

  lemma HiddenKeysStay(before: Database, after: Database, s: Session, e: UpstreamFK)
    requires UpstreamHolds(e, before.RowsOf(e.child), before.RowsOf(e.parent)) && HiddenUnmoved(before, after, s)
    requires after.tables.Keys == before.tables.Keys && before.RowsOf(e.parent).Keys <= after.RowsOf(e.parent).Keys
    ensures HiddenKeyHolds(after, s, e)
  {
    forall id | id in HiddenRows(after, s, e.child) ensures id in HiddenRows(before, s, e.child)
                && before.RowsOf(e.child)[id] == after.RowsOf(e.child)[id] {
      assert HiddenRows(before, s, e.child)[id] == HiddenRows(after, s, e.child)[id];
    }
  }

  /** Hidden rows keep what they point at, since a write takes no row away. */
  lemma WriteHiddenHold(db: Database, s: Session, t: Table, rows: Rows)
    requires ModeOf(s).BoundTo? && EdgesStrict(db.schema) && Consistent(db)
    requires t in db.tables && db.tables[t].Keys <= rows.Keys && HiddenUnmoved(db, NextOf(db, t, rows), s)
    ensures HiddenHold(NextOf(db, t, rows), s)
  {
    var next := NextOf(db, t, rows);
    forall fk | fk in next.schema.fks ensures HiddenEdgeHolds(next, s, fk) {
      assert ForeignKeyHolds(fk, db.RowsOf(fk.child), db.RowsOf(fk.parent));
      HiddenEdgesStay(db, next, s, fk);
    }
    forall e | e in next.schema.upstream ensures HiddenKeyHolds(next, s, e) {
      assert UpstreamHolds(e, db.RowsOf(e.child), db.RowsOf(e.parent));
      assert db.RowsOf(e.parent).Keys <= next.RowsOf(e.parent).Keys;
      HiddenKeysStay(db, next, s, e);
    }
  }

  /** What the session's rows would make of the write if there were no others. */
  function PutInView(db: Database, s: Session, t: Table, list: seq<Entry>, isNew: bool): Put {
    PutAll(db.schema, s, t, VisibleRows(db, s, t), list, isNew)
  }

  /** Nothing but a unique key that a row holds which the session does not see stands in the way of the write. */
  ghost predicate Hindered(db: Database, s: Session, t: Table, list: seq<Entry>, isNew: bool)
    requires t in db.tables
  {
    && PutAll(db.schema, s, t, db.tables[t], list, isNew) == Rejected(UniqueViolation)
    && PutInView(db, s, t, list, isNew) != Rejected(UniqueViolation)
  }

  lemma PutFromView(db: Database, s: Session, t: Table, list: seq<Entry>, isNew: bool)
    requires t in db.tables && Within(VisibleRows(db, s, t), list, isNew) && !Hindered(db, s, t, list, isNew)
    ensures var put := PutInView(db, s, t, list, isNew);
            PutAll(db.schema, s, t, db.tables[t], list, isNew)
            == if put.Rejected? then put else Stored(put.rows + HiddenRows(db, s, t))
    ensures var put := PutInView(db, s, t, list, isNew); put.Stored? ==> put.rows.Keys !! HiddenRows(db, s, t).Keys
  {
    SplitRows(db, s, t);
    PutSplit(db.schema, s, t, VisibleRows(db, s, t), HiddenRows(db, s, t), list, isNew);
  }

  /** What stands in the way of a write that is not hindered, told by the view alone. */
  ghost function WriteError(schema: Schema, view: View, t: Table, put: Put): Option<SqlError>
    requires t in view
  {
    if put.Rejected? then Some(put.error)
    else if !KeysHoldInView(schema, view[t := put.rows]) then Some(ForeignKeyViolation)
    else None
  }

  lemma StoredInView(db: Database, s: Session, t: Table, list: seq<Entry>, isNew: bool)
    requires ModeOf(s).BoundTo? && Apart(db.schema) && Consistent(db) && t in db.tables
    requires Within(VisibleRows(db, s, t), list, isNew) && !Hindered(db, s, t, list, isNew) && PutInView(db, s, t, list, isNew).Stored?
    ensures var shown := PutInView(db, s, t, list, isNew).rows;
            var next := NextOf(db, t, shown + HiddenRows(db, s, t));
            && ViewOf(next, s) == ViewOf(db, s)[t := shown] && HiddenUnmoved(db, next, s)
            && (KeysHold(next) <==> KeysHoldInView(db.schema, ViewOf(next, s)))
  {
    var shown, hidden := PutInView(db, s, t, list, isNew).rows, HiddenRows(db, s, t);
    var next := NextOf(db, t, shown + hidden);
    SplitRows(db, s, t);
    PutFromView(db, s, t, list, isNew);
    PutVisible(db.schema, s, t, VisibleRows(db, s, t), list, isNew);
    WriteEffect(db, s, t, shown);
    PutAllConsistent(db.schema, s, t, db.tables[t], list, isNew);
    WriteHiddenHold(db, s, t, shown + hidden);
    forall u | u in next.tables ensures NotNullHolds(next.schema, u, next.tables[u]) {
      assert NotNullHolds(db.schema, u, db.tables[u]);
    }
    KeysDependOnView(next, s);
  }

  lemma WriteInView(db: Database, s: Session, t: Table, list: seq<Entry>, isNew: bool)
    requires ModeOf(s).BoundTo? && Apart(db.schema) && Consistent(db) && t in db.tables
    requires Within(VisibleRows(db, s, t), list, isNew) && !Hindered(db, s, t, list, isNew)
    ensures var view, put := ViewOf(db, s), PutInView(db, s, t, list, isNew);
            match WriteError(db.schema, view, t, put)
            case Some(error) => Write(db, s, t, list, isNew) == Failed(error)
            case None =>
              var next := NextOf(db, t, put.rows + HiddenRows(db, s, t));
              && Write(db, s, t, list, isNew) == Done(next, |list|)
              && ViewOf(next, s) == view[t := put.rows] && HiddenUnmoved(db, next, s)
  {
    PutFromView(db, s, t, list, isNew);
    if PutInView(db, s, t, list, isNew).Stored? { StoredInView(db, s, t, list, isNew); }
  }

  lemma WriteSame(a: Database, b: Database, s: Session, t: Table, list: seq<Entry>, isNew: bool)
    requires ModeOf(s).BoundTo? && LookSame(a, b, s) && Apart(a.schema) && Consistent(a) && Consistent(b) && t in a.tables
    requires Within(VisibleRows(a, s, t), list, isNew) && !Hindered(a, s, t, list, isNew) && !Hindered(b, s, t, list, isNew)
    ensures SameOutcome(Write(a, s, t, list, isNew), Write(b, s, t, list, isNew), s)
  {
    assert VisibleRows(a, s, t) == ViewOf(a, s)[t] == VisibleRows(b, s, t);
    WriteInView(a, s, t, list, isNew);
    WriteInView(b, s, t, list, isNew);
  }

  // ---------- one delete, two databases ----------

  /** The rows that the session sees, by table and id. */
  function SeenRows(db: Database, s: Session): set<RowId> {
    set t, id | t in db.tables && id in VisibleRows(db, s, t) :: (t, id)
  }

  lemma InSeen(db: Database, s: Session, t: Table, id: Id)
    requires t in db.tables && id in VisibleRows(db, s, t)
    ensures (t, id) in SeenRows(db, s)
  {
  }

  lemma SeenSame(a: Database, b: Database, s: Session)
    requires LookSame(a, b, s)
    ensures SeenRows(a, s) == SeenRows(b, s) <= AllRows(a) * AllRows(b)
  {
    forall t | t in a.tables ensures VisibleRows(a, s, t) == VisibleRows(b, s, t) {
      assert ViewOf(a, s)[t] == ViewOf(b, s)[t];
    }
  }

  /** A row and the row it points at over a matched key belong to one tenant, so the session sees both or neither. */
  lemma PairSeenTogether(db: Database, s: Session, e: UpstreamFK, id: Id)
    requires ModeOf(s).BoundTo? && EdgesEnforced(db.schema) && Consistent(db)
    requires e in db.schema.upstream && CoveredEdge(db.schema, e)
    requires id in db.RowsOf(e.child) && e.column in db.RowsOf(e.child)[id].refs
    ensures var p := db.RowsOf(e.child)[id].refs[e.column];
            && p in db.RowsOf(e.parent) && e.child in db.tables && e.parent in db.tables
            && ((e.child, id) in SeenRows(db, s) <==> (e.parent, p) in SeenRows(db, s))
  {
    var fk :| fk in db.schema.fks && SameEdge(e, fk);
    var row := db.RowsOf(e.child)[id];
    assert NotNullHolds(db.schema, fk.child, db.tables[fk.child]);
    assert ForeignKeyHolds(fk, db.RowsOf(fk.child), db.RowsOf(fk.parent));
    assert MatchSimple(fk, row, db.RowsOf(fk.parent));
    StrictShowsOwn(db.schema, s, e.child, row);
    StrictShowsOwn(db.schema, s, e.parent, db.RowsOf(e.parent)[row.refs[e.column]]);
  }

  /** What a seen row points at is seen. */
  lemma TargetSeen(db: Database, s: Session, e: UpstreamFK, id: Id)
    requires ModeOf(s).BoundTo? && Apart(db.schema) && Consistent(db) && e in db.schema.upstream
    requires (e.child, id) in SeenRows(db, s) && e.column in db.RowsOf(e.child)[id].refs
    ensures (e.parent, db.RowsOf(e.child)[id].refs[e.column]) in SeenRows(db, s)
  {
    assert UpstreamHolds(e, db.RowsOf(e.child), db.RowsOf(e.parent));
    var p := db.RowsOf(e.child)[id].refs[e.column];
    if e.parent in db.schema.policies {
      PairSeenTogether(db, s, e, id);
    } else {
      InSeen(db, s, e.parent, p);
    }
  }

  /** A seen row that falls is pulled down by a seen row, and in the same way in a database that looks the same. */
  lemma PullSame(a: Database, b: Database, s: Session, p: RowId, r: RowId)
    requires ModeOf(s).BoundTo? && LookSame(a, b, s) && Apart(a.schema) && Consistent(a)
    requires r in SeenRows(a, s) && PullsDown(a, p, r)
    ensures p in SeenRows(a, s) && PullsDown(b, p, r)
  {
    var e :| e in a.schema.upstream && e.onDelete.Cascade? && e.parent == p.0 && e.child == r.0
             && e.column in a.RowsOf(r.0)[r.1].refs && a.RowsOf(r.0)[r.1].refs[e.column] == p.1;
    TargetSeen(a, s, e, r.1);
    assert ViewOf(a, s)[r.0][r.1] == ViewOf(b, s)[r.0][r.1];
  }

  lemma {:induction false} FallsSame(a: Database, b: Database, s: Session, gone: set<RowId>, r: RowId, n: nat)
    requires ModeOf(s).BoundTo? && LookSame(a, b, s) && Apart(a.schema) && Consistent(a)
    requires r in SeenRows(a, s) && Falls(a, gone, r, n)
    ensures Falls(b, gone, r, n)
    decreases n
  {
    if n > 0 {
      if Falls(a, gone, r, n - 1) {
        FallsSame(a, b, s, gone, r, n - 1);
      } else {
        var p :| Falls(a, gone, p, n - 1) && PullsDown(a, p, r);
        PullSame(a, b, s, p, r);
        FallsSame(a, b, s, gone, p, n - 1);
      }
    }
  }

  /** A delete takes along the same seen rows in both databases, whatever falls among the hidden ones. */
  lemma DoomedSame(a: Database, b: Database, s: Session, gone: set<RowId>, r: RowId)
    requires ModeOf(s).BoundTo? && LookSame(a, b, s) && Apart(a.schema) && Consistent(a) && Consistent(b)
    requires r in SeenRows(a, s)
    ensures r in Doomed(a, gone) <==> r in Doomed(b, gone)
  {
    SeenSame(a, b, s);
    if r in Doomed(a, gone) {
      var n: nat :| Falls(a, gone, r, n);
      FallsSame(a, b, s, gone, r, n);
    }
    if r in Doomed(b, gone) {
      var n: nat :| Falls(b, gone, r, n);
      FallsSame(b, a, s, gone, r, n);
    }
  }

  lemma ClearedSame(a: Database, b: Database, s: Session, gone: set<RowId>, t: Table, id: Id, c: Column)
    requires ModeOf(s).BoundTo? && LookSame(a, b, s) && Apart(a.schema) && Consistent(a) && Consistent(b)
    requires (t, id) in SeenRows(a, s) && c in a.RowsOf(t)[id].refs
    ensures Cleared(a.schema, Doomed(a, gone), t, c, a.RowsOf(t)[id].refs[c])
        <==> Cleared(b.schema, Doomed(b, gone), t, c, a.RowsOf(t)[id].refs[c])
  {
    forall e | e in a.schema.upstream && e.child == t && e.column == c
      ensures (e.parent, a.RowsOf(t)[id].refs[c]) in Doomed(a, gone) <==> (e.parent, a.RowsOf(t)[id].refs[c]) in Doomed(b, gone)
    {
      TargetSeen(a, s, e, id);
      DoomedSame(a, b, s, gone, (e.parent, a.RowsOf(t)[id].refs[c]));
    }
  }

  lemma SurvivorSame(a: Database, b: Database, s: Session, gone: set<RowId>, t: Table, id: Id)
    requires ModeOf(s).BoundTo? && LookSame(a, b, s) && Apart(a.schema) && Consistent(a) && Consistent(b)
    requires t in a.tables && id in VisibleRows(a, s, t)
    ensures (t, id) in Doomed(a, gone) <==> (t, id) in Doomed(b, gone)
    ensures Survivor(a.schema, Doomed(a, gone), t, a.RowsOf(t)[id]) == Survivor(b.schema, Doomed(b, gone), t, a.RowsOf(t)[id])
  {
    InSeen(a, s, t, id);
    DoomedSame(a, b, s, gone, (t, id));
    var row := a.RowsOf(t)[id];
    forall c | c in row.refs
      ensures Cleared(a.schema, Doomed(a, gone), t, c, row.refs[c]) <==> Cleared(b.schema, Doomed(b, gone), t, c, row.refs[c])
    {
      ClearedSame(a, b, s, gone, t, id, c);
    }
    assert Survivor(a.schema, Doomed(a, gone), t, row).refs == Survivor(b.schema, Doomed(b, gone), t, row).refs;
  }

  lemma RemainsOf(db: Database, s: Session, doomed: set<RowId>, t: Table)
    requires t in db.tables
    ensures VisibleRows(Without(db, doomed), s, t) == Survivors(db.schema, doomed, t, VisibleRows(db, s, t))
  {
    var next := Without(db, doomed);
    assert next.RowsOf(t) == Survivors(db.schema, doomed, t, db.tables[t]) && db.RowsOf(t) == db.tables[t];
    forall id ensures id in VisibleRows(next, s, t) <==> id in Survivors(db.schema, doomed, t, VisibleRows(db, s, t)) {
      if id in next.RowsOf(t) { assert next.RowsOf(t)[id].tenant == db.tables[t][id].tenant; }
    }
  }

  lemma ViewAfter(a: Database, b: Database, s: Session, gone: set<RowId>)
    requires ModeOf(s).BoundTo? && LookSame(a, b, s) && Apart(a.schema) && Consistent(a) && Consistent(b)
    ensures LookSame(Without(a, Doomed(a, gone)), Without(b, Doomed(b, gone)), s)
  {
    var x, y := Without(a, Doomed(a, gone)), Without(b, Doomed(b, gone));
    forall t | t in a.tables ensures VisibleRows(x, s, t) == VisibleRows(y, s, t) {
      assert VisibleRows(a, s, t) == ViewOf(a, s)[t] == VisibleRows(b, s, t);
      RemainsOf(a, s, Doomed(a, gone), t);
      RemainsOf(b, s, Doomed(b, gone), t);
      forall id | id in VisibleRows(a, s, t)
        ensures (t, id) in Doomed(a, gone) <==> (t, id) in Doomed(b, gone)
        ensures Survivor(a.schema, Doomed(a, gone), t, VisibleRows(a, s, t)[id])
             == Survivor(b.schema, Doomed(b, gone), t, VisibleRows(b, s, t)[id])
      {
        SurvivorSame(a, b, s, gone, t, id);
      }
    }
    SameViews(x, y, s);
  }

  lemma SameViews(a: Database, b: Database, s: Session)
    requires a.tables.Keys == b.tables.Keys && forall t :: t in a.tables ==> VisibleRows(a, s, t) == VisibleRows(b, s, t)
    ensures ViewOf(a, s) == ViewOf(b, s)
  {
  }

  /** The delete leaves no hidden row pointing at nothing. */
  ghost predicate Harmless(db: Database, s: Session, gone: set<RowId>) {
    HiddenHold(Without(db, Doomed(db, gone)), s)
  }

  lemma RemoveSame(a: Database, b: Database, s: Session, t: Table, gone: set<Id>)
    requires ModeOf(s).BoundTo? && LookSame(a, b, s) && Apart(a.schema) && Consistent(a) && Consistent(b)
    requires Harmless(a, s, RowIds(t, gone)) && Harmless(b, s, RowIds(t, gone))
    ensures SameOutcome(Remove(a, t, gone), Remove(b, t, gone), s)
  {
    var ids := RowIds(t, gone);
    ViewAfter(a, b, s, ids);
    NotNullAfter(a, Doomed(a, ids));
    NotNullAfter(b, Doomed(b, ids));
    KeysDependOnView(Without(a, Doomed(a, ids)), s);
    KeysDependOnView(Without(b, Doomed(b, ids)), s);
  }

  lemma NotNullAfter(db: Database, doomed: set<RowId>)
    requires Consistent(db)
    ensures var next := Without(db, doomed); forall u :: u in next.tables ==> NotNullHolds(next.schema, u, next.tables[u])
  {
    var next := Without(db, doomed);
    forall u | u in next.tables ensures NotNullHolds(next.schema, u, next.tables[u]) {
      assert NotNullHolds(db.schema, u, db.tables[u]);
    }
  }

  // ---------- no delete is harmful under a sealed schema ----------

  /** A hidden row that falls hangs on a chain of cascades from a table that everybody sees. */
  lemma {:induction false} HiddenFall(db: Database, s: Session, gone: set<RowId>, r: RowId, n: nat) returns (path: seq<UpstreamFK>)
    requires ModeOf(s).BoundTo? && Apart(db.schema) && Consistent(db) && gone <= SeenRows(db, s)
    requires Falls(db, gone, r, n) && r !in SeenRows(db, s)
    ensures Reaches(db.schema, path, r.0)
    decreases n
  {
    if n == 0 || Falls(db, gone, r, n - 1) {
      path := HiddenFall(db, s, gone, r, n - 1);
    } else {
      var p :| Falls(db, gone, p, n - 1) && PullsDown(db, p, r);
      var e :| e in db.schema.upstream && e.onDelete.Cascade? && e.parent == p.0 && e.child == r.0
               && e.column in db.RowsOf(r.0)[r.1].refs && db.RowsOf(r.0)[r.1].refs[e.column] == p.1;
      HiddenHasPolicy(db, s, r);
      var before: seq<UpstreamFK> := [];
      if p in SeenRows(db, s) {
        if e.parent in db.schema.policies { PairSeenTogether(db, s, e, r.1); }
      } else {
        before := HiddenFall(db, s, gone, p, n - 1);
      }
      path := before + [e];
      assert path[..|path| - 1] == before;
    }
  }

  lemma HiddenHasPolicy(db: Database, s: Session, r: RowId)
    requires r.1 in db.RowsOf(r.0) && r !in SeenRows(db, s)
    ensures r.0 in db.schema.policies && r.0 in db.tables
  {
    if r.0 !in db.schema.policies { InSeen(db, s, r.0, r.1); }
  }

  /** What a hidden row still points at after a delete has not fallen. */
  lemma HiddenPointerStays(db: Database, s: Session, gone: set<RowId>, e: UpstreamFK, id: Id)
    requires ModeOf(s).BoundTo? && Sealed(db.schema) && Consistent(db) && gone <= SeenRows(db, s) && e in db.schema.upstream
    requires var next := Without(db, Doomed(db, gone));
             id in HiddenRows(next, s, e.child) && e.column in next.RowsOf(e.child)[id].refs
    ensures var next := Without(db, Doomed(db, gone)); next.RowsOf(e.child)[id].refs[e.column] in next.RowsOf(e.parent)
  {
    var doomed := Doomed(db, gone);
    var next := Without(db, doomed);
    var p := next.RowsOf(e.child)[id].refs[e.column];
    assert p == db.RowsOf(e.child)[id].refs[e.column] && UpstreamHolds(e, db.RowsOf(e.child), db.RowsOf(e.parent));
    if (e.parent, p) in doomed {
      HiddenSurvivor(db, s, doomed, e.child, id);
      var path := FallenIsReached(db, s, gone, e, id);
      NotActedOn(db, gone, e.child, id, e.column, e.parent);
    }
  }

  /** A row that the session does not see after a delete it did not see before. */
  lemma HiddenSurvivor(db: Database, s: Session, doomed: set<RowId>, t: Table, id: Id)
    requires id in HiddenRows(Without(db, doomed), s, t)
    ensures t in db.tables && id in HiddenRows(db, s, t) && (t, id) !in doomed && (t, id) !in SeenRows(db, s)
    ensures Without(db, doomed).RowsOf(t)[id] == Survivor(db.schema, doomed, t, db.RowsOf(t)[id])
  {
    assert Without(db, doomed).RowsOf(t)[id].tenant == db.RowsOf(t)[id].tenant;
  }

  lemma FallenIsReached(db: Database, s: Session, gone: set<RowId>, e: UpstreamFK, id: Id) returns (path: seq<UpstreamFK>)
    requires ModeOf(s).BoundTo? && Apart(db.schema) && Consistent(db) && gone <= SeenRows(db, s) && e in db.schema.upstream
    requires id in HiddenRows(db, s, e.child) && (e.child, id) !in SeenRows(db, s) && e.column in db.RowsOf(e.child)[id].refs
    requires (e.parent, db.RowsOf(e.child)[id].refs[e.column]) in Doomed(db, gone)
    ensures e.child in db.schema.policies && Reaches(db.schema, path, e.parent)
  {
    var p := (e.parent, db.RowsOf(e.child)[id].refs[e.column]);
    HiddenHasPolicy(db, s, (e.child, id));
    if p in SeenRows(db, s) {
      if e.parent in db.schema.policies { PairSeenTogether(db, s, e, id); }
      path := [];
    } else {
      var n: nat :| Falls(db, gone, p, n);
      path := HiddenFall(db, s, gone, p, n);
    }
  }

  /** A row that survives with its pointer at a fallen row is not acted on over that edge. */
  lemma NotActedOn(db: Database, gone: set<RowId>, child: Table, id: Id, column: Column, parent: Table)
    requires child in db.tables && id in db.tables[child] && (child, id) !in Doomed(db, gone)
    requires column in db.tables[child][id].refs && (parent, db.tables[child][id].refs[column]) in Doomed(db, gone)
    requires column in Survivor(db.schema, Doomed(db, gone), child, db.tables[child][id]).refs
    ensures !Acts(db.schema, child, column, parent)
  {
    if Acts(db.schema, child, column, parent) {
      var e :| e in db.schema.upstream && !e.onDelete.NoAction? && e.child == child && e.column == column && e.parent == parent;
      var p := (parent, db.tables[child][id].refs[column]);
      if e.onDelete.Cascade? {
        assert PullsDown(db, p, (child, id));
        assert (child, id) in AllRows(db);
        DoomedIsClosed(db, gone, p, (child, id));
      }
    }
  }

  /** What the edge of a hidden row demands has not fallen either. */
  lemma HiddenEdgeStays(db: Database, s: Session, gone: set<RowId>, fk: TenantFK, id: Id)
    requires ModeOf(s).BoundTo? && Sealed(db.schema) && Consistent(db) && gone <= SeenRows(db, s) && fk in db.schema.fks
    requires id in HiddenRows(Without(db, Doomed(db, gone)), s, fk.child)
    ensures var next := Without(db, Doomed(db, gone)); MatchSimple(fk, next.RowsOf(fk.child)[id], next.RowsOf(fk.parent))
  {
    var doomed := Doomed(db, gone);
    var next := Without(db, doomed);
    var row := next.RowsOf(fk.child)[id];
    HiddenSurvivor(db, s, doomed, fk.child, id);
    assert ForeignKeyHolds(fk, db.RowsOf(fk.child), db.RowsOf(fk.parent));
    assert MatchSimple(fk, db.RowsOf(fk.child)[id], db.RowsOf(fk.parent));
    if row.tenant.Some? && fk.column in row.refs {
      var p := row.refs[fk.column];
      if (fk.parent, p) in doomed {
        StrictShowsOwn(db.schema, s, fk.child, db.RowsOf(fk.child)[id]);
        StrictShowsOwn(db.schema, s, fk.parent, db.RowsOf(fk.parent)[p]);
        assert (fk.parent, p) !in SeenRows(db, s);
        var n: nat :| Falls(db, gone, (fk.parent, p), n);
        var path := HiddenFall(db, s, gone, (fk.parent, p), n);
        NotActedOn(db, gone, fk.child, id, fk.column, fk.parent);
      }
    }
  }

  lemma SealedIsHarmless(db: Database, s: Session, gone: set<RowId>)
    requires ModeOf(s).BoundTo? && Sealed(db.schema) && Consistent(db) && gone <= SeenRows(db, s)
    ensures Harmless(db, s, gone)
  {
    var next := Without(db, Doomed(db, gone));
    forall fk | fk in next.schema.fks ensures HiddenEdgeHolds(next, s, fk) {
      forall id | id in HiddenRows(next, s, fk.child) ensures MatchSimple(fk, next.RowsOf(fk.child)[id], next.RowsOf(fk.parent)) {
        HiddenEdgeStays(db, s, gone, fk, id);
      }
    }
    forall e | e in next.schema.upstream ensures HiddenKeyHolds(next, s, e) {
      forall id | id in HiddenRows(next, s, e.child) && e.column in next.RowsOf(e.child)[id].refs
        ensures next.RowsOf(e.child)[id].refs[e.column] in next.RowsOf(e.parent)
      {
        HiddenPointerStays(db, s, gone, e, id);
      }
    }
  }

  // ---------- a schema whose keys are all matched ----------

  lemma MatchedHasPolicies(schema: Schema, e: UpstreamFK)
    requires EdgesEnforced(schema) && CoveredEdge(schema, e)
    ensures e.child in schema.policies && e.parent in schema.policies
  {
  }

  /** No chain of cascades leads over matched keys from a table without a policy into one with a policy. */
  lemma {:induction false} ChainIsEmpty(schema: Schema, path: seq<UpstreamFK>, t: Table)
    requires EdgesEnforced(schema) && Covered(schema) && Reaches(schema, path, t)
    ensures path == []
    decreases |path|
  {
    if path != [] {
      var e := path[|path| - 1];
      ChainIsEmpty(schema, path[..|path| - 1], e.parent);
      MatchedHasPolicies(schema, e);
    }
  }

  lemma NotReached(schema: Schema, path: seq<UpstreamFK>, t: Table)
    requires EdgesEnforced(schema) && Covered(schema) && t in schema.policies
    ensures !Reaches(schema, path, t)
  {
    if Reaches(schema, path, t) { ChainIsEmpty(schema, path, t); }
  }

  lemma CoveredIsSealed(schema: Schema)
    requires EdgesEnforced(schema) && Covered(schema)
    ensures Sealed(schema) && ActionsCovered(schema)
  {
    forall e, path | e in schema.upstream && e.child in schema.policies ensures !Reaches(schema, path, e.parent) {
      MatchedHasPolicies(schema, e);
      NotReached(schema, path, e.parent);
    }
    forall fk, path | fk in schema.fks ensures !Reaches(schema, path, fk.parent) {
      NotReached(schema, path, fk.parent);
    }
  }

  // ---------- one statement, two databases ----------

  /** The entries that the statement writes. */
  function Entries(st: Statement, view: View): seq<Entry>
    requires st.Insert? || st.Update?
  {
    match st
    case Insert(_, rows) => rows(view)
    case Update(t, change) => Reached(change(view), Shown(view, t))
  }

  /** Nothing but a unique key that a hidden row holds stands in the way of the INSERT or UPDATE. */
  ghost predicate Collides(db: Database, s: Session, st: Statement) {
    (st.Insert? || st.Update?) && st.table in db.tables && Hindered(db, s, st.table, Entries(st, ViewOf(db, s)), st.Insert?)
  }

  function DeletedRows(st: Statement, view: View): set<RowId>
    requires st.Delete?
  {
    RowIds(st.table, st.ids(view) * Shown(view, st.table).Keys)
  }

  ghost predicate HarmlessStatement(db: Database, s: Session, st: Statement) {
    st.Delete? && st.table in db.tables ==> Harmless(db, s, DeletedRows(st, ViewOf(db, s)))
  }

  lemma EntriesWithin(db: Database, s: Session, st: Statement)
    requires (st.Insert? || st.Update?) && st.table in db.tables
    ensures Within(VisibleRows(db, s, st.table), Entries(st, ViewOf(db, s)), st.Insert?)
    ensures Exec(db, s, st) == Write(db, s, st.table, Entries(st, ViewOf(db, s)), st.Insert?)
  {
    assert ViewOf(db, s)[st.table] == VisibleRows(db, s, st.table);
  }

  lemma DeletedAreSeen(db: Database, s: Session, st: Statement)
    requires st.Delete? && st.table in db.tables
    ensures DeletedRows(st, ViewOf(db, s)) <= SeenRows(db, s)
    ensures Exec(db, s, st) == Remove(db, st.table, st.ids(ViewOf(db, s)) * ViewOf(db, s)[st.table].Keys)
  {
    forall r | r in DeletedRows(st, ViewOf(db, s)) ensures r in SeenRows(db, s) {
      InSeen(db, s, r.0, r.1);
    }
  }

  lemma CollisionFails(db: Database, s: Session, st: Statement)
    requires Collides(db, s, st)
    ensures Exec(db, s, st) == Failed(UniqueViolation)
  {
    EntriesWithin(db, s, st);
  }

  /** A collision shows: in a database that looks the same the statement does not fail, or fails for another reason. */
  lemma CollisionShows(a: Database, b: Database, s: Session, st: Statement)
    requires ModeOf(s).BoundTo? && LookSame(a, b, s) && Collides(a, s, st) && !Collides(b, s, st)
    ensures Exec(a, s, st) == Failed(UniqueViolation) && Exec(b, s, st) != Failed(UniqueViolation)
  {
    assert VisibleRows(a, s, st.table) == ViewOf(a, s)[st.table] == VisibleRows(b, s, st.table);
    EntriesWithin(a, s, st);
    EntriesWithin(b, s, st);
  }

  lemma ExecSame(a: Database, b: Database, s: Session, st: Statement)
    requires ModeOf(s).BoundTo? && LookSame(a, b, s) && Apart(a.schema) && Consistent(a) && Consistent(b)
    requires !Collides(a, s, st) && !Collides(b, s, st) && HarmlessStatement(a, s, st) && HarmlessStatement(b, s, st)
    ensures SameOutcome(Exec(a, s, st), Exec(b, s, st), s)
  {
    if !st.Select? && st.table in a.tables {
      if st.Delete? {
        DeletedAreSeen(a, s, st);
        DeletedAreSeen(b, s, st);
        RemoveSame(a, b, s, st.table, st.ids(ViewOf(a, s)) * ViewOf(a, s)[st.table].Keys);
      } else {
        EntriesWithin(a, s, st);
        EntriesWithin(b, s, st);
        WriteSame(a, b, s, st.table, Entries(st, ViewOf(a, s)), st.Insert?);
      }
    }
  }

  lemma SealedStatement(db: Database, s: Session, st: Statement)
    requires ModeOf(s).BoundTo? && Sealed(db.schema) && Consistent(db)
    ensures HarmlessStatement(db, s, st)
  {
    if st.Delete? && st.table in db.tables {
      DeletedAreSeen(db, s, st);
      SealedIsHarmless(db, s, DeletedRows(st, ViewOf(db, s)));
    }
  }

  // ---------- transactions ----------

  /** The number of answers after which the transaction first collides, if it does. */
  ghost function FirstCollision(db: Database, s: Session, program: Program, answers: seq<int>, steps: nat): Option<nat>
    decreases steps
  {
    if steps == 0 || program(answers).None? then None
    else if Collides(db, s, program(answers).value) then Some(|answers|)
    else
      match Exec(db, s, program(answers).value)
      case Failed(_) => None
      case Done(next, answer) => FirstCollision(next, s, program, answers + [answer], steps - 1)
  }

  /** The two transactions answer the same, end the same, and leave databases that look the same. */
  ghost predicate SameResult(a: Database, b: Database, s: Session, program: Program, answers: seq<int>, steps: nat) {
    var x, y := RunTx(a, s, program, answers, steps), RunTx(b, s, program, answers, steps);
    && (x.Committed? <==> y.Committed?) && x.answers == y.answers
    && (x.RolledBack? ==> x.error == y.error)
    && LookSame(After(a, x), After(b, y), s)
  }

  lemma {:induction false} AnswersGrow(db: Database, s: Session, program: Program, answers: seq<int>, steps: nat)
    ensures |RunTx(db, s, program, answers, steps).answers| >= |answers|
    ensures var c := FirstCollision(db, s, program, answers, steps); c.Some? ==> c.value >= |answers|
    decreases steps
  {
    if steps > 0 && program(answers).Some? {
      var r := Exec(db, s, program(answers).value);
      if r.Done? { AnswersGrow(r.db, s, program, answers + [r.answer], steps - 1); }
    }
  }

  /** One database collides where the other does not: the answers or the errors differ. */
  lemma OneCollides(a: Database, b: Database, s: Session, program: Program, answers: seq<int>, steps: nat)
    requires ModeOf(s).BoundTo? && LookSame(a, b, s) && steps > 0 && program(answers).Some?
    requires Collides(a, s, program(answers).value) && !Collides(b, s, program(answers).value)
    ensures var x, y := RunTx(a, s, program, answers, steps), RunTx(b, s, program, answers, steps);
            x.RolledBack? && (x.answers != y.answers || y.Committed? || x.error != y.error)
    ensures FirstCollision(a, s, program, answers, steps) != FirstCollision(b, s, program, answers, steps)
  {
    CollisionShows(a, b, s, program(answers).value);
    var r := Exec(b, s, program(answers).value);
    if r.Done? { AnswersGrow(r.db, s, program, answers + [r.answer], steps - 1); }
  }

  /**
   Non-interference, exactly. For every tenant, every pair of databases that look the same to it, every program and
   every length of run, where no key of upstream's asks or refuses anything because of a hidden row: the transaction
   gives the same answers and the same end in both and leaves them looking the same, if and only if it first meets a
   unique key held by a hidden row at the same point in both. Nothing else that is hidden can influence what it observes.
   */
  lemma {:induction false} SameResultIff(a: Database, b: Database, s: Session, program: Program, answers: seq<int>, steps: nat)
    requires ModeOf(s).BoundTo? && LookSame(a, b, s) && Sealed(a.schema) && Consistent(a) && Consistent(b)
    ensures SameResult(a, b, s, program, answers, steps)
            <==> FirstCollision(a, s, program, answers, steps) == FirstCollision(b, s, program, answers, steps)
    decreases steps
  {
    if steps > 0 && program(answers).Some? {
      var st := program(answers).value;
      if Collides(a, s, st) && Collides(b, s, st) {
        CollisionFails(a, s, st);
        CollisionFails(b, s, st);
      } else if Collides(a, s, st) {
        OneCollides(a, b, s, program, answers, steps);
      } else if Collides(b, s, st) {
        OneCollides(b, a, s, program, answers, steps);
      } else {
        SealedStatement(a, s, st);
        SealedStatement(b, s, st);
        ExecSame(a, b, s, st);
        var x, y := Exec(a, s, st), Exec(b, s, st);
        if x.Done? {
          ExecConsistent(a, s, st);
          ExecConsistent(b, s, st);
          SameResultIff(x.db, y.db, s, program, answers + [x.answer], steps - 1);
          SameResultNext(a, b, s, program, answers, steps);
        }
      }
    }
  }

  /** A rolled-back transaction leaves the databases it started from. */
  lemma SameResultNext(a: Database, b: Database, s: Session, program: Program, answers: seq<int>, steps: nat)
    requires LookSame(a, b, s) && steps > 0 && program(answers).Some?
    requires var x, y := Exec(a, s, program(answers).value), Exec(b, s, program(answers).value);
             x.Done? && y.Done? && x.answer == y.answer && LookSame(x.db, y.db, s)
    ensures var x, y := Exec(a, s, program(answers).value), Exec(b, s, program(answers).value);
            SameResult(a, b, s, program, answers, steps)
            <==> SameResult(x.db, y.db, s, program, answers + [x.answer], steps - 1)
  {
  }

  /** Unique values that no hidden row holds, which fresh random ids never are, keep everything hidden out of every answer. */
  lemma {:induction false} NonInterference(a: Database, b: Database, s: Session, program: Program, steps: nat)
    requires ModeOf(s).BoundTo? && LookSame(a, b, s) && Sealed(a.schema) && Consistent(a) && Consistent(b)
    requires FirstCollision(a, s, program, [], steps) == None && FirstCollision(b, s, program, [], steps) == None
    ensures SameResult(a, b, s, program, [], steps)
  {
    SameResultIff(a, b, s, program, [], steps);
  }

  // ---------- integrity ----------

  /**
   What a bound transaction may do to a table with a policy, of whatever kind: a row it does not see stays as it is,
   and every row that is new or different afterwards belongs to its tenant. No row without a tenant appears.
   */
  ghost predicate OwnChangesOnly(a: Database, b: Database, s: Session)
    requires ModeOf(s).BoundTo?
  {
    a.schema == b.schema && a.tables.Keys == b.tables.Keys
    && forall t, id :: t in a.tables && t in a.schema.policies ==>
         && (id in HiddenRows(a, s, t) ==> id in b.tables[t] && b.tables[t][id] == a.tables[t][id])
         && (id in b.tables[t] ==> (id in a.tables[t] && b.tables[t][id] == a.tables[t][id])
                                   || b.tables[t][id].tenant == Some(ModeOf(s).tenant))
  }

  lemma {:induction false} PutOwned(schema: Schema, s: Session, t: Table, rows: Rows, list: seq<Entry>, isNew: bool, id: Id)
    requires ModeOf(s).BoundTo? && t in schema.policies && PutAll(schema, s, t, rows, list, isNew).Stored?
    requires id in PutAll(schema, s, t, rows, list, isNew).rows
    ensures var next := PutAll(schema, s, t, rows, list, isNew).rows;
            (id in rows && next[id] == rows[id]) || next[id].tenant == Some(ModeOf(s).tenant)
    decreases |list|
  {
    if list != [] {
      WritableIsOwned(schema, s, t, list[0].row);
      PutOwned(schema, s, t, rows[list[0].id := list[0].row], list[1..], isNew, id);
    }
  }

  lemma OwnRowsOnly(db: Database, s: Session, t: Table, rows: Rows)
    requires ModeOf(s).BoundTo? && t in db.tables
    requires forall id :: id in HiddenRows(db, s, t) ==> id in rows && rows[id] == db.tables[t][id]
    requires t in db.schema.policies ==>
               forall id :: id in rows ==> (id in db.tables[t] && rows[id] == db.tables[t][id]) || rows[id].tenant == Some(ModeOf(s).tenant)
    ensures OwnChangesOnly(db, NextOf(db, t, rows), s)
  {
    assert forall u, id :: u in db.tables && id in HiddenRows(db, s, u) ==> id in db.tables[u];
  }

  lemma WriteIntegrity(db: Database, s: Session, t: Table, list: seq<Entry>, isNew: bool)
    requires ModeOf(s).BoundTo? && t in db.tables && Write(db, s, t, list, isNew).Done?
    requires Within(VisibleRows(db, s, t), list, isNew)
    ensures OwnChangesOnly(db, Write(db, s, t, list, isNew).db, s)
  {
    PutFromView(db, s, t, list, isNew);
    var rows := PutAll(db.schema, s, t, db.tables[t], list, isNew).rows;
    if t in db.schema.policies {
      forall id | id in rows ensures (id in db.tables[t] && rows[id] == db.tables[t][id]) || rows[id].tenant == Some(ModeOf(s).tenant) {
        PutOwned(db.schema, s, t, db.tables[t], list, isNew, id);
      }
    }
    OwnRowsOnly(db, s, t, rows);
  }

  /** No row that falls can be pointed at by an unmatched key that acts on a table with a policy. */
  ghost predicate Confined(schema: Schema, doomed: set<RowId>) {
    forall e, r :: e in schema.upstream && !e.onDelete.NoAction? && e.child in schema.policies && !CoveredEdge(schema, e) && r in doomed ==>
      r.0 != e.parent
  }

  /** Then a cascade never leaves what the session sees. */
  lemma CascadeSeen(db: Database, s: Session, p: RowId, r: RowId, doomed: set<RowId>)
    requires ModeOf(s).BoundTo? && EdgesEnforced(db.schema) && Consistent(db) && Confined(db.schema, doomed)
    requires p in SeenRows(db, s) && p in doomed && PullsDown(db, p, r)
    ensures r in SeenRows(db, s)
  {
    var e :| e in db.schema.upstream && e.onDelete.Cascade? && e.parent == p.0 && e.child == r.0
             && e.column in db.RowsOf(r.0)[r.1].refs && db.RowsOf(r.0)[r.1].refs[e.column] == p.1;
    if e.child in db.schema.policies {
      PairSeenTogether(db, s, e, r.1);
    } else {
      InSeen(db, s, r.0, r.1);
    }
  }

  lemma {:induction false} FallsSeen(db: Database, s: Session, gone: set<RowId>, r: RowId, n: nat)
    requires ModeOf(s).BoundTo? && EdgesEnforced(db.schema) && Consistent(db) && Confined(db.schema, Doomed(db, gone))
    requires gone <= SeenRows(db, s) && Falls(db, gone, r, n)
    ensures r in SeenRows(db, s) && r in Doomed(db, gone)
    decreases n
  {
    SeenSame(db, db, s);
    if n > 0 {
      if Falls(db, gone, r, n - 1) {
        FallsSeen(db, s, gone, r, n - 1);
      } else {
        var p :| Falls(db, gone, p, n - 1) && PullsDown(db, p, r);
        FallsSeen(db, s, gone, p, n - 1);
        CascadeSeen(db, s, p, r, Doomed(db, gone));
      }
    }
  }

  lemma DoomedSeen(db: Database, s: Session, gone: set<RowId>)
    requires ModeOf(s).BoundTo? && EdgesEnforced(db.schema) && Consistent(db) && Confined(db.schema, Doomed(db, gone))
    requires gone <= SeenRows(db, s)
    ensures Doomed(db, gone) <= SeenRows(db, s)
  {
    forall r | r in Doomed(db, gone) ensures r in SeenRows(db, s) {
      var n: nat :| Falls(db, gone, r, n);
      FallsSeen(db, s, gone, r, n);
    }
  }

  lemma NothingCleared(schema: Schema, doomed: set<RowId>, t: Table, row: Row)
    requires forall c :: c in row.refs ==> !Cleared(schema, doomed, t, c, row.refs[c])
    ensures Survivor(schema, doomed, t, row) == row
  {
    assert Survivor(schema, doomed, t, row).refs == row.refs;
  }

  /** A pointer that is cleared in a table with a policy is one of a row that the session sees, which owns it. */
  lemma ClearedIsOwned(db: Database, s: Session, doomed: set<RowId>, t: Table, id: Id, c: Column)
    requires ModeOf(s).BoundTo? && EdgesEnforced(db.schema) && Consistent(db) && Confined(db.schema, doomed) && doomed <= SeenRows(db, s)
    requires t in db.tables && t in db.schema.policies && id in db.tables[t] && c in db.tables[t][id].refs
    requires Cleared(db.schema, doomed, t, c, db.tables[t][id].refs[c])
    ensures (t, id) in SeenRows(db, s) && db.tables[t][id].tenant == Some(ModeOf(s).tenant)
  {
    var e :| e in db.schema.upstream && e.onDelete.SetNull? && e.child == t && e.column == c
             && (e.parent, db.tables[t][id].refs[c]) in doomed;
    PairSeenTogether(db, s, e, id);
    StrictShowsOwn(db.schema, s, t, db.tables[t][id]);
  }

  /** A hidden row survives a delete of seen rows with all its pointers. */
  lemma HiddenSurvives(db: Database, s: Session, doomed: set<RowId>, t: Table, id: Id)
    requires ModeOf(s).BoundTo? && EdgesEnforced(db.schema) && Consistent(db) && Confined(db.schema, doomed) && doomed <= SeenRows(db, s)
    requires t in db.tables && id in HiddenRows(db, s, t)
    ensures (t, id) !in doomed && Survivor(db.schema, doomed, t, db.tables[t][id]) == db.tables[t][id]
  {
    var row := db.tables[t][id];
    forall c | c in row.refs ensures !Cleared(db.schema, doomed, t, c, row.refs[c]) {
      if Cleared(db.schema, doomed, t, c, row.refs[c]) { ClearedIsOwned(db, s, doomed, t, id, c); }
    }
    NothingCleared(db.schema, doomed, t, row);
  }

  lemma HiddenStay(db: Database, s: Session, doomed: set<RowId>, t: Table)
    requires ModeOf(s).BoundTo? && EdgesEnforced(db.schema) && Consistent(db) && Confined(db.schema, doomed) && doomed <= SeenRows(db, s)
    requires t in db.tables
    ensures HiddenRows(Without(db, doomed), s, t) == HiddenRows(db, s, t)
  {
    var next := Without(db, doomed);
    assert next.RowsOf(t) == Survivors(db.schema, doomed, t, db.tables[t]) && db.RowsOf(t) == db.tables[t];
    forall id | id in HiddenRows(db, s, t) ensures id in HiddenRows(next, s, t) && HiddenRows(next, s, t)[id] == db.tables[t][id] {
      HiddenSurvives(db, s, doomed, t, id);
    }
    forall id | id in HiddenRows(next, s, t) ensures id in HiddenRows(db, s, t) {
      HiddenSurvivor(db, s, doomed, t, id);
    }
  }

  lemma ChangedIsOwned(db: Database, s: Session, doomed: set<RowId>, t: Table, id: Id)
    requires ModeOf(s).BoundTo? && EdgesEnforced(db.schema) && Consistent(db) && Confined(db.schema, doomed) && doomed <= SeenRows(db, s)
    requires t in db.tables && t in db.schema.policies && id in db.tables[t]
    ensures Survivor(db.schema, doomed, t, db.tables[t][id]) == db.tables[t][id] || db.tables[t][id].tenant == Some(ModeOf(s).tenant)
  {
    var row := db.tables[t][id];
    if forall c :: c in row.refs ==> !Cleared(db.schema, doomed, t, c, row.refs[c]) {
      NothingCleared(db.schema, doomed, t, row);
    } else {
      var c :| c in row.refs && Cleared(db.schema, doomed, t, c, row.refs[c]);
      ClearedIsOwned(db, s, doomed, t, id, c);
    }
  }

  lemma RemoveIntegrity(db: Database, s: Session, t: Table, gone: set<Id>)
    requires ModeOf(s).BoundTo? && EdgesEnforced(db.schema) && Consistent(db) && Confined(db.schema, Doomed(db, RowIds(t, gone)))
    requires RowIds(t, gone) <= SeenRows(db, s) && Remove(db, t, gone).Done?
    ensures OwnChangesOnly(db, Remove(db, t, gone).db, s)
  {
    var doomed := Doomed(db, RowIds(t, gone));
    DoomedSeen(db, s, RowIds(t, gone));
    var next := Without(db, doomed);
    forall u, id | u in db.tables && id in HiddenRows(db, s, u) ensures id in next.tables[u] && next.tables[u][id] == db.tables[u][id] {
      HiddenSurvives(db, s, doomed, u, id);
    }
    forall u, id | u in db.tables && u in db.schema.policies && id in next.tables[u]
      ensures next.tables[u][id] == db.tables[u][id] || next.tables[u][id].tenant == Some(ModeOf(s).tenant)
    {
      ChangedIsOwned(db, s, doomed, u, id);
    }
  }

  ghost predicate ConfinedStatement(db: Database, s: Session, st: Statement) {
    st.Delete? && st.table in db.tables ==> Confined(db.schema, Doomed(db, DeletedRows(st, ViewOf(db, s))))
  }

  lemma ExecIntegrity(db: Database, s: Session, st: Statement)
    requires ModeOf(s).BoundTo? && EdgesEnforced(db.schema) && Consistent(db) && Exec(db, s, st).Done? && ConfinedStatement(db, s, st)
    ensures OwnChangesOnly(db, Exec(db, s, st).db, s)
  {
    if st.Delete? {
      DeletedAreSeen(db, s, st);
      RemoveIntegrity(db, s, st.table, st.ids(ViewOf(db, s)) * ViewOf(db, s)[st.table].Keys);
    } else if !st.Select? {
      EntriesWithin(db, s, st);
      WriteIntegrity(db, s, st.table, Entries(st, ViewOf(db, s)), st.Insert?);
    }
  }

  lemma OwnChangesCompose(a: Database, b: Database, c: Database, s: Session)
    requires ModeOf(s).BoundTo? && OwnChangesOnly(a, b, s) && OwnChangesOnly(b, c, s)
    ensures OwnChangesOnly(a, c, s)
  {
  }

  /** Integrity of every transaction of a bound session, deletes and their cascades included. */
  lemma {:induction false} TxIntegrity(db: Database, s: Session, program: Program, answers: seq<int>, steps: nat)
    requires ModeOf(s).BoundTo? && Contained(db.schema) && Consistent(db)
    ensures OwnChangesOnly(db, After(db, RunTx(db, s, program, answers, steps)), s)
    decreases steps
  {
    if steps > 0 && program(answers).Some? {
      var r := Exec(db, s, program(answers).value);
      if r.Done? {
        ExecIntegrity(db, s, program(answers).value);
        ExecConsistent(db, s, program(answers).value);
        TxIntegrity(r.db, s, program, answers + [r.answer], steps - 1);
        var end := RunTx(r.db, s, program, answers + [r.answer], steps - 1);
        if end.Committed? { OwnChangesCompose(db, r.db, end.db, s); }
      }
    }
  }
}

