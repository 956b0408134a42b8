/**
 Transaction-local settings on pooled connections. A connection keeps what earlier transactions left on it; the
 statements here say that nothing of that ever reaches a later transaction.
 */
module Binding {
  import opened Common
  import opened Policy
  import opened Tables
  import opened Statements

  datatype BindError = MissingTenant | TenantNotBound | PlatformModeNotSet | PlatformModeWithTenant

  /** The three entry points; the argument is the tenant resolved on the context, "" if none. */
  datatype Request = InTenant(id: string) | AsPlatform | AcrossTenants(resolved: string)

  datatype Reply = Refused(error: BindError) | Ran(result: TxResult)

  /**
   One use of a connection. `lands` says whether set_config takes effect on it; `residue` whether the setting
   reads '' afterwards, as after a commit on a connection where it had no value, or what it read before.
   */
  datatype Use = Use(conn: int, request: Request, program: Program, steps: nat, lands: bool, residue: bool)

  const NEVER_USED: Session := Session(None, None)

  function ValueOr(v: Option<string>): string {
    if v.Some? then v.value else ""
  }

  // ---------- one transaction on one connection ----------

  /** Begin, set the variable locally, and read it back. */
  function Begin(s: Session, request: Request, lands: bool): Result<Session, BindError> {
    match request
    case InTenant(id) =>
      if id == "" then Err(MissingTenant)
      else
        var bound := if lands then s.(tenant := Some(id)) else s;
        if ValueOr(bound.tenant) == id then Ok(bound) else Err(TenantNotBound)
    case AsPlatform => Ok(s)
    case AcrossTenants(resolved) =>
      if resolved != "" then Err(PlatformModeWithTenant)
      else
        var enabled := if lands then s.(platform := Some(PLATFORM_MODE_ON)) else s;
        if ValueOr(enabled.platform) == PLATFORM_MODE_ON then Ok(enabled) else Err(PlatformModeNotSet)
  }

  function Residue(before: Option<string>, residue: bool): Option<string> {
    if residue then Some("") else before
  }

  /** What the connection holds once the transaction has ended, however it ended. */
  function End(s: Session, request: Request, lands: bool, residue: bool): Session {
    match request
    case InTenant(id) => if id != "" && lands then s.(tenant := Residue(s.tenant, residue)) else s
    case AsPlatform => s
    case AcrossTenants(resolved) =>
      if resolved == "" && lands then s.(platform := Residue(s.platform, residue)) else s
  }

  ghost function RunOn(s: Session, db: Database, use: Use): (Session, Database, Reply) {
    match Begin(s, use.request, use.lands)
    case Err(e) => (End(s, use.request, use.lands, use.residue), db, Refused(e))
    case Ok(inTx) =>
      var r := RunTx(db, inTx, use.program, [], use.steps);
      (End(s, use.request, use.lands, use.residue), After(db, r), Ran(r))
  }

  /** The mode each entry point is meant to give. */
  function Intended(request: Request): Mode {
    match request
    case InTenant(id) => if id == "" then Unbound else BoundTo(id)
    case AsPlatform => Unbound
    case AcrossTenants(_) => Platform
  }

  /** On an idle connection a transaction either runs in the mode it asked for, or does not run. */
  lemma BeginFromIdle(s: Session, request: Request, lands: bool)
    requires IdleSession(s)
    ensures Begin(s, request, lands).Ok? ==> ModeOf(Begin(s, request, lands).value) == Intended(request)
    ensures Begin(s, request, lands).Ok? <==>
      match request
      case InTenant(id) => id != "" && lands
      case AsPlatform => true
      case AcrossTenants(resolved) => resolved == "" && lands
    ensures IdleSession(End(s, request, lands, false)) && IdleSession(End(s, request, lands, true))
    ensures Begin(s, request, lands).Err? ==> Begin(s, request, lands) == Begin(NEVER_USED, request, lands)
  {
  }

  // ---------- a transaction depends on the mode only ----------

  lemma SameModeSameSight(schema: Schema, a: Session, b: Session, t: Table, row: Row)
    requires ModeOf(a) == ModeOf(b)
    ensures Visible(schema, a, t, row) <==> Visible(schema, b, t, row)
    ensures Writable(schema, a, t, row) <==> Writable(schema, b, t, row)
  {
    if t in schema.policies {
      PolicyMeaning(schema.policies[t], a, row.tenant);
      PolicyMeaning(schema.policies[t], b, row.tenant);
    }
  }

  lemma SameModeSameView(db: Database, a: Session, b: Session)
    requires ModeOf(a) == ModeOf(b)
    ensures ViewOf(db, a) == ViewOf(db, b)
  {
    forall t | t in db.tables ensures VisibleRows(db, a, t) == VisibleRows(db, b, t) {
      forall id | id in db.RowsOf(t)
        ensures Visible(db.schema, a, t, db.RowsOf(t)[id]) <==> Visible(db.schema, b, t, db.RowsOf(t)[id])
      {
        SameModeSameSight(db.schema, a, b, t, db.RowsOf(t)[id]);
      }
    }
  }

  lemma {:induction false} SameModeSamePut(
      schema: Schema, a: Session, b: Session, t: Table, rows: Rows, list: seq<Entry>, isNew: bool)
    requires ModeOf(a) == ModeOf(b)
    ensures PutAll(schema, a, t, rows, list, isNew) == PutAll(schema, b, t, rows, list, isNew)
    decreases |list|
  {
    if list != [] {
      SameModeSameSight(schema, a, b, t, list[0].row);
      SameModeSamePut(schema, a, b, t, rows[list[0].id := list[0].row], list[1..], isNew);
    }
  }

  lemma SameModeSameExec(db: Database, a: Session, b: Session, st: Statement)
    requires ModeOf(a) == ModeOf(b)
    ensures Exec(db, a, st) == Exec(db, b, st)
  {
    SameModeSameView(db, a, b);
    var view := ViewOf(db, a);
    if st.Insert? && st.table in db.tables {
      SameModeSamePut(db.schema, a, b, st.table, db.tables[st.table], st.rows(view), true);
    } else if st.Update? && st.table in db.tables {
      SameModeSamePut(db.schema, a, b, st.table, db.tables[st.table], Reached(st.change(view), view[st.table]), false);
    }
  }

  lemma {:induction false} SameModeSameTx(db: Database, a: Session, b: Session, program: Program, answers: seq<int>, steps: nat)
    requires ModeOf(a) == ModeOf(b)
    ensures RunTx(db, a, program, answers, steps) == RunTx(db, b, program, answers, steps)
    decreases steps
  {
    if steps > 0 && program(answers).Some? {
      SameModeSameExec(db, a, b, program(answers).value);
      var r := Exec(db, a, program(answers).value);
      if r.Done? { SameModeSameTx(r.db, a, b, program, answers + [r.answer], steps - 1); }
    }
  }

  // ---------- histories ----------

  type Pool = map<int, Session>

  function SessionOf(pool: Pool, conn: int): Session {
    if conn in pool then pool[conn] else NEVER_USED
  }

  ghost predicate IdlePool(pool: Pool) {
    forall c :: c in pool ==> IdleSession(pool[c])
  }

  /** Transactions one after another, each on the connection that the pool happens to hand out. */
  ghost function RunPooled(pool: Pool, db: Database, uses: seq<Use>): (Pool, Database, seq<Reply>)
    decreases |uses|
  {
    if uses == [] then (pool, db, [])
    else
      var (p, d, replies) := RunPooled(pool, db, uses[..|uses| - 1]);
      var use := uses[|uses| - 1];
      var (s, d', reply) := RunOn(SessionOf(p, use.conn), d, use);
      (p[use.conn := s], d', replies + [reply])
  }

  /** The same transactions, each on a connection of its own that was never used before. */
  ghost function RunFresh(db: Database, uses: seq<Use>): (Database, seq<Reply>)
    decreases |uses|
  {
    if uses == [] then (db, [])
    else
      var (d, replies) := RunFresh(db, uses[..|uses| - 1]);
      var (_, d', reply) := RunOn(NEVER_USED, d, uses[|uses| - 1]);
      (d', replies + [reply])
  }

  lemma RunOnForgets(s: Session, db: Database, use: Use)
    requires IdleSession(s)
    ensures IdleSession(RunOn(s, db, use).0)
    ensures RunOn(s, db, use).1 == RunOn(NEVER_USED, db, use).1 && RunOn(s, db, use).2 == RunOn(NEVER_USED, db, use).2
  {
    BeginFromIdle(s, use.request, use.lands);
    BeginFromIdle(NEVER_USED, use.request, use.lands);
    if Begin(s, use.request, use.lands).Ok? {
      SameModeSameTx(db, Begin(s, use.request, use.lands).value, Begin(NEVER_USED, use.request, use.lands).value,
                     use.program, [], use.steps);
    }
  }

  /**
   No leak. After any history of tenant, platform and cross-tenant transactions, committed, rolled back or refused,
   every idle connection is idle again; and no transaction can tell the connection it was given from a new one:
   every answer and the final database are those of a pool that never reuses a connection.
   */
  lemma {:induction false} PooledIsFresh(pool: Pool, db: Database, uses: seq<Use>)
    requires IdlePool(pool)
    ensures IdlePool(RunPooled(pool, db, uses).0)
    ensures RunPooled(pool, db, uses).1 == RunFresh(db, uses).0
    ensures RunPooled(pool, db, uses).2 == RunFresh(db, uses).1
    decreases |uses|
  {
    if uses != [] {
      var last := |uses| - 1;
      PooledIsFresh(pool, db, uses[..last]);
      var (p, d, replies) := RunPooled(pool, db, uses[..last]);
      RunOnForgets(SessionOf(p, uses[last].conn), d, uses[last]);
    }
  }

  // ---------- the connection as mutable state ----------

  class Connection {
    var tenant: Option<string>
    var platform: Option<string>

    ghost function Settings(): Session
      reads this
    {
      Session(tenant, platform)
    }

    constructor ()
      ensures Settings() == NEVER_USED
    {
      tenant, platform := None, None;
    }

    /** set_config(app.tenant_id, id, true) and the read-back. */
    method Bind(id: string, lands: bool) returns (error: Option<BindError>)
      modifies this
      ensures Settings() == if id != "" && lands then old(Settings()).(tenant := Some(id)) else old(Settings())
      ensures match Begin(old(Settings()), InTenant(id), lands)
              case Ok(s) => error == None && Settings() == s
              case Err(e) => error == Some(e)
    {
      if id == "" { return Some(MissingTenant); }
      if lands { tenant := Some(id); }
      var got := ValueOr(tenant);
      if got != id { return Some(TenantNotBound); }
      return None;
    }

    method EnablePlatformMode(lands: bool) returns (error: Option<BindError>)
      modifies this
      ensures Settings() == if lands then old(Settings()).(platform := Some(PLATFORM_MODE_ON)) else old(Settings())
      ensures match Begin(old(Settings()), AcrossTenants(""), lands)
              case Ok(s) => error == None && Settings() == s
              case Err(e) => error == Some(e)
    {
      if lands { platform := Some(PLATFORM_MODE_ON); }
      if ValueOr(platform) != PLATFORM_MODE_ON { return Some(PlatformModeNotSet); }
      return None;
    }

    /** The end of a transaction that began when the settings were `tenant0` and `platform0`. */
    method EndTransaction(tenant0: Option<string>, platform0: Option<string>, residue: bool)
      modifies this
      ensures tenant == if old(tenant) == tenant0 then tenant0 else Residue(tenant0, residue)
      ensures platform == if old(platform) == platform0 then platform0 else Residue(platform0, residue)
    {
      if tenant != tenant0 { tenant := if residue then Some("") else tenant0; }
      if platform != platform0 { platform := if residue then Some("") else platform0; }
    }

    method RunInTenantTx(id: string, lands: bool, residue: bool, ghost db: Database, ghost program: Program, ghost steps: nat)
      returns (error: Option<BindError>, ghost next: Database, ghost reply: Reply)
      requires IdleSession(Settings())
      modifies this
      ensures (Settings(), next, reply) == RunOn(old(Settings()), db, Use(0, InTenant(id), program, steps, lands, residue))
      ensures IdleSession(Settings()) && (error.Some? <==> reply.Refused?)
      ensures reply.Ran? ==> next == After(db, RunTx(db, Session(Some(id), None), program, [], steps))
    {
      next := db;
      if id == "" { reply := Refused(MissingTenant); return Some(MissingTenant), next, reply; }
      var tenant0, platform0 := tenant, platform;
      error := Bind(id, lands);
      if error.Some? {
        reply := Refused(error.value);
      } else {
        ghost var result := RunTx(db, Settings(), program, [], steps);
        SameModeSameTx(db, Settings(), Session(Some(id), None), program, [], steps);
        next, reply := After(db, result), Ran(result);
      }
      EndTransaction(tenant0, platform0, residue);
    }

    method RunAsPlatform(ghost db: Database, ghost program: Program, ghost steps: nat)
      returns (ghost next: Database, ghost reply: Reply)
      requires IdleSession(Settings())
      ensures (Settings(), next, reply) == RunOn(Settings(), db, Use(0, AsPlatform, program, steps, false, false))
      ensures next == After(db, RunTx(db, NEVER_USED, program, [], steps))
    {
      ghost var result := RunTx(db, Settings(), program, [], steps);
      SameModeSameTx(db, Settings(), NEVER_USED, program, [], steps);
      next, reply := After(db, result), Ran(result);
    }

    method RunAcrossTenants(resolved: string, lands: bool, residue: bool, ghost db: Database, ghost program: Program, ghost steps: nat)
      returns (error: Option<BindError>, ghost next: Database, ghost reply: Reply)
      requires IdleSession(Settings())
      modifies this
      ensures (Settings(), next, reply) == RunOn(old(Settings()), db, Use(0, AcrossTenants(resolved), program, steps, lands, residue))
      ensures IdleSession(Settings()) && (error.Some? <==> reply.Refused?)
      ensures reply.Ran? ==> resolved == "" && next == After(db, RunTx(db, Session(None, Some(PLATFORM_MODE_ON)), program, [], steps))
    {
      next := db;
      if resolved != "" { reply := Refused(PlatformModeWithTenant); return Some(PlatformModeWithTenant), next, reply; }
      var tenant0, platform0 := tenant, platform;
      error := EnablePlatformMode(lands);
      if error.Some? {
        reply := Refused(error.value);
      } else {
        ghost var result := RunTx(db, Settings(), program, [], steps);
        SameModeSameTx(db, Settings(), Session(None, Some(PLATFORM_MODE_ON)), program, [], steps);
        next, reply := After(db, result), Ran(result);
      }
      EndTransaction(tenant0, platform0, residue);
    }
  }
}
