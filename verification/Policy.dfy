/**
 The row-level-security policies as SQL expressions under SQL's three-valued logic, and what they mean: a
 two-valued statement of who sees and who may write a row. A session is the pair of nullable settings that
 the policies read.
 */
module Policy {
  import opened Common

  const SETTING_NAME := "app.tenant_id"

  const PLATFORM_MODE_SETTING_NAME := "app.platform_mode"

  const PLATFORM_MODE_ON := "on"

  datatype Session = Session(tenant: Option<string>, platform: Option<string>)

  // ---------- SQL expressions ----------

  datatype Truth = True | False | Unknown

  /** Text-valued expressions over one row whose only mentioned column is tenant_id. */
  datatype Text =
    | TenantColumn
    | Literal(value: string)
    | CurrentSetting(name: string)
    | Coalesce(first: Text, otherwise: Text)

  datatype Cond =
    | Eq(a: Text, b: Text)
    | NotEq(a: Text, b: Text)
    | IsNull(a: Text)
    | And(p: Cond, q: Cond)
    | Or(p: Cond, q: Cond)
    | Case(when: Cond, thn: Cond, els: Cond)

  /** current_setting(name, true): NULL for a setting that was never given a value. */
  function SettingOf(s: Session, name: string): Option<string> {
    if name == SETTING_NAME then s.tenant
    else if name == PLATFORM_MODE_SETTING_NAME then s.platform
    else None
  }

  function EvalText(e: Text, s: Session, tenant: Option<string>): Option<string> {
    match e
    case TenantColumn => tenant
    case Literal(v) => Some(v)
    case CurrentSetting(name) => SettingOf(s, name)
    case Coalesce(first, otherwise) =>
      var v := EvalText(first, s, tenant);
      if v.Some? then v else EvalText(otherwise, s, tenant)
  }

  function TruthOf(b: bool): Truth {
    if b then True else False
  }

  function Eval(e: Cond, s: Session, tenant: Option<string>): Truth {
    match e
    case Eq(a, b) =>
      var x, y := EvalText(a, s, tenant), EvalText(b, s, tenant);
      if x.None? || y.None? then Unknown else TruthOf(x == y)
    case NotEq(a, b) =>
      var x, y := EvalText(a, s, tenant), EvalText(b, s, tenant);
      if x.None? || y.None? then Unknown else TruthOf(x != y)
    case IsNull(a) => TruthOf(EvalText(a, s, tenant).None?)
    case And(p, q) =>
      var x, y := Eval(p, s, tenant), Eval(q, s, tenant);
      if x.False? || y.False? then False else if x.True? && y.True? then True else Unknown
    case Or(p, q) =>
      var x, y := Eval(p, s, tenant), Eval(q, s, tenant);
      if x.True? || y.True? then True else if x.False? && y.False? then False else Unknown
    case Case(when, thn, els) =>
      if Eval(when, s, tenant).True? then Eval(thn, s, tenant) else Eval(els, s, tenant)
  }

  // ---------- the generated policies ----------

  datatype PolicyKind = PolicyStrict | PolicyPool | PolicyExclusive

  const CURRENT: Text := Coalesce(CurrentSetting(SETTING_NAME), Literal(""))

  const BOUND: Cond := And(NotEq(CURRENT, Literal("")), Eq(TenantColumn, CURRENT))

  const UNBOUND: Cond := Eq(CURRENT, Literal(""))

  const PLATFORM: Cond :=
    And(UNBOUND, Eq(Coalesce(CurrentSetting(PLATFORM_MODE_SETTING_NAME), Literal("")), Literal(PLATFORM_MODE_ON)))

  /** The USING and the WITH CHECK predicate. */
  function PolicyClauses(kind: PolicyKind): (Cond, Cond) {
    match kind
    case PolicyStrict => (Or(PLATFORM, BOUND), Or(PLATFORM, BOUND))
    case PolicyPool => (Or(Or(PLATFORM, IsNull(TenantColumn)), BOUND), Or(PLATFORM, BOUND))
    case PolicyExclusive =>
      var expr := Or(PLATFORM, Case(UNBOUND, IsNull(TenantColumn), BOUND));
      (expr, expr)
  }

  /** A row passes a policy when the predicate is true; NULL hides the row as false does. */
  predicate UsingAllows(kind: PolicyKind, s: Session, tenant: Option<string>) {
    Eval(PolicyClauses(kind).0, s, tenant).True?
  }

  predicate CheckAllows(kind: PolicyKind, s: Session, tenant: Option<string>) {
    Eval(PolicyClauses(kind).1, s, tenant).True?
  }

  // ---------- what the policies mean ----------

  datatype Mode = BoundTo(tenant: string) | Platform | Unbound

  /** NULL, empty and stale settings have one reading each; a bound tenant overrides the platform flag. */
  function ModeOf(s: Session): Mode {
    if s.tenant.Some? && s.tenant.value != "" then BoundTo(s.tenant.value)
    else if s.platform == Some(PLATFORM_MODE_ON) then Platform
    else Unbound
  }

  predicate Sees(kind: PolicyKind, mode: Mode, tenant: Option<string>) {
    match mode
    case Platform => true
    case BoundTo(t) => tenant == Some(t) || (kind.PolicyPool? && tenant.None?)
    case Unbound => !kind.PolicyStrict? && tenant.None?
  }

  predicate MayWrite(kind: PolicyKind, mode: Mode, tenant: Option<string>) {
    match mode
    case Platform => true
    case BoundTo(t) => tenant == Some(t)
    case Unbound => kind.PolicyExclusive? && tenant.None?
  }

  lemma CurrentMeaning(s: Session, tenant: Option<string>)
    ensures EvalText(CURRENT, s, tenant) == Some(if ModeOf(s).BoundTo? then ModeOf(s).tenant else "")
  {
  }

  lemma BoundMeaning(s: Session, tenant: Option<string>)
    ensures Eval(BOUND, s, tenant).True? <==> ModeOf(s).BoundTo? && tenant == Some(ModeOf(s).tenant)
    ensures Eval(UNBOUND, s, tenant) == TruthOf(!ModeOf(s).BoundTo?)
  {
    CurrentMeaning(s, tenant);
    assert EvalText(TenantColumn, s, tenant) == tenant;
    assert EvalText(Literal(""), s, tenant) == Some("");
  }

  lemma PlatformMeaning(s: Session, tenant: Option<string>)
    ensures Eval(PLATFORM, s, tenant).True? <==> ModeOf(s).Platform?
  {
    BoundMeaning(s, tenant);
    var mode := Coalesce(CurrentSetting(PLATFORM_MODE_SETTING_NAME), Literal(""));
    assert PLATFORM_MODE_SETTING_NAME[4] != SETTING_NAME[4];
    assert EvalText(mode, s, tenant) == Some(if s.platform.Some? then s.platform.value else "");
    assert Eval(Eq(mode, Literal(PLATFORM_MODE_ON)), s, tenant) == TruthOf(s.platform == Some(PLATFORM_MODE_ON));
  }

  /** Three-valued evaluation of the generated SQL is the two-valued statement, for every session and row. */
  lemma PolicyMeaning(kind: PolicyKind, s: Session, tenant: Option<string>)
    ensures UsingAllows(kind, s, tenant) <==> Sees(kind, ModeOf(s), tenant)
    ensures CheckAllows(kind, s, tenant) <==> MayWrite(kind, ModeOf(s), tenant)
  {
    BoundMeaning(s, tenant);
    PlatformMeaning(s, tenant);
    var isNull := IsNull(TenantColumn);
    assert EvalText(TenantColumn, s, tenant) == tenant;
    assert Eval(isNull, s, tenant) == TruthOf(tenant.None?);
    match kind {
      case PolicyStrict =>
        assert PolicyClauses(kind) == (Or(PLATFORM, BOUND), Or(PLATFORM, BOUND));
      case PolicyPool =>
        assert PolicyClauses(kind) == (Or(Or(PLATFORM, isNull), BOUND), Or(PLATFORM, BOUND));
        assert Eval(Or(PLATFORM, isNull), s, tenant).True? <==> ModeOf(s).Platform? || tenant.None?;
      case PolicyExclusive =>
        var expr := Case(UNBOUND, isNull, BOUND);
        assert PolicyClauses(kind).0 == Or(PLATFORM, expr) == PolicyClauses(kind).1;
        assert Eval(expr, s, tenant).True? <==>
          if ModeOf(s).BoundTo? then tenant == Some(ModeOf(s).tenant) else tenant.None?;
    }
  }

  /** An idle connection of the pool: neither setting has a value, or only the empty one a transaction leaves. */
  predicate IdleSession(s: Session) {
    (s.tenant.None? || s.tenant.value == "") && (s.platform.None? || s.platform.value == "")
  }

  /**
   Why every predicate compares with '' instead of testing for NULL: the same policy written with IS NULL
   answers differently on two idle connections, so what it shows depends on the pool.
   */
  lemma IsNullWouldDependOnTheConnection()
    ensures var naive := Case(IsNull(CurrentSetting(SETTING_NAME)), IsNull(TenantColumn), BOUND);
            exists unused, used :: IdleSession(unused) && IdleSession(used) && Eval(naive, unused, None) != Eval(naive, used, None)
    ensures forall unused, used, kind, tenant :: IdleSession(unused) && IdleSession(used) ==>
              (UsingAllows(kind, unused, tenant) <==> UsingAllows(kind, used, tenant))
  {
    var naive := Case(IsNull(CurrentSetting(SETTING_NAME)), IsNull(TenantColumn), BOUND);
    var unused, used := Session(None, None), Session(Some(""), Some(""));
    assert Eval(naive, unused, None) == True;
    assert Eval(IsNull(CurrentSetting(SETTING_NAME)), used, None) == False;
    assert Eval(NotEq(CURRENT, Literal("")), used, None) == False;
    assert Eval(naive, used, None) == False;
    forall a, b, kind, tenant | IdleSession(a) && IdleSession(b)
      ensures UsingAllows(kind, a, tenant) <==> UsingAllows(kind, b, tenant)
    {
      PolicyMeaning(kind, a, tenant);
      PolicyMeaning(kind, b, tenant);
    }
  }
}
