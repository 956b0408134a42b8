/**
 The price catalog: which rows a model id may match, when a model is allowed and priced, and when the filtered model list
 agrees with what admission decides about the same model.
 */
module Catalog {
  import opened Common

  // ---------- candidates ----------

  /** strings.IndexByte(s, '/'). */
  function Slash(s: string): (i: int)
    ensures -1 <= i < |s|
    ensures i >= 0 ==> s[i] == '/'
    ensures forall j :: 0 <= j < (if i < 0 then |s| else i) ==> s[j] != '/'
  {
    if s == "" then -1
    else if s[0] == '/' then 0
    else if Slash(s[1..]) < 0 then -1 else Slash(s[1..]) + 1
  }

  /** The bare model of a qualified id. */
  function BareModelOf(m: string): seq<string> {
    if 0 < Slash(m) < |m| - 1 then [m[Slash(m) + 1..]] else []
  }

  /** The row for all models. */
  function RowForAll(m: string): seq<string> {
    if m != "*" then ["*"] else []
  }

  /** The exact id, then the bare model of a qualified id, then the row for all models. */
  function SkuCandidates(model: string): seq<string> {
    var m := TrimSpace(model);
    [m] + BareModelOf(m) + RowForAll(m)
  }

  /** Some candidate is configured. */
  predicate Matches(configured: seq<string>, model: string) {
    exists i, j :: 0 <= i < |configured| && 0 <= j < |SkuCandidates(model)| && configured[i] == SkuCandidates(model)[j]
  }

  method ModelIdMatches(configured: seq<string>, model: string) returns (matches: bool)
    ensures matches == Matches(configured, model)
  {
    var candidates := SkuCandidates(model);
    for i := 0 to |configured|
      invariant forall k, j :: 0 <= k < i && 0 <= j < |candidates| ==> configured[k] != candidates[j]
    {
      for j := 0 to |candidates|
        invariant forall k :: 0 <= k < j ==> configured[i] != candidates[k]
      {
        if configured[i] == candidates[j] { return true; }
      }
    }
    return false;
  }

  datatype Policy = Policy(planModels: seq<string>, pricedModels: seq<string>)

  /** The plan allows the model and the catalog prices it. */
  predicate Allows(policy: Policy, model: string) {
    Matches(policy.planModels, model) && Matches(policy.pricedModels, model)
  }

  // ---------- admission and the model list ----------

  predicate HasPrefix(s: string, prefix: string) {
    |prefix| <= |s| && s[..|prefix|] == prefix
  }

  /** The provider of a request that Bifrost has not routed yet. */
  const UNRESOLVED := "unresolved"

  /** The id under which a request is admitted and priced. */
  function CanonicalSku(provider: string, model: string): string {
    var p, m := TrimSpace(provider), TrimSpace(model);
    if p == "" || p == UNRESOLVED || HasPrefix(m, p + "/") then m else p + "/" + m
  }

  datatype Model = Model(id: string, ownedBy: Option<string>)

  function ProviderFromQualifiedId(id: string): string {
    if Slash(id) > 0 then id[..Slash(id)] else ""
  }

  /** The provider a model is attributed to: by its own id, else by its owner, else by the hint. */
  function Attributed(model: Model, hint: string): string {
    var id := TrimSpace(model.id);
    if ProviderFromQualifiedId(id) != "" then ProviderFromQualifiedId(id)
    else if model.ownedBy.Some? && TrimSpace(model.ownedBy.value) != "" then TrimSpace(model.ownedBy.value)
    else hint
  }

  /** The ids the list tries, in order. */
  function Candidates(model: Model, hint: string): seq<string> {
    var id, p := TrimSpace(model.id), Attributed(model, hint);
    (if ProviderFromQualifiedId(id) == "" && p != "" then [p + "/" + id] else []) + [id]
  }

  predicate AllowsOne(policy: Policy, candidates: seq<string>) {
    exists c :: c in candidates && Allows(policy, c)
  }

  predicate Listed(policy: Policy, model: Model, hint: string) {
    TrimSpace(model.id) != "" && AllowsOne(policy, Candidates(model, hint))
  }

  /** The provider under which the model is listed, if it is listed. */
  method AllowedModel(policy: Policy, model: Model, hint: string) returns (provider: Option<string>)
    ensures provider == if Listed(policy, model, hint) then Some(Attributed(model, hint)) else None
  {
    var id := TrimSpace(model.id);
    if id == "" { return None; }
    var attributed, candidates := ProviderFromQualifiedId(id), [id];
    if attributed == "" {
      attributed := hint;
      if model.ownedBy.Some? && TrimSpace(model.ownedBy.value) != "" { attributed := TrimSpace(model.ownedBy.value); }
      if attributed != "" { candidates := [attributed + "/" + id] + candidates; }
    }
    assert candidates == Candidates(model, hint) && attributed == Attributed(model, hint);
    var allowed := FindAllowed(policy, candidates);
    return if allowed then Some(attributed) else None;
  }

  method FindAllowed(policy: Policy, candidates: seq<string>) returns (allowed: bool)
    ensures allowed == AllowsOne(policy, candidates)
  {
    for i := 0 to |candidates|
      invariant forall c :: c in candidates[..i] ==> !Allows(policy, c)
    {
      if Allows(policy, candidates[i]) { return true; }
    }
    return false;
  }

  /** What admission decides about a request for the model at that provider. */
  predicate Admitted(policy: Policy, provider: string, model: string) {
    Allows(policy, CanonicalSku(provider, model))
  }

  // ---------- trimming ----------

  lemma {:induction false} TrimLeftEnds(s: string)
    ensures TrimLeft(s) == "" || !IsSpace(TrimLeft(s)[0])
    ensures |TrimLeft(s)| <= |s| && TrimLeft(s) == s[|s| - |TrimLeft(s)|..]
    decreases |s|
  {
    if s != "" && IsSpace(s[0]) { TrimLeftEnds(s[1..]); }
  }

  lemma {:induction false} TrimRightEnds(s: string)
    ensures TrimRight(s) == "" || !IsSpace(TrimRight(s)[|TrimRight(s)| - 1])
    ensures |TrimRight(s)| <= |s| && TrimRight(s) == s[..|TrimRight(s)|]
    decreases |s|
  {
    if s != "" && IsSpace(s[|s| - 1]) { TrimRightEnds(s[..|s| - 1]); }
  }

  lemma TrimIsTrimmed(s: string)
    ensures Trimmed(TrimSpace(s)) && TrimSpace(TrimSpace(s)) == TrimSpace(s)
  {
    TrimLeftEnds(s);
    TrimRightEnds(TrimLeft(s));
  }

  lemma JoinTrimmed(p: string, id: string)
    requires Trimmed(p) && Trimmed(id) && p != "" && id != ""
    ensures Trimmed(p + "/" + id) && TrimSpace(p + "/" + id) == p + "/" + id
  {
  }

  // ---------- agreement ----------

  lemma {:induction false} SlashOfJoin(p: string, id: string)
    ensures Slash(p + "/" + id) == if Slash(p) < 0 then |p| else Slash(p)
    decreases |p|
  {
    if p == "" {
      assert ("" + "/" + id)[0] == '/';
    } else {
      assert (p + "/" + id)[1..] == p[1..] + "/" + id;
      SlashOfJoin(p[1..], id);
    }
  }

  lemma InThree<T>(a: seq<T>, b: seq<T>, c: seq<T>, x: T)
    ensures x in a + b + c <==> x in a || x in b || x in c
  {
  }

  lemma NotBareModel(m: string, c: string)
    requires c in BareModelOf(m)
    ensures 0 < Slash(m) < |m| - 1 && c == m[Slash(m) + 1..]
  {
  }

  lemma NotForAll(m: string, c: string)
    requires c in RowForAll(m)
    ensures c == "*"
  {
  }

  lemma CandidatesOf(s: string, c: string)
    requires c in SkuCandidates(s)
    ensures var m := TrimSpace(s); c == m || c == "*" || (0 < Slash(m) < |m| - 1 && c == m[Slash(m) + 1..])
  {
    var m := TrimSpace(s);
    var a, b := BareModelOf(m), RowForAll(m);
    assert c in [m] + a + b;
    InThree([m], a, b, c);
    if c in a { NotBareModel(m, c); } else if c in b { NotForAll(m, c); }
  }

  /** A model whose id names no provider has only itself and the row for all models. */
  lemma BareCandidates(id: string, c: string)
    requires Trimmed(id) && Slash(id) <= 0 && c in SkuCandidates(id)
    ensures c == id || c == "*"
  {
    TrimKeeps(id);
    CandidatesOf(id, c);
  }

  lemma HasForAll(m: string)
    requires |m| > 1
    ensures "*" in RowForAll(m)
  {
    assert RowForAll(m)[0] == "*";
  }

  /** A qualified id leads to its bare model and to the row for all models. */
  lemma QualifiedCandidates(p: string, id: string, c: string)
    requires TrimSpace(p + "/" + id) == p + "/" + id && p != "" && id != "" && Slash(p) < 0 && (c == id || c == "*")
    ensures c in SkuCandidates(p + "/" + id)
  {
    var s := p + "/" + id;
    SlashOfJoin(p, id);
    assert s[|p| + 1..] == id;
    assert BareModelOf(s)[0] == id;
    HasForAll(s);
    InThree([s], BareModelOf(s), RowForAll(s), c);
  }

  lemma MatchedBy(configured: seq<string>, candidates: seq<string>, i: nat, model: string)
    requires i < |configured| && configured[i] in candidates && candidates == SkuCandidates(model)
    ensures Matches(configured, model)
  {
    var j :| 0 <= j < |candidates| && candidates[j] == configured[i];
  }

  lemma MatchesMore(configured: seq<string>, a: string, b: string)
    requires forall c :: c in SkuCandidates(a) ==> c in SkuCandidates(b)
    ensures Matches(configured, a) ==> Matches(configured, b)
  {
    var candidates := SkuCandidates(a);
    if Matches(configured, a) {
      var i, j :| 0 <= i < |configured| && 0 <= j < |candidates| && configured[i] == candidates[j];
      MatchedBy(configured, SkuCandidates(b), i, b);
    }
  }

  lemma BareMatchesQualified(configured: seq<string>, p: string, id: string)
    requires Trimmed(p) && Trimmed(id) && p != "" && id != "" && Slash(p) < 0 && Slash(id) <= 0
    ensures Matches(configured, id) ==> Matches(configured, p + "/" + id)
  {
    JoinTrimmed(p, id);
    forall c | c in SkuCandidates(id) ensures c in SkuCandidates(p + "/" + id) {
      BareCandidates(id, c);
      QualifiedCandidates(p, id, c);
    }
    MatchesMore(configured, id, p + "/" + id);
  }

  lemma {:induction false} CanonicalBare(p: string, id: string)
    requires Trimmed(p) && Trimmed(id) && (Slash(id) < 0 || (Slash(id) == 0 && Slash(p) < 0))
    ensures CanonicalSku(p, id) == if p == "" || p == UNRESOLVED then id else p + "/" + id
  {
    TrimKeeps(p);
    TrimKeeps(id);
    if p != "" && |p| < |id| {
      assert id[..|p| + 1][|p|] == id[|p|] && id[..|p| + 1][0] == id[0];
      assert (p + "/")[|p|] == '/' && (p + "/")[0] == p[0];
    }
  }

  lemma CanonicalQualified(id: string)
    requires Trimmed(id) && Slash(id) > 0 && Trimmed(id[..Slash(id)])
    ensures CanonicalSku(id[..Slash(id)], id) == id
  {
    TrimKeeps(id);
    TrimKeeps(id[..Slash(id)]);
    assert id[..|id[..Slash(id)] + "/"|] == id[..Slash(id)] + "/";
  }

  ghost predicate Agrees(policy: Policy, model: Model, hint: string) {
    Listed(policy, model, hint) <==> Admitted(policy, Attributed(model, hint), model.id)
  }

  lemma {:induction false} TrimLeftSkips(s: string, t: string)
    requires TrimLeft(s) != ""
    ensures TrimLeft(s + t) == TrimLeft(s) + t
    decreases |s|
  {
    if IsSpace(s[0]) {
      TrimLeftSkips(s[1..], t);
      assert (s + t)[1..] == s[1..] + t;
    }
  }

  lemma {:induction false} TrimLeftPast(s: string, t: string)
    requires TrimLeft(s) == "" && t != "" && !IsSpace(t[0])
    ensures TrimLeft(s + t) == t
    decreases |s|
  {
    if s == "" {
      assert s + t == t;
    } else {
      TrimLeftPast(s[1..], t);
      assert (s + t)[1..] == s[1..] + t;
    }
  }

  lemma TrimRightKeeps(s: string)
    requires s == "" || !IsSpace(s[|s| - 1])
    ensures TrimRight(s) == s
  {
  }

  lemma TrimLeftJoin(p: string, t: string)
    requires t != "" && !IsSpace(t[0])
    ensures TrimLeft(p + t) == TrimLeft(p) + t
  {
    if TrimLeft(p) == "" {
      TrimLeftPast(p, t);
      assert "" + t == t;
    } else {
      TrimLeftSkips(p, t);
    }
  }

  /** Joined to a model, a provider loses its leading white space only. */
  lemma JoinedName(p: string, id: string)
    requires Trimmed(id) && id != ""
    ensures TrimSpace(p + "/" + id) == TrimLeft(p) + "/" + id
  {
    var t := "/" + id;
    assert t[0] == '/' && t[|t| - 1] == id[|id| - 1];
    TrimLeftJoin(p, t);
    assert p + "/" + id == p + t && TrimLeft(p) + "/" + id == TrimLeft(p) + t;
    TrimRightKeeps(TrimLeft(p) + t);
  }

  lemma {:induction false} TrimLeftInside(p: string)
    requires TrimRight(p) == p
    ensures TrimRight(TrimLeft(p)) == TrimLeft(p) && TrimSpace(p) == TrimLeft(p)
    ensures Trimmed(TrimLeft(p)) && (p != "" ==> TrimLeft(p) != "")
    ensures Slash(p) < 0 <==> Slash(TrimLeft(p)) < 0
    decreases |p|
  {
    if p != "" {
      TrimRightEnds(p);
      if IsSpace(p[0]) {
        assert |p| > 1 && p[1..][|p[1..]| - 1] == p[|p| - 1];
        TrimLeftInside(p[1..]);
      }
    }
  }

  lemma TrimmedAlready(q: string)
    requires Trimmed(q)
    ensures TrimLeft(q) == q && TrimRight(q) == q
  {
    TrimKeeps(q);
  }

  /** Where list and admission look for a bare model, when its provider ends in no white space. */
  lemma SameNames(p: string, id: string)
    requires TrimRight(p) == p && p != "" && Trimmed(id) && id != ""
    ensures SkuCandidates(p + "/" + id) == SkuCandidates(TrimLeft(p) + "/" + id)
    ensures CanonicalSku(p, id) == CanonicalSku(TrimLeft(p), id)
  {
    TrimLeftInside(p);
    JoinedName(p, id);
    TrimmedAlready(TrimLeft(p));
    JoinedName(TrimLeft(p), id);
  }

  /** No slash, no white space at the end, and not the name of a request that is not routed yet. */
  predicate Agreeable(p: string) {
    Slash(p) < 0 && TrimRight(p) == p && TrimSpace(p) != UNRESOLVED
  }

  lemma AllowsAny(policy: Policy, a: string, b: string)
    ensures AllowsOne(policy, [a]) <==> Allows(policy, a)
    ensures AllowsOne(policy, [a, b]) <==> Allows(policy, a) || Allows(policy, b)
  {
    assert [a][0] == a && [a, b][0] == a && [a, b][1] == b;
  }

  lemma SkuOfTrimmed(p: string, id: string)
    ensures CanonicalSku(p, TrimSpace(id)) == CanonicalSku(p, id)
  {
    TrimIsTrimmed(id);
  }

  lemma QualifiedSku(p: string, id: string)
    requires Trimmed(id) && ProviderFromQualifiedId(id) == p != "" && Agreeable(p)
    ensures CanonicalSku(p, id) == id
  {
    TrimRightEnds(p);
    assert Trimmed(p) by { assert p[0] == id[0]; }
    CanonicalQualified(id);
  }

  lemma BareAgrees(policy: Policy, p: string, id: string)
    requires Agreeable(p) && p != "" && Trimmed(id) && id != "" && Slash(id) <= 0
    ensures Allows(policy, p + "/" + id) || Allows(policy, id) <==> Allows(policy, CanonicalSku(p, id))
  {
    var q := TrimLeft(p);
    TrimLeftInside(p);
    SameNames(p, id);
    CanonicalBare(q, id);
    BareMatchesQualified(policy.planModels, q, id);
    BareMatchesQualified(policy.pricedModels, q, id);
  }

  lemma OwnNames(policy: Policy, model: Model, hint: string)
    ensures var id, p := TrimSpace(model.id), Attributed(model, hint);
            AllowsOne(policy, Candidates(model, hint)) <==>
              (ProviderFromQualifiedId(id) == "" && p != "" && Allows(policy, p + "/" + id)) || Allows(policy, id)
  {
    var id, p := TrimSpace(model.id), Attributed(model, hint);
    if ProviderFromQualifiedId(id) == "" && p != "" {
      assert Candidates(model, hint) == [p + "/" + id, id];
      AllowsAny(policy, p + "/" + id, id);
    } else {
      assert Candidates(model, hint) == [id];
      AllowsAny(policy, id, id);
    }
  }

  /**
   The list shows a model if and only if a request for it at the provider it is attributed to would be allowed and
   priced, when that provider has no slash in it, does not end in white space and is not `unresolved`.
   */
  lemma {:induction false} ListAgreesWithAdmission(policy: Policy, model: Model, hint: string)
    requires TrimSpace(model.id) != "" && Agreeable(Attributed(model, hint))
    ensures Agrees(policy, model, hint)
  {
    var id, p := TrimSpace(model.id), Attributed(model, hint);
    TrimIsTrimmed(model.id);
    SkuOfTrimmed(p, model.id);
    OwnNames(policy, model, hint);
    if ProviderFromQualifiedId(id) != "" {
      QualifiedSku(p, id);
    } else if p != "" {
      BareAgrees(policy, p, id);
    } else {
      CanonicalBare(p, id);
    }
  }

  /** A plan for all models, and a catalog that prices one name. */
  function OnlyPriced(name: string): Policy {
    Policy(["*"], [name])
  }

  lemma StarMatches(model: string)
    ensures Matches(["*"], model)
  {
    var last := |SkuCandidates(model)| - 1;
    assert SkuCandidates(model)[last] == "*";
  }

  lemma OneName(name: string, model: string)
    ensures Allows(OnlyPriced(name), model) <==> name in SkuCandidates(model)
  {
    StarMatches(model);
  }

  lemma LongNameMissing(name: string, s: string)
    requires |name| > 1 && |TrimSpace(s)| < |name|
    ensures name !in SkuCandidates(s)
  {
    if name in SkuCandidates(s) { CandidatesOf(s, name); }
  }

  /** A bare model that no row for all models stands for. */
  const BARE := "x"

  lemma BareModel(p: string)
    requires p != ""
    ensures Trimmed(BARE) && Slash(BARE) < 0 && TrimSpace(BARE) == BARE
    ensures Attributed(Model(BARE, None), p) == p
    ensures Candidates(Model(BARE, None), p) == [p + "/" + BARE, BARE]
    ensures CanonicalSku(p, BARE) == if TrimSpace(p) in {"", UNRESOLVED} then BARE else TrimSpace(p) + "/" + BARE
  {
    TrimKeeps(BARE);
    TrimIsTrimmed(p);
  }

  lemma TrimRightShortens(p: string)
    ensures |TrimSpace(p)| <= |TrimLeft(p)|
    ensures TrimRight(p) != p ==> TrimSpace(p) == "" || |TrimSpace(p)| < |TrimLeft(p)|
  {
    TrimLeftEnds(p);
    TrimRightEnds(TrimLeft(p));
    if TrimRight(p) != p && TrimLeft(p) != "" {
      assert TrimLeft(p)[|TrimLeft(p)| - 1] == p[|p| - 1];
    }
  }

  /** The name under which the list looks is found there, and admission looks under a shorter one. */
  lemma NameListed(p: string, name: string)
    requires p != "" && name == TrimSpace(p + "/" + BARE)
    ensures Listed(OnlyPriced(name), Model(BARE, None), p)
  {
    var policy, model := OnlyPriced(name), Model(BARE, None);
    BareModel(p);
    OneName(name, p + "/" + BARE);
    assert SkuCandidates(p + "/" + BARE)[0] == name;
    assert Candidates(model, p)[0] == p + "/" + BARE;
    assert Allows(policy, Candidates(model, p)[0]);
  }

  lemma NameNotAdmitted(p: string, name: string)
    requires p != "" && |name| > 1 && |CanonicalSku(p, BARE)| < |name|
    ensures !Admitted(OnlyPriced(name), p, BARE)
  {
    var sku := CanonicalSku(p, BARE);
    TrimLeftEnds(sku);
    TrimRightEnds(TrimLeft(sku));
    LongNameMissing(name, sku);
    OneName(name, sku);
  }

  /** The list looks under a name that admission does not use: it drops `unresolved` and trims the end. */
  lemma NameDropped(p: string)
    requires p != "" && (TrimRight(p) != p || TrimSpace(p) == UNRESOLVED)
    ensures var name := TrimLeft(p) + "/" + BARE; !Agrees(OnlyPriced(name), Model(BARE, None), p)
  {
    var name := TrimLeft(p) + "/" + BARE;
    BareModel(p);
    JoinedName(p, BARE);
    NameListed(p, name);
    TrimRightShortens(p);
    assert |name| == |TrimLeft(p)| + 2;
    assert |CanonicalSku(p, BARE)| < |name|;
    NameNotAdmitted(p, name);
  }

  lemma {:induction false} FirstSlash(p: string, id: string)
    requires Slash(p) >= 0
    ensures Slash(p + "/" + id) == Slash(p)
  {
    SlashOfJoin(p, id);
  }

  lemma SlashHides(q: string)
    requires Trimmed(q) && Slash(q) >= 0
    ensures BARE !in SkuCandidates(q + "/" + BARE)
  {
    var s := q + "/" + BARE;
    JoinTrimmed(q, BARE);
    FirstSlash(q, BARE);
    assert |s| - Slash(s) > 2;
    if BARE in SkuCandidates(s) { CandidatesOf(s, BARE); }
  }

  /** For a provider with a slash in it the list also looks for the bare model, which admission never reaches. */
  lemma SlashDisagrees(p: string)
    requires Slash(p) >= 0 && TrimRight(p) == p && TrimSpace(p) != UNRESOLVED
    ensures !Agrees(OnlyPriced(BARE), Model(BARE, None), p)
  {
    var policy, model := OnlyPriced(BARE), Model(BARE, None);
    TrimLeftInside(p);
    BareModel(p);
    SlashHides(TrimLeft(p));
    OneName(BARE, BARE);
    OneName(BARE, CanonicalSku(p, BARE));
    assert SkuCandidates(BARE)[0] == BARE;
    assert Allows(policy, Candidates(model, p)[1]);
  }

  lemma Disagreement(p: string) returns (policy: Policy, model: Model)
    requires !Agreeable(p)
    ensures TrimSpace(model.id) != "" && Attributed(model, p) == p && !Agrees(policy, model, p)
  {
    assert p != "";
    BareModel(p);
    model := Model(BARE, None);
    if TrimRight(p) != p || TrimSpace(p) == UNRESOLVED {
      NameDropped(p);
      var name := TrimLeft(p) + "/" + BARE;
      policy := OnlyPriced(name);
    } else {
      SlashDisagrees(p);
      policy := OnlyPriced(BARE);
    }
  }

  /**
   The condition is exact: for every provider, it is met if and only if list and admission agree on every plan, catalog,
   hint and model that is attributed to that provider.
   */
  lemma {:induction false} AgreementIff(p: string)
    ensures (forall policy: Policy, model: Model, hint: string ::
               TrimSpace(model.id) != "" && Attributed(model, hint) == p ==> Agrees(policy, model, hint))
            <==> Agreeable(p)
  {
    if Agreeable(p) {
      forall policy: Policy, model: Model, hint: string | TrimSpace(model.id) != "" && Attributed(model, hint) == p
        ensures Agrees(policy, model, hint)
      {
        ListAgreesWithAdmission(policy, model, hint);
      }
    } else {
      var policy, model := Disagreement(p);
    }
  }

  lemma NoEarlySlash(p: string)
    requires Slash(p) < 0
    ensures Slash(TrimSpace(p)) < 0
  {
    TrimLeftEnds(p);
    TrimRightEnds(TrimLeft(p));
  }

  lemma PrefixNeedsSlash(id: string, q: string)
    requires |q| < |id| && id[|q|] != '/'
    ensures !HasPrefix(id, q + "/")
  {
    assert (q + "/")[|q|] == '/' && id[..|q| + 1][|q|] == id[|q|];
  }

  /** A provider that ends in white space, trimmed, is no prefix of the id it came from. */
  lemma TrimmedPrefix(p: string, id: string)
    requires p != "" && Slash(p) < 0 && !IsSpace(p[0]) && TrimRight(p) != p
    requires |p| < |id| && id[..|p|] == p
    ensures TrimSpace(p) != "" && !HasPrefix(id, TrimSpace(p) + "/")
  {
    TrimRightEnds(p);
    var q := TrimRight(p);
    assert TrimLeft(p) == p && TrimSpace(p) == q && |q| < |p|;
    assert id[|q|] == id[..|p|][|q|] == p[|q|];
    PrefixNeedsSlash(id, q);
    FirstStays(p);
  }

  lemma {:induction false} FirstStays(p: string)
    requires p != "" && !IsSpace(p[0])
    ensures TrimRight(p) != ""
    decreases |p|
  {
    if IsSpace(p[|p| - 1]) {
      FirstStays(p[..|p| - 1]);
    }
  }

  /** The names under which the list looks for a qualified model, and admission for the same under a second qualifier. */
  lemma TwiceQualified(p: string, q: string, id: string)
    requires p != "" && !IsSpace(p[0]) && Slash(p) < 0 && Trimmed(q) && q != "" && Slash(q) < 0 && id == p + "/" + BARE
    ensures TrimSpace(id) == id && ProviderFromQualifiedId(id) == p && BARE in SkuCandidates(id)
    ensures BARE !in SkuCandidates(q + "/" + id)
  {
    JoinedName(p, BARE);
    assert TrimLeft(p) == p;
    SlashOfJoin(p, BARE);
    assert id[..|p|] == p;
    QualifiedCandidates(p, BARE, BARE);
    var sku := q + "/" + id;
    JoinTrimmed(q, id);
    SlashOfJoin(q, id);
    assert sku[|q| + 1..] == id;
    if BARE in SkuCandidates(sku) { CandidatesOf(sku, BARE); }
  }

  /**
   White space before the slash of a qualified id is kept by the list and trimmed by admission, whatever the hint: the
   list finds the bare model, admission looks for a model of that qualified name at a provider of the trimmed name.
   */
  lemma SpaceBeforeSlashDisagrees(p: string, hint: string)
    requires p != "" && Slash(p) < 0 && !IsSpace(p[0]) && TrimRight(p) != p && TrimSpace(p) != UNRESOLVED
    ensures var model := Model(p + "/" + BARE, None);
            Attributed(model, hint) == p
            && Listed(OnlyPriced(BARE), model, hint) && !Admitted(OnlyPriced(BARE), p, model.id)
  {
    var id, q, policy := p + "/" + BARE, TrimSpace(p), OnlyPriced(BARE);
    TrimIsTrimmed(p);
    NoEarlySlash(p);
    assert id[..|p|] == p;
    TrimmedPrefix(p, id);
    TwiceQualified(p, q, id);
    OneName(BARE, id);
    assert Candidates(Model(id, None), hint) == [id];
    assert Allows(policy, Candidates(Model(id, None), hint)[0]);
    OneName(BARE, q + "/" + id);
    assert CanonicalSku(p, id) == q + "/" + id;
  }

  // ---------- the model list, rewritten in place ----------

  function Kept(policy: Policy, models: seq<Model>, hint: string): seq<Model> {
    if models == [] then [] else
    Kept(policy, models[..|models| - 1], hint)
    + if Listed(policy, models[|models| - 1], hint) then [models[|models| - 1]] else []
  }

  /** The one provider all statuses name, or nothing when they name several. */
  function StatusProvider(statuses: seq<string>, provider: string): string {
    if statuses == [] then provider
    else
      var current := TrimSpace(statuses[0]);
      if current == "" then StatusProvider(statuses[1..], provider)
      else if provider != "" && ToLower(provider) != ToLower(current) then ""
      else StatusProvider(statuses[1..], current)
  }

  method SingleStatusProvider(statuses: seq<string>) returns (provider: string)
    ensures provider == StatusProvider(statuses, "")
  {
    provider := "";
    for i := 0 to |statuses|
      invariant StatusProvider(statuses[i..], provider) == StatusProvider(statuses, "")
    {
      var current := TrimSpace(statuses[i]);
      if current != "" {
        if provider != "" && ToLower(provider) != ToLower(current) { return ""; }
        provider := current;
      }
    }
    assert statuses[|statuses|..] == [];
  }

  /** The providers, in lower case, to which the kept models are attributed. */
  function Providers(policy: Policy, models: seq<Model>, hint: string): set<string> {
    if models == [] then {} else
    var m := models[|models| - 1];
    Providers(policy, models[..|models| - 1], hint)
    + if Listed(policy, m, hint) && Attributed(m, hint) != "" then {ToLower(Attributed(m, hint))} else {}
  }

  function KeptStatuses(statuses: seq<string>, providers: set<string>): seq<string> {
    if statuses == [] then [] else
    KeptStatuses(statuses[..|statuses| - 1], providers)
    + if ToLower(statuses[|statuses| - 1]) in providers then [statuses[|statuses| - 1]] else []
  }

  method KeepModels(policy: Policy, models: seq<Model>, hint: string) returns (kept: seq<Model>, providers: set<string>)
    ensures kept == Kept(policy, models, hint) && providers == Providers(policy, models, hint)
  {
    kept, providers := [], {};
    for i := 0 to |models|
      invariant kept == Kept(policy, models[..i], hint) && providers == Providers(policy, models[..i], hint)
    {
      assert models[..i + 1][..i] == models[..i];
      var provider := AllowedModel(policy, models[i], hint);
      if provider.Some? {
        kept := kept + [models[i]];
        if provider.value != "" { providers := providers + {ToLower(provider.value)}; }
      }
    }
    assert models[..|models|] == models;
  }

  /** A page of the model list: the models, the provider of each key status and the pagination ids. */
  class ListModelsResponse {
    var models: seq<Model>
    var statuses: seq<string>
    var firstId: Option<string>
    var lastId: Option<string>

    constructor (models: seq<Model>, statuses: seq<string>, firstId: Option<string>, lastId: Option<string>)
      ensures this.models == models && this.statuses == statuses && this.firstId == firstId && this.lastId == lastId
    {
      this.models, this.statuses, this.firstId, this.lastId := models, statuses, firstId, lastId;
    }

    /** Keeps the models that are listed, the statuses of their providers, and page ids that point into the page. */
    method FilterListModels(policy: Policy)
      modifies this
      ensures var hint := StatusProvider(old(statuses), "");
              && models == Kept(policy, old(models), hint)
              && statuses == KeptStatuses(old(statuses), Providers(policy, old(models), hint))
      ensures if old(firstId.None? && lastId.None?) then firstId == lastId == None
              else if models == [] then firstId == lastId == None
              else firstId == Some(models[0].id) && lastId == Some(models[|models| - 1].id)
    {
      var hint := SingleStatusProvider(statuses);
      var kept, providers := KeepModels(policy, models, hint);
      models := kept;
      FilterStatuses(providers);
      ResetProviderPagination();
    }

    method FilterStatuses(providers: set<string>)
      modifies this`statuses
      ensures statuses == KeptStatuses(old(statuses), providers)
    {
      var kept := [];
      for i := 0 to |statuses|
        invariant kept == KeptStatuses(statuses[..i], providers)
      {
        assert statuses[..i + 1][..i] == statuses[..i];
        if ToLower(statuses[i]) in providers { kept := kept + [statuses[i]]; }
      }
      assert statuses[..|statuses|] == statuses;
      statuses := kept;
    }

    method ResetProviderPagination()
      modifies this`firstId, this`lastId
      ensures if old(firstId.None? && lastId.None?) || models == [] then firstId == lastId == None
              else firstId == Some(models[0].id) && lastId == Some(models[|models| - 1].id)
    {
      if firstId.None? && lastId.None? { return; }
      if |models| == 0 {
        firstId, lastId := None, None;
        return;
      }
      firstId, lastId := Some(models[0].id), Some(models[|models| - 1].id);
    }
  }

  /** No listed model is dropped or doubled, and no other is kept. */
  lemma {:induction false} KeptExactly(policy: Policy, models: seq<Model>, hint: string, m: Model)
    ensures multiset(Kept(policy, models, hint))[m] == if Listed(policy, m, hint) then multiset(models)[m] else 0
    decreases |models|
  {
    if models != [] {
      var prefix, last := models[..|models| - 1], models[|models| - 1];
      KeptExactly(policy, prefix, hint, m);
      assert models == prefix + [last];
      CountSnoc(prefix, last, m);
      CountSnoc(Kept(policy, prefix, hint), last, m);
    }
  }

  lemma CountSnoc(models: seq<Model>, last: Model, m: Model)
    ensures multiset(models + [last])[m] == multiset(models)[m] + if m == last then 1 else 0
  {
  }

  predicate Shows(policy: Policy, model: Model, hint: string, p: string) {
    Listed(policy, model, hint) && Attributed(model, hint) != "" && ToLower(Attributed(model, hint)) == p
  }

  /** A key status stays if and only if some kept model belongs to its provider, whatever the case of their letters. */
  lemma {:induction false} ProvidersOfKept(policy: Policy, models: seq<Model>, hint: string, p: string)
    ensures p in Providers(policy, models, hint) <==> exists m :: m in models && Shows(policy, m, hint, p)
    decreases |models|
  {
    if models != [] {
      var prefix, last := models[..|models| - 1], models[|models| - 1];
      ProvidersOfKept(policy, prefix, hint, p);
      assert forall m :: m in models <==> m in prefix || m == last;
      assert p in Providers(policy, models, hint) <==> p in Providers(policy, prefix, hint) || Shows(policy, last, hint, p);
    }
  }
}
