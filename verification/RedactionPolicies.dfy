/**
 The request log and the audit log each have their own list of credential-like keys. The audit redactor is documented as
 the one policy of both; this module says where the two differ.
 */
module RedactionPolicies {
  import opened Common
  import opened Json
  import RequestLog
  import Audit

  ghost predicate AllSpace(s: string) {
    forall i :: 0 <= i < |s| ==> IsSpace(s[i])
  }

  ghost predicate Word(s: string) {
    s != "" && forall i :: 0 <= i < |s| ==> !IsSpace(s[i])
  }

  predicate Dropped(c: char) {
    c in {'-', '_', ' '}
  }

  lemma LowerFirst(c: char, s: string)
    ensures ToLower([c] + s) == [Lower(c)] + ToLower(s)
  {
  }

  lemma SqueezeFirst(c: char, s: string)
    ensures Squeeze([c] + s) == (if Dropped(c) then "" else [c]) + Squeeze(s)
  {
  }

  lemma {:induction false} LowerSqueeze(s: string)
    ensures ToLower(Squeeze(s)) == Squeeze(ToLower(s))
    decreases |s|
  {
    if s != "" {
      LowerSqueeze(s[1..]);
      SqueezeFirst(Lower(s[0]), ToLower(s[1..]));
      LowerFirst(s[0], Squeeze(s[1..]));
      assert Dropped(Lower(s[0])) <==> Dropped(s[0]);
      assert Squeeze(s) == (if Dropped(s[0]) then "" else [s[0]]) + Squeeze(s[1..]);
      assert "" + Squeeze(s[1..]) == Squeeze(s[1..]) && "" + Squeeze(ToLower(s[1..])) == Squeeze(ToLower(s[1..]));
    }
  }

  lemma Associative(a: string, b: string, c: string)
    ensures a + (b + c) == a + b + c
  {
  }

  lemma {:induction false} SqueezeConcat(a: string, b: string)
    ensures Squeeze(a + b) == Squeeze(a) + Squeeze(b)
    decreases |a|
  {
    if a == "" {
      assert a + b == b;
    } else {
      SqueezeConcat(a[1..], b);
      SqueezeFirst(a[0], a[1..] + b);
      SqueezeFirst(a[0], a[1..]);
      assert a + b == [a[0]] + (a[1..] + b) && a == [a[0]] + a[1..];
      Associative(if Dropped(a[0]) then "" else [a[0]], Squeeze(a[1..]), Squeeze(b));
    }
  }

  lemma {:induction false} LowerConcat(a: string, b: string)
    ensures ToLower(a + b) == ToLower(a) + ToLower(b)
    decreases |a|
  {
    if a == "" {
      assert a + b == b;
    } else {
      LowerConcat(a[1..], b);
      LowerFirst(a[0], a[1..] + b);
      LowerFirst(a[0], a[1..]);
      assert a + b == [a[0]] + (a[1..] + b) && a == [a[0]] + a[1..];
      Associative([Lower(a[0])], ToLower(a[1..]), ToLower(b));
    }
  }

  lemma NormalizedConcat(a: string, b: string)
    ensures RequestLog.Normalized(a + b) == RequestLog.Normalized(a) + RequestLog.Normalized(b)
  {
    SqueezeConcat(a, b);
    LowerConcat(Squeeze(a), Squeeze(b));
  }

  lemma {:induction false} LowerSpace(s: string)
    requires AllSpace(s)
    ensures AllSpace(ToLower(s))
    decreases |s|
  {
    if s != "" {
      assert IsSpace(s[0]);
      LowerSpace(s[1..]);
    }
  }

  lemma {:induction false} SqueezeSpace(s: string)
    requires AllSpace(s)
    ensures AllSpace(Squeeze(s))
    decreases |s|
  {
    if s != "" {
      assert IsSpace(s[0]);
      SqueezeSpace(s[1..]);
    }
  }

  lemma {:induction false} LeftTrimmed(s: string) returns (a: string)
    ensures AllSpace(a) && s == a + TrimLeft(s)
    decreases |s|
  {
    a := "";
    if s != "" && IsSpace(s[0]) {
      var rest := LeftTrimmed(s[1..]);
      a := [s[0]] + rest;
    }
  }

  lemma {:induction false} RightTrimmed(s: string) returns (b: string)
    ensures AllSpace(b) && s == TrimRight(s) + b
    decreases |s|
  {
    b := "";
    if s != "" && IsSpace(s[|s| - 1]) {
      var rest := RightTrimmed(s[..|s| - 1]);
      b := rest + [s[|s| - 1]];
    }
  }

  /** What the audit policy looks at. */
  function AuditForm(key: string): string {
    Squeeze(ToLower(TrimSpace(key)))
  }

  /** The two normal forms differ by white space at the ends only. */
  lemma Forms(key: string) returns (x: string, y: string)
    ensures AllSpace(x) && AllSpace(y) && RequestLog.Normalized(key) == x + AuditForm(key) + y
  {
    var a := LeftTrimmed(key);
    var b := RightTrimmed(TrimLeft(key));
    var t := TrimSpace(key);
    NormalizedConcat(a, TrimLeft(key));
    NormalizedConcat(t, b);
    SqueezeSpace(a);
    LowerSpace(Squeeze(a));
    SqueezeSpace(b);
    LowerSpace(Squeeze(b));
    LowerSqueeze(t);
    x, y := RequestLog.Normalized(a), RequestLog.Normalized(b);
  }

  lemma EndsInSpace(s: string, y: string)
    requires AllSpace(y) && y != ""
    ensures IsSpace((s + y)[|s + y| - 1])
  {
  }

  lemma HoldsSpace(x: string, m: string, n: nat)
    requires AllSpace(x) && |m| < n <= |x + m|
    ensures IsSpace((x + m)[|x + m| - n..][n - |m| - 1])
  {
  }

  lemma SuffixInside(x: string, m: string, y: string, w: string)
    requires AllSpace(x) && AllSpace(y) && Word(w) && HasSuffix(x + m + y, w)
    ensures HasSuffix(m, w) && (x + m + y == w ==> m == w)
  {
    var s := x + m + y;
    assert s[|s| - 1] == s[|s| - |w|..][|w| - 1] == w[|w| - 1];
    if y != "" { EndsInSpace(x + m, y); }
    assert s == x + m;
    if |w| > |m| { HoldsSpace(x, m, |w|); }
    assert s[|s| - |w|..] == m[|m| - |w|..];
  }

  /** A word that is the end of one form is the end of the other. */
  lemma SuffixCarries(key: string, w: string)
    requires Word(w) && HasSuffix(RequestLog.Normalized(key), w)
    ensures HasSuffix(AuditForm(key), w)
  {
    var x, y := Forms(key);
    SuffixInside(x, AuditForm(key), y, w);
  }

  lemma WordCarries(key: string, w: string)
    requires Word(w) && RequestLog.Normalized(key) == w
    ensures AuditForm(key) == w
  {
    var x, y := Forms(key);
    assert w[|w| - |w|..] == w;
    SuffixInside(x, AuditForm(key), y, w);
  }

  predicate EndsInFragment(n: string) {
    HasSuffix(n, "token") || HasSuffix(n, "secret") || HasSuffix(n, "password")
  }

  lemma LastChar(s: string, w: string)
    requires w != "" && HasSuffix(s, w)
    ensures s[|s| - 1] == w[|w| - 1]
  {
    assert s[|s| - |w|..][|w| - 1] == s[|s| - 1];
  }

  lemma LastOf(s: string, c: char)
    requires s != "" && s[|s| - 1] == c && !Dropped(c)
    ensures Squeeze(s) != "" && Squeeze(s)[|Squeeze(s)| - 1] == c
  {
    var n := |s| - 1;
    assert s == s[..n] + [s[n]];
    SqueezeConcat(s[..n], [s[n]]);
    SqueezeFirst(s[n], "");
    assert [s[n]] + "" == [s[n]];
  }

  predicate EndsInKey(s: string) {
    s == "key" || HasSuffix(s, "_key") || HasSuffix(s, "-key")
  }

  lemma KeyEnding(s: string)
    requires EndsInKey(s)
    ensures Squeeze(s) != "" && Squeeze(s)[|Squeeze(s)| - 1] == 'y'
  {
    if HasSuffix(s, "_key") { LastChar(s, "_key"); } else if HasSuffix(s, "-key") { LastChar(s, "-key"); }
    LastOf(s, 'y');
  }

  predicate EndsInOther(a: string) {
    HasSuffix(a, "passwd") || HasSuffix(a, "authorization") || HasSuffix(a, "credential") || HasSuffix(a, "private")
  }

  lemma FragmentCarries(key: string)
    requires EndsInFragment(RequestLog.Normalized(key))
    ensures EndsInFragment(AuditForm(key))
  {
    var n := RequestLog.Normalized(key);
    if HasSuffix(n, "token") {
      SuffixCarries(key, "token");
    } else if HasSuffix(n, "secret") {
      SuffixCarries(key, "secret");
    } else {
      SuffixCarries(key, "password");
    }
  }

  lemma FragmentEnding(s: string)
    requires EndsInFragment(s)
    ensures s != "" && s[|s| - 1] in {'n', 't', 'd'}
  {
    if HasSuffix(s, "token") {
      LastChar(s, "token");
    } else if HasSuffix(s, "secret") {
      LastChar(s, "secret");
    } else {
      LastChar(s, "password");
    }
  }

  lemma OtherEnding(s: string)
    requires EndsInOther(s)
    ensures |s| > 1 && s[|s| - 1] in {'d', 'n', 'l', 'e'} && (s[|s| - 1] == 'e' ==> s[|s| - 2] == 't')
  {
    if HasSuffix(s, "passwd") {
      LastChar(s, "passwd");
    } else if HasSuffix(s, "authorization") {
      LastChar(s, "authorization");
    } else if HasSuffix(s, "credential") {
      LastChar(s, "credential");
    } else {
      LastChar(s, "private");
      assert s[|s| - 7..][5] == s[|s| - 2];
    }
  }

  predicate Cookie(n: string) {
    n == "cookie" || n == "setcookie"
  }

  lemma CookieEnding(n: string)
    requires Cookie(n)
    ensures Word(n) && |n| in {6, 9} && n[|n| - 1] == 'e' && n[|n| - 2] == 'i'
  {
  }

  predicate SharedWord(n: string) {
    n == "apikey" || n == "accesskey" || n == "authorization"
  }

  lemma SharedWordIsWord(n: string)
    requires SharedWord(n)
    ensures Word(n)
  {
  }

  /** The words of the audit list that are not among its endings. */
  predicate KeyWord(a: string) {
    a == "privatekey" || a == "secretkey"
  }

  lemma LastWords(a: string)
    requires a == "clientsecret" || a == "credential" || a == "authorization"
    ensures EndsInFragment(a) || EndsInOther(a)
  {
    assert a[|a| - |a|..] == a;
    if a == "clientsecret" { assert HasSuffix(a, "secret"); }
  }

  lemma ExactForms(a: string)
    ensures a in Audit.EXACT <==> a == "apikey" || a == "accesskey" || KeyWord(a) || a == "clientsecret" || a == "authorization" || a == "credential"
  {
    var E := Audit.EXACT;
    assert E[0] == "apikey" && E[1] == "accesskey" && E[2] == "privatekey" && E[3] == "secretkey";
    assert E[4] == "clientsecret" && E[5] == "authorization" && E[6] == "credential" && |E| == 7;
  }

  lemma FragmentForms(a: string)
    ensures (exists i :: 0 <= i < |Audit.FRAGMENTS| && HasSuffix(a, Audit.FRAGMENTS[i])) <==> EndsInFragment(a) || EndsInOther(a)
  {
    var F := Audit.FRAGMENTS;
    assert F[0] == "token" && F[1] == "secret" && F[2] == "password" && F[3] == "passwd";
    assert F[4] == "authorization" && F[5] == "credential" && F[6] == "private" && |F| == 7;
  }

  /** The audit policy, with its two lists written out. */
  lemma AuditForms(key: string)
    ensures var a := AuditForm(key);
            Audit.SensitiveKey(key) <==>
              EndsInKey(ToLower(TrimSpace(key))) || EndsInFragment(a) || EndsInOther(a) || SharedWord(a) || KeyWord(a)
  {
    var a := AuditForm(key);
    ExactForms(a);
    FragmentForms(a);
    if a == "clientsecret" || a == "credential" || a == "authorization" { LastWords(a); }
  }

  lemma SensitiveForms(key: string)
    ensures var n := RequestLog.Normalized(key);
            RequestLog.SensitiveKey(key) <==> EndsInFragment(n) || SharedWord(n) || Cookie(n) || n == "xapikey"
  {
    var n := RequestLog.Normalized(key);
    if n == "clientsecret" || n == "secret" || n == "password" { assert n[|n| - |n|..] == n; }
    if n == "clientsecret" { LastSecret(n); }
  }

  lemma LastSecret(n: string)
    requires n == "clientsecret"
    ensures HasSuffix(n, "secret")
  {
  }

  /** Cookies are the request log's alone: the audit log keeps their values. */
  lemma AuditKeepsCookies(key: string)
    requires Cookie(RequestLog.Normalized(key))
    ensures RequestLog.SensitiveKey(key) && !Audit.SensitiveKey(key)
  {
    var a := RequestLog.Normalized(key);
    CookieEnding(a);
    WordCarries(key, a);
    if EndsInFragment(a) { FragmentEnding(a); }
    if EndsInOther(a) { OtherEnding(a); }
    if SharedWord(a) { WordEnding(a); }
    if KeyWord(a) { WordEnding(a); }
    if EndsInKey(ToLower(TrimSpace(key))) { KeyEnding(ToLower(TrimSpace(key))); }
    AuditForms(key);
    SensitiveForms(key);
  }

  lemma PasswdEnding(n: string)
    requires HasSuffix(n, "passwd")
    ensures |n| > 1 && n[|n| - 1] == 'd' && n[|n| - 2] == 'w'
  {
    LastChar(n, "passwd");
    assert n[|n| - 6..][4] == n[|n| - 2];
  }

  lemma PasswordEnding(n: string)
    requires HasSuffix(n, "password")
    ensures |n| > 1 && n[|n| - 2] == 'r'
  {
    assert n[|n| - 8..][6] == n[|n| - 2];
  }

  lemma NoFragment(n: string)
    requires n != "" && n[|n| - 1] == 'd' && (|n| > 1 ==> n[|n| - 2] == 'w')
    ensures !EndsInFragment(n)
  {
    if HasSuffix(n, "token") { LastChar(n, "token"); }
    if HasSuffix(n, "secret") { LastChar(n, "secret"); }
    if HasSuffix(n, "password") { PasswordEnding(n); }
  }

  lemma NoWord(n: string)
    requires n != "" && n[|n| - 1] == 'd'
    ensures !SharedWord(n) && !Cookie(n) && n != "xapikey"
  {
    if Cookie(n) { CookieEnding(n); }
    if SharedWord(n) { WordEnding(n); }
    if n == "xapikey" { XApiKeyEnding(n); }
  }

  lemma PasswdCarries(key: string)
    requires HasSuffix(RequestLog.Normalized(key), "passwd")
    ensures EndsInOther(AuditForm(key))
  {
    SuffixCarries(key, "passwd");
  }

  lemma PasswdShown(key: string)
    requires HasSuffix(RequestLog.Normalized(key), "passwd")
    ensures !RequestLog.SensitiveKey(key)
  {
    var n := RequestLog.Normalized(key);
    PasswdEnding(n);
    NoFragment(n);
    NoWord(n);
    SensitiveForms(key);
  }

  /** In the other direction, whatever ends in `passwd` is the audit log's alone: the request log shows its value. */
  lemma RequestLogKeepsPasswd(key: string)
    requires HasSuffix(RequestLog.Normalized(key), "passwd")
    ensures Audit.SensitiveKey(key) && !RequestLog.SensitiveKey(key)
  {
    PasswdCarries(key);
    AuditForms(key);
    PasswdShown(key);
  }

  /** `passwd` itself is one of those. */
  lemma PasswdIsOne()
    ensures HasSuffix(RequestLog.Normalized("passwd"), "passwd")
  {
    assert Squeeze("passwd") == "passwd" && ToLower("passwd") == "passwd";
  }

  lemma WordEnding(a: string)
    requires SharedWord(a) || KeyWord(a)
    ensures |a| in {6, 9, 10, 13} && a[|a| - 1] in {'y', 'n'}
  {
  }

  lemma {:induction false} SqueezeShortens(s: string)
    ensures |Squeeze(s)| <= |s|
    decreases |s|
  {
    if s != "" { SqueezeShortens(s[1..]); }
  }

  lemma XApiKeyEnding(n: string)
    requires n == "xapikey"
    ensures Word(n) && |n| == 7 && n[|n| - 1] == 'y'
  {
  }

  lemma NotThatShort(key: string)
    requires |AuditForm(key)| == 7
    ensures ToLower(TrimSpace(key)) != "key"
  {
    SqueezeShortens(ToLower(TrimSpace(key)));
  }

  lemma XApiKey(key: string)
    requires RequestLog.Normalized(key) == "xapikey"
    ensures var lower := ToLower(TrimSpace(key));
            Audit.SensitiveKey(key) <==> HasSuffix(lower, "_key") || HasSuffix(lower, "-key")
  {
    var a := RequestLog.Normalized(key);
    XApiKeyEnding(a);
    WordCarries(key, a);
    NotThatShort(key);
    if EndsInFragment(a) { FragmentEnding(a); }
    if EndsInOther(a) { OtherEnding(a); }
    if SharedWord(a) { WordEnding(a); }
    if KeyWord(a) { WordEnding(a); }
    AuditForms(key);
  }

  lemma HiddenByBoth(key: string)
    requires RequestLog.SensitiveKey(key) && !Cookie(RequestLog.Normalized(key)) && RequestLog.Normalized(key) != "xapikey"
    ensures Audit.SensitiveKey(key)
  {
    var n := RequestLog.Normalized(key);
    SensitiveForms(key);
    AuditForms(key);
    if EndsInFragment(n) {
      FragmentCarries(key);
    } else {
      SharedWordIsWord(n);
      WordCarries(key, n);
    }
  }

  /**
   What the request log alone hides: cookies, and an `xapikey` whose separator before `key` is missing or is a blank.
   Every other key that the request log hides is hidden by the audit log.
   */
  lemma RequestLogAloneIff(key: string)
    ensures var n, lower := RequestLog.Normalized(key), ToLower(TrimSpace(key));
            RequestLog.SensitiveKey(key) && !Audit.SensitiveKey(key) <==>
              Cookie(n) || (n == "xapikey" && !HasSuffix(lower, "_key") && !HasSuffix(lower, "-key"))
  {
    var n := RequestLog.Normalized(key);
    SensitiveForms(key);
    if Cookie(n) {
      AuditKeepsCookies(key);
    } else if n == "xapikey" {
      XApiKey(key);
    } else if RequestLog.SensitiveKey(key) {
      HiddenByBoth(key);
    }
  }

  /**
   What the audit log alone hides: `key` and whatever ends in `_key` or `-key`; four endings and two words that the
   request log does not know; and the words both know when tabs or line ends surround them, since only the audit
   policy trims.
   */
  lemma AuditAloneIff(key: string)
    ensures var n, a := RequestLog.Normalized(key), AuditForm(key);
            Audit.SensitiveKey(key) && !RequestLog.SensitiveKey(key) <==>
              !RequestLog.SensitiveKey(key) &&
              (EndsInKey(ToLower(TrimSpace(key))) || EndsInOther(a) || KeyWord(a)
               || (a != n && (EndsInFragment(a) || SharedWord(a))))
  {
    AuditForms(key);
    SensitiveForms(key);
  }

  /** Both policies treat a key alike, or one of the two statements above names it. */
  lemma PoliciesAgreeIff(key: string)
    ensures var n, a, lower := RequestLog.Normalized(key), AuditForm(key), ToLower(TrimSpace(key));
            (RequestLog.SensitiveKey(key) <==> Audit.SensitiveKey(key)) <==>
              if RequestLog.SensitiveKey(key)
              then !Cookie(n) && (n == "xapikey" ==> HasSuffix(lower, "_key") || HasSuffix(lower, "-key"))
              else !EndsInKey(lower) && !EndsInOther(a) && !KeyWord(a)
                   && (a != n ==> !EndsInFragment(a) && !SharedWord(a))
  {
    RequestLogAloneIff(key);
    AuditAloneIff(key);
  }
}
