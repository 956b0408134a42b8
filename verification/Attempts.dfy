/** The identity under which an attempt is charged and recorded, and how a usage row is traced back to its request. */
module Attempts {
  import opened Common

  const SEPARATOR := ":attempt:"

  function Digit(d: int): char
    requires 0 <= d < 10
  {
    ('0' as int + d) as char
  }

  function NatString(n: nat): string {
    if n < 10 then [Digit(n)] else NatString(n / 10) + [Digit(n % 10)]
  }

  /** strconv.Itoa. */
  function Itoa(n: int): string {
    if n < 0 then "-" + NatString(-n) else NatString(n)
  }

  function IdempotencyKey(request: string, attempt: int): string {
    request + SEPARATOR + Itoa(attempt)
  }

  predicate At(s: string, sub: string, i: int) {
    0 <= i <= |s| - |sub| && s[i..i + |sub|] == sub
  }

  /** strings.LastIndex, from position i downwards. */
  function LastIndexFrom(s: string, sub: string, i: int): (r: int)
    requires i <= |s| - |sub|
    ensures -1 <= r <= i || r == -1
    ensures r >= 0 ==> At(s, sub, r)
    ensures forall j :: 0 <= j <= i && j > r ==> !At(s, sub, j)
    decreases i + 1
  {
    if i < 0 then -1 else if At(s, sub, i) then i else LastIndexFrom(s, sub, i - 1)
  }

  function LastIndex(s: string, sub: string): int {
    if |s| < |sub| then -1 else LastIndexFrom(s, sub, |s| - |sub|)
  }

  /** The request a usage row belongs to; rows from before the column was added carry it only in their id. */
  function EffectiveGatewayLogId(gatewayLogId: string, id: string): string {
    if TrimSpace(gatewayLogId) != "" then TrimSpace(gatewayLogId)
    else if LastIndex(id, SEPARATOR) > 0 then id[..LastIndex(id, SEPARATOR)]
    else TrimSpace(id)
  }

  predicate IsNumeral(s: string) {
    forall i :: 0 <= i < |s| ==> s[i] == '-' || '0' <= s[i] <= '9'
  }

  lemma {:induction false} NatStringIsNumeral(n: nat)
    ensures NatString(n) != "" && IsNumeral(NatString(n)) && NatString(n)[0] != '-'
  {
    if n >= 10 { NatStringIsNumeral(n / 10); }
  }

  lemma ItoaIsNumeral(n: int)
    ensures Itoa(n) != "" && IsNumeral(Itoa(n)) && (Itoa(n)[0] == '-' <==> n < 0)
  {
    NatStringIsNumeral(if n < 0 then -n else n);
  }

  lemma {:induction false} NatStringInjective(m: nat, n: nat)
    requires NatString(m) == NatString(n)
    ensures m == n
  {
    var a, b := NatString(m), NatString(n);
    if m >= 10 { NatStringIsNumeral(m / 10); }
    if n >= 10 { NatStringIsNumeral(n / 10); }
    assert a[|a| - 1] == Digit(m % 10) && b[|b| - 1] == Digit(n % 10);
    if m >= 10 && n >= 10 {
      assert a[..|a| - 1] == NatString(m / 10) && b[..|b| - 1] == NatString(n / 10);
      NatStringInjective(m / 10, n / 10);
    }
  }

  lemma ItoaInjective(m: int, n: int)
    requires Itoa(m) == Itoa(n)
    ensures m == n
  {
    ItoaIsNumeral(m);
    ItoaIsNumeral(n);
    if m < 0 {
      assert Itoa(m)[1..] == Itoa(n)[1..];
      NatStringInjective(-m, -n);
    } else {
      NatStringInjective(m, n);
    }
  }

  /** After the separator's first colon, no colon is followed by an `a`. */
  lemma NoLaterSeparator(request: string, attempt: int, i: int)
    requires |request| < i < |IdempotencyKey(request, attempt)| - 1
    ensures IdempotencyKey(request, attempt)[i..i + 2] != SEPARATOR[..2]
  {
    var key, j := IdempotencyKey(request, attempt), i - |request|;
    ItoaIsNumeral(attempt);
    assert key[i..i + 2] == [key[i], key[i + 1]] && SEPARATOR[..2] == [':', 'a'];
    if j >= |SEPARATOR| {
      assert key[i] == Itoa(attempt)[j - |SEPARATOR|] != ':';
    } else if j + 1 == |SEPARATOR| {
      var digits := Itoa(attempt);
      assert digits[0] == '-' || '0' <= digits[0] <= '9';
      assert key[i + 1] == digits[0];
    } else {
      assert key[i] == SEPARATOR[j] != ':';
    }
  }

  /** The last separator of a key is the one that was put there, whatever the request id looks like. */
  lemma LastSeparator(request: string, attempt: int)
    ensures LastIndex(IdempotencyKey(request, attempt), SEPARATOR) == |request|
  {
    var key, n := IdempotencyKey(request, attempt), |request|;
    assert key[n..n + |SEPARATOR|] == SEPARATOR;
    assert At(key, SEPARATOR, n);
    forall i | n < i <= |key| - |SEPARATOR| ensures !At(key, SEPARATOR, i) {
      NoLaterSeparator(request, attempt, i);
      assert key[i..i + |SEPARATOR|][..2] == key[i..i + 2];
    }
  }

  /** Different attempts never share a claim, a usage row or an invoice line. */
  lemma KeysNeverCollide(request: string, attempt: int, request': string, attempt': int)
    requires IdempotencyKey(request, attempt) == IdempotencyKey(request', attempt')
    ensures request == request' && attempt == attempt'
  {
    LastSeparator(request, attempt);
    LastSeparator(request', attempt');
    var key := IdempotencyKey(request, attempt);
    assert key[..|request|] == request && IdempotencyKey(request', attempt')[..|request'|] == request';
    assert key[|request| + |SEPARATOR|..] == Itoa(attempt);
    assert IdempotencyKey(request', attempt')[|request'| + |SEPARATOR|..] == Itoa(attempt');
    ItoaInjective(attempt, attempt');
  }

  /** A row without the newer column still leads back to its request, unless the request id was empty. */
  lemma RequestRecoveredIff(request: string, attempt: int)
    ensures EffectiveGatewayLogId("", IdempotencyKey(request, attempt)) == request <==> request != ""
  {
    LastSeparator(request, attempt);
    ItoaIsNumeral(attempt);
    var key := IdempotencyKey(request, attempt);
    assert key[..|request|] == request;
    if request == "" {
      var digits := Itoa(attempt);
      assert key[|key| - 1] == digits[|digits| - 1];
      TrimKeeps(key);
    }
  }
}
