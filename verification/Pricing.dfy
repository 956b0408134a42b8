/** What a request costs: token prices in micros, each side rounded up, computed in 64-bit integers. */
module Pricing {
  import opened Common
  import opened Catalog

  const MILLION := 1_000_000

  /** The price of one side as the code computes it. */
  function Price64(tokens: nat, rate: nat): int {
    if tokens == 0 || rate == 0 then 0 else Quotient(Wrap(Wrap(tokens * rate) + 999_999), MILLION)
  }

  /** The exact price, rounded up to a whole micro. */
  function Price(tokens: nat, rate: nat): nat {
    (tokens * rate + 999_999) / MILLION
  }

  datatype Sku = Sku(promptRate: nat, completionRate: nat)

  /** The first candidate with a row. */
  function FindSku(catalog: map<string, Sku>, candidates: seq<string>): Option<Sku> {
    if candidates == [] then None
    else if candidates[0] in catalog then Some(catalog[candidates[0]])
    else FindSku(catalog, candidates[1..])
  }

  datatype Error = InvalidUsage | NotFound

  method PriceUsage(catalog: map<string, Sku>, model: string, promptTokens: int, completionTokens: int)
    returns (reply: Result<int, Error>)
    ensures if TrimSpace(model) == "" || promptTokens < 0 || completionTokens < 0 then reply == Err(InvalidUsage)
            else match FindSku(catalog, SkuCandidates(model))
              case None => reply == Err(NotFound)
              case Some(sku) =>
                reply == Ok(Wrap(Price64(promptTokens, sku.promptRate) + Price64(completionTokens, sku.completionRate)))
  {
    if TrimSpace(model) == "" || promptTokens < 0 || completionTokens < 0 { return Err(InvalidUsage); }
    var candidates := SkuCandidates(model);
    var index := 0;
    while candidates[index] !in catalog
      invariant 0 <= index < |candidates| && FindSku(catalog, candidates) == FindSku(catalog, candidates[index..])
      decreases |candidates| - index
    {
      if index == |candidates| - 1 { return Err(NotFound); }
      index := index + 1;
    }
    var sku := catalog[candidates[index]];
    return Ok(Wrap(Price64(promptTokens, sku.promptRate) + Price64(completionTokens, sku.completionRate)));
  }

  /** "Priced" in the allowance means that PriceUsage finds a row: admission never lets an unpriceable model through. */
  lemma {:induction false} PricedIffFound(catalog: map<string, Sku>, names: seq<string>, candidates: seq<string>)
    requires forall n :: n in names <==> n in catalog
    ensures FindSku(catalog, candidates).Some? <==> exists j :: 0 <= j < |candidates| && candidates[j] in names
    decreases |candidates|
  {
    if candidates != [] { PricedIffFound(catalog, names, candidates[1..]); }
  }

  lemma PricedModelsAreFound(catalog: map<string, Sku>, names: seq<string>, model: string)
    requires forall n :: n in names <==> n in catalog
    ensures Matches(names, model) <==> FindSku(catalog, SkuCandidates(model)).Some?
  {
    var candidates := SkuCandidates(model);
    PricedIffFound(catalog, names, candidates);
    if exists j :: 0 <= j < |candidates| && candidates[j] in names {
      var j :| 0 <= j < |candidates| && candidates[j] in names;
      var i :| 0 <= i < |names| && names[i] == candidates[j];
    }
  }

  // ---------- rounding ----------

  /** The price is the exact cost rounded up: never below it, never a micro above it, and never free unless it is zero. */
  lemma RoundsUp(tokens: nat, rate: nat)
    ensures tokens * rate <= Price(tokens, rate) * MILLION < tokens * rate + MILLION
    ensures Price(tokens, rate) == 0 <==> tokens * rate == 0
  {
  }

  /** One part of a request that is billed in parts. */
  datatype Part = Part(prompt: nat, completion: nat)

  function Prompt(parts: seq<Part>): nat {
    if parts == [] then 0 else parts[0].prompt + Prompt(parts[1..])
  }

  function Completion(parts: seq<Part>): nat {
    if parts == [] then 0 else parts[0].completion + Completion(parts[1..])
  }

  function Cost(prompt: nat, completion: nat, sku: Sku): nat {
    Price(prompt, sku.promptRate) + Price(completion, sku.completionRate)
  }

  function SplitCost(parts: seq<Part>, sku: Sku): nat {
    if parts == [] then 0 else Cost(parts[0].prompt, parts[0].completion, sku) + SplitCost(parts[1..], sku)
  }

  /** Rounding two amounts up separately costs at most one micro more than rounding their sum. */
  lemma TwoParts(a: nat, b: nat, rate: nat)
    ensures Price(a + b, rate) <= Price(a, rate) + Price(b, rate) <= Price(a + b, rate) + 1
  {
  }

  /** A request billed in n parts costs at least the whole price and at most 2 * (n - 1) micros more. */
  lemma {:induction false} SplittingCosts(parts: seq<Part>, sku: Sku)
    requires parts != []
    ensures var whole := Cost(Prompt(parts), Completion(parts), sku);
            whole <= SplitCost(parts, sku) <= whole + 2 * (|parts| - 1)
    decreases |parts|
  {
    var rest := parts[1..];
    if rest != [] {
      SplittingCosts(rest, sku);
      TwoParts(parts[0].prompt, Prompt(rest), sku.promptRate);
      TwoParts(parts[0].completion, Completion(rest), sku.completionRate);
    } else {
      assert Prompt(rest) == 0 && Completion(rest) == 0 && SplitCost(rest, sku) == 0;
    }
  }

  /** The bound is met: parts of one token each, at one micro per million, cost a micro for each side of each part. */
  lemma {:induction false} SplittingBoundIsMet(n: nat)
    requires 1 <= n <= MILLION
    ensures var parts, sku := seq(n, i => Part(1, 1)), Sku(1, 1);
            SplitCost(parts, sku) == Cost(Prompt(parts), Completion(parts), sku) + 2 * (n - 1)
  {
    OneTokenParts(n);
  }

  lemma {:induction false} OneTokenParts(n: nat)
    ensures var parts := seq(n, i => Part(1, 1));
            Prompt(parts) == n && Completion(parts) == n && SplitCost(parts, Sku(1, 1)) == 2 * n
  {
    var parts := seq(n, i => Part(1, 1));
    if n > 0 {
      OneTokenParts(n - 1);
      assert parts[1..] == seq(n - 1, i => Part(1, 1));
    }
  }

  // ---------- overflow ----------

  predicate NoOverflow(tokens: nat, rate: nat) {
    tokens * rate + 999_999 <= MAX_INT64
  }

  lemma WrapTwice(n: int)
    ensures Wrap(Wrap(n) + 999_999) == Wrap(n + 999_999)
  {
    var q := (n + MAX_INT64 + 1) / TWO_64;
    assert Wrap(n) == n - q * TWO_64;
    WrapShift(n + 999_999, -q);
  }

  lemma WrapShift(n: int, k: int)
    ensures Wrap(n + k * TWO_64) == Wrap(n)
  {
    var m := n + MAX_INT64 + 1;
    assert (m + k * TWO_64) / TWO_64 == m / TWO_64 + k;
  }

  lemma WrapQuotient(n: nat)
    ensures n <= MAX_INT64 ==> Quotient(Wrap(n), MILLION) == n / MILLION
    ensures n > MAX_INT64 ==> Quotient(Wrap(n), MILLION) < n / MILLION
  {
  }

  /** One side is exact if its product fits, and too low otherwise. */
  lemma SideExactIff(tokens: nat, rate: nat)
    ensures Price64(tokens, rate) <= Price(tokens, rate)
    ensures Price64(tokens, rate) == Price(tokens, rate) <==> NoOverflow(tokens, rate)
  {
    if tokens == 0 || rate == 0 {
      assert tokens * rate == 0;
    } else {
      WrapTwice(tokens * rate);
      WrapQuotient(tokens * rate + 999_999);
    }
  }

  /** The 64-bit price is the exact price if and only if neither product overflows; otherwise the request is undercharged. */
  lemma {:induction false} PriceExactIff(prompt: nat, completion: nat, sku: Sku)
    ensures var computed := Price64(prompt, sku.promptRate) + Price64(completion, sku.completionRate);
            && Wrap(computed) == computed
            && computed <= Cost(prompt, completion, sku)
            && (computed == Cost(prompt, completion, sku)
                <==> NoOverflow(prompt, sku.promptRate) && NoOverflow(completion, sku.completionRate))
  {
    SideExactIff(prompt, sku.promptRate);
    SideExactIff(completion, sku.completionRate);
    SideFits(prompt, sku.promptRate);
    SideFits(completion, sku.completionRate);
    SumExact(Price64(prompt, sku.promptRate), Price64(completion, sku.completionRate),
             Price(prompt, sku.promptRate), Price(completion, sku.completionRate));
  }

  lemma SumExact(a: int, b: int, a': int, b': int)
    requires a <= a' && b <= b' && -MAX_INT64 <= 4 * a <= MAX_INT64 && -MAX_INT64 <= 4 * b <= MAX_INT64
    ensures Wrap(a + b) == a + b && (a + b == a' + b' <==> a == a' && b == b')
  {
  }

  lemma SideFits(tokens: nat, rate: nat)
    ensures -MAX_INT64 <= 4 * Price64(tokens, rate) <= MAX_INT64
  {
  }
}
