/** The detail view of one request log entry: four maps, compacted and then cleaned in turn under one budget. */
module RequestDetail {
  import opened Common
  import opened Json
  import opened RequestLog
  import opened Sanitizer
  import opened SanitizerExact

  datatype Source = Source(contentHidden: bool, request: seq<Field>, response: seq<Field>, routing: seq<Field>, error: seq<Field>)

  datatype Detail = Detail(request: Option<Json>, response: Option<Json>, routing: Option<Json>, error: Option<Json>,
                           contentAvailable: bool, contentHidden: bool, redacted: bool, truncated: bool)

  predicate Blank(v: Json) {
    v in {Null, Arr([]), Obj([]), Str("")}
  }

  /** Entries without content are left out. */
  function Compact(values: seq<Field>): seq<Field> {
    if values == [] then [] else (if Blank(values[0].value) then [] else [values[0]]) + Compact(values[1..])
  }

  method CompactMap(values: seq<Field>) returns (out: seq<Field>)
    ensures out == Compact(values)
  {
    out := [];
    for i := 0 to |values|
      invariant out + Compact(values[i..]) == Compact(values)
    {
      if !Blank(values[i].value) { out := out + [values[i]]; }
    }
    assert values[|values|..] == [];
  }

  /** One part: nothing when it is withheld or empty. */
  function Part(b: Budget, fields: seq<Field>, withheld: bool): (Option<Json>, Budget) {
    if withheld || fields == [] then (None, b)
    else var (out, b) := CleanValue(b, Obj(fields), "", 0); (Some(out), b)
  }

  // Each part starts from the budget the part before it left.

  function RequestPart(s: Source): (Option<Json>, Budget) {
    Part(FULL, Compact(s.request), s.contentHidden)
  }

  function ResponsePart(s: Source): (Option<Json>, Budget) {
    Part(RequestPart(s).1, Compact(s.response), s.contentHidden)
  }

  function RoutingPart(s: Source): (Option<Json>, Budget) {
    Part(ResponsePart(s).1, Compact(s.routing), false)
  }

  function ErrorPart(s: Source): (Option<Json>, Budget) {
    Part(RoutingPart(s).1, Compact(s.error), s.contentHidden)
  }

  function Project(s: Source): Detail {
    Detail(RequestPart(s).0, ResponsePart(s).0, RoutingPart(s).0, ErrorPart(s).0,
           !s.contentHidden && (Compact(s.request) != [] || Compact(s.response) != [] || Compact(s.error) != []),
           s.contentHidden, ErrorPart(s).1.redacted, ErrorPart(s).1.truncated)
  }

  method ProjectDetail(s: Source) returns (d: Detail)
    ensures d == Project(s)
  {
    var request := CompactMap(s.request);
    var response := CompactMap(s.response);
    var routing := CompactMap(s.routing);
    var error := CompactMap(s.error);
    d := Detail(None, None, None, None,
                !s.contentHidden && (|request| > 0 || |response| > 0 || |error| > 0), s.contentHidden, false, false);
    var budget := new SanitizeBudget();
    if !s.contentHidden {
      if |request| > 0 {
        var out := budget.Clean(Obj(request), "", 0);
        d := d.(request := Some(out));
      }
      if |response| > 0 {
        var out := budget.Clean(Obj(response), "", 0);
        d := d.(response := Some(out));
      }
    }
    if |routing| > 0 {
      var out := budget.Clean(Obj(routing), "", 0);
      d := d.(routing := Some(out));
    }
    if !s.contentHidden && |error| > 0 {
      var out := budget.Clean(Obj(error), "", 0);
      d := d.(error := Some(out));
    }
    d := d.(redacted := budget.redacted, truncated := budget.truncated);
  }

  // ---------- what the view guarantees ----------

  function Original(fields: seq<Field>, withheld: bool): Option<Json> {
    if withheld || Compact(fields) == [] then None else Some(Obj(Compact(fields)))
  }

  /** The view of the log entry with nothing hidden and nothing cut. */
  function Unabridged(s: Source): Detail {
    Detail(Original(s.request, s.contentHidden), Original(s.response, s.contentHidden), Original(s.routing, false),
           Original(s.error, s.contentHidden),
           !s.contentHidden && (Compact(s.request) != [] || Compact(s.response) != [] || Compact(s.error) != []),
           s.contentHidden, false, false)
  }

  lemma PartExact(b: Budget, fields: seq<Field>, withheld: bool)
    requires b.remaining >= 0 && b.nodes >= 0
    ensures Silent(Part(b, Compact(fields), withheld).1)
            ==> Silent(b) && Part(b, Compact(fields), withheld).0 == Original(fields, withheld)
    ensures Part(b, Compact(fields), withheld).1.remaining >= 0 && Part(b, Compact(fields), withheld).1.nodes >= 0
  {
    if !withheld && Compact(fields) != [] {
      var v := Obj(Compact(fields));
      CleanPaid(b, v, "", 0);
      if Silent(b) { ExactIffFits(b, v, "", 0); } else { FlagsStay(b, v, "", 0); }
    }
  }

  /** If neither flag is set, the reader sees all there is: every part is the part of the entry, compacted. */
  lemma {:induction false} NoFlagNoChange(s: Source)
    requires !Project(s).redacted && !Project(s).truncated
    ensures Project(s) == Unabridged(s)
  {
    PartExact(FULL, s.request, s.contentHidden);
    PartExact(RequestPart(s).1, s.response, s.contentHidden);
    PartExact(ResponsePart(s).1, s.routing, false);
    PartExact(RoutingPart(s).1, s.error, s.contentHidden);
  }

  ghost predicate SafePart(part: Option<Json>) {
    part.Some? ==> Hidden(part.value) && Within(part.value, MAX_DEPTH + 1)
  }

  /** What cleaning one part puts out. */
  ghost function CountPart(b: Budget, fields: seq<Field>, withheld: bool): Tally {
    if withheld || fields == [] then NOTHING else CountValue(b, Obj(fields), "", 0)
  }

  ghost function FirstParts(s: Source): Tally {
    CountPart(FULL, Compact(s.request), s.contentHidden).Plus(CountPart(RequestPart(s).1, Compact(s.response), s.contentHidden))
  }

  ghost function LastParts(s: Source): Tally {
    CountPart(ResponsePart(s).1, Compact(s.routing), false).Plus(CountPart(RoutingPart(s).1, Compact(s.error), s.contentHidden))
  }

  ghost function DetailTally(s: Source): Tally {
    FirstParts(s).Plus(LastParts(s))
  }

  function PartBytes(part: Option<Json>): nat {
    if part.Some? then Bytes(part.value) else 0
  }

  function PartValues(part: Option<Json>): nat {
    if part.Some? then Values(part.value) else 0
  }

  function DetailBytes(d: Detail): nat {
    PartBytes(d.request) + PartBytes(d.response) + (PartBytes(d.routing) + PartBytes(d.error))
  }

  function DetailValues(d: Detail): nat {
    PartValues(d.request) + PartValues(d.response) + (PartValues(d.routing) + PartValues(d.error))
  }

  lemma PartSafe(b: Budget, fields: seq<Field>, withheld: bool)
    requires b.remaining >= 0
    ensures SafePart(Part(b, fields, withheld).0) && Part(b, fields, withheld).1.remaining >= 0
  {
    if !withheld && fields != [] {
      CleanAbridges(b, Obj(fields), "", 0);
      AbridgementIsSafe(CleanValue(b, Obj(fields), "", 0).0, Obj(fields), "", 0);
    }
  }

  lemma PartPaid(b: Budget, fields: seq<Field>, withheld: bool)
    requires b.remaining >= 0 && b.nodes >= 0
    ensures Paid(b, Part(b, fields, withheld).1, CountPart(b, fields, withheld), 1)
  {
    if !withheld && fields != [] { CleanPaid(b, Obj(fields), "", 0); }
  }

  lemma PaidThen(b0: Budget, b1: Budget, b2: Budget, first: Tally, n1: int, second: Tally, n2: int)
    requires Paid(b0, b1, first, n1) && Paid(b1, b2, second, n2)
    ensures Paid(b0, b2, first.Plus(second), n1 + n2)
  {
  }

  lemma TwoPaid(b: Budget, fields: seq<Field>, withheld: bool, fields': seq<Field>, withheld': bool)
    requires b.remaining >= 0 && b.nodes >= 0
    ensures var b1 := Part(b, fields, withheld).1;
            Paid(b, Part(b1, fields', withheld').1, CountPart(b, fields, withheld).Plus(CountPart(b1, fields', withheld')), 2)
  {
    var b1 := Part(b, fields, withheld).1;
    PartPaid(b, fields, withheld);
    PartPaid(b1, fields', withheld');
    PaidThen(b, b1, Part(b1, fields', withheld').1, CountPart(b, fields, withheld), 1, CountPart(b1, fields', withheld'), 1);
  }

  lemma FirstPartsPaid(s: Source)
    ensures Paid(FULL, ResponsePart(s).1, FirstParts(s), 2)
  {
    TwoPaid(FULL, Compact(s.request), s.contentHidden, Compact(s.response), s.contentHidden);
  }

  lemma LastPartsPaid(s: Source)
    ensures Paid(ResponsePart(s).1, ErrorPart(s).1, LastParts(s), 2)
  {
    FirstPartsPaid(s);
    TwoPaid(ResponsePart(s).1, Compact(s.routing), false, Compact(s.error), s.contentHidden);
  }

  lemma DetailPaid(s: Source)
    ensures Paid(FULL, ErrorPart(s).1, DetailTally(s), 4)
  {
    FirstPartsPaid(s);
    LastPartsPaid(s);
    PaidThen(FULL, ResponsePart(s).1, ErrorPart(s).1, FirstParts(s), 2, LastParts(s), 2);
  }

  ghost predicate PairYields(a: Option<Json>, b: Option<Json>, t: Tally) {
    Yields(PartBytes(a) + PartBytes(b), PartValues(a) + PartValues(b), t)
  }

  lemma PartYields(b: Budget, fields: seq<Field>, withheld: bool)
    requires b.remaining >= 0 && b.nodes >= 0
    ensures var out := Part(b, fields, withheld).0;
            Yields(PartBytes(out), PartValues(out), CountPart(b, fields, withheld))
  {
    if !withheld && fields != [] { CopiedOrMarked(b, Obj(fields), "", 0); }
  }

  lemma TwoYield(b: Budget, fields: seq<Field>, withheld: bool, fields': seq<Field>, withheld': bool)
    requires b.remaining >= 0 && b.nodes >= 0
    ensures var (out, b1) := Part(b, fields, withheld);
            PairYields(out, Part(b1, fields', withheld').0, CountPart(b, fields, withheld).Plus(CountPart(b1, fields', withheld')))
  {
    var (out, b1) := Part(b, fields, withheld);
    var out' := Part(b1, fields', withheld').0;
    PartPaid(b, fields, withheld);
    PartYields(b, fields, withheld);
    PartYields(b1, fields', withheld');
    YieldBoth(PartBytes(out), PartValues(out), CountPart(b, fields, withheld),
              PartBytes(out'), PartValues(out'), CountPart(b1, fields', withheld'));
  }

  lemma FirstPartsYield(s: Source)
    ensures PairYields(RequestPart(s).0, ResponsePart(s).0, FirstParts(s))
  {
    TwoYield(FULL, Compact(s.request), s.contentHidden, Compact(s.response), s.contentHidden);
  }

  lemma LastPartsYield(s: Source)
    ensures PairYields(RoutingPart(s).0, ErrorPart(s).0, LastParts(s))
  {
    FirstPartsPaid(s);
    TwoYield(ResponsePart(s).1, Compact(s.routing), false, Compact(s.error), s.contentHidden);
  }

  lemma PairsYield(d: Detail, t: Tally, t': Tally)
    requires PairYields(d.request, d.response, t) && PairYields(d.routing, d.error, t')
    ensures Yields(DetailBytes(d), DetailValues(d), t.Plus(t'))
  {
  }

  lemma DetailYields(s: Source)
    ensures Yields(DetailBytes(Project(s)), DetailValues(Project(s)), DetailTally(s))
  {
    FirstPartsYield(s);
    LastPartsYield(s);
    PairsYield(Project(s), FirstParts(s), LastParts(s));
  }

  /** What follows from the two counts. */
  lemma Bounded(b: Budget, t: Tally, bytes: nat, values: nat)
    requires Paid(FULL, b, t, 4) && Yields(bytes, values, t)
    ensures t.copied <= MAX_TOTAL_BYTES && t.visited <= MAX_TOTAL_NODES && t.values <= 4 + 100 * MAX_TOTAL_NODES
    ensures bytes <= MAX_TOTAL_BYTES + 14 * (4 + 100 * MAX_TOTAL_NODES)
  {
  }

  /**
   Whatever was logged: content that is hidden does not appear, no entry under a sensitive key keeps its value at any
   depth, and nothing is deeper than thirteen levels or longer than its limit.
   */
  lemma {:induction false} DetailIsSafe(s: Source)
    ensures var d := Project(s);
            && (s.contentHidden ==> d.request.None? && d.response.None? && d.error.None? && !d.contentAvailable)
            && SafePart(d.request) && SafePart(d.response) && SafePart(d.routing) && SafePart(d.error)
  {
    PartSafe(FULL, Compact(s.request), s.contentHidden);
    PartSafe(RequestPart(s).1, Compact(s.response), s.contentHidden);
    PartSafe(ResponsePart(s).1, Compact(s.routing), false);
    PartSafe(RoutingPart(s).1, Compact(s.error), s.contentHidden);
  }

  /**
   However large the entry: over all four parts at most 512 KiB of keys and strings are copied and at most 2000 values
   are visited, so at most a hundred times as many are put out; all that comes on top is marks of at most fourteen
   bytes, one to a value. So the whole view is bounded.
   */
  lemma {:induction false} DetailIsBounded(s: Source)
    ensures var d := Project(s); var t := DetailTally(s);
            && t.copied <= MAX_TOTAL_BYTES
            && t.visited <= MAX_TOTAL_NODES
            && DetailValues(d) == t.values <= 4 + 100 * MAX_TOTAL_NODES
            && t.copied <= DetailBytes(d) <= t.copied + 14 * t.marks && t.marks <= t.values
            && DetailBytes(d) <= MAX_TOTAL_BYTES + 14 * (4 + 100 * MAX_TOTAL_NODES)
  {
    DetailPaid(s);
    DetailYields(s);
    Bounded(ErrorPart(s).1, DetailTally(s), DetailBytes(Project(s)), DetailValues(Project(s)));
  }
}
