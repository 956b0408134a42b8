/**
 What the sanitizer guarantees for every JSON tree, every iteration order and every budget: what it lets through is an
 abridgement of the input, no credential survives, the sizes are bounded, and nothing is changed silently.
 */
module Sanitizer {
  import opened Json
  import opened RequestLog

  // ---------- the output abridges the input ----------

  predicate Marker(v: Json) {
    v == TRUNCATED || v == REDACTED
  }

  /** A string cut after a prefix of at most the limit. */
  ghost predicate Cut(out: Json, text: string) {
    exists n :: 0 <= n < |text| && n <= MAX_STRING_BYTES && out == Str(text[..n] + ELLIPSIS)
  }

  /**
   `out` may stand for `v` found under `key` at `depth`: a marker, or the same kind of value with the first of its
   entries, each under its own key and each an abridgement of the entry it came from.
   */
  ghost predicate Abridges(out: Json, v: Json, key: string, depth: nat)
    decreases v
  {
    || out == TRUNCATED
    || (SensitiveKey(key) && out == REDACTED)
    || (!SensitiveKey(key) && depth <= MAX_DEPTH &&
        match v
        case Str(text) => (out == v && |text| <= MAX_STRING_BYTES) || Cut(out, text)
        case Obj(fields) => out.Obj? && |out.fields| <= MAX_MAP_ITEMS && AbridgesFields(out.fields, fields, depth)
        case Arr(items) => out.Arr? && |out.items| <= MAX_ARRAY_ITEMS && AbridgesItems(out.items, items, key, depth)
                           && |out.items| == Min(|items|, MAX_ARRAY_ITEMS)
        case _ => out == v)
  }

  ghost predicate AbridgesFields(out: seq<Field>, fields: seq<Field>, depth: nat)
    decreases fields
  {
    out == [] || (fields != [] && out[0].key == fields[0].key && Abridges(out[0].value, fields[0].value, fields[0].key, depth + 1)
                  && AbridgesFields(out[1..], fields[1..], depth))
  }

  ghost predicate AbridgesItems(out: seq<Json>, items: seq<Json>, key: string, depth: nat)
    decreases items
  {
    out == [] || (items != [] && Abridges(out[0], items[0], key, depth + 1) && AbridgesItems(out[1..], items[1..], key, depth))
  }

  lemma {:induction false} FieldsOfPrefix(out: seq<Field>, fields: seq<Field>, n: nat, depth: nat)
    requires n <= |fields| && AbridgesFields(out, fields[..n], depth)
    ensures AbridgesFields(out, fields, depth) && |out| <= n
    decreases |out|
  {
    if out != [] {
      assert fields[..n][1..] == fields[1..][..n - 1];
      FieldsOfPrefix(out[1..], fields[1..], n - 1, depth);
    }
  }

  lemma {:induction false} ItemsOfPrefix(out: seq<Json>, items: seq<Json>, n: nat, key: string, depth: nat)
    requires n <= |items| && AbridgesItems(out, items[..n], key, depth)
    ensures AbridgesItems(out, items, key, depth) && |out| <= n
    decreases |out|
  {
    if out != [] {
      assert items[..n][1..] == items[1..][..n - 1];
      ItemsOfPrefix(out[1..], items[1..], n - 1, key, depth);
    }
  }

  lemma CutString(b: Budget, text: string, key: string, depth: nat)
    requires 0 < b.remaining && !SensitiveKey(key) && depth <= MAX_DEPTH
    ensures Abridges(Expand(b, Str(text), key, depth).0, Str(text), key, depth)
  {
  }

  /** Whatever the budget, whatever the order of the entries: the output abridges the input. */
  lemma {:induction false} CleanAbridges(b: Budget, v: Json, key: string, depth: nat)
    requires b.remaining >= 0
    ensures Abridges(CleanValue(b, v, key, depth).0, v, key, depth)
    ensures 0 <= CleanValue(b, v, key, depth).1.remaining <= b.remaining
    decreases v, 1
  {
    if b.nodes > 0 && !SensitiveKey(key) && depth <= MAX_DEPTH && b.remaining > 0 {
      ExpandAbridges(b.(nodes := b.nodes - 1), v, key, depth);
    }
  }

  lemma {:induction false} ExpandAbridges(b: Budget, v: Json, key: string, depth: nat)
    requires b.remaining > 0 && !SensitiveKey(key) && depth <= MAX_DEPTH
    ensures Abridges(Expand(b, v, key, depth).0, v, key, depth)
    ensures 0 <= Expand(b, v, key, depth).1.remaining <= b.remaining
    decreases v, 0
  {
    match v
    case Str(text) => CutString(b, text, key, depth);
    case Obj(fields) =>
      var wide := |fields| > MAX_MAP_ITEMS;
      var visited := if wide then fields[..MAX_MAP_ITEMS] else fields;
      FieldsAbridge(b.(truncated := b.truncated || wide), visited, depth);
      assert visited == fields[..|visited|];
      FieldsOfPrefix(Expand(b, v, key, depth).0.fields, fields, |visited|, depth);
    case Arr(items) =>
      var wide := |items| > MAX_ARRAY_ITEMS;
      var visited := if wide then items[..MAX_ARRAY_ITEMS] else items;
      ItemsAbridge(b.(truncated := b.truncated || wide), visited, key, depth);
      assert visited == items[..|visited|];
      ItemsOfPrefix(Expand(b, v, key, depth).0.items, items, |visited|, key, depth);
    case _ =>
  }

  lemma {:induction false} FieldsAbridge(b: Budget, fields: seq<Field>, depth: nat)
    requires b.remaining >= 0
    ensures AbridgesFields(CleanFields(b, fields, depth).0, fields, depth)
    ensures 0 <= CleanFields(b, fields, depth).1.remaining <= b.remaining
    decreases fields
  {
    if fields != [] && |fields[0].key| <= b.remaining {
      var rest := b.(remaining := b.remaining - |fields[0].key|);
      CleanAbridges(rest, fields[0].value, fields[0].key, depth + 1);
      FieldsAbridge(CleanValue(rest, fields[0].value, fields[0].key, depth + 1).1, fields[1..], depth);
    }
  }

  lemma {:induction false} ItemsAbridge(b: Budget, items: seq<Json>, key: string, depth: nat)
    requires b.remaining >= 0
    ensures AbridgesItems(CleanItems(b, items, key, depth).0, items, key, depth)
    ensures |CleanItems(b, items, key, depth).0| == |items|
    ensures 0 <= CleanItems(b, items, key, depth).1.remaining <= b.remaining
    decreases items
  {
    if items != [] {
      CleanAbridges(b, items[0], key, depth + 1);
      ItemsAbridge(CleanValue(b, items[0], key, depth + 1).1, items[1..], key, depth);
    }
  }

  // ---------- no credential survives, and nothing is deep or long ----------

  /** At every depth, an entry under a sensitive key holds a marker. */
  ghost predicate Hidden(v: Json)
    decreases v
  {
    match v
    case Obj(fields) => forall i :: 0 <= i < |fields| ==> (SensitiveKey(fields[i].key) ==> Marker(fields[i].value)) && Hidden(fields[i].value)
    case Arr(items) => forall i :: 0 <= i < |items| ==> Hidden(items[i])
    case _ => true
  }

  /** No more than `depth` levels, and no string, array or object beyond its limit. */
  ghost predicate Within(v: Json, depth: nat)
    decreases v
  {
    match v
    case Str(text) => |text| <= MAX_STRING_BYTES + |ELLIPSIS|
    case Obj(fields) => |fields| <= MAX_MAP_ITEMS && depth > 0 && forall i :: 0 <= i < |fields| ==> Within(fields[i].value, depth - 1)
    case Arr(items) => |items| <= MAX_ARRAY_ITEMS && depth > 0 && forall i :: 0 <= i < |items| ==> Within(items[i], depth - 1)
    case _ => true
  }

  lemma {:induction false} FieldAt(out: seq<Field>, fields: seq<Field>, depth: nat, i: nat)
    requires AbridgesFields(out, fields, depth) && i < |out|
    ensures i < |fields| && out[i].key == fields[i].key
    ensures Abridges(out[i].value, fields[i].value, fields[i].key, depth + 1)
    decreases i
  {
    if i > 0 { FieldAt(out[1..], fields[1..], depth, i - 1); }
  }

  lemma {:induction false} ItemAt(out: seq<Json>, items: seq<Json>, key: string, depth: nat, i: nat)
    requires AbridgesItems(out, items, key, depth) && i < |out|
    ensures i < |items| && Abridges(out[i], items[i], key, depth + 1)
    decreases i
  {
    if i > 0 { ItemAt(out[1..], items[1..], key, depth, i - 1); }
  }

  /** Any abridgement hides every credential and stays within the limits. */
  lemma {:induction false} AbridgementIsSafe(out: Json, v: Json, key: string, depth: nat)
    requires Abridges(out, v, key, depth) && depth <= MAX_DEPTH + 1
    ensures Hidden(out) && Within(out, MAX_DEPTH + 1 - depth) && (SensitiveKey(key) ==> Marker(out))
    decreases v
  {
    if !Marker(out) {
      match v
      case Obj(fields) =>
        forall i | 0 <= i < |out.fields|
          ensures Hidden(out.fields[i].value) && Within(out.fields[i].value, MAX_DEPTH - depth)
                  && (SensitiveKey(out.fields[i].key) ==> Marker(out.fields[i].value))
        {
          FieldAt(out.fields, fields, depth, i);
          AbridgementIsSafe(out.fields[i].value, fields[i].value, fields[i].key, depth + 1);
        }
      case Arr(items) =>
        forall i | 0 <= i < |out.items| ensures Hidden(out.items[i]) && Within(out.items[i], MAX_DEPTH - depth) {
          ItemAt(out.items, items, key, depth, i);
          AbridgementIsSafe(out.items[i], items[i], key, depth + 1);
        }
      case _ =>
    }
  }

  // ---------- how much can come out ----------

  /** The bytes of all keys and strings. */
  function Bytes(v: Json): nat {
    match v
    case Str(text) => |text|
    case Obj(fields) => FieldBytes(fields)
    case Arr(items) => ItemBytes(items)
    case _ => 0
  }

  function FieldBytes(fields: seq<Field>): nat {
    if fields == [] then 0 else |fields[0].key| + Bytes(fields[0].value) + FieldBytes(fields[1..])
  }

  function ItemBytes(items: seq<Json>): nat {
    if items == [] then 0 else Bytes(items[0]) + ItemBytes(items[1..])
  }

  /** The number of values in a tree. */
  function Values(v: Json): nat {
    match v
    case Obj(fields) => 1 + FieldValues(fields)
    case Arr(items) => 1 + ItemValues(items)
    case _ => 1
  }

  function FieldValues(fields: seq<Field>): nat {
    if fields == [] then 0 else Values(fields[0].value) + FieldValues(fields[1..])
  }

  function ItemValues(items: seq<Json>): nat {
    if items == [] then 0 else Values(items[0]) + ItemValues(items[1..])
  }

  /**
   What one run puts out, counted on the way: bytes copied from the input, marks written, values visited, values put
   out. The text of the output alone does not tell, since the input may itself read like a mark.
   */
  datatype Tally = Tally(copied: nat, marks: nat, visited: nat, values: nat)
  {
    function Plus(other: Tally): Tally {
      Tally(copied + other.copied, marks + other.marks, visited + other.visited, values + other.values)
    }

    function Copying(n: nat): Tally {
      this.(copied := copied + n)
    }

    function Visiting(): Tally {
      this.(visited := visited + 1)
    }

    function Holding(): Tally {
      this.(values := values + 1)
    }
  }

  const NOTHING := Tally(0, 0, 0, 0)

  ghost function CountValue(b: Budget, v: Json, key: string, depth: nat): Tally
    decreases v, 1
  {
    if b.nodes <= 0 then Tally(0, 1, 0, 1)
    else if SensitiveKey(key) || depth > MAX_DEPTH || b.remaining <= 0 then Tally(0, 1, 1, 1)
    else CountExpand(b.(nodes := b.nodes - 1), v, key, depth).Visiting()
  }

  ghost function CountExpand(b: Budget, v: Json, key: string, depth: nat): Tally
    decreases v, 0
  {
    match v
    case Str(text) =>
      var limit := Min(Min(|text|, MAX_STRING_BYTES), b.remaining);
      if limit < 0 then NOTHING else Tally(limit, if limit < |text| then 1 else 0, 0, 1)
    case Obj(fields) =>
      var wide := |fields| > MAX_MAP_ITEMS;
      CountFields(b.(truncated := b.truncated || wide), if wide then fields[..MAX_MAP_ITEMS] else fields, depth).Holding()
    case Arr(items) =>
      var wide := |items| > MAX_ARRAY_ITEMS;
      CountItems(b.(truncated := b.truncated || wide), if wide then items[..MAX_ARRAY_ITEMS] else items, key, depth).Holding()
    case _ => Tally(0, 0, 0, 1)
  }

  ghost function CountFields(b: Budget, fields: seq<Field>, depth: nat): Tally
    decreases fields
  {
    if fields == [] || |fields[0].key| > b.remaining then NOTHING
    else
      var rest := b.(remaining := b.remaining - |fields[0].key|);
      CountValue(rest, fields[0].value, fields[0].key, depth + 1).Copying(|fields[0].key|)
        .Plus(CountFields(CleanValue(rest, fields[0].value, fields[0].key, depth + 1).1, fields[1..], depth))
  }

  ghost function CountItems(b: Budget, items: seq<Json>, key: string, depth: nat): Tally
    decreases items
  {
    if items == [] then NOTHING
    else
      CountValue(b, items[0], key, depth + 1)
        .Plus(CountItems(CleanValue(b, items[0], key, depth + 1).1, items[1..], key, depth))
  }

  /**
   Every byte copied and every value visited is taken from the budget, and a value is put out only for one of the
   `entries` or for a visited value that holds it.
   */
  ghost predicate Paid(b: Budget, b': Budget, t: Tally, entries: int) {
    && 0 <= b'.remaining <= b.remaining && 0 <= b'.nodes <= b.nodes
    && t.copied == b.remaining - b'.remaining
    && t.visited == b.nodes - b'.nodes
    && t.values <= entries + 100 * t.visited
  }

  /** Output of so many bytes and values: what is not copied is the marks, of at most fourteen bytes, one to a value. */
  ghost predicate Yields(bytes: nat, values: nat, t: Tally) {
    t.copied <= bytes <= t.copied + 14 * t.marks && values == t.values && t.marks <= t.values
  }

  /**
   For every tree, iteration order and budget: the bytes copied are what is taken from the byte budget and the values
   visited what is taken from the node budget.
   */
  lemma {:induction false} CleanPaid(b: Budget, v: Json, key: string, depth: nat)
    requires b.remaining >= 0 && b.nodes >= 0
    ensures Paid(b, CleanValue(b, v, key, depth).1, CountValue(b, v, key, depth), 1)
    decreases v, 1
  {
    if b.nodes > 0 && !SensitiveKey(key) && depth <= MAX_DEPTH && b.remaining > 0 {
      ExpandPaid(b.(nodes := b.nodes - 1), v, key, depth);
    }
  }

  /** The value itself was paid for before it was expanded. */
  lemma {:induction false} ExpandPaid(b: Budget, v: Json, key: string, depth: nat)
    requires b.remaining > 0 && b.nodes >= 0
    ensures Paid(b.(nodes := b.nodes + 1), Expand(b, v, key, depth).1, CountExpand(b, v, key, depth).Visiting(), 1)
    decreases v, 0
  {
    if v.Obj? {
      ObjectPaid(b, v.fields, key, depth);
    } else if v.Arr? {
      ArrayPaid(b, v.items, key, depth);
    } else if v.Str? {
      StringPaid(b, v.text, key, depth);
    } else {
      LeafPaid(b, v, key, depth);
    }
  }

  lemma LeafPaid(b: Budget, v: Json, key: string, depth: nat)
    requires b.remaining > 0 && b.nodes >= 0 && !v.Str? && !v.Obj? && !v.Arr?
    ensures Paid(b.(nodes := b.nodes + 1), Expand(b, v, key, depth).1, CountExpand(b, v, key, depth).Visiting(), 1)
  {
    assert Expand(b, v, key, depth) == (v, b) && CountExpand(b, v, key, depth) == Tally(0, 0, 0, 1);
  }

  lemma StringPaid(b: Budget, text: string, key: string, depth: nat)
    requires b.remaining > 0 && b.nodes >= 0
    ensures Paid(b.(nodes := b.nodes + 1), Expand(b, Str(text), key, depth).1, CountExpand(b, Str(text), key, depth).Visiting(), 1)
  {
  }

  lemma {:induction false} ObjectPaid(b: Budget, fields: seq<Field>, key: string, depth: nat)
    requires b.remaining > 0 && b.nodes >= 0
    ensures Paid(b.(nodes := b.nodes + 1), Expand(b, Obj(fields), key, depth).1, CountExpand(b, Obj(fields), key, depth).Visiting(), 1)
    decreases fields, 1
  {
    var wide := |fields| > MAX_MAP_ITEMS;
    FieldsPaid(b.(truncated := b.truncated || wide), if wide then fields[..MAX_MAP_ITEMS] else fields, depth);
  }

  lemma {:induction false} ArrayPaid(b: Budget, items: seq<Json>, key: string, depth: nat)
    requires b.remaining > 0 && b.nodes >= 0
    ensures Paid(b.(nodes := b.nodes + 1), Expand(b, Arr(items), key, depth).1, CountExpand(b, Arr(items), key, depth).Visiting(), 1)
    decreases items, 1
  {
    var wide := |items| > MAX_ARRAY_ITEMS;
    ItemsPaid(b.(truncated := b.truncated || wide), if wide then items[..MAX_ARRAY_ITEMS] else items, key, depth);
  }

  /** One entry and the rest. */
  lemma PaidBoth(b: Budget, b1: Budget, b2: Budget, key: nat, one: Tally, others: Tally, rest: int)
    requires key <= b.remaining && Paid(b.(remaining := b.remaining - key), b1, one, 1) && Paid(b1, b2, others, rest)
    ensures Paid(b, b2, one.Copying(key).Plus(others), rest + 1)
  {
  }

  lemma {:induction false} FieldsPaid(b: Budget, fields: seq<Field>, depth: nat)
    requires b.remaining >= 0 && b.nodes >= 0
    ensures Paid(b, CleanFields(b, fields, depth).1, CountFields(b, fields, depth), |fields|)
    decreases fields, 0
  {
    if fields != [] && |fields[0].key| <= b.remaining {
      var rest := b.(remaining := b.remaining - |fields[0].key|);
      var b1 := CleanValue(rest, fields[0].value, fields[0].key, depth + 1).1;
      CleanPaid(rest, fields[0].value, fields[0].key, depth + 1);
      FieldsPaid(b1, fields[1..], depth);
      PaidBoth(b, b1, CleanFields(b1, fields[1..], depth).1, |fields[0].key|,
               CountValue(rest, fields[0].value, fields[0].key, depth + 1), CountFields(b1, fields[1..], depth), |fields| - 1);
    }
  }

  lemma {:induction false} ItemsPaid(b: Budget, items: seq<Json>, key: string, depth: nat)
    requires b.remaining >= 0 && b.nodes >= 0
    ensures Paid(b, CleanItems(b, items, key, depth).1, CountItems(b, items, key, depth), |items|)
    decreases items, 0
  {
    if items != [] {
      var b1 := CleanValue(b, items[0], key, depth + 1).1;
      CleanPaid(b, items[0], key, depth + 1);
      ItemsPaid(b1, items[1..], key, depth);
      PaidBoth(b, b1, CleanItems(b1, items[1..], key, depth).1, 0,
               CountValue(b, items[0], key, depth + 1), CountItems(b1, items[1..], key, depth), |items| - 1);
    }
  }

  lemma MarkLengths()
    ensures Yields(Bytes(TRUNCATED), Values(TRUNCATED), Tally(0, 1, 0, 1)) && Yields(Bytes(REDACTED), Values(REDACTED), Tally(0, 1, 0, 1))
    ensures |ELLIPSIS| == 14
  {
  }

  lemma YieldBoth(bytes: nat, values: nat, t: Tally, bytes': nat, values': nat, t': Tally)
    requires Yields(bytes, values, t) && Yields(bytes', values', t')
    ensures Yields(bytes + bytes', values + values', t.Plus(t'))
  {
  }

  lemma VisitYields(bytes: nat, values: nat, t: Tally)
    requires Yields(bytes, values, t)
    ensures Yields(bytes, values, t.Visiting())
  {
  }

  lemma MarkYields(b: Budget, v: Json, key: string, depth: nat)
    requires b.nodes <= 0 || SensitiveKey(key) || depth > MAX_DEPTH || b.remaining <= 0
    ensures Yields(Bytes(CleanValue(b, v, key, depth).0), Values(CleanValue(b, v, key, depth).0), CountValue(b, v, key, depth))
  {
    MarkLengths();
  }

  /** For every tree, iteration order and budget: what comes out is what was copied and the marks that were written. */
  lemma {:induction false} CopiedOrMarked(b: Budget, v: Json, key: string, depth: nat)
    requires b.remaining >= 0 && b.nodes >= 0
    ensures Yields(Bytes(CleanValue(b, v, key, depth).0), Values(CleanValue(b, v, key, depth).0), CountValue(b, v, key, depth))
    decreases v, 1
  {
    if b.nodes <= 0 || SensitiveKey(key) || depth > MAX_DEPTH || b.remaining <= 0 {
      MarkYields(b, v, key, depth);
    } else {
      var rest := b.(nodes := b.nodes - 1);
      ExpandYields(rest, v, key, depth);
      VisitYields(Bytes(Expand(rest, v, key, depth).0), Values(Expand(rest, v, key, depth).0), CountExpand(rest, v, key, depth));
    }
  }

  lemma StringYields(b: Budget, text: string, key: string, depth: nat)
    requires b.remaining > 0 && b.nodes >= 0
    ensures var out := Expand(b, Str(text), key, depth).0;
            Yields(Bytes(out), Values(out), CountExpand(b, Str(text), key, depth))
  {
    MarkLengths();
  }

  lemma {:induction false} ExpandYields(b: Budget, v: Json, key: string, depth: nat)
    requires b.remaining > 0 && b.nodes >= 0
    ensures Yields(Bytes(Expand(b, v, key, depth).0), Values(Expand(b, v, key, depth).0), CountExpand(b, v, key, depth))
    decreases v, 0
  {
    match v
    case Str(text) => StringYields(b, text, key, depth);
    case Obj(fields) =>
      var wide := |fields| > MAX_MAP_ITEMS;
      FieldsYield(b.(truncated := b.truncated || wide), if wide then fields[..MAX_MAP_ITEMS] else fields, depth);
    case Arr(items) =>
      var wide := |items| > MAX_ARRAY_ITEMS;
      ItemsYield(b.(truncated := b.truncated || wide), if wide then items[..MAX_ARRAY_ITEMS] else items, key, depth);
    case _ =>
  }

  lemma FieldAdds(f: Field, rest: seq<Field>)
    ensures FieldBytes([f] + rest) == |f.key| + Bytes(f.value) + FieldBytes(rest)
    ensures FieldValues([f] + rest) == Values(f.value) + FieldValues(rest)
  {
    assert ([f] + rest)[1..] == rest;
  }

  lemma ItemAdds(item: Json, rest: seq<Json>)
    ensures ItemBytes([item] + rest) == Bytes(item) + ItemBytes(rest) && ItemValues([item] + rest) == Values(item) + ItemValues(rest)
  {
    assert ([item] + rest)[1..] == rest;
  }

  lemma {:induction false} FieldsYield(b: Budget, fields: seq<Field>, depth: nat)
    requires b.remaining >= 0 && b.nodes >= 0
    ensures Yields(FieldBytes(CleanFields(b, fields, depth).0), FieldValues(CleanFields(b, fields, depth).0), CountFields(b, fields, depth))
    decreases fields, 0
  {
    if fields != [] && |fields[0].key| <= b.remaining {
      var key := fields[0].key;
      var rest := b.(remaining := b.remaining - |key|);
      var (value, b1) := CleanValue(rest, fields[0].value, key, depth + 1);
      var tail := CleanFields(b1, fields[1..], depth).0;
      var one, others := CountValue(rest, fields[0].value, key, depth + 1), CountFields(b1, fields[1..], depth);
      CopiedOrMarked(rest, fields[0].value, key, depth + 1);
      CleanPaid(rest, fields[0].value, key, depth + 1);
      FieldsYield(b1, fields[1..], depth);
      FieldAdds(Field(key, value), tail);
      YieldBoth(|key| + Bytes(value), Values(value), one.Copying(|key|), FieldBytes(tail), FieldValues(tail), others);
    }
  }

  lemma {:induction false} ItemsYield(b: Budget, items: seq<Json>, key: string, depth: nat)
    requires b.remaining >= 0 && b.nodes >= 0
    ensures Yields(ItemBytes(CleanItems(b, items, key, depth).0), ItemValues(CleanItems(b, items, key, depth).0),
                   CountItems(b, items, key, depth))
    decreases items, 0
  {
    if items != [] {
      var (item, b1) := CleanValue(b, items[0], key, depth + 1);
      var tail := CleanItems(b1, items[1..], key, depth).0;
      CopiedOrMarked(b, items[0], key, depth + 1);
      CleanPaid(b, items[0], key, depth + 1);
      ItemsYield(b1, items[1..], key, depth);
      ItemAdds(item, tail);
      YieldBoth(Bytes(item), Values(item), CountValue(b, items[0], key, depth + 1), ItemBytes(tail), ItemValues(tail),
                CountItems(b1, items[1..], key, depth));
    }
  }
}
