/**
 When the sanitizer changes nothing. Its two flags are exact in one direction: if neither is raised the output is the
 input. They are raised exactly when the tree does not fit, and "fits" is a condition on the tree alone.
 */
module SanitizerExact {
  import opened Json
  import opened RequestLog
  import opened Sanitizer

  /** No sensitive key, nothing too deep, too long or too wide. */
  predicate Clear(v: Json, key: string, depth: nat)
    decreases v
  {
    !SensitiveKey(key) && depth <= MAX_DEPTH &&
    match v
    case Str(text) => |text| <= MAX_STRING_BYTES
    case Obj(fields) => |fields| <= MAX_MAP_ITEMS && ClearFields(fields, depth)
    case Arr(items) => |items| <= MAX_ARRAY_ITEMS && ClearItems(items, key, depth)
    case _ => true
  }

  predicate ClearFields(fields: seq<Field>, depth: nat)
    decreases fields
  {
    fields == [] || (Clear(fields[0].value, fields[0].key, depth + 1) && ClearFields(fields[1..], depth))
  }

  predicate ClearItems(items: seq<Json>, key: string, depth: nat)
    decreases items
  {
    items == [] || (Clear(items[0], key, depth + 1) && ClearItems(items[1..], key, depth))
  }

  /** The bytes taken from the budget before the last value is visited; a value is refused when none are left then. */
  function Before(v: Json): (n: nat)
    ensures n <= Bytes(v)
    decreases v
  {
    match v
    case Obj(fields) => FieldsBefore(fields)
    case Arr(items) => ItemsBefore(items)
    case _ => 0
  }

  function FieldsBefore(fields: seq<Field>): (n: nat)
    ensures n <= FieldBytes(fields)
    decreases fields
  {
    if fields == [] then 0
    else |fields[0].key| + if |fields| == 1 then Before(fields[0].value) else Bytes(fields[0].value) + FieldsBefore(fields[1..])
  }

  function ItemsBefore(items: seq<Json>): (n: nat)
    ensures n <= ItemBytes(items)
    decreases items
  {
    if items == [] then 0
    else if |items| == 1 then Before(items[0]) else Bytes(items[0]) + ItemsBefore(items[1..])
  }

  predicate Fits(v: Json, key: string, depth: nat, remaining: int, nodes: int) {
    Clear(v, key, depth) && Values(v) <= nodes && Bytes(v) <= remaining && Before(v) < remaining
  }

  predicate FieldsFit(fields: seq<Field>, depth: nat, remaining: int, nodes: int) {
    ClearFields(fields, depth) && FieldValues(fields) <= nodes && FieldBytes(fields) <= remaining
    && (fields != [] ==> FieldsBefore(fields) < remaining)
  }

  predicate ItemsFit(items: seq<Json>, key: string, depth: nat, remaining: int, nodes: int) {
    ClearItems(items, key, depth) && ItemValues(items) <= nodes && ItemBytes(items) <= remaining
    && (items != [] ==> ItemsBefore(items) < remaining)
  }

  predicate Silent(b: Budget) {
    !b.redacted && !b.truncated
  }

  /** A raised flag stays raised. */
  lemma {:induction false} FlagsStay(b: Budget, v: Json, key: string, depth: nat)
    requires !Silent(b)
    ensures !Silent(CleanValue(b, v, key, depth).1)
    decreases v, 1
  {
    if b.nodes > 0 && !SensitiveKey(key) && depth <= MAX_DEPTH && b.remaining > 0 {
      match v
      case Obj(fields) =>
        var wide := |fields| > MAX_MAP_ITEMS;
        FieldFlagsStay(b.(nodes := b.nodes - 1, truncated := b.truncated || wide),
                       if wide then fields[..MAX_MAP_ITEMS] else fields, depth);
      case Arr(items) =>
        var wide := |items| > MAX_ARRAY_ITEMS;
        ItemFlagsStay(b.(nodes := b.nodes - 1, truncated := b.truncated || wide),
                      if wide then items[..MAX_ARRAY_ITEMS] else items, key, depth);
      case _ =>
    }
  }

  lemma {:induction false} FieldFlagsStay(b: Budget, fields: seq<Field>, depth: nat)
    requires !Silent(b)
    ensures !Silent(CleanFields(b, fields, depth).1)
    decreases fields
  {
    if fields != [] && |fields[0].key| <= b.remaining {
      var rest := b.(remaining := b.remaining - |fields[0].key|);
      FlagsStay(rest, fields[0].value, fields[0].key, depth + 1);
      FieldFlagsStay(CleanValue(rest, fields[0].value, fields[0].key, depth + 1).1, fields[1..], depth);
    }
  }

  lemma {:induction false} ItemFlagsStay(b: Budget, items: seq<Json>, key: string, depth: nat)
    requires !Silent(b)
    ensures !Silent(CleanItems(b, items, key, depth).1)
    decreases items
  {
    if items != [] {
      FlagsStay(b, items[0], key, depth + 1);
      ItemFlagsStay(CleanValue(b, items[0], key, depth + 1).1, items[1..], key, depth);
    }
  }

  /** What a value that fits leaves of the budget. */
  function Spend(b: Budget, bytes: nat, values: nat): Budget {
    b.(remaining := b.remaining - bytes, nodes := b.nodes - values)
  }

  /**
   Exactness: starting with no flag raised, no flag is raised if and only if the value fits what is left of the budget;
   and then the output is the input, and the budget has paid for its bytes and its values.
   */
  lemma {:induction false} ExactIffFits(b: Budget, v: Json, key: string, depth: nat)
    requires Silent(b) && b.remaining >= 0
    ensures Silent(CleanValue(b, v, key, depth).1) <==> Fits(v, key, depth, b.remaining, b.nodes)
    ensures Fits(v, key, depth, b.remaining, b.nodes) ==> CleanValue(b, v, key, depth) == (v, Spend(b, Bytes(v), Values(v)))
    decreases v, 1
  {
    if b.nodes > 0 && !SensitiveKey(key) && depth <= MAX_DEPTH && b.remaining > 0 {
      ExpandExact(b.(nodes := b.nodes - 1), v, key, depth);
    }
  }

  lemma {:induction false} ExpandExact(b: Budget, v: Json, key: string, depth: nat)
    requires Silent(b) && b.remaining > 0 && b.nodes >= 0 && !SensitiveKey(key) && depth <= MAX_DEPTH
    ensures Silent(Expand(b, v, key, depth).1) <==> Fits(v, key, depth, b.remaining, b.nodes + 1)
    ensures Fits(v, key, depth, b.remaining, b.nodes + 1)
            ==> Expand(b, v, key, depth) == (v, Spend(b, Bytes(v), Values(v) - 1))
    decreases v, 0
  {
    match v
    case Obj(fields) =>
      if |fields| > MAX_MAP_ITEMS {
        FieldFlagsStay(b.(truncated := true), fields[..MAX_MAP_ITEMS], depth);
      } else {
        FieldsExact(b, fields, depth);
      }
    case Arr(items) =>
      if |items| > MAX_ARRAY_ITEMS {
        ItemFlagsStay(b.(truncated := true), items[..MAX_ARRAY_ITEMS], key, depth);
      } else {
        ItemsExact(b, items, key, depth);
      }
    case _ =>
  }

  lemma {:induction false} FieldsExact(b: Budget, fields: seq<Field>, depth: nat)
    requires Silent(b) && b.remaining >= 0 && b.nodes >= 0
    ensures Silent(CleanFields(b, fields, depth).1) <==> FieldsFit(fields, depth, b.remaining, b.nodes)
    ensures FieldsFit(fields, depth, b.remaining, b.nodes)
            ==> CleanFields(b, fields, depth) == (fields, Spend(b, FieldBytes(fields), FieldValues(fields)))
    decreases fields
  {
    if fields != [] && |fields[0].key| <= b.remaining {
      var head, tail := fields[0], fields[1..];
      var rest := b.(remaining := b.remaining - |head.key|);
      ExactIffFits(rest, head.value, head.key, depth + 1);
      var b' := CleanValue(rest, head.value, head.key, depth + 1).1;
      if Silent(b') {
        FieldsExact(b', tail, depth);
        assert fields == [head] + tail;
      } else {
        FieldFlagsStay(b', tail, depth);
      }
    }
  }

  lemma {:induction false} ItemsExact(b: Budget, items: seq<Json>, key: string, depth: nat)
    requires Silent(b) && b.remaining >= 0 && b.nodes >= 0
    ensures Silent(CleanItems(b, items, key, depth).1) <==> ItemsFit(items, key, depth, b.remaining, b.nodes)
    ensures ItemsFit(items, key, depth, b.remaining, b.nodes)
            ==> CleanItems(b, items, key, depth) == (items, Spend(b, ItemBytes(items), ItemValues(items)))
    decreases items
  {
    if items != [] {
      var head, tail := items[0], items[1..];
      ExactIffFits(b, head, key, depth + 1);
      var b' := CleanValue(b, head, key, depth + 1).1;
      if Silent(b') {
        ItemsExact(b', tail, key, depth);
        assert items == [head] + tail;
      } else {
        ItemFlagsStay(b', tail, key, depth);
      }
    }
  }
}
