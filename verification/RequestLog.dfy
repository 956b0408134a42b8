/**
 The sanitizer behind the request-log detail page: a recursion over an arbitrary JSON tree that hides credentials and
 cuts off what is too long, too wide, too deep or too much, with one budget shared by the four parts of a log entry.
 */
module RequestLog {
  import opened Common
  import opened Json

  const MAX_STRING_BYTES := 32768
  const MAX_ARRAY_ITEMS := 100
  const MAX_MAP_ITEMS := 100
  const MAX_DEPTH := 12
  const MAX_TOTAL_BYTES := 524288
  const MAX_TOTAL_NODES := 2000

  const REDACTED := Str("[REDACTED]")
  const TRUNCATED := Str("[TRUNCATED]")
  const ELLIPSIS := "...[TRUNCATED]"

  function Normalized(key: string): string {
    ToLower(Squeeze(key))
  }

  predicate SensitiveKey(key: string) {
    var n := Normalized(key);
    || n in {"authorization", "cookie", "setcookie", "apikey", "xapikey", "accesskey", "secret", "clientsecret", "password"}
    || HasSuffix(n, "token") || HasSuffix(n, "secret") || HasSuffix(n, "password")
  }

  datatype Budget = Budget(remaining: int, nodes: int, redacted: bool, truncated: bool)

  const FULL := Budget(MAX_TOTAL_BYTES, MAX_TOTAL_NODES, false, false)

  function Min(a: int, b: int): int {
    if a < b then a else b
  }

  // ---------- the sanitizer as a function of the budget ----------

  function CleanValue(b: Budget, v: Json, key: string, depth: nat): (Json, Budget)
    decreases v, 1
  {
    if b.nodes <= 0 then (TRUNCATED, b.(truncated := true))
    else
      var b := b.(nodes := b.nodes - 1);
      if SensitiveKey(key) then (REDACTED, b.(redacted := true))
      else if depth > MAX_DEPTH || b.remaining <= 0 then (TRUNCATED, b.(truncated := true))
      else Expand(b, v, key, depth)
  }

  function Expand(b: Budget, v: Json, key: string, depth: nat): (Json, Budget)
    decreases v, 0
  {
    match v
    case Str(text) =>
      var limit := Min(Min(|text|, MAX_STRING_BYTES), b.remaining);
      if limit < 0 then (v, b)
      else (if limit < |text| then Str(text[..limit] + ELLIPSIS) else v,
            b.(remaining := b.remaining - limit, truncated := b.truncated || limit < |text|))
    case Obj(fields) =>
      var wide := |fields| > MAX_MAP_ITEMS;
      var (out, b) := CleanFields(b.(truncated := b.truncated || wide), if wide then fields[..MAX_MAP_ITEMS] else fields, depth);
      (Obj(out), b)
    case Arr(items) =>
      var wide := |items| > MAX_ARRAY_ITEMS;
      var (out, b) := CleanItems(b.(truncated := b.truncated || wide), if wide then items[..MAX_ARRAY_ITEMS] else items, key, depth);
      (Arr(out), b)
    case _ => (v, b)
  }

  function CleanFields(b: Budget, fields: seq<Field>, depth: nat): (seq<Field>, Budget)
    decreases fields
  {
    if fields == [] then ([], b)
    else if |fields[0].key| > b.remaining then ([], b.(truncated := true))
    else
      var (value, b) := CleanValue(b.(remaining := b.remaining - |fields[0].key|), fields[0].value, fields[0].key, depth + 1);
      var (rest, b) := CleanFields(b, fields[1..], depth);
      ([Field(fields[0].key, value)] + rest, b)
  }

  function CleanItems(b: Budget, items: seq<Json>, key: string, depth: nat): (seq<Json>, Budget)
    decreases items
  {
    if items == [] then ([], b)
    else
      var (item, b) := CleanValue(b, items[0], key, depth + 1);
      var (rest, b) := CleanItems(b, items[1..], key, depth);
      ([item] + rest, b)
  }

  lemma Append<T>(kept: seq<T>, one: T, rest: seq<T>)
    ensures kept + ([one] + rest) == kept + [one] + rest
  {
  }

  /** One turn of the loop over an object. */
  lemma FieldStep(b: Budget, fields: seq<Field>, i: nat, depth: nat)
    requires i < |fields|
    ensures CleanFields(b, fields[i..], depth)
            == if |fields[i].key| > b.remaining then ([], b.(truncated := true))
               else
                 var (value, b) := CleanValue(b.(remaining := b.remaining - |fields[i].key|), fields[i].value, fields[i].key, depth + 1);
                 var (rest, b) := CleanFields(b, fields[i + 1..], depth);
                 ([Field(fields[i].key, value)] + rest, b)
  {
  }

  lemma ItemStep(b: Budget, items: seq<Json>, i: nat, key: string, depth: nat)
    requires i < |items|
    ensures CleanItems(b, items[i..], key, depth)
            == var (item, b) := CleanValue(b, items[i], key, depth + 1);
               var (rest, b) := CleanItems(b, items[i + 1..], key, depth);
               ([item] + rest, b)
  {
  }

  // ---------- the code, which counts the budget down in place ----------

  class SanitizeBudget {
    var remaining: int
    var nodes: int
    var redacted: bool
    var truncated: bool

    ghost function State(): Budget
      reads this
    {
      Budget(remaining, nodes, redacted, truncated)
    }

    constructor ()
      ensures State() == FULL
    {
      remaining, nodes, redacted, truncated := MAX_TOTAL_BYTES, MAX_TOTAL_NODES, false, false;
    }

    method Clean(value: Json, key: string, depth: nat) returns (out: Json)
      requires remaining >= 0
      modifies this
      ensures (out, State()) == CleanValue(old(State()), value, key, depth)
      ensures remaining >= 0
      decreases value, 1
    {
      if nodes <= 0 {
        truncated := true;
        return TRUNCATED;
      }
      nodes := nodes - 1;
      if SensitiveKey(key) {
        redacted := true;
        return REDACTED;
      }
      if depth > MAX_DEPTH || remaining <= 0 {
        truncated := true;
        return TRUNCATED;
      }
      match value
      case Str(text) => out := CleanString(text);
      case Obj(fields) => out := CleanObject(fields, depth);
      case Arr(items) => out := CleanArray(items, key, depth);
      case _ => out := value;
    }

    method CleanString(text: string) returns (out: Json)
      requires remaining >= 0
      modifies this`remaining, this`truncated
      ensures (out, State()) == Expand(old(State()), Str(text), "", 0)
      ensures remaining >= 0
    {
      var limit := |text|;
      if limit > MAX_STRING_BYTES {
        limit := MAX_STRING_BYTES;
        truncated := true;
      }
      if limit > remaining {
        limit := remaining;
        truncated := true;
      }
      remaining := remaining - limit;
      if limit < |text| { return Str(text[..limit] + ELLIPSIS); }
      return Str(text);
    }

    method CleanObject(fields: seq<Field>, depth: nat) returns (out: Json)
      requires remaining >= 0
      modifies this
      ensures (out, State()) == Expand(old(State()), Obj(fields), "", depth)
      ensures remaining >= 0
      decreases fields, 1
    {
      var limit := |fields|;
      if limit > MAX_MAP_ITEMS {
        limit := MAX_MAP_ITEMS;
        truncated := true;
      }
      assert |fields| <= MAX_MAP_ITEMS ==> fields[..limit] == fields;
      var kept := CleanEntries(fields[..limit], depth);
      return Obj(kept);
    }

    method CleanEntry(field: Field, depth: nat) returns (out: Field)
      requires |field.key| <= remaining
      modifies this
      ensures var (value, b) := CleanValue(old(State()).(remaining := old(remaining) - |field.key|), field.value, field.key, depth + 1);
              out == Field(field.key, value) && State() == b
      ensures remaining >= 0
      decreases field
    {
      remaining := remaining - |field.key|;
      var value := Clean(field.value, field.key, depth + 1);
      return Field(field.key, value);
    }

    /** The loop over the entries; it stops where a key no longer fits. */
    method CleanEntries(fields: seq<Field>, depth: nat) returns (kept: seq<Field>)
      requires remaining >= 0
      modifies this
      ensures (kept, State()) == CleanFields(old(State()), fields, depth)
      ensures remaining >= 0
      decreases fields, 0
    {
      ghost var whole := CleanFields(State(), fields, depth);
      kept := [];
      var i := 0;
      assert fields[0..] == fields && [] + whole.0 == whole.0;
      while i < |fields|
        invariant 0 <= i <= |fields| && remaining >= 0
        invariant var (rest, b) := CleanFields(State(), fields[i..], depth); whole == (kept + rest, b)
      {
        FieldStep(State(), fields, i, depth);
        if |fields[i].key| > remaining {
          truncated := true;
          assert kept + [] == kept;
          return;
        }
        var entry := CleanEntry(fields[i], depth);
        Append(kept, entry, CleanFields(State(), fields[i + 1..], depth).0);
        kept := kept + [entry];
        i := i + 1;
      }
      assert kept + [] == kept;
    }

    method CleanArray(items: seq<Json>, key: string, depth: nat) returns (out: Json)
      requires remaining >= 0
      modifies this
      ensures (out, State()) == Expand(old(State()), Arr(items), key, depth)
      ensures remaining >= 0
      decreases items, 1
    {
      var limit := |items|;
      if limit > MAX_ARRAY_ITEMS {
        limit := MAX_ARRAY_ITEMS;
        truncated := true;
      }
      assert |items| <= MAX_ARRAY_ITEMS ==> items[..limit] == items;
      var kept := CleanElements(items[..limit], key, depth);
      return Arr(kept);
    }

    method CleanElements(items: seq<Json>, key: string, depth: nat) returns (kept: seq<Json>)
      requires remaining >= 0
      modifies this
      ensures (kept, State()) == CleanItems(old(State()), items, key, depth)
      ensures remaining >= 0
      decreases items, 0
    {
      ghost var whole := CleanItems(State(), items, key, depth);
      kept := [];
      var i := 0;
      assert items[0..] == items && [] + whole.0 == whole.0;
      while i < |items|
        invariant 0 <= i <= |items| && remaining >= 0
        invariant var (rest, b) := CleanItems(State(), items[i..], key, depth); whole == (kept + rest, b)
      {
        ItemStep(State(), items, i, key, depth);
        var item := Clean(items[i], key, depth + 1);
        Append(kept, item, CleanItems(State(), items[i + 1..], key, depth).0);
        kept := kept + [item];
        i := i + 1;
      }
      assert kept + [] == kept;
    }
  }
}
