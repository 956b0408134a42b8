/**
 JSON values as Go decodes them. An object is the sequence of its entries in the order in which a `range` over the map
 visits them, so a statement about every value is a statement about every iteration order. One character is one byte.
 */
module Json {

  datatype Json =
    | Null
    | Bool(bool)
    | Number(real)
    | Str(text: string)
    | Arr(items: seq<Json>)
    | Obj(fields: seq<Field>)

  datatype Field = Field(key: string, value: Json)

  /** The replacer that drops hyphens, underscores and blanks. */
  function Squeeze(s: string): string {
    if s == "" then "" else (if s[0] in {'-', '_', ' '} then "" else [s[0]]) + Squeeze(s[1..])
  }

  predicate HasSuffix(s: string, suffix: string) {
    |suffix| <= |s| && s[|s| - |suffix|..] == suffix
  }
}
