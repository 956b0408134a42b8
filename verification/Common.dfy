/** Result types, Go's 64-bit arithmetic and the byte-string helpers of its `strings` package that the models share. */
module Common {

  datatype Option<+T> = None | Some(value: T)

  datatype Result<+T, +E> = Ok(value: T) | Err(error: E)

  const MAX_INT64: int := 0x7FFF_FFFF_FFFF_FFFF
  const TWO_64: int := 0x1_0000_0000_0000_0000

  /** The two's complement value of an integer in 64 bits. */
  function Wrap(n: int): int {
    (n + MAX_INT64 + 1) % TWO_64 - MAX_INT64 - 1
  }

  /** Go's division truncates toward zero. */
  function Quotient(a: int, b: int): int
    requires b > 0
  {
    if a >= 0 then a / b else -(-a / b)
  }

  // Strings are sequences of characters; where the source counts bytes, one character is one byte.

  /** The white space of `strings.TrimSpace` below U+0100. */
  predicate IsSpace(c: char) {
    c == ' ' || c == '\t' || c == '\n' || c == '\r' || c as int in {0x0B, 0x0C, 0x85, 0xA0}
  }

  function TrimLeft(s: string): string {
    if s != "" && IsSpace(s[0]) then TrimLeft(s[1..]) else s
  }

  function TrimRight(s: string): string {
    if s != "" && IsSpace(s[|s| - 1]) then TrimRight(s[..|s| - 1]) else s
  }

  function TrimSpace(s: string): string {
    TrimRight(TrimLeft(s))
  }

  predicate Trimmed(s: string) {
    s == "" || (!IsSpace(s[0]) && !IsSpace(s[|s| - 1]))
  }

  lemma TrimKeeps(s: string)
    requires Trimmed(s)
    ensures TrimSpace(s) == s
  {
  }

  function Lower(c: char): char {
    if 'A' <= c <= 'Z' then (c as int + 32) as char else c
  }

  /** strings.ToLower on ASCII letters. */
  function ToLower(s: string): string {
    if s == "" then "" else [Lower(s[0])] + ToLower(s[1..])
  }

  /** A sequence that holds each of its elements once. */
  ghost predicate Distinct<T>(s: seq<T>) {
    forall i, j :: 0 <= i < j < |s| ==> s[i] != s[j]
  }

  /** The position of the first row with this key, or the number of rows. */
  function Find<T>(rows: seq<T>, keyOf: T -> string, key: string): (i: nat)
    ensures i <= |rows| && (i < |rows| ==> keyOf(rows[i]) == key)
    ensures forall j :: 0 <= j < i ==> keyOf(rows[j]) != key
  {
    if rows == [] || keyOf(rows[0]) == key then 0 else 1 + Find(rows[1..], keyOf, key)
  }
}
