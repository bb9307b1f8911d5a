/**
 * The few JavaScript value semantics the client relies on: plain objects as
 * string-keyed maps, truthiness, `a || b` on strings, ASCII lower-casing and
 * `String.prototype.includes`.
 */
module Js {
  import opened Wrappers

  /** A field value of a plain object: missing (`undefined`), a string or a number. */
  datatype Value = Undefined | Str(s: string) | Num(n: int)

  /** A plain object such as a form's `formData` or a record fetched from the backend. */
  type Obj = map<string, Value>

  /** `o[key]`: the stored value, or `undefined` when the key is absent. */
  function Get(o: Obj, key: string): (v: Value)
    ensures key in o ==> v == o[key]
    ensures key !in o ==> v == Undefined
  {
    if key in o then o[key] else Undefined
  }

  /** JavaScript truthiness: `undefined`, `""` and `0` are falsy. */
  predicate Truthy(v: Value) {
    match v
    case Undefined => false
    case Str(s) => s != ""
    case Num(n) => n != 0
  }

  /** `s || fallback` for a string that may be missing: an empty string also falls back. */
  function OrElse(s: Option<string>, fallback: string): (r: string)
    ensures s.Some? && s.value != "" ==> r == s.value
    ensures s.None? || s.value == "" ==> r == fallback
  {
    if s.Some? && s.value != "" then s.value else fallback
  }

  /** ASCII `toLowerCase` of one character (Unicode case folding is not modelled). */
  function LowerChar(c: char): char {
    if 'A' <= c <= 'Z' then (c as int + 32) as char else c
  }

  function Lower(s: string): (r: string)
    ensures |r| == |s|
    ensures forall i :: 0 <= i < |s| ==> r[i] == LowerChar(s[i])
  {
    seq(|s|, i requires 0 <= i < |s| => LowerChar(s[i]))
  }

  /** `hay.includes(needle)`: `needle` occurs as a contiguous block of `hay`. */
  predicate Includes(hay: string, needle: string) {
    exists i | 0 <= i <= |hay| :: OccursAt(hay, needle, i)
  }

  predicate OccursAt(hay: string, needle: string, i: int) {
    0 <= i <= |hay| - |needle| && hay[i..i + |needle|] == needle
  }

  /** Every string includes the empty string. */
  lemma IncludesEmpty(hay: string)
    ensures Includes(hay, "")
  {
    assert OccursAt(hay, "", 0);
  }

  /** A string includes itself, so the lower-cased field always matches its own lower-cased text. */
  lemma IncludesSelf(s: string)
    ensures Includes(s, s)
  {
    assert OccursAt(s, s, 0);
  }

  /** Lower-casing twice is lower-casing once. */
  lemma LowerIdempotent(s: string)
    ensures Lower(Lower(s)) == Lower(s)
  {
  }

  /** Lower-casing a block of a string is the block of the lower-cased string. */
  lemma LowerSlice(s: string, i: int, j: int)
    requires 0 <= i <= j <= |s|
    ensures Lower(s)[i..j] == Lower(s[i..j])
  {
  }
}
