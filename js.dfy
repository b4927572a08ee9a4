/** The few JavaScript semantics the components rely on: truthiness of a
    value that is a string or absent, the settled outcome of an awaited
    call, `Array.prototype.slice` with one argument and
    `String.prototype.toUpperCase`. */
module Js {

  /** A JavaScript value where the code only distinguishes a string from
      `null`/`undefined` (a missing JSON field, an empty `localStorage` slot). */
  datatype Value = Null | Str(s: string)

  /** JavaScript truthiness of such a value: `null` and `''` are falsy. */
  predicate Truthy(v: Value) {
    v.Str? && v.s != ""
  }

  /** `v || fallback` where `fallback` is a string literal. */
  function OrElse(v: Value, fallback: string): (r: string)
    ensures Truthy(v) ==> r == v.s
    ensures !Truthy(v) ==> r == fallback
  {
    if Truthy(v) then v.s else fallback
  }

  datatype Option<T> = None | Some(value: T)

  /** How an awaited call settled: resolved with a value, or rejected
      (a network error, an HTTP error status for axios, a JSON parse error). */
  datatype Reply<T> = Ok(value: T) | Threw

  function Min(a: int, b: int): int { if a < b then a else b }

  /** `s.slice(start)`: a negative start counts from the end and is clamped
      to 0, a start past the end gives the empty array. */
  function SliceFrom<T>(s: seq<T>, start: int): (r: seq<T>)
    ensures start < 0 ==> |r| == Min(|s|, -start)
    ensures 0 <= start ==> |r| == if start < |s| then |s| - start else 0
    ensures forall i :: 0 <= i < |r| ==> r[i] == s[|s| - |r| + i]
  {
    var from :=
      if start < 0 then (if |s| + start < 0 then 0 else |s| + start)
      else (if start < |s| then start else |s|);
    s[from..]
  }

  predicate IsLower(c: char) { 'a' <= c <= 'z' }

  /** Upper-case mapping of one character, restricted to ASCII letters. */
  function UpperChar(c: char): (u: char)
    ensures IsLower(c) ==> 'A' <= u <= 'Z' && u as int == c as int - 32
    ensures !IsLower(c) ==> u == c
  {
    if IsLower(c) then (c as int - 32) as char else c
  }

  /** `s.toUpperCase()`, character by character (ASCII letters only). */
  function ToUpperCase(s: string): (r: string)
    ensures |r| == |s|
    ensures forall i :: 0 <= i < |s| ==> r[i] == UpperChar(s[i])
  {
    seq(|s|, i requires 0 <= i < |s| => UpperChar(s[i]))
  }
}
