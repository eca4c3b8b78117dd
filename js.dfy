/** Value semantics shared by the browser client (JavaScript) and the API server (Python):
    optional values, JSON number fields that may be missing or null, the `||` default idiom,
    and JavaScript's Math.round, Math.max, Math.min and Math.abs over reals. */
module Js {

  /** A value that may be absent (`undefined`, `null`, or Python `None`). */
  datatype Option<+T> = None | Some(value: T)

  /** Truthiness of an optional string in both languages: present and non-empty. */
  predicate Given(v: Option<string>) {
    v.Some? && v.value != []
  }

  /** A numeric field read from a JSON object: the key is missing (`undefined`),
      holds `null`, or holds a number. */
  datatype Slot = Undefined | Null | Num(n: real)

  /** JavaScript truthiness of a numeric field: only a non-zero number is truthy. */
  predicate Truthy(s: Slot) {
    s.Num? && s.n != 0.0
  }

  /** `s || fallback` for a numeric field. */
  function Or(s: Slot, fallback: real): (r: real)
    ensures Truthy(s) ==> r == s.n
    ensures !Truthy(s) ==> r == fallback
  {
    if Truthy(s) then s.n else fallback
  }

  /** The number a defined field stands for in arithmetic: `null` coerces to 0. */
  function ToNumber(s: Slot): real
    requires s != Undefined
  {
    if s.Num? then s.n else 0.0
  }

  /** Math.round: the nearest integer, halves rounded up. */
  function Round(x: real): (r: int)
    ensures x - 0.5 < r as real <= x + 0.5
  {
    (x + 0.5).Floor
  }

  function Abs(x: real): real {
    if x < 0.0 then -x else x
  }

  function Max(a: real, b: real): real {
    if a < b then b else a
  }

  function Min(a: real, b: real): real {
    if a < b then a else b
  }

  /** Math.min(Math.max(x, lo), hi). */
  function Clamp(x: real, lo: real, hi: real): (r: real)
    requires lo <= hi
    ensures lo <= r <= hi
    ensures lo <= x <= hi ==> r == x
    ensures x < lo ==> r == lo
    ensures x > hi ==> r == hi
  {
    Min(Max(x, lo), hi)
  }

  function MinInt(a: int, b: int): int {
    if a < b then a else b
  }
}
