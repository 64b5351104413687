/** Optional values: a Firestore field that may be absent, a lookup that may miss, a date that may not parse. */
module Wrappers {

  datatype Option<+T> = None | Some(value: T)

  /** JavaScript's `s || fallback` on a string that may be missing: the empty string is falsy too. */
  function OrElse(s: Option<string>, fallback: string): (r: string)
    ensures s.Some? && s.value != "" ==> r == s.value
    ensures (s.None? || s.value == "") ==> r == fallback
  {
    if s.Some? && s.value != "" then s.value else fallback
  }

  function Min(a: int, b: int): (m: int)
    ensures m <= a && m <= b && (m == a || m == b)
  {
    if a <= b then a else b
  }
}
