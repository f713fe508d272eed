/** Option and Result values standing for JavaScript's `undefined`/`null` and for
    promises that reject. */
module Outcomes {

  datatype Option<+T> = None | Some(value: T) {
    function GetOr(default: T): T {
      match this
      case Some(v) => v
      case None => default
    }
  }

  datatype Result<+T, +E> = Success(value: T) | Failure(error: E)

  /** JavaScript's `s || d` on an optional string: `undefined` and `""` are falsy. */
  function OrElse(s: Option<string>, d: string): (r: string)
    ensures s.Some? && s.value != "" ==> r == s.value
    ensures s.None? || s.value == "" ==> r == d
  {
    if s.Some? && s.value != "" then s.value else d
  }

  /** JavaScript's `a || b || d` on two optional strings. */
  function OrElse2(a: Option<string>, b: Option<string>, d: string): (r: string)
    ensures r != "" || d == ""
    ensures a.Some? && a.value != "" ==> r == a.value
    ensures (a.None? || a.value == "") && b.Some? && b.value != "" ==> r == b.value
    ensures (a.None? || a.value == "") && (b.None? || b.value == "") ==> r == d
  {
    OrElse(a, OrElse(b, d))
  }
}
