/** The C and GLib numeric operations the viewport engine leans on, with their
    exact semantics: a cast from `double` to `gint` truncates toward zero, and
    GLib's `CLAMP` and `MIN` macros are nested conditionals that do not assume
    their bounds are ordered. `double` is modelled as an exact `real`. */
module Numerics {

  /** `(gint) r`: drops the fraction, rounding toward zero (not toward minus
      infinity, as `Floor` does). */
  function Trunc(r: real): (t: int)
    ensures r >= 0.0 ==> 0 <= t && t as real <= r < t as real + 1.0
    ensures r < 0.0 ==> t <= 0 && t as real - 1.0 < r <= t as real
  {
    if r >= 0.0 then r.Floor else -((-r).Floor)
  }

  /** Truncation is the identity on values that are already integral. */
  lemma TruncOfInt(n: int)
    ensures Trunc(n as real) == n
  {
  }

  /** C's `a / 2` on `gint`: the quotient rounds toward zero, so the remainder
      takes the sign of `a` (Dafny's own `/` rounds toward minus infinity on
      negative `a`). */
  function CHalve(a: int): (q: int)
    ensures a >= 0 ==> 0 <= a - 2 * q <= 1
    ensures a < 0 ==> -1 <= a - 2 * q <= 0
  {
    if a >= 0 then a / 2 else -((-a) / 2)
  }

  /** `CLAMP(x, lo, hi)` is `x > hi ? hi : (x < lo ? lo : x)`. When the
      bounds are ordered it picks the point of `[lo, hi]` nearest `x`; when
      they are not (`hi < lo`), every `x` above `hi` is sent to `hi`. */
  function Clamp(x: int, lo: int, hi: int): (r: int)
    ensures lo <= hi ==> lo <= r <= hi
    ensures lo <= x <= hi ==> r == x
    ensures x > hi ==> r == hi
    ensures x < lo && x <= hi ==> r == lo
  {
    if x > hi then hi else if x < lo then lo else x
  }

  /** `MIN(a, b)` is `a < b ? a : b`: the smaller of the two. */
  function Min(a: real, b: real): (m: real)
    ensures m <= a && m <= b
    ensures m == a || m == b
  {
    if a < b then a else b
  }
}
