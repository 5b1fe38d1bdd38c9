/** Small shared vocabulary: an optional value and the few numeric helpers
    (`Math.max`, `Math.min`, clamping, rounding) the JavaScript code uses on
    its numbers, which are modelled as mathematical reals. */
module Common {

  /** A value that may be missing (`undefined` or a failed request). */
  datatype Option<+T> = None | Some(value: T)

  function Max(a: real, b: real): (r: real)
    ensures r >= a && r >= b
    ensures r == a || r == b
  {
    if a >= b then a else b
  }

  function Min(a: real, b: real): (r: real)
    ensures r <= a && r <= b
    ensures r == a || r == b
  {
    if a <= b then a else b
  }

  function Abs(x: real): (r: real)
    ensures r >= 0.0
    ensures r == x || r == -x
  {
    if x >= 0.0 then x else -x
  }

  /** `Math.max(lo, Math.min(hi, x))`: the clamping idiom of the code. When
      `lo > hi` the outer `max` always wins and the result is `lo`. */
  function Clamp(lo: real, hi: real, x: real): (r: real)
    ensures lo <= hi ==> lo <= r <= hi
    ensures lo <= x <= hi ==> r == x
    ensures x <= lo ==> r == lo
    ensures lo <= hi && hi <= x ==> r == hi
    ensures hi < lo ==> r == lo
  {
    Max(lo, Min(hi, x))
  }

  /** p5's `map(n, start1, stop1, start2, stop2, withinBounds)`: linear, and
      with `withinBounds` constrained between the two output bounds in
      whichever order they are given. */
  function P5Map(n: real, start1: real, stop1: real, start2: real, stop2: real, withinBounds: bool): (r: real)
    requires start1 != stop1
    ensures withinBounds ==> Min(start2, stop2) <= r <= Max(start2, stop2)
  {
    var v := (n - start1) / (stop1 - start1) * (stop2 - start2) + start2;
    if !withinBounds then v
    else if start2 < stop2 then Clamp(start2, stop2, v)
    else Clamp(stop2, start2, v)
  }

  /** The least integer not below `x`. */
  function Ceil(x: real): (r: int)
    ensures x <= r as real < x + 1.0
  {
    -((-x).Floor)
  }

  /** JavaScript's `ToIntegerOrInfinity` on a finite number: truncation
      toward zero. */
  function Trunc(x: real): (r: int)
    ensures Abs(r as real) <= Abs(x) < Abs(r as real) + 1.0
    ensures x >= 0.0 ==> r >= 0
    ensures x <= 0.0 ==> r <= 0
  {
    if x >= 0.0 then x.Floor else -((-x).Floor)
  }

  /** Sign facts about a quotient by a positive divisor. */
  lemma QuotientBounds(a: real, b: real, d: real)
    requires d > 0.0
    ensures a <= b ==> a / d <= b / d
    ensures a < b ==> a / d < b / d
    ensures a <= 0.0 ==> a / d <= 0.0
    ensures a >= d ==> a / d >= 1.0
    ensures 0.0 <= a < d ==> 0.0 <= a / d < 1.0
  {
    var qa, qb := a / d, b / d;
    assert qa * d == a && qb * d == b;
    assert (qb - qa) * d == b - a;
    assert (qa - 1.0) * d == a - d;
    ProductSign(qb - qa, d);
    ProductSign(qa, d);
    ProductSign(qa - 1.0, d);
  }

  /** With a positive factor `d`, `x * d` has the sign of `x`. */
  lemma ProductSign(x: real, d: real)
    requires d > 0.0
    ensures x > 0.0 <==> x * d > 0.0
    ensures x < 0.0 <==> x * d < 0.0
    ensures x == 0.0 <==> x * d == 0.0
  {
  }

  /** `Math.floor(r * n)` for a draw `r`: a uniformly chosen index below `n`. */
  function DrawIndex(r: real, n: nat): (i: nat)
    requires IsRandom(r) && n > 0
    ensures i < n
    ensures i as real <= r * n as real < i as real + 1.0
  {
    var x := r * n as real;
    ProductSign(r, n as real);
    ProductSign(1.0 - r, n as real);
    assert n as real - x == (1.0 - r) * n as real;
    x.Floor
  }

  /** `Math.random()` and p5's `random()` draw from [0, 1). */
  predicate IsRandom(r: real)
  {
    0.0 <= r < 1.0
  }

  /** `Date.getHours()` lies in 0..23. */
  predicate IsHour(h: int)
  {
    0 <= h < 24
  }
}
