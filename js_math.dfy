/** JavaScript's `%` operator on integers.
    JavaScript truncates toward zero, so the remainder takes the sign of the
    dividend; Dafny's `%` is Euclidean and never negative. The page only ever
    divides by the (positive) length of its playlist. */
module JsMath {

  /** `a % b` as JavaScript evaluates it, for a positive divisor. */
  function Rem(a: int, b: int): (r: int)
    requires b > 0
    ensures 0 <= a ==> 0 <= r < b && r == a % b
    ensures a < 0 ==> -b < r <= 0
    ensures a < 0 ==> a == -((-a) / b) * b + r
  {
    if a >= 0 then a % b else -((-a) % b)
  }

  /** On a dividend in [0, 2b) the remainder is the dividend, less one divisor
      once it has reached b. */
  lemma RemSmall(a: int, b: int)
    requires b > 0 && 0 <= a < 2 * b
    ensures Rem(a, b) == if a < b then a else a - b
  {
    var q, m := a / b, a % b;
    assert a == q * b + m;
    assert 0 <= q <= 1;
    if q == 0 { assert m == a; } else { assert m == a - b; }
  }
}
