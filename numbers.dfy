/** Integer stand-ins for the `Math` functions the application applies to whole numbers. */
module Numbers {

  /** `Math.ceil(a / b)` for a positive divisor, on integers of either sign. */
  function CeilDiv(a: int, b: int): (q: int)
    requires b > 0
    ensures b * (q - 1) < a <= b * q
  {
    var f := (-a) / b;
    assert (-a) == b * f + (-a) % b;
    -f
  }

  lemma MulCancel(b: int, x: int, y: int)
    requires b > 0 && b * x < b * y
    ensures x < y
  {
    assert b * y - b * x == b * (y - x);
  }

  /** The rounded-up quotient is the only integer with that property. */
  lemma CeilDivUnique(a: int, b: int, q: int)
    requires b > 0 && b * (q - 1) < a <= b * q
    ensures q == CeilDiv(a, b)
  {
    var c := CeilDiv(a, b);
    MulCancel(b, q - 1, c);
    MulCancel(b, c - 1, q);
  }

  function Max(a: int, b: int): int { if a >= b then a else b }

  function Min(a: int, b: int): int { if a <= b then a else b }

  /** JavaScript's `a % n`: the remainder takes the sign of `a`, unlike Dafny's `%`. */
  function JsRem(a: int, n: int): (r: int)
    requires n > 0
    ensures a >= 0 ==> 0 <= r < n && r == a % n
    ensures a < 0 ==> -n < r <= 0 && r == -((-a) % n)
  {
    if a >= 0 then a % n else -((-a) % n)
  }
}
