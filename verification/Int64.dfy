/** The 64-bit ranges, and the products and quotients compared with the signed ceiling. */
module Int64 {

  const MAX_INT64: int := 0x7FFF_FFFF_FFFF_FFFF

  const U64_LIMIT: nat := 0x1_0000_0000_0000_0000
  type U64 = n: nat | n < U64_LIMIT

  lemma MulNonNegative(a: int, b: int)
    requires a >= 0 && b >= 0
    ensures a * b >= 0
  {
  }

  lemma MulAtMost(a: int, b: int, u: int)
    requires a <= b && u >= 0
    ensures a * u <= b * u
  {
    MulNonNegative(b - a, u);
    assert (b - a) * u == b * u - a * u;
  }

  lemma MulStep(d: int, x: int, y: int)
    requires d > 0 && x < y
    ensures d * x + d <= d * y
  {
    MulNonNegative(d, y - x - 1);
    assert d * (y - x - 1) == d * y - d * x - d;
  }

  /** Division is the q with d*q <= a < d*q + d. */
  lemma DivUnique(a: int, d: int, q: int)
    requires d > 0 && d * q <= a < d * q + d
    ensures a / d == q
  {
    var p := a / d;
    assert a == d * p + a % d;
    if p < q { MulStep(d, p, q); }
    if q < p { MulStep(d, q, p); }
  }

  lemma DivMonotone(a: int, b: int, d: int)
    requires a <= b && d > 0
    ensures a / d <= b / d
  {
    var p, q := a / d, b / d;
    assert a == d * p + a % d && b == d * q + b % d;
    if q < p { MulStep(d, q, p); }
  }

  /** The overflow test used before a product: the quotient test is exact. */
  lemma ProductTest(value: int, count: int)
    requires value > 0 && count >= 0
    ensures count > MAX_INT64 / value <==> value * count > MAX_INT64
  {
    var q := MAX_INT64 / value;
    assert MAX_INT64 == value * q + MAX_INT64 % value;
    if count > q { MulStep(value, q, count); } else { MulAtMost(count, q, value); }
  }
}
