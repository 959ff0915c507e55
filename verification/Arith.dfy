/** Facts about integer products and quotients. */
module Arith {

  lemma SmallMultiple(k: int, d: int)
    requires d > 0
    ensures k == 0 || k * d >= d || k * d <= -d
  {
    if k > 0 {
      assert (k - 1) * d >= 0;
    } else if k < 0 {
      assert (-k - 1) * d >= 0;
    }
  }

  lemma MulAssoc(a: int, b: int, c: int)
    ensures a * (b * c) == (a * b) * c
  {
  }

  /** The quotient is the only number with a remainder in range. */
  lemma QuotientUnique(a: int, d: int, q: int, r: int)
    requires d > 0 && a == q * d + r && 0 <= r < d
    ensures a / d == q
  {
    var k := a / d - q;
    assert a == (a / d) * d + a % d;
    assert k * d == (a / d) * d - q * d;
    SmallMultiple(k, d);
  }

  lemma MultipleHasNoRest(k: int, m: int)
    requires m > 0
    ensures (k * m) / m == k && (k * m) % m == 0
  {
    QuotientUnique(k * m, m, k, 0);
  }
}
