/** Java's fixed-width integer arithmetic on unbounded integers: `long`
    wrap-around and `/` truncating toward zero. */
module JavaNumbers {
  const LONG_MIN: int := -0x8000_0000_0000_0000
  const LONG_MAX: int := 0x7FFF_FFFF_FFFF_FFFF

  predicate IsLong(x: int)
  {
    LONG_MIN <= x <= LONG_MAX
  }

  /** Java `long` arithmetic: the value modulo 2^64, in the signed range. */
  function Wrap64(x: int): (r: int)
  {
    (x - LONG_MIN) % 0x1_0000_0000_0000_0000 + LONG_MIN
  }

  /** `Wrap64` is the identity on longs, lands in the long range, and
      differs from its argument by a multiple of 2^64. */
  lemma Wrap64Spec(x: int)
    ensures IsLong(Wrap64(x))
    ensures (x - Wrap64(x)) % 0x1_0000_0000_0000_0000 == 0
    ensures IsLong(x) ==> Wrap64(x) == x
  {
  }

  /** Java's `/`, which truncates toward zero (for a positive divisor). */
  function JavaDiv(a: int, b: int): (q: int)
    requires b > 0
    ensures a >= 0 ==> 0 <= q * b <= a < q * b + b
    ensures a < 0 ==> q * b - b < a <= q * b <= 0
  {
    if a >= 0 then DivFloor(a, b); a / b
    else DivFloor(-a, b); -((-a) / b)
  }

  lemma DivFloor(a: int, b: int)
    requires a >= 0 && b > 0
    ensures 0 <= (a / b) * b <= a < (a / b) * b + b
  {
    var q, r := a / b, a % b;
    assert a == b * q + r && 0 <= r < b;
    assert b * q == q * b;
    assert q >= 0;
    assert 0 <= q * b;
  }
}
