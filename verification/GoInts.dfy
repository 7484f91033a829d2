/** Go's 64-bit signed integers: wrap-around of results and the truncating remainder. */
module GoInts {
  const TWO_63: int := 0x8000_0000_0000_0000
  const TWO_64: int := 0x1_0000_0000_0000_0000

  type byte = x: int | 0 <= x < 256

  predicate IsInt64(x: int) {
    -TWO_63 <= x < TWO_63
  }

  /** The int64 that is congruent to `x` modulo 2^64. */
  function Wrap64(x: int): (r: int)
    ensures IsInt64(r)
    ensures IsInt64(x) ==> r == x
  {
    (x + TWO_63) % TWO_64 - TWO_63
  }

  /** Go's `%`: the remainder takes the sign of the dividend. */
  function Rem(a: int, b: int): (r: int)
    requires b > 0
    ensures -b < r < b
    ensures a >= 0 ==> r >= 0
    ensures a <= 0 ==> r <= 0
  {
    if a >= 0 then a % b else -((-a) % b)
  }

  /** Wrapping an intermediate result early does not change the final wrapped sum or product. */
  lemma WrapStep(x: int, k: int, d: int)
    ensures Wrap64(Wrap64(x) * k + d) == Wrap64(x * k + d)
  {
    var q := (x + TWO_63) / TWO_64;
    assert Wrap64(x) == x - q * TWO_64;
    var y := x * k + d + TWO_63;
    assert Wrap64(x) * k + d + TWO_63 == y - (q * k) * TWO_64 by {
      assert (x - q * TWO_64) * k == x * k - (q * k) * TWO_64;
    }
    ModShift(y, q * k);
  }

  lemma ModShift(y: int, m: int)
    ensures (y - m * TWO_64) % TWO_64 == y % TWO_64
  {
    var q, r := y / TWO_64, y % TWO_64;
    assert y - m * TWO_64 == (q - m) * TWO_64 + r;
  }
}
