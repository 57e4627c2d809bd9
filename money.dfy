/** Money is held in integer cents; Decimal results that the backend keeps with two decimal
    places are quantised the way Python's decimal module does by default (ROUND_HALF_EVEN). */
module Money {

  /** The integer nearest to num / den, ties going to the even neighbour. */
  function RoundHalfEven(num: int, den: int): (r: int)
    requires den > 0
    ensures -den <= 2 * (num - r * den) <= den
    ensures (2 * (num - r * den) == den || 2 * (num - r * den) == -den) ==> r % 2 == 0
  {
    var q := num / den;
    var rem := num % den;
    assert q * den + rem == num;
    assert (q + 1) * den == q * den + den;
    if 2 * rem > den then q + 1
    else if 2 * rem < den then q
    else if q % 2 == 0 then q
    else q + 1
  }

  /** Cancelling a positive factor from a strict inequality. */
  lemma CancelFactor(a: int, b: int, d: int)
    requires d > 0 && a * d > b * d
    ensures a > b
  {
  }

  /** A non-negative amount never rounds to a negative one. */
  lemma RoundNonNegative(num: int, den: int)
    requires den > 0 && num >= 0
    ensures RoundHalfEven(num, den) >= 0
  {
    var r := RoundHalfEven(num, den);
    CancelFactor(r, -1, den);
  }

  /** Rounding is exact when the quotient is already whole. */
  lemma RoundExact(k: int, den: int)
    requires den > 0
    ensures RoundHalfEven(k * den, den) == k
  {
    var r := RoundHalfEven(k * den, den);
    var d := k - r;
    assert k * den - r * den == d * den;
    CancelFactor(d, -1, den);
    CancelFactor(1, d, den);
  }

  /** The only multiple of den strictly between -den and den is zero. */
  lemma SmallMultiple(m: int, den: int)
    requires den > 0 && -den < m * den < den
    ensures m == 0
  {
    CancelFactor(1, m, den);
    CancelFactor(m, -1, den);
  }

  /** The remainder of a number written as a multiple of den plus a remainder in range. */
  lemma ModOf(x: int, q: int, r: int, den: int)
    requires den > 0 && 0 <= r < den && x == q * den + r
    ensures x % den == r
  {
    var q2, r2 := x / den, x % den;
    assert q2 * den + r2 == x;
    assert (q - q2) * den == r2 - r;
    SmallMultiple(q - q2, den);
  }

  /** A number half-way between two multiples of den has remainder den / 2. */
  lemma HalfwayMod(x: int, a: int, den: int)
    requires den > 0
    ensures 2 * (x - a * den) == den || 2 * (x - a * den) == -den ==> 2 * (x % den) == den
  {
    var e := x - a * den;
    if 2 * e == den {
      ModOf(x, a, e, den);
    } else if 2 * e == -den {
      assert x == (a - 1) * den + (den + e);
      ModOf(x, a - 1, den + e, den);
    }
  }

  /** Unless x lies exactly half-way between two multiples of den, adding a whole multiple
      of den before rounding is the same as adding it after. */
  lemma RoundShift(k: int, x: int, den: int)
    requires den > 0 && 2 * (x % den) != den
    ensures RoundHalfEven(k * den + x, den) == k + RoundHalfEven(x, den)
  {
    var a := RoundHalfEven(x, den);
    var e := x - a * den;
    HalfwayMod(x, a, den);
    assert -den < 2 * e < den;
    var b := RoundHalfEven(k * den + x, den);
    var e2 := k * den + x - b * den;
    assert -den <= 2 * e2 <= den;
    var d := b - k - a;
    Distribute(d, b, k, a, den);
    assert e - e2 == d * den;
    SmallMultiple(d, den);
  }

  lemma Distribute(d: int, b: int, k: int, a: int, den: int)
    requires d == b - k - a
    ensures d * den == b * den - k * den - a * den
  {
  }
}
