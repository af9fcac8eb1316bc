/**
 * The engine's float helpers (FMath) over exact reals: rounding, clamping,
 * minimum/maximum and integer powers.
 */
module Numeric {
  /** FMath::RoundToInt: floor of x + 0.5, so halves round up. */
  function RoundToInt(x: real): (r: int)
    ensures r as real - 0.5 <= x < r as real + 0.5
  {
    (x + 0.5).Floor
  }

  /** FMath::Pow with a natural exponent. */
  function Pow(b: real, n: nat): real
  {
    if n == 0 then 1.0 else b * Pow(b, n - 1)
  }

  /** FMath::Clamp: X < Min ? Min : X < Max ? X : Max. */
  function ClampReal(x: real, lo: real, hi: real): (r: real)
    ensures lo <= hi ==> lo <= r <= hi
    ensures lo <= x <= hi ==> r == x
  {
    if x < lo then lo else if x < hi then x else hi
  }

  function ClampInt(x: int, lo: int, hi: int): (r: int)
    ensures lo <= hi ==> lo <= r <= hi
    ensures lo <= x <= hi ==> r == x
  {
    if x < lo then lo else if x < hi then x else hi
  }

  function MaxInt(a: int, b: int): int { if a >= b then a else b }
  function MinInt(a: int, b: int): int { if a <= b then a else b }
  function MaxReal(a: real, b: real): real { if a >= b then a else b }
  function MinReal(a: real, b: real): real { if a <= b then a else b }
  function AbsReal(a: real): real { if a < 0.0 then -a else a }

  lemma MulNonneg(x: real, y: real)
    requires x >= 0.0 && y >= 0.0
    ensures x * y >= 0.0
  {
  }

  lemma MulPos(x: real, y: real)
    requires x > 0.0 && y > 0.0
    ensures x * y > 0.0
  {
  }

  /** Comparing a ratio with a bound is comparing the numerator with the scaled bound. */
  lemma RatioCompare(c: real, n: real, k: real)
    requires n > 0.0
    ensures c / n > k <==> c > k * n
    ensures c / n < k <==> c < k * n
  {
    var q := c / n;
    assert q * n == c;
    assert (q - k) * n == c - k * n;
    if q > k {
      MulPos(q - k, n);
    } else if q < k {
      MulPos(k - q, n);
      assert (k - q) * n == k * n - c;
    }
  }

  /** Rounding a whole number gives it back. */
  lemma RoundToIntOfInt(k: int)
    ensures RoundToInt(k as real) == k
  {
  }

  /** Scaling a ratio back by its denominator gives the numerator. */
  lemma RatioTimesTotal(c: real, n: real)
    requires n > 0.0
    ensures c / n * n == c
  {
  }

  /** A power of a factor in [0, 1] stays in [0, 1]. */
  lemma {:induction false} PowInUnitInterval(b: real, n: nat)
    requires 0.0 <= b <= 1.0
    ensures 0.0 <= Pow(b, n) <= 1.0
  {
    if n > 0 {
      PowInUnitInterval(b, n - 1);
      var p := Pow(b, n - 1);
      MulNonneg(b, p);
      MulNonneg(1.0 - b, p);
      assert p - b * p == (1.0 - b) * p;
    }
  }
}
