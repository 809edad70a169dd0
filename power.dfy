/** Exponentiation `b ** e` for whole-number exponents, and the geometric sum
    behind the annuity formula. */
module Power {
  import opened Values

  /** b to the k-th power, for a natural exponent. */
  function Pow(b: real, k: nat): (r: real)
    ensures k == 0 ==> r == 1.0
    ensures b != 0.0 ==> r != 0.0
    ensures b > 0.0 ==> r > 0.0
  {
    if k == 0 then 1.0 else b * Pow(b, k - 1)
  }

  /** Python's `b ** e` on a float base and an integer exponent: a negative
      exponent gives the reciprocal, and `0.0 ** e` with e < 0 raises
      ZeroDivisionError. */
  function PyPow(b: real, e: int): (r: Result<real>)
    ensures r.Raise? <==> b == 0.0 && e < 0
    ensures r.Raise? ==> r.exc == ZeroDivisionError
    ensures e >= 0 ==> r == Ok(Pow(b, e))
    ensures r.Ok? && e < 0 ==> r.value * Pow(b, -e) == 1.0
  {
    if e >= 0 then Ok(Pow(b, e))
    else if b == 0.0 then Raise(ZeroDivisionError)
    else Ok(1.0 / Pow(b, -e))
  }

  /** 1 + b + b^2 + ... + b^(k-1), accumulated Horner-style: the value of k
      unit payments each grown by the factor b once per later period. */
  function GrowthSum(b: real, k: nat): (s: real)
  {
    if k == 0 then 0.0 else GrowthSum(b, k - 1) * b + 1.0
  }

  /** A growth factor of at least one never shrinks a power. */
  lemma {:induction false} PowAtLeastOne(b: real, k: nat)
    requires b >= 1.0
    ensures Pow(b, k) >= 1.0
  {
    if k > 0 {
      PowAtLeastOne(b, k - 1);
      assert b * Pow(b, k - 1) >= 1.0 * Pow(b, k - 1);
    }
  }

  /** A growth factor above one strictly grows every positive power. */
  lemma {:induction false} PowAboveOne(b: real, k: nat)
    requires b > 1.0 && k > 0
    ensures Pow(b, k) > 1.0
  {
    PowAtLeastOne(b, k - 1);
    assert b * Pow(b, k - 1) > 1.0 * Pow(b, k - 1);
  }

  /** The geometric series: (b - 1) * (1 + b + ... + b^(k-1)) == b^k - 1. */
  lemma {:induction false} Geometric(b: real, k: nat)
    ensures (b - 1.0) * GrowthSum(b, k) == Pow(b, k) - 1.0
  {
    if k > 0 {
      Geometric(b, k - 1);
      GeometricStep(b, GrowthSum(b, k - 1), Pow(b, k - 1));
    }
  }

  /** The algebra of one step of Geometric, on plain numbers. */
  lemma GeometricStep(b: real, s: real, p: real)
    requires (b - 1.0) * s == p - 1.0
    ensures (b - 1.0) * (s * b + 1.0) == b * p - 1.0
  {
    calc {
      (b - 1.0) * (s * b + 1.0);
      b * ((b - 1.0) * s) + b - 1.0;
      b * (p - 1.0) + b - 1.0;
    }
  }

  /** With no growth, k payments sum to k. */
  lemma {:induction false} GrowthSumAtOne(k: nat)
    ensures GrowthSum(1.0, k) == k as real
  {
    if k > 0 { GrowthSumAtOne(k - 1); }
  }

  /** With a positive growth factor, a non-empty sum is at least its first
      term, one. */
  lemma {:induction false} GrowthSumPositive(b: real, k: nat)
    requires b > 0.0 && k > 0
    ensures GrowthSum(b, k) >= 1.0
  {
    if k > 1 {
      GrowthSumPositive(b, k - 1);
      assert GrowthSum(b, k - 1) * b > 0.0;
    }
  }
}
