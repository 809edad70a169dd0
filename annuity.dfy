/** The annuity branch of the calculate view: the closed-form future value of
    a stream of equal periodic payments (ordinary annuity or annuity due). */
module Annuity {
  import opened Values
  import opened Power

  /** Future value once the annuity keys have been read; `r` is the annual
      rate as a fraction (`rate / 100`), `n` the payments per year and `t`
      the number of years. It raises exactly when the periodic rate `r / n`
      divides by zero, or when `(1 + r/n) ** (n*t)` raises (`0.0` to a
      negative power). */
  function AnnuityFv(pmt: real, r: real, n: int, t: int, annuityType: string): (res: Result<real>)
    ensures res.Raise? <==> n == 0 || (r / n as real == -1.0 && n * t < 0)
    ensures res.Raise? ==> res.exc == ZeroDivisionError
  {
    if n == 0 then Raise(ZeroDivisionError)
    else PeriodicFv(pmt, r / n as real, n * t, annuityType)
  }

  /** The formula itself, at periodic rate `i` over `periods` periods. */
  function PeriodicFv(pmt: real, i: real, periods: int, annuityType: string): (res: Result<real>)
    ensures res.Raise? <==> i == -1.0 && periods < 0
    ensures res.Raise? ==> res.exc == ZeroDivisionError
  {
    if i == 0.0 then Ok(pmt * periods as real)
    else
      var growth :- PyPow(1.0 + i, periods);
      var fv := pmt * ((growth - 1.0) / i);
      Ok(if annuityType == "beginning" then fv * (1.0 + i) else fv)
  }

  /** Reference definition: the balance of an account into which `pmt` is paid
      once per period for `periods` periods, growing by `(1 + i)` each period.
      An ordinary annuity pays at the end of each period; an annuity due pays
      at its beginning, so each payment also earns that period's interest. */
  function PaymentsFv(pmt: real, i: real, periods: nat, due: bool): (balance: real)
  {
    if periods == 0 then 0.0
    else PaymentsFv(pmt, i, periods - 1, due) * (1.0 + i) + (if due then pmt * (1.0 + i) else pmt)
  }

  /** The balance is one payment (grown one period if due) times the
      geometric sum of growth factors. */
  lemma {:induction false} PaymentsFvClosed(pmt: real, i: real, periods: nat, due: bool)
    ensures PaymentsFv(pmt, i, periods, due)
         == (if due then pmt * (1.0 + i) else pmt) * GrowthSum(1.0 + i, periods)
  {
    if periods > 0 {
      PaymentsFvClosed(pmt, i, periods - 1, due);
      var p := if due then pmt * (1.0 + i) else pmt;
      Factor(p, GrowthSum(1.0 + i, periods - 1), 1.0 + i);
    }
  }

  /** The algebra of one step of PaymentsFvClosed, on plain numbers. */
  lemma Factor(p: real, s: real, b: real)
    ensures (p * s) * b + p == p * (s * b + 1.0)
  {
  }

  /** Dividing the geometric identity by the non-zero periodic rate. */
  lemma DivideGeometric(i: real, growth: real, s: real)
    requires i != 0.0 && i * s == growth - 1.0
    ensures (growth - 1.0) / i == s
  {
  }

  /** The closed form at periodic rate `i` agrees with paying in period by
      period. */
  lemma PeriodicMatchesPayments(pmt: real, i: real, periods: nat, annuityType: string)
    ensures PeriodicFv(pmt, i, periods, annuityType).Ok?
    ensures PeriodicFv(pmt, i, periods, annuityType).value
         == PaymentsFv(pmt, i, periods, annuityType == "beginning")
  {
    var due := annuityType == "beginning";
    PaymentsFvClosed(pmt, i, periods, due);
    if i == 0.0 {
      GrowthSumAtOne(periods);
      assert PaymentsFv(pmt, i, periods, due) == pmt * periods as real;
    } else {
      var s := GrowthSum(1.0 + i, periods);
      Geometric(1.0 + i, periods);
      DivideGeometric(i, Pow(1.0 + i, periods), s);
      GrowingPayments(pmt, i, s, Pow(1.0 + i, periods), periods, annuityType);
    }
  }

  /** The non-zero-rate case of PeriodicMatchesPayments, once the geometric
      sum `s` is known to equal `(growth - 1) / i`. */
  lemma GrowingPayments(pmt: real, i: real, s: real, growth: real, periods: nat, annuityType: string)
    requires i != 0.0 && growth == Pow(1.0 + i, periods) && (growth - 1.0) / i == s
    ensures PeriodicFv(pmt, i, periods, annuityType).Ok?
    ensures PeriodicFv(pmt, i, periods, annuityType).value
         == (if annuityType == "beginning" then pmt * (1.0 + i) else pmt) * s
  {
    var due := annuityType == "beginning";
    var fv := pmt * ((growth - 1.0) / i);
    var y := PeriodicFv(pmt, i, periods, annuityType);
    assert y.Ok?;
    assert y.value == if due then fv * (1.0 + i) else fv;
    assert fv == pmt * s;
    assert y.value == (if due then pmt * (1.0 + i) else pmt) * s;
  }

  /** The closed form agrees with paying in period by period, for every
      non-negative number of periods, at zero and at non-zero rates, for both
      timings; any annuityType other than "beginning" is an ordinary annuity. */
  lemma AnnuityMatchesPayments(pmt: real, r: real, n: int, t: int, annuityType: string)
    requires n != 0 && n * t >= 0
    ensures AnnuityFv(pmt, r, n, t, annuityType).Ok?
    ensures AnnuityFv(pmt, r, n, t, annuityType).value
         == PaymentsFv(pmt, r / n as real, n * t, annuityType == "beginning")
  {
    PeriodicMatchesPayments(pmt, r / n as real, n * t, annuityType);
  }

  /** At a zero periodic rate there is no growth: `pmt` times the number of
      periods, whatever the annuityType and however many periods. */
  lemma ZeroPeriodicRate(pmt: real, i: real, periods: int, annuityType: string)
    requires i == 0.0
    ensures PeriodicFv(pmt, i, periods, annuityType) == Ok(pmt * periods as real)
  {
  }

  /** At a zero rate the result is `payment * paymentsPerYear * timePeriod`,
      whatever the annuityType. */
  lemma ZeroRate(pmt: real, r: real, n: int, t: int, annuityType: string)
    requires n != 0 && r == 0.0
    ensures AnnuityFv(pmt, r, n, t, annuityType).Ok?
    ensures AnnuityFv(pmt, r, n, t, annuityType).value == pmt * (n as real) * (t as real)
  {
    ZeroPeriodicRate(pmt, r / n as real, n * t, annuityType);
    ProductAsReal(pmt, n, t);
  }

  /** Converting a product of whole numbers to a real. */
  lemma ProductAsReal(pmt: real, n: int, t: int)
    ensures pmt * (n * t) as real == pmt * (n as real) * (t as real)
  {
    var nr, tr := n as real, t as real;
    assert (n * t) as real == nr * tr;
  }

  /** At a non-zero periodic rate, the annuity due is the ordinary annuity
      times `(1 + periodic rate)`; every annuityType other than "beginning",
      the empty one included, is the ordinary annuity. */
  lemma DueFactor(pmt: real, r: real, n: int, t: int, annuityType: string)
    requires n != 0 && r != 0.0 && annuityType != "beginning"
    ensures AnnuityFv(pmt, r, n, t, annuityType) == AnnuityFv(pmt, r, n, t, "")
    ensures AnnuityFv(pmt, r, n, t, "beginning").Ok? == AnnuityFv(pmt, r, n, t, annuityType).Ok?
    ensures AnnuityFv(pmt, r, n, t, annuityType).Ok? ==>
      AnnuityFv(pmt, r, n, t, "beginning").value
        == AnnuityFv(pmt, r, n, t, annuityType).value * (1.0 + r / n as real)
  {
    assert r / n as real != 0.0;
  }

  /** With a positive payment, a positive rate and at least one period, paying
      at the beginning of each period yields strictly more. */
  lemma BeginningExceedsEnd(pmt: real, r: real, n: int, t: int, annuityType: string)
    requires pmt > 0.0 && r > 0.0 && n > 0 && t > 0 && annuityType != "beginning"
    ensures AnnuityFv(pmt, r, n, t, "beginning").Ok? && AnnuityFv(pmt, r, n, t, annuityType).Ok?
    ensures AnnuityFv(pmt, r, n, t, "beginning").value > AnnuityFv(pmt, r, n, t, annuityType).value
  {
    var i := r / n as real;
    var periods: nat := n * t;
    assert i > 0.0;
    PeriodicMatchesPayments(pmt, i, periods, "beginning");
    PeriodicMatchesPayments(pmt, i, periods, annuityType);
    PaymentsFvClosed(pmt, i, periods, true);
    PaymentsFvClosed(pmt, i, periods, false);
    var s := GrowthSum(1.0 + i, periods);
    GrowthSumPositive(1.0 + i, periods);
    assert pmt * s > 0.0;
    assert (pmt * (1.0 + i)) * s == pmt * s + i * (pmt * s);
  }

  /** No payments per year always raises ZeroDivisionError. */
  lemma NoPaymentsPerYear(pmt: real, r: real, t: int, annuityType: string)
    ensures AnnuityFv(pmt, r, 0, t, annuityType) == Raise(ZeroDivisionError)
  {
  }
}
