/** The non-annuity branch of the calculate view: every cash flow is
    compounded forward to the target time and the results are summed. */
module CashFlows {
  import opened Values
  import opened Power

  /** What one cash flow adds to the total, for annual rate `r` (a fraction,
      `rate / 100`), `n` compounding periods per year and target time
      `target`. `time` is read first; a flow later than the target adds 0
      without its amount being read, and only an earlier or simultaneous flow
      reads `amount` and then divides by `n`. */
  function Contribution(r: real, n: int, target: int, cf: CashFlow): (res: Result<real>)
    ensures cf.time.None? ==> res == Raise(KeyError("time"))
    ensures cf.time.Some? && cf.time.value > target ==> res == Ok(0.0)
    ensures cf.time.Some? && cf.time.value <= target && cf.amount.None? ==> res == Raise(KeyError("amount"))
    ensures res.Raise? ==> res.exc in {KeyError("time"), KeyError("amount"), ZeroDivisionError}
  {
    var time :- Get(cf.time, "time");
    var remainingTime := target - time;
    if remainingTime < 0 then Ok(0.0)
    else
      var amount :- Get(cf.amount, "amount");
      if n == 0 then Raise(ZeroDivisionError)
      else
        var growth :- PyPow(1.0 + r / n as real, n * remainingTime);
        Ok(amount * growth)
  }

  /** The running total after the given flows, added in order from 0; the
      first flow that raises aborts the sum with its exception. */
  function TotalOf(r: real, n: int, target: int, flows: seq<CashFlow>): (res: Result<real>)
    ensures flows == [] ==> res == Ok(0.0)
    ensures res.Raise? ==>
      exists k :: 0 <= k < |flows| && Contribution(r, n, target, flows[k]) == Raise(res.exc)
    decreases |flows|
  {
    if flows == [] then Ok(0.0)
    else
      var before :- TotalOf(r, n, target, flows[..|flows| - 1]);
      var last :- Contribution(r, n, target, flows[|flows| - 1]);
      Ok(before + last)
  }

  /** The loop of the non-annuity branch: `total_fv` starts at 0 and each
      flow's contribution is added in list order. */
  method NonAnnuityFv(r: real, n: int, target: int, cashFlows: seq<CashFlow>) returns (res: Result<real>)
    ensures res == TotalOf(r, n, target, cashFlows)
  {
    var totalFv := 0.0;
    for k := 0 to |cashFlows|
      invariant TotalOf(r, n, target, cashFlows[..k]) == Ok(totalFv)
    {
      assert cashFlows[..k + 1][..k] == cashFlows[..k];
      var fv := Contribution(r, n, target, cashFlows[k]);
      if fv.Raise? {
        RaisePersists(r, n, target, cashFlows, k + 1);
        return Raise(fv.exc);
      }
      totalFv := totalFv + fv.value;
    }
    assert cashFlows[..|cashFlows|] == cashFlows;
    return Ok(totalFv);
  }

  /** Once a prefix of the flows has raised, the whole list raises the same
      exception: nothing after the failing flow is looked at. */
  lemma {:induction false} RaisePersists(r: real, n: int, target: int, flows: seq<CashFlow>, k: nat)
    requires k <= |flows| && TotalOf(r, n, target, flows[..k]).Raise?
    ensures TotalOf(r, n, target, flows) == TotalOf(r, n, target, flows[..k])
    decreases |flows| - k
  {
    if k < |flows| {
      assert flows[..k + 1][..k] == flows[..k];
      RaisePersists(r, n, target, flows, k + 1);
    } else {
      assert flows[..k] == flows;
    }
  }

  /** Appending a flow adds exactly its own contribution (or raises). */
  lemma AppendFlow(r: real, n: int, target: int, flows: seq<CashFlow>, cf: CashFlow)
    ensures TotalOf(r, n, target, flows + [cf]).Ok?
        <==> TotalOf(r, n, target, flows).Ok? && Contribution(r, n, target, cf).Ok?
    ensures TotalOf(r, n, target, flows + [cf]).Ok? ==>
      TotalOf(r, n, target, flows + [cf]).value
        == TotalOf(r, n, target, flows).value + Contribution(r, n, target, cf).value
  {
    assert (flows + [cf])[..|flows|] == flows;
  }

  /** Superposition: the total of two lists placed one after the other is
      the sum of their separate totals, and it succeeds exactly when both do. */
  lemma {:induction false} Superposition(r: real, n: int, target: int, xs: seq<CashFlow>, ys: seq<CashFlow>)
    ensures TotalOf(r, n, target, xs + ys).Ok?
        <==> TotalOf(r, n, target, xs).Ok? && TotalOf(r, n, target, ys).Ok?
    ensures TotalOf(r, n, target, xs + ys).Ok? ==>
      TotalOf(r, n, target, xs + ys).value
        == TotalOf(r, n, target, xs).value + TotalOf(r, n, target, ys).value
    decreases |ys|
  {
    if ys == [] {
      assert xs + ys == xs;
    } else {
      var init, last := ys[..|ys| - 1], ys[|ys| - 1];
      assert ys == init + [last];
      assert xs + ys == (xs + init) + [last];
      Superposition(r, n, target, xs, init);
      AppendFlow(r, n, target, xs + init, last);
      AppendFlow(r, n, target, init, last);
    }
  }

  /** The order of the flows does not change the total. */
  lemma Reorder(r: real, n: int, target: int, xs: seq<CashFlow>, ys: seq<CashFlow>)
    ensures TotalOf(r, n, target, xs + ys).Ok? == TotalOf(r, n, target, ys + xs).Ok?
    ensures TotalOf(r, n, target, xs + ys).Ok? ==>
      TotalOf(r, n, target, xs + ys).value == TotalOf(r, n, target, ys + xs).value
  {
    Superposition(r, n, target, xs, ys);
    Superposition(r, n, target, ys, xs);
  }

  /** The total succeeds exactly when every flow's contribution does. */
  lemma {:induction false} TotalOkIffEachOk(r: real, n: int, target: int, flows: seq<CashFlow>)
    ensures TotalOf(r, n, target, flows).Ok?
        <==> forall k :: 0 <= k < |flows| ==> Contribution(r, n, target, flows[k]).Ok?
    decreases |flows|
  {
    if flows != [] {
      var init := flows[..|flows| - 1];
      TotalOkIffEachOk(r, n, target, init);
      assert forall k :: 0 <= k < |init| ==> init[k] == flows[k];
    }
  }

  /** A flow later than the target contributes exactly 0, whatever its
      amount (even a missing one) and whatever the compounding. */
  lemma LateFlow(r: real, n: int, target: int, cf: CashFlow)
    requires cf.time.Some? && cf.time.value > target
    ensures Contribution(r, n, target, cf) == Ok(0.0)
  {
  }

  /** A flow at exactly the target contributes exactly its amount: zero
      compounding periods. */
  lemma OnTimeFlow(r: real, n: int, target: int, amount: real)
    requires n != 0
    ensures Contribution(r, n, target, CashFlow(Some(amount), Some(target))).Ok?
    ensures Contribution(r, n, target, CashFlow(Some(amount), Some(target))).value == amount
  {
    var c := Contribution(r, n, target, CashFlow(Some(amount), Some(target)));
    assert PyPow(1.0 + r / n as real, n * 0) == Ok(1.0);
    assert c.value == amount * 1.0;
  }

  /** A flow no later than the target, with positive compounding, grows by
      `(1 + r/n)` once per compounding period until the target. */
  lemma EarlyFlow(r: real, n: int, target: int, amount: real, time: int)
    requires n > 0 && time <= target
    ensures Contribution(r, n, target, CashFlow(Some(amount), Some(time))).Ok?
    ensures Contribution(r, n, target, CashFlow(Some(amount), Some(time))).value
         == amount * Pow(1.0 + r / n as real, n * (target - time))
  {
    var c := Contribution(r, n, target, CashFlow(Some(amount), Some(time)));
    assert n * (target - time) >= 0;
    assert c.value == amount * Pow(1.0 + r / n as real, n * (target - time));
  }

  /** At a non-negative rate a non-negative flow at or before the target
      never shrinks, and at a positive rate one strictly before the target
      strictly grows. */
  lemma EarlyFlowGrows(r: real, n: int, target: int, amount: real, time: int)
    requires n > 0 && r >= 0.0 && amount >= 0.0 && time <= target
    ensures Contribution(r, n, target, CashFlow(Some(amount), Some(time))).Ok?
    ensures Contribution(r, n, target, CashFlow(Some(amount), Some(time))).value >= amount
    ensures r > 0.0 && amount > 0.0 && time < target ==>
      Contribution(r, n, target, CashFlow(Some(amount), Some(time))).value > amount
  {
    EarlyFlow(r, n, target, amount, time);
    var b, k := 1.0 + r / n as real, n * (target - time);
    PowAtLeastOne(b, k);
    assert amount * Pow(b, k) >= amount * 1.0;
    if r > 0.0 && amount > 0.0 && time < target {
      assert r / n as real > 0.0;
      PowAboveOne(b, k);
      assert amount * Pow(b, k) > amount * 1.0;
    }
  }

  /** With no compounding periods, the sum raises exactly when some flow has
      no time or lies at or before the target (KeyError for a missing time or
      amount, otherwise the division `r / n`); when every flow is later than
      the target, or there are none, the total is 0. */
  lemma {:induction false} NoCompoundingPeriods(r: real, target: int, flows: seq<CashFlow>)
    ensures TotalOf(r, 0, target, flows).Raise?
        <==> exists k :: 0 <= k < |flows| && (flows[k].time.None? || flows[k].time.value <= target)
    ensures TotalOf(r, 0, target, flows).Ok? ==> TotalOf(r, 0, target, flows).value == 0.0
    decreases |flows|
  {
    if flows != [] {
      var init, last := flows[..|flows| - 1], flows[|flows| - 1];
      NoCompoundingPeriods(r, target, init);
      assert flows == init + [last];
      AppendFlow(r, 0, target, init, last);
      assert forall k :: 0 <= k < |init| ==> init[k] == flows[k];
    }
  }
}
