/** The calculate view: dispatch on the request's `type`, run the matching
    calculation, and turn any exception into an error response. */
module Calculate {
  import opened Values
  import opened Power
  import opened Annuity
  import opened CashFlows

  /** The annuity branch: the five keys are read in this order (annuityType
      too, although a zero rate never uses it), then the formula runs with
      the rate as a fraction. */
  function AnnuityBranch(data: Request): (res: Result<real>)
    ensures data.annuityType.None? ==> res.Raise? && res.exc.KeyError?
    ensures data.payment.Some? && data.rate.Some? && data.paymentsPerYear.Some?
            && data.timePeriod.Some? && data.annuityType.Some?
      ==> res == AnnuityFv(data.payment.value, data.rate.value / 100.0, data.paymentsPerYear.value,
                           data.timePeriod.value, data.annuityType.value)
    ensures res.Ok? ==>
      && data.payment.Some? && data.rate.Some? && data.paymentsPerYear.Some?
      && data.timePeriod.Some? && data.annuityType.Some?
      && res == AnnuityFv(data.payment.value, data.rate.value / 100.0, data.paymentsPerYear.value,
                          data.timePeriod.value, data.annuityType.value)
  {
    var pmt :- Get(data.payment, "payment");
    var rate :- Get(data.rate, "rate");
    var n :- Get(data.paymentsPerYear, "paymentsPerYear");
    var t :- Get(data.timePeriod, "timePeriod");
    var annuityType :- Get(data.annuityType, "annuityType");
    AnnuityFv(pmt, rate / 100.0, n, t, annuityType)
  }

  /** The non-annuity branch: four keys read in this order, then the sum over
      the cash flows. */
  function NonAnnuityBranch(data: Request): (res: Result<real>)
    ensures data.cashFlows.None? ==> res.Raise? && res.exc.KeyError?
    ensures data.rate.Some? && data.compoundingPeriods.Some? && data.targetTime.Some? && data.cashFlows.Some?
      ==> res == TotalOf(data.rate.value / 100.0, data.compoundingPeriods.value, data.targetTime.value,
                         data.cashFlows.value)
    ensures res.Ok? ==>
      && data.rate.Some? && data.compoundingPeriods.Some? && data.targetTime.Some? && data.cashFlows.Some?
      && res == TotalOf(data.rate.value / 100.0, data.compoundingPeriods.value, data.targetTime.value,
                        data.cashFlows.value)
  {
    var rate :- Get(data.rate, "rate");
    var n :- Get(data.compoundingPeriods, "compoundingPeriods");
    var target :- Get(data.targetTime, "targetTime");
    var cashFlows :- Get(data.cashFlows, "cashFlows");
    TotalOf(rate / 100.0, n, target, cashFlows)
  }

  /** The response of the view to a request: a missing `type` raises
      KeyError; "annuity" and "non_annuity" select their branch; any other
      `type` matches neither branch and the view returns nothing. */
  function Calculation(data: Request): (resp: Response)
    ensures resp.NoResponse?
        <==> data.kind.Some? && data.kind.value != "annuity" && data.kind.value != "non_annuity"
    ensures resp.Fv? ==> data.kind == Some("annuity") || data.kind == Some("non_annuity")
  {
    match data.kind
    case None => ErrorJson(KeyError("type"))
    case Some(kind) =>
      if kind == "annuity" then Respond(AnnuityBranch(data))
      else if kind == "non_annuity" then Respond(NonAnnuityBranch(data))
      else NoResponse
  }

  /** The non-annuity branch as the view runs it: read the keys, then run the
      accumulation loop. */
  method NonAnnuity(data: Request) returns (res: Result<real>)
    ensures res == NonAnnuityBranch(data)
  {
    var rate :- Get(data.rate, "rate");
    var n :- Get(data.compoundingPeriods, "compoundingPeriods");
    var target :- Get(data.targetTime, "targetTime");
    var cashFlows :- Get(data.cashFlows, "cashFlows");
    res := NonAnnuityFv(rate / 100.0, n, target, cashFlows);
  }

  /** The view itself. */
  method Calculate(data: Request) returns (resp: Response)
    ensures resp == Calculation(data)
  {
    match data.kind {
      case None =>
        resp := ErrorJson(KeyError("type"));
      case Some(kind) =>
        if kind == "annuity" {
          resp := Respond(AnnuityBranch(data));
        } else if kind == "non_annuity" {
          var total := NonAnnuity(data);
          resp := Respond(total);
        } else {
          resp := NoResponse;
        }
    }
  }

  /** An annuity request carrying every key it needs. */
  function AnnuityRequest(payment: real, rate: real, n: int, t: int, annuityType: string): (data: Request)
  {
    Request(Some("annuity"), Some(payment), Some(rate), Some(n), Some(t), Some(annuityType), None, None, None)
  }

  /** A non-annuity request carrying every key it needs. */
  function NonAnnuityRequest(rate: real, n: int, target: int, flows: seq<CashFlow>): (data: Request)
  {
    Request(Some("non_annuity"), None, Some(rate), None, None, None, Some(n), Some(target), Some(flows))
  }

  /** A complete annuity request answers the annuity formula at rate/100:
      its value as `fv`, or its exception as the error. Keys that only the
      non-annuity branch reads make no difference. */
  lemma CompleteAnnuity(data: Request)
    requires data.kind == Some("annuity")
    requires data.payment.Some? && data.rate.Some? && data.paymentsPerYear.Some?
             && data.timePeriod.Some? && data.annuityType.Some?
    ensures Calculation(data)
         == Respond(AnnuityFv(data.payment.value, data.rate.value / 100.0, data.paymentsPerYear.value,
                              data.timePeriod.value, data.annuityType.value))
  {
  }

  /** A complete non-annuity request answers the in-order total of its cash
      flows at rate/100: its value as `fv`, or its exception as the error.
      Keys that only the annuity branch reads make no difference. */
  lemma CompleteNonAnnuity(data: Request)
    requires data.kind == Some("non_annuity")
    requires data.rate.Some? && data.compoundingPeriods.Some? && data.targetTime.Some?
             && data.cashFlows.Some?
    ensures Calculation(data)
         == Respond(TotalOf(data.rate.value / 100.0, data.compoundingPeriods.value,
                            data.targetTime.value, data.cashFlows.value))
  {
  }

  /** The view answers with nothing exactly when `type` is present and is
      neither "annuity" nor "non_annuity"; a missing `type` is an error. */
  lemma UnknownType(data: Request)
    ensures Calculation(data) == NoResponse
        <==> data.kind.Some? && data.kind.value != "annuity" && data.kind.value != "non_annuity"
    ensures data.kind.None? ==> Calculation(data) == ErrorJson(KeyError("type"))
  {
  }

  /** `paymentsPerYear == 0` never produces an `fv`: it is a ZeroDivisionError
      once the other keys are present, and a KeyError before that. */
  lemma NoPaymentsPerYearIsError(data: Request)
    requires data.kind == Some("annuity") && data.paymentsPerYear == Some(0)
    ensures Calculation(data).ErrorJson?
    ensures data.payment.Some? && data.rate.Some? && data.timePeriod.Some? && data.annuityType.Some?
      ==> Calculation(data) == ErrorJson(ZeroDivisionError)
  {
  }

  /** Every annuity key is required, annuityType included even at a zero rate:
      the first missing one, in reading order, is reported. */
  lemma MissingAnnuityKey(data: Request)
    requires data.kind == Some("annuity")
    ensures data.payment.None? ==> Calculation(data) == ErrorJson(KeyError("payment"))
    ensures data.payment.Some? && data.rate.None? ==> Calculation(data) == ErrorJson(KeyError("rate"))
    ensures data.payment.Some? && data.rate.Some? && data.paymentsPerYear.None?
      ==> Calculation(data) == ErrorJson(KeyError("paymentsPerYear"))
    ensures data.payment.Some? && data.rate.Some? && data.paymentsPerYear.Some? && data.timePeriod.None?
      ==> Calculation(data) == ErrorJson(KeyError("timePeriod"))
    ensures data.payment.Some? && data.rate.Some? && data.paymentsPerYear.Some? && data.timePeriod.Some?
            && data.annuityType.None?
      ==> Calculation(data) == ErrorJson(KeyError("annuityType"))
  {
  }

  /** Every non-annuity key is required; the first missing one is reported. */
  lemma MissingNonAnnuityKey(data: Request)
    requires data.kind == Some("non_annuity")
    ensures data.rate.None? ==> Calculation(data) == ErrorJson(KeyError("rate"))
    ensures data.rate.Some? && data.compoundingPeriods.None?
      ==> Calculation(data) == ErrorJson(KeyError("compoundingPeriods"))
    ensures data.rate.Some? && data.compoundingPeriods.Some? && data.targetTime.None?
      ==> Calculation(data) == ErrorJson(KeyError("targetTime"))
    ensures data.rate.Some? && data.compoundingPeriods.Some? && data.targetTime.Some?
            && data.cashFlows.None?
      ==> Calculation(data) == ErrorJson(KeyError("cashFlows"))
  {
  }

  /** With `compoundingPeriods == 0`, a non-annuity request is an error exactly
      when some flow lies at or before the target (or has no time); when all
      flows lie after the target, or there are none, it answers `fv = 0`. */
  lemma NoCompoundingPeriodsResponse(rate: real, target: int, flows: seq<CashFlow>)
    ensures Calculation(NonAnnuityRequest(rate, 0, target, flows)).ErrorJson?
        <==> exists k :: 0 <= k < |flows| && (flows[k].time.None? || flows[k].time.value <= target)
    ensures !Calculation(NonAnnuityRequest(rate, 0, target, flows)).ErrorJson?
        ==> Calculation(NonAnnuityRequest(rate, 0, target, flows)) == Fv(0.0)
  {
    NoCompoundingPeriods(rate / 100.0, target, flows);
  }

  /** A single flow of 5000 at year 2, at 5% compounded yearly, valued at
      year 10, grows for eight years. */
  lemma SingleFlowExample()
    ensures Calculation(NonAnnuityRequest(5.0, 1, 10, [CashFlow(Some(5000.0), Some(2))]))
         == Fv(5000.0 * Pow(1.05, 8))
  {
    var flows := [CashFlow(Some(5000.0), Some(2))];
    EarlyFlow(0.05, 1, 10, 5000.0, 2);
    AppendFlow(0.05, 1, 10, [], flows[0]);
    assert [] + [flows[0]] == flows;
  }

  /** A flow at year 15 adds nothing to a valuation at year 10. */
  lemma LateFlowExample(amount: real)
    ensures Calculation(NonAnnuityRequest(5.0, 1, 10, [CashFlow(Some(amount), Some(15))])) == Fv(0.0)
  {
    var flows := [CashFlow(Some(amount), Some(15))];
    AppendFlow(0.05, 1, 10, [], flows[0]);
    assert [] + [flows[0]] == flows;
  }

  /** 1000 a month for ten years at 5%: paid at the beginning of each month,
      the account ends one month's interest (0.05 / 12) higher. */
  lemma MonthlyDepositExample()
    ensures Calculation(AnnuityRequest(1000.0, 5.0, 12, 10, "end")).Fv?
    ensures Calculation(AnnuityRequest(1000.0, 5.0, 12, 10, "beginning"))
         == Fv(Calculation(AnnuityRequest(1000.0, 5.0, 12, 10, "end")).fv * (1.0 + 0.05 / 12.0))
  {
    DueFactor(1000.0, 0.05, 12, 10, "end");
  }
}
