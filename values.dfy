/** The request payload, the Python exceptions the calculation can raise and
    the response the calculate view produces. */
module Values {

  /** A JSON key that may be absent from the request. */
  datatype Option<+T> = None | Some(value: T)

  /** The exceptions the calculate view raises under exact real arithmetic;
      each one is caught and turned into an error response. The OverflowError
      of float `**` and the TypeError of a non-numeric key are not modelled. */
  datatype Exception =
    | KeyError(key: string)   // a required key is missing from a JSON object
    | ZeroDivisionError       // `x / 0`, or `0.0 ** k` with k < 0

  /** A computed value, or the exception that aborted the computation. */
  datatype Result<+T> = Ok(value: T) | Raise(exc: Exception) {
    predicate IsFailure() { Raise? }

    function PropagateFailure<U>(): Result<U>
      requires Raise?
    {
      Raise(exc)
    }

    function Extract(): T
      requires Ok?
    {
      value
    }
  }

  /** `d[key]` on a JSON object: the value, or KeyError when the key is absent. */
  function Get<T>(field: Option<T>, key: string): (r: Result<T>)
    ensures field.Some? <==> r.Ok?
    ensures field.Some? ==> r.value == field.value
    ensures field.None? ==> r.exc == KeyError(key)
  {
    match field
    case Some(v) => Ok(v)
    case None => Raise(KeyError(key))
  }

  /** One element of `cashFlows`: `{amount, time}`, times in whole years. */
  datatype CashFlow = CashFlow(amount: Option<real>, time: Option<int>)

  /** The JSON object posted to /calculate: every key the view reads, each of
      which may be missing. `kind` is the `type` key. */
  datatype Request = Request(
    kind: Option<string>,
    // annuity keys
    payment: Option<real>,
    rate: Option<real>,
    paymentsPerYear: Option<int>,
    timePeriod: Option<int>,
    annuityType: Option<string>,
    // non-annuity keys (`rate` is shared)
    compoundingPeriods: Option<int>,
    targetTime: Option<int>,
    cashFlows: Option<seq<CashFlow>>)

  /** What the view returns: `{'fv': v}`, `({'error': str(e)}, 400)`, or
      nothing at all when `type` names neither calculation. */
  datatype Response = Fv(fv: real) | ErrorJson(error: Exception) | NoResponse

  /** The try/except around the calculation: a raised exception becomes the
      error response, a value becomes the `fv` response. */
  function Respond(r: Result<real>): (resp: Response)
    ensures resp.Fv? <==> r.Ok?
    ensures r.Ok? ==> resp.fv == r.value
    ensures r.Raise? ==> resp == ErrorJson(r.exc)
  {
    match r
    case Ok(v) => Fv(v)
    case Raise(e) => ErrorJson(e)
  }
}
