# FV calculator: the calculation engine in Dafny

This project models the `/calculate` view of a small future-value (FV)
calculator. The view receives a JSON request whose `type` selects one of two
calculations:

- **annuity**: the future value of `paymentsPerYear * timePeriod` equal
  payments `payment`, at periodic rate `rate / 100 / paymentsPerYear`, paid at
  the end of each period or, when `annuityType` is `"beginning"`, at its start
  (an annuity due);
- **non_annuity**: the sum, over a list of cash flows `{amount, time}`, of each
  amount compounded `compoundingPeriods` times a year from its `time` to
  `targetTime`; a flow after the target adds 0.

Any exception raised on the way (a missing key, a division by zero) becomes
an `{'error': ...}` response, and a `type` that names neither calculation gets
no response at all.

Modules, one per component of the view:

- `Values` (values.dfy): the request as a record of optional keys, the
  exceptions (`KeyError(key)`, `ZeroDivisionError`), `Result`, the response
  (`Fv`, `ErrorJson`, `NoResponse`), key lookup and the exception-to-response
  mapping.
- `Power` (power.dfy): `b ** e` for whole-number exponents with Python's
  behaviour for negative ones, and the geometric sum.
- `Annuity` (annuity.dfy): the closed-form annuity formula, proved equal to a
  period-by-period reference definition of the account balance.
- `CashFlows` (cashflows.dfy): one flow's contribution, the in-order total as a
  recursive function, and the accumulation loop as a method proved against it.
- `Calculate` (calculate.dfy): the dispatch on `type`, the order in which keys
  are read, and the view as a method proved against its specification
  function `Calculation`.

Abstractions: amounts and rates are Dafny `real`, so there is no
floating-point rounding; all times (`timePeriod`, `targetTime`, a flow's
`time`) are whole numbers of years and `paymentsPerYear` and
`compoundingPeriods` are whole numbers, so every exponent `n * t` is an
integer. A negative
exponent is a reciprocal, and `0.0` raised to a negative power raises
ZeroDivisionError, as in Python.

## Model

| member | source | states |
|---|---|---|
| `Values.Get` | app.py:339-343 | reading a key yields its value when present and raises KeyError naming that key when absent |
| `Values.Respond` | app.py:356-379 | a value becomes the `fv` response, an exception becomes the error response carrying it; nothing else |
| `Power.Pow` | app.py:351 | a power of a non-zero base is non-zero, of a positive base positive, and the zeroth power is 1 |
| `Power.PyPow` | app.py:372 | `b ** e` raises exactly when b is 0 and e is negative (ZeroDivisionError); a non-negative exponent is the ordinary power, a negative one its reciprocal |
| `Power.Geometric` | app.py:351 | (b - 1) times 1 + b + ... + b^(k-1) equals b^k - 1, the identity behind the closed form |
| `Calculate.Calculation` | app.py:333-379 | the view's specification: no response exactly for a present `type` naming neither calculation, and an `fv` only for "annuity" or "non_annuity"; CompleteAnnuity and CompleteNonAnnuity state what every complete request answers (whatever other keys it carries), and UnknownType, NoPaymentsPerYearIsError, MissingAnnuityKey, MissingNonAnnuityKey and NoCompoundingPeriodsResponse its error cases |
| `Calculate.AnnuityBranch` | app.py:339-354 | with all five keys present the outcome is exactly the annuity formula's at rate/100; a missing annuityType is a KeyError even when unused; a success means all five keys were present |
| `Calculate.NonAnnuityBranch` | app.py:359-376 | with all four keys present the outcome is exactly the in-order total's at rate/100; a missing cashFlows is a KeyError; a success means all four keys were present |
| `Calculate.CompleteAnnuity` | app.py:338-356 | every "annuity" request with its five keys present answers the formula's value at rate/100 as `fv`, or its exception as the error response, whatever non-annuity keys it also carries |
| `Calculate.CompleteNonAnnuity` | app.py:358-379 | every "non_annuity" request with its four keys present answers the in-order total at rate/100 as `fv`, or the first raising flow's exception as the error response, whatever annuity keys it also carries |
| `Annuity.AnnuityFv` | app.py:345-354 | the annuity formula raises exactly when paymentsPerYear is 0, or when the periodic rate is -1 with a negative number of periods; the exception is ZeroDivisionError |
| `Annuity.PeriodicFv` | app.py:348-354 | at a given periodic rate the formula raises only for rate -1 and negative periods |
| `Annuity.PeriodicMatchesPayments` | app.py:348-354 | for any non-negative number of periods the closed form equals the balance built payment by payment (end or beginning of period) |
| `Annuity.AnnuityMatchesPayments` | app.py:345-354 | with paymentsPerYear non-zero and n*t periods non-negative, the annuity result is the period-by-period balance at rate r/n; only "beginning" means payment at the start |
| `Annuity.ZeroPeriodicRate` | app.py:348-349 | at periodic rate 0 the result is payment times the number of periods, whatever the annuityType |
| `Annuity.ZeroRate` | app.py:345-349 | at rate 0 the result is exactly payment * paymentsPerYear * timePeriod |
| `Annuity.DueFactor` | app.py:350-354 | at a non-zero rate, "beginning" gives the end-of-period result times (1 + periodic rate); any other annuityType, the empty one included, is end-of-period |
| `Annuity.BeginningExceedsEnd` | app.py:350-354 | with payment, rate, paymentsPerYear and timePeriod positive, the beginning-of-period result is strictly greater |
| `Annuity.NoPaymentsPerYear` | app.py:345 | paymentsPerYear 0 always raises ZeroDivisionError |
| `CashFlows.Contribution` | app.py:367-372 | a flow with no time raises KeyError("time"); a flow after the target gives exactly 0; one at or before it with no amount raises KeyError("amount"); no other exception than those and ZeroDivisionError; see also LateFlow, OnTimeFlow, EarlyFlow |
| `CashFlows.TotalOf` | app.py:364-376 | no flows give 0; when the total raises, some flow's contribution raises that same exception; see also Superposition, TotalOkIffEachOk |
| `CashFlows.NonAnnuityFv` | app.py:364-376 | the loop returns the in-order sum of the contributions, or the exception of the first flow that raises |
| `CashFlows.RaisePersists` | app.py:366-374 | once a flow raises, the flows after it do not change the outcome |
| `CashFlows.AppendFlow` | app.py:374 | appending a flow adds exactly its own contribution, and the total succeeds iff both parts do |
| `CashFlows.Superposition` | app.py:364-376 | the total of two lists concatenated is the sum of their totals, and succeeds iff both do |
| `CashFlows.Reorder` | app.py:364-376 | swapping two blocks of flows changes neither success nor the total |
| `CashFlows.TotalOkIffEachOk` | app.py:366-374 | the total succeeds iff every single contribution does |
| `CashFlows.LateFlow` | app.py:367-370 | a flow later than the target contributes exactly 0, even with a missing amount or zero compounding periods |
| `CashFlows.OnTimeFlow` | app.py:367-372 | with compoundingPeriods non-zero, a flow at exactly the target contributes exactly its amount (with 0 it raises, since `r/n` is still evaluated) |
| `CashFlows.EarlyFlow` | app.py:367-372 | with compoundingPeriods positive, a flow at or before the target grows by (1 + r/n) for n * (target - time) periods |
| `CashFlows.EarlyFlowGrows` | app.py:369-372 | at a non-negative rate a non-negative flow at or before the target contributes at least its amount, and strictly more at a positive rate before the target |
| `CashFlows.NoCompoundingPeriods` | app.py:366-374 | with compoundingPeriods 0 the sum raises iff some flow has no time or lies at or before the target; otherwise it is 0 |
| `Calculate.NonAnnuity` | app.py:358-376 | reading the four keys and running the loop gives the non-annuity specification |
| `Calculate.Calculate` | app.py:333-379 | the view returns exactly the response its specification `Calculation` prescribes |
| `Calculate.UnknownType` | app.py:338-358 | no response exactly for a present `type` other than "annuity" and "non_annuity"; a missing `type` is KeyError |
| `Calculate.NoPaymentsPerYearIsError` | app.py:339-345 | paymentsPerYear 0 never yields an `fv`; with the other keys present it is the ZeroDivisionError response |
| `Calculate.MissingAnnuityKey` | app.py:339-343 | each missing annuity key, annuityType included, gives a KeyError response naming the first one missing in reading order |
| `Calculate.MissingNonAnnuityKey` | app.py:359-362 | each missing non-annuity key gives a KeyError response naming the first one missing |
| `Calculate.NoCompoundingPeriodsResponse` | app.py:358-379 | with compoundingPeriods 0 the response is an error iff some flow has no time or lies at or before the target (a KeyError for a missing time or amount, otherwise ZeroDivisionError); otherwise it is `fv = 0` |
| `Calculate.SingleFlowExample` | app.py:364-376 | 5000 at year 2, 5% yearly, target year 10 answers 5000 * 1.05^8 |
| `Calculate.LateFlowExample` | app.py:367-370 | a flow at year 15 with target year 10 answers `fv = 0` |
| `Calculate.MonthlyDepositExample` | app.py:345-356 | 1000 monthly for 10 years at 5%: the "beginning" answer is the "end" answer times (1 + 0.05/12) |

## Left out

- The HTML page, its JavaScript and CSS (app.py:5-327): presentation only. The
  perpetuity shortcut lives there and the server never sees it, so the model
  has no perpetuity case.
- Flask plumbing: the app object, the `/` route, `request.json`, `jsonify`, the
  400 status, the Vercel alias and `app.run` (app.py:1-3, 329-336, 381-385).
  The request arrives already parsed into a `Request` record; a body that is
  not a JSON object is not modelled.
- What Flask does when the view returns nothing (an unrecognised `type`): the
  model stops at `NoResponse`.
- Floating point: numbers are `real`, so rounding and a periodic rate that
  underflows to 0 are not captured. Overflow is not captured either: in the
  source an overflowing `*` gives infinity, while an overflowing `**`
  (app.py:351, app.py:372) raises OverflowError and so answers with an error
  response. For such inputs (payment 100, rate 100, paymentsPerYear 1,
  timePeriod 2000, say) the model answers with an `Fv`.
- Annuity.AnnuityFv, Annuity.PeriodicFv, CashFlows.NoCompoundingPeriods: their
  "raises exactly when" clauses hold for exact real arithmetic; the
  OverflowError of float `**` is an additional error the model does not raise.
- Fractional times: the source accepts any number for `timePeriod`,
  `targetTime` and a flow's `time` and raises to a real power; the model takes
  whole years only, so exponents are integers. Python's complex result for a
  negative base raised to a fractional power is therefore out of reach.
  Likewise `paymentsPerYear` and `compoundingPeriods` are whole numbers in the
  model, as the page sends them (`parseInt`, app.py:263, app.py:296), while
  the server accepts any number for them (paymentsPerYear 0.5 with
  timePeriod 3 gives the exponent 1.5 at app.py:351).
- Dynamic typing of JSON values is not modelled: the model's keys are either
  absent or hold a number (a string for `type` and `annuityType`, a list for
  `cashFlows`). In the source a key holding a non-number (or `null`) usually
  raises TypeError, but it may instead be repeated by `*` into a non-numeric
  `fv` (payment `"ab"` at rate 0 over two periods answers `"abab"`).
- The exception message `str(e)` is represented by the exception itself.
- The model follows app.py: the server has no perpetuity flag, an
  unrecognised `type` gets no response rather than an error, and
  `paymentsPerYear` and `compoundingPeriods` are not checked for being
  positive (0 fails only through the division, and a negative count is
  computed with).
