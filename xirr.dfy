/** What both engines share around their XIRR solvers: the dated
    cashflow schedule they hand to the solver and the fail-safe that turns
    the solver's rate into the reported percentage. The solver itself
    (year fractions from the earliest date, net present value with
    `Math.pow`, Newton-Raphson steps) is not part of this model: each
    engine receives it as a function from schedule to outcome. */
module Xirr {
  import opened Basics

  /** One dated entry of an XIRR schedule: negative when money goes into
      the portfolio, positive when it comes out. */
  datatype Flow = Flow(date: int, amount: real)

  /** What the solver hands back: a rate, or NaN. */
  datatype SolverOutcome = NaN | Rate(value: real)

  /** The fail-safe around the solver's rate: the reported percentage
      stays within -10000 .. 10000, a NaN or a rate beyond 100 (10000 %)
      reports 0, and any other rate is reported as a percentage. */
  function RateToPercent(outcome: SolverOutcome): (pct: real)
    ensures -10000.0 <= pct <= 10000.0
    ensures outcome.NaN? ==> pct == 0.0
    ensures outcome.Rate? && Abs(outcome.value) > 100.0 ==> pct == 0.0
    ensures outcome.Rate? && Abs(outcome.value) <= 100.0 ==> pct == outcome.value * 100.0
  {
    match outcome
    case NaN => 0.0
    case Rate(r) => if Abs(r) > 100.0 then 0.0 else r * 100.0
  }
}
