/** Values that stand for the program's optional fields and thrown errors. */
module Outcomes {

  datatype Option<+T> = None | Some(value: T)

  /** Why a function of the money engine threw. */
  datatype Failure =
    | Underflow
    | NoLegs
    | NegativeTotal
    | NegativeWeight
    | SurgeOutOfRange
    | QuoteUnbalanced
    | DiscountExceedsTotal
    | RetainedExceedsCharge
    | NegativeDistance
    | NonPositivePrice
    | NegativeAmount
    | NoRateInForce
    | NonPositiveDenominator
    | TimestampOutOfRange
    | UnbalancedPosting
    | Refused

  /** A returned value, or the error that was thrown instead. */
  datatype Outcome<+T> = Ok(value: T) | Thrown(error: Failure) {

    predicate IsFailure() {
      Thrown?
    }

    function PropagateFailure<U>(): Outcome<U>
      requires Thrown?
    {
      Thrown(error)
    }

    function Extract(): T
      requires Ok?
    {
      value
    }
  }
}
