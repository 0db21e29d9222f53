/** Shared vocabulary of the shipping-fee calculator: the error taxonomy,
    the result types that replace Go's (value, error) pairs, and the weight
    bound both fee functions enforce before anything else. */
module Fees {

  /** One case per kind of failure; the zone or code that caused it is
      carried as data instead of being formatted into a message. */
  datatype FeeError =
    | InvalidWeight
    | UnknownZone(zone: string)
    | NotImplemented
    | RateUnavailable(zone: string)
    | UnknownDiscountCode(code: string)
    | InvalidDiscountPercentage

  /** A fee, or the error that prevented computing it. */
  datatype FeeResult = Ok(value: real) | Err(error: FeeError)

  /** The outcome of an operation that returns only an error. */
  datatype Outcome = Pass | Fail(error: FeeError)

  /** The heaviest package either fee function accepts, in kilograms. */
  const MaxWeight: real := 50.0

  /** A weight is accepted when it lies in the half-open interval (0, 50]. */
  predicate ValidWeight(weight: real) {
    0.0 < weight <= MaxWeight
  }

}
