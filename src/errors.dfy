/** Errors raised by the belt solver, and the failure-carrying result types that model them. */
module Errors {

  /** One constructor per exception the pulley and belt objects raise. */
  datatype Error =
    | TooFewPulleys                          // a belt needs at least two pulleys
    | NegativeNumber(name: string)           // a tension or scale below zero
    | IndexOutOfRange(name: string, index: int)
    | NonPositiveRadius                      // a pulley radius that is not above zero
    | InvalidDirection                       // a direction token other than 1, -1, "CW", "CCW"
    | PulleysTooClose(i: nat, j: nat)        // adjacent pulleys closer than the minimum spacing
    | NegativeTension(segment: nat, tension: real)  // "you can't push on a rope"
    | ListIndexOutOfRange(index: int)        // a list subscript outside -n .. n-1

  datatype Option<+T> = None | Some(value: T)

  datatype Result<+T> = Ok(value: T) | Err(error: Error)

  datatype Outcome = Pass | Fail(error: Error)
}
