/** How a call into a test double ends: it returns a value, throws an error
    (only the throwing calling modes can), or stops the test run through the
    failure handler's fatal path. */
module Outcomes {
  import opened Failures

  /** The errors a double can throw: one chosen by the test author (an
      `NSError` with a domain and a code), or the cancellation error an
      interrupted delay throws. */
  datatype ErrorValue = UserError(domain: string, code: int) | CancellationError

  datatype Outcome<+V> =
    | Returned(value: V)
    | Threw(error: ErrorValue)
    | Fatal(failure: AssertionFailure)
}
