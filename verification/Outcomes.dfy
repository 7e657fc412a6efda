/** Results that may fail in one of three ways. */
module Outcomes {
  datatype Outcome<+T> = Done(result: T) | Rejected | Limit | Failed
}
