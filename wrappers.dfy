/** Option and Outcome, the two failure-carrying shapes the finisher model uses. */
module Wrappers {

  /** A value that may be missing (PHP's null where the source uses it as "not set"). */
  datatype Option<+T> = None | Some(value: T)

  /** The result of an operation that either completes or throws `error`. */
  datatype Outcome<+E> = Pass | Fail(error: E)
}
