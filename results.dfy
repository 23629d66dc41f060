/** Failure-carrying values used in place of the services' exceptions and of `Optional`. */
module Results {

  /** A repository lookup: `Optional.of(x)` or `Optional.empty()`. */
  datatype Option<+T> = None | Some(value: T)

  /** The outcome of a service call that returns a value or throws. */
  datatype Result<+T, +E> = Success(value: T) | Failure(error: E)

  /** The outcome of a validation step that returns nothing or throws. */
  datatype Outcome<+E> = Pass | Fail(error: E)
}
