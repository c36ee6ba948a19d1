/** Failure-compatible result type used for the program's fallible steps. */
module Wrappers {

  /** A step either yields a value or fails with an error; usable with `:-`. */
  datatype Result<+T, +E> = Success(value: T) | Failure(error: E) {

    predicate IsFailure() {
      Failure?
    }

    function PropagateFailure<U>(): Result<U, E>
      requires Failure?
    {
      Failure(error)
    }

    function Extract(): T
      requires Success?
    {
      value
    }
  }

  /** The outcome of an instruction handler: `Ok(())` or an error. */
  datatype Outcome<+E> = Pass | Fail(error: E)
}
