/** The optional values, error returns and panics used throughout the model. */
module Wrappers {

  /** Why the program panicked. */
  datatype Panic = DurationOutOfRange | NotACharBoundary

  datatype Option<+T> = None | Some(value: T)

  datatype Result<+T, +E> = Success(value: T) | Failure(error: E) {
    predicate IsFailure() {
      Failure?
    }

    function PropagateFailure<U>(): Result<U, E>
      requires Failure?
    {
      Failure(error)
    }

    function Extract(): T
      requires Success?
    {
      value
    }
  }
}
