/** Failure-compatible results for the exceptions the runtime throws. */
module Wrappers {

  /** One constructor per exception class the modelled code can throw. */
  datatype Error =
    | InvalidArgument
    | OutOfRange
    | Overflow
    | LengthExceeded
    | LogicFailure
    | ShardFailure

  /** The result of a call that returns nothing, or throws. */
  datatype Outcome = Pass | Fail(error: Error) {
    predicate IsFailure() {
      Fail?
    }

    function PropagateFailure(): Outcome
      requires Fail?
    {
      this
    }
  }

  /** The result of a call that returns a value, or throws. */
  datatype Result<+T> = Success(value: T) | Failure(error: Error) {
    predicate IsFailure() {
      Failure?
    }

    function PropagateFailure<U>(): Result<U>
      requires Failure?
    {
      Failure(error)
    }

    function Extract(): T
      requires Success?
    {
      value
    }
  }

  datatype Option<+T> = None | Some(value: T)
}
