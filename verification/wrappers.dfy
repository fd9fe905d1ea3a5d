/** Failure-carrying datatypes shared by the whole model. */
module Wrappers {

  /** A value that may be absent: a TypeScript `T | null`, `T | undefined` or an optional key. */
  datatype Option<+T> = None | Some(value: T) {

    /** The value, or `default` when absent: the `x ?? default` of the source. */
    function GetOr(default: T): T {
      match this
      case Some(v) => v
      case None => default
    }
  }

  /** The outcome of an operation that either returns a value or throws. */
  datatype Result<+R, +E> = Ok(value: R) | Err(error: E) {

    predicate IsFailure() {
      Err?
    }

    function PropagateFailure<U>(): Result<U, E>
      requires Err?
    {
      Err(error)
    }

    function Extract(): R
      requires Ok?
    {
      value
    }
  }
}
