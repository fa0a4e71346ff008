/** Failure-compatible wrappers used throughout the model.
    Option stands for a JavaScript value that may be `undefined`;
    Result stands for a promise that resolves to a value or rejects with an error. */
module Wrappers {

  datatype Option<+T> = None | Some(value: T) {

    /** The value, or `default` when there is none (the `??` of the source). */
    function GetOr(default: T): T {
      match this
      case Some(v) => v
      case None => default
    }
  }

  datatype Result<+T, +E> = Ok(value: T) | Err(error: E) {

    predicate IsFailure() {
      Err?
    }

    function PropagateFailure<U>(): Result<U, E>
      requires Err?
    {
      Err(error)
    }

    function Extract(): T
      requires Ok?
    {
      value
    }
  }

  /** The empty value a call resolves with when it resolves with nothing. */
  datatype Unit = Unit
}
