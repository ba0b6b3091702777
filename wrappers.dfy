/** Option and Result, the failure-compatible wrappers the other modules share. */
module Wrappers {

  datatype Option<+T> = None | Some(value: T)

  /** A value, or the error a Python expression would have raised instead. */
  datatype Result<+T, +E> = Ok(value: T) | Err(error: E) {

    predicate IsFailure() {
      Err?
    }

    function PropagateFailure<U>(): Result<U, E>
      requires Err?
    {
      Err(error)
    }

    function Extract(): T
      requires Ok?
    {
      value
    }
  }
}
