/** Option and Result, the failure-compatible datatypes the rest of the model uses. */
module Wrappers {

  datatype Option<+T> = None | Some(value: T)

  /** A value or the first error that stopped its computation (Rust's `Result`). */
  datatype Result<+T, +E> = Ok(value: T) | Err(error: E) {

    predicate IsFailure() {
      Err?
    }

    function PropagateFailure<U>(): Result<U, E>
      requires Err?
    {
      Err(error)
    }

    function Extract(): T
      requires Ok?
    {
      value
    }
  }
}
