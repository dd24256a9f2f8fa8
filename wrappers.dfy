/** Optional values and results with an error, as used throughout the model. */
module Wrappers {

  /** A value that may be missing: None stands for Java's null. */
  datatype Option<+T> = None | Some(value: T)

  /** A computation that either yields a value or raises the error in `error`. */
  datatype Result<+T, +E> = Ok(value: T) | Err(error: E) {
    predicate IsFailure() { Err? }

    function PropagateFailure<U>(): Result<U, E>
      requires Err?
    {
      Err(error)
    }

    function Extract(): T
      requires Ok?
    {
      value
    }
  }
}
