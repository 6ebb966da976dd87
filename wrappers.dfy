/** Failure-compatible wrappers shared by every module of the model. */
module Wrappers {

  /** `None` stands for Python's `None` where a lookup finds nothing. */
  datatype Option<+T> = None | Some(value: T)

  /** A call that either returns a value or raises; `Err` carries what was raised. */
  datatype Result<+T, +E> = Ok(value: T) | Err(error: E) {
    predicate IsFailure() { Err? }

    function PropagateFailure<U>(): Result<U, E>
      requires Err?
    {
      Err(error)
    }

    function Extract(): T
      requires Ok?
    {
      value
    }
  }
}
