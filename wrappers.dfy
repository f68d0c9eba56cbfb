/** Failure-compatible result type used in place of Python exceptions. */
module Wrappers {

  /** `Err` carries the text a Python handler would see as `str(e)`. */
  datatype Result<+T, +E> = Ok(value: T) | Err(error: E) {

    predicate IsFailure() {
      Err?
    }

    function PropagateFailure<U>(): Result<U, E>
      requires Err?
    {
      Err(error)
    }

    function Extract(): T
      requires Ok?
    {
      value
    }
  }
}
