/** Failure-compatible result types shared by the modules of this model. */
module Wrappers {

  /** An optional value, as returned by lookups that may miss. */
  datatype Option<+T> = None | Some(value: T)

  /** A value or the error that the source raises instead of returning one. */
  datatype Result<+T, +E> = Ok(value: T) | Err(error: E) {
    predicate IsFailure() { Err? }
    function PropagateFailure<U>(): Result<U, E>
      requires Err?
    {
      Err(error)
    }
    function Extract(): T
      requires Ok?
    {
      value
    }
  }

  /** Success without a value, or the error that the source raises. */
  datatype Outcome<+E> = Pass | Fail(error: E)
}
