/** Option, Result and Outcome: the failure-carrying values the model uses in place of
    Python's None and raised exceptions. */
module Results {

  datatype Option<+T> = None | Some(value: T)

  /** A computation that either produced a value or raised an error. Supports `:-`. */
  datatype Result<+T, +E> = Ok(value: T) | Err(error: E) {

    predicate IsFailure() {
      Err?
    }

    function PropagateFailure<U>(): Result<U, E>
      requires Err?
    {
      Err(error)
    }

    function Extract(): T
      requires Ok?
    {
      value
    }
  }

  /** A step run for its effect that either finished or raised an error. */
  datatype Outcome<+E> = Pass | Fail(error: E)
}
