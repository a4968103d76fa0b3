/** Option, Result and Outcome: the error paths of the model (Python exceptions become values). */
module Common {

  datatype Option<+T> = None | Some(value: T)

  /** A value or the error the source would raise instead of producing it. */
  datatype Result<+T, +E> = Ok(value: T) | Err(error: E) {
    predicate IsFailure() {
      Err?
    }

    function PropagateFailure<U>(): Result<U, E>
      requires Err?
    {
      Err(error)
    }

    function Extract(): T
      requires Ok?
    {
      value
    }
  }

  /** The outcome of an operation that changes state: it completed, or it raised `error` part-way. */
  datatype Outcome<+E> = Pass | Fail(error: E)
}
