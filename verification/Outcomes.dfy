/** Result types shared by every model. */
module Outcomes {

  datatype Option<+T> = None | Some(value: T)

  /** A call of the program either returns a value or throws. */
  datatype Result<+T> = Ok(value: T) | Err(message: string) {
    predicate IsFailure() {
      Err?
    }

    function PropagateFailure<U>(): Result<U>
      requires Err?
    {
      Err(message)
    }

    function Extract(): T
      requires Ok?
    {
      value
    }
  }
}
