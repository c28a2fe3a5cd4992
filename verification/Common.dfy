/** Option and Result values shared by every component. */
module Common {

  datatype Option<+T> = None | Some(value: T)

  /** The exception classes the services throw; a throw rolls the transaction back. */
  datatype Error = NotFound | Forbidden | BadRequest | Conflict

  datatype Result<+T> = Ok(value: T) | Err(error: Error) {
    predicate IsFailure() {
      Err?
    }

    function PropagateFailure<U>(): Result<U>
      requires Err?
    {
      Err(error)
    }

    function Extract(): T
      requires Ok?
    {
      value
    }
  }

  function Max(x: int, y: int): int {
    if x < y then y else x
  }

  function Min(x: int, y: int): int {
    if x < y then x else y
  }
}
