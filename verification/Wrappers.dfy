/** Result types for the source's optional values and exceptions. */
module Wrappers {

  datatype Option<+T> = None | Some(value: T)

  /** Why an operation raised: the controller's three exception classes, a rejected model, and a port. */
  datatype Refusal = Conflict | Incomplete | NotFound | Malformed | Unavailable

  datatype Result<+T> = Success(value: T) | Failure(error: Refusal) {
    predicate IsFailure() {
      Failure?
    }

    function PropagateFailure<U>(): Result<U>
      requires Failure?
    {
      Failure(error)
    }

    function Extract(): T
      requires Success?
    {
      value
    }
  }

  /** A check that returns nothing and may raise. */
  datatype Check = Pass | Refuse(error: Refusal) {
    predicate IsFailure() {
      Refuse?
    }

    function PropagateFailure<U>(): Result<U>
      requires Refuse?
    {
      Failure(error)
    }
  }

  function Need(condition: bool, error: Refusal): Check {
    if condition then Pass else Refuse(error)
  }

  function Min(a: int, b: int): int {
    if a <= b then a else b
  }
}
