/** Options, and results that carry the error kind on which callers branch. */
module Results {

  datatype Option<+T> = None | Some(value: T) {

    function UnwrapOr(default: T): T {
      match this
      case Some(v) => v
      case None => default
    }
  }

  datatype ErrorKind =
    | Validation
    | Conflict
    | NotFound
    | OutOfStock
    | PaymentFailed
    | Unavailable
    | Internal

  datatype Result<+T> = Ok(value: T) | Err(error: ErrorKind) {

    predicate IsFailure() {
      Err?
    }

    function PropagateFailure<U>(): Result<U>
      requires Err?
    {
      Err(error)
    }

    function Extract(): T
      requires Ok?
    {
      value
    }
  }
}
