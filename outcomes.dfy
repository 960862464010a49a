/** Optional values, the exceptions the pipeline can raise, and results that carry either. */
module Outcomes {

  /** Python's `None` or a present value. */
  datatype Option<+T> = None | Some(value: T) {
    function GetOr(default: T): T {
      match this
      case Some(v) => v
      case None => default
    }
  }

  /** The exceptions the modelled code raises or lets through. */
  datatype Exception =
    | ValueError(message: string)
    | KeyError(key: string)
    | TypeError(reason: string)
    | RequestError(service: string)

  /** A value, or the exception that ended the computation. */
  datatype Result<+T> = Ok(value: T) | Raised(exception: Exception) {
    predicate IsFailure() {
      Raised?
    }

    function PropagateFailure<U>(): Result<U>
      requires Raised?
    {
      Raised(exception)
    }

    function Extract(): T
      requires Ok?
    {
      value
    }
  }
}
