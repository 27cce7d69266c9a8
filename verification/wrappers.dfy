/** Option and Result, the two failure-carrying wrappers every other module uses. */
module Wrappers {

  datatype Option<T> = None | Some(value: T)
  {
    function UnwrapOr(default: T): T
    {
      match this
      case None => default
      case Some(v) => v
    }
  }

  /** The outcome of an operation the original program may abort with an exception. */
  datatype Result<T> = Ok(value: T) | Crash(reason: string)
  {
    predicate IsFailure()
    {
      Crash?
    }

    function PropagateFailure<U>(): Result<U>
      requires Crash?
    {
      Crash(reason)
    }

    function Extract(): T
      requires Ok?
    {
      value
    }
  }
}
