/** Optional values and the exceptions the modelled code throws. */
module Outcomes {

  datatype Option<+T> = None | Some(value: T)

  /** The exceptions raised by the lifecycle operations, each with the name the code passes to it. */
  datatype Error =
    | ObjectDisposed(objectName: string)
    | ArgumentNull(paramName: string)
    | ArgumentOutOfRange

  /** A value or the exception that replaced it. */
  datatype Result<+T> = Success(value: T) | Failure(error: Error) {

    predicate IsFailure() {
      Failure?
    }

    function PropagateFailure<U>(): Result<U>
      requires Failure?
    {
      Failure(error)
    }

    function Extract(): T
      requires Success?
    {
      value
    }
  }
}
