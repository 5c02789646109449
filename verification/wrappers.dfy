/** An optional value and an operation result. `Result` supports `:-`; a
    `Failure` plays the role of a rejected promise in the JavaScript source. */
module Wrappers {

  datatype Option<+T> = None | Some(value: T) {

    /** `Success` of the value, or `Failure(error)` when it is absent. */
    function ToResult<E>(error: E): Result<T, E> {
      match this
      case Some(v) => Success(v)
      case None => Failure(error)
    }
  }

  datatype Result<+R, +E> = Success(value: R) | Failure(error: E) {

    predicate IsFailure() {
      Failure?
    }

    function PropagateFailure<U>(): Result<U, E>
      requires Failure?
    {
      Failure(error)
    }

    function Extract(): R
      requires Success?
    {
      value
    }
  }
}
