/** Failure-compatible wrappers used by the session manager. */
module Wrappers {

  /** An optional value; the manager's storage slot starts out as `None` (PHP `null`). */
  datatype Option<+T> = None | Some(value: T)

  /** The outcome of an operation that PHP would abort with a fatal error. */
  datatype Result<+R, +E> = Success(value: R) | Failure(error: E) {

    predicate IsFailure() {
      Failure?
    }

    function PropagateFailure<U>(): (r: Result<U, E>)
      requires Failure?
    {
      Failure(error)
    }

    function Extract(): (r: R)
      requires Success?
    {
      value
    }
  }
}
