/** Failure-carrying wrappers used for the error paths of the record component. */
module Wrappers {

  /** A value that may be absent: an unset builder field, a directory lookup that found nothing. */
  datatype Option<+T> = None | Some(value: T) {
    /** The wrapped value, or `default` when there is none. */
    function GetOr(default: T): T {
      match this
      case Some(v) => v
      case None => default
    }
  }

  /** The outcome of an operation that can fail with an error of type E. */
  datatype Result<+R, +E> = Success(value: R) | Failure(error: E)
}
