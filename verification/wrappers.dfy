/** Failure-aware result types shared by the other modules. */
module Wrappers {

  /** A value that may be absent; stands in for a nullable reference. */
  datatype Option<+T> = None | Some(value: T) {

    /** The carried value, or `default` when there is none. */
    function GetOr(default: T): T {
      match this
      case Some(v) => v
      case None => default
    }
  }

  /** Either a computed value or the error that prevented it. */
  datatype Result<+R, +E> = Success(value: R) | Failure(error: E)
}
