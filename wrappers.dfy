/** Failure-carrying results, standing in for the exceptions and nullable
    values of the modelled code. */
module Wrappers {

  datatype Option<+T> = None | Some(value: T) {
    /** The value if present, otherwise `default` (C#'s `??` operator). */
    function GetOr(default: T): T {
      match this
      case Some(v) => v
      case None => default
    }
  }

  datatype Result<+T, +E> = Success(value: T) | Failure(error: E)
}
