/** Option and Result values used throughout the model. Go's `(value, error)`
    pairs are modelled separately, in module Kea, because callers read the
    value even when the error is set. */
module Wrappers {

  datatype Option<+T> = None | Some(value: T) {
    function GetOr(default: T): T {
      match this
      case Some(v) => v
      case None => default
    }
  }

  datatype Result<+R, +E> = Success(value: R) | Failure(error: E)
}
