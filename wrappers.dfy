/** Optional values and results with an error, as used by the handlers' inputs and the schema. */
module Wrappers {

  /** A request-body field that may be absent (JavaScript `undefined`). */
  datatype Option<+T> = None | Some(value: T) {
    function GetOr(default: T): T {
      match this
      case Some(v) => v
      case None => default
    }
  }

  datatype Result<+T, +E> = Success(value: T) | Failure(error: E)
}
