/** Option and Result, the two failure-carrying datatypes the model uses. */
module Wrappers {

  /** A value that may be absent (JavaScript `undefined`, `null` or a missing property). */
  datatype Option<+T> = None | Some(value: T) {
    function GetOr(default: T): T {
      match this
      case Some(v) => v
      case None => default
    }
  }

  /** The outcome of a step that either yields a value or fails (a thrown or rejected error). */
  datatype Result<+R, +E> = Success(value: R) | Failure(error: E)
}
