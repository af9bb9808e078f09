/** Optional values and results with an error, used wherever the source
    has a nullable value or a failure path. */
module Wrappers {

  /** A value that may be absent (Python `None`, TypeScript `null`/`undefined`). */
  datatype Option<+T> = None | Some(value: T) {

    /** The value, or `default` when absent (`x ?? default`). */
    function GetOr(default: T): T
    {
      match this
      case Some(v) => v
      case None => default
    }
  }

  /** The outcome of an operation that can fail with an error of type `E`. */
  datatype Result<+T, +E> = Success(value: T) | Failure(error: E)
}
