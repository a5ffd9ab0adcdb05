/** Option and Result, the two failure carriers used throughout the model. */
module Wrappers {

  /** A Go pointer that may be nil, or a lookup that may miss. */
  datatype Option<+T> = None | Some(value: T) {
    function GetOr(default: T): T {
      if Some? then value else default
    }
  }

  /** The value of a call that returns `(value, error)` in Go. */
  datatype Result<+T, +E> = Success(value: T) | Failure(error: E)
}
