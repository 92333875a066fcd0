/** Option and Result: undefined-or-value, and return-or-throw. */
module Wrappers {

  /** A JavaScript value that may be `undefined` (None). */
  datatype Option<+T> = None | Some(value: T) {
    /** `x ?? default` */
    function GetOr(default: T): T {
      if Some? then value else default
    }
  }

  /** The outcome of a call that either returns a value or throws an error. */
  datatype Result<+T, +E> = Success(value: T) | Failure(error: E)
}
