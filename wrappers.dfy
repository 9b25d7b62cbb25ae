/** Optional values and results, used for the nullable fields and the error paths of the model. */
module Wrappers {

  /** A value that may be absent: JavaScript's `null`/`undefined`, or a missing field. */
  datatype Option<+T> = None | Some(value: T) {

    /** The value, or `default` when it is absent. */
    function GetOr(default: T): T {
      if Some? then value else default
    }
  }

  /** The outcome of an operation that may fail with an error of type E. */
  datatype Result<+T, +E> = Ok(value: T) | Err(error: E)
}
