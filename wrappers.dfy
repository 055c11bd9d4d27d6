/** Optional values and results with an error, used for JavaScript's
    `undefined` and for thrown exceptions. */
module Wrappers {

  /** A value that may be absent (`undefined` in the source). */
  datatype Option<+T> = None | Some(value: T) {

    /** The value, or `default` when absent (the `??` operator). */
    function GetOr(default: T): T {
      match this
      case Some(v) => v
      case None => default
    }
  }

  /** The outcome of a step that may throw: a value or the thrown error. */
  datatype Result<+T, +E> = Ok(value: T) | Err(error: E)
}
