/** Option and Result values used across the model for "absent" and for error outcomes. */
module Wrappers {

  /** A value that may be absent: JavaScript's undefined/null, Python's None. */
  datatype Option<+T> = None | Some(value: T) {

    /** The value, or the given default when absent (the `??` operator). */
    function GetOr(default: T): T {
      match this
      case Some(v) => v
      case None => default
    }

    /** The first present value of `this` and `other` (a chained `??`). */
    function OrElse(other: Option<T>): Option<T> {
      if Some? then this else other
    }
  }

  /** A computation that either produced a value or raised an error. */
  datatype Result<+T, +E> = Ok(value: T) | Err(error: E)
}
