/** Option and Result: "absent / present" and "returned / thrown" outcomes. */
module Wrappers {

  datatype Option<T> = None | Some(value: T) {
    /** The value, or `default` when absent (a JavaScript default parameter). */
    function GetOr(default: T): T {
      match this
      case Some(v) => v
      case None => default
    }
  }

  /** The outcome of an async call: a resolved value or the error it threw. */
  datatype Result<T, E> = Ok(value: T) | Err(error: E)
}
