/** Option and Result, the two failure-carrying wrappers the rest of the model uses. */
module Wrappers {

  /** A value that may be absent: JavaScript's `undefined` for an optional field. */
  datatype Option<+T> = None | Some(value: T) {

    /** The value, or `default` when absent: the `x || default` idiom on an object field. */
    function GetOr(default: T): T
    {
      match this
      case Some(v) => v
      case None => default
    }
  }

  /** The settled value of a client call: resolved with a value, or rejected with an Error message. */
  datatype Result<+R, +E> = Ok(value: R) | Err(error: E)
}
