/** Small failure-carrying datatypes shared by the page models. */
module Wrappers {
  /** A value that may be absent (JavaScript `undefined`/`null`, or a failed parse). */
  datatype Option<+T> = None | Some(value: T)
  {
    function GetOr(default: T): T
    {
      match this
      case Some(v) => v
      case None => default
    }
  }

  /** The outcome of an operation that either succeeds with a value or fails with an error. */
  datatype Result<+T, +E> = Ok(value: T) | Err(error: E)
}
