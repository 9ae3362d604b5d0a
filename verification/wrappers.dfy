/** Option and Result: the "null or a value" and "rejected or fulfilled" shapes of the model. */
module Wrappers {

  /** A value that may be absent, standing for JavaScript's `null`/`undefined` results. */
  datatype Option<+T> = None | Some(value: T) {

    /** The value, or `default` when absent (the `{...null}` spread treats null as `{}`). */
    function GetOr(default: T): T
    {
      match this
      case Some(v) => v
      case None => default
    }
  }

  /** The outcome of an operation that either yields a value or fails with an error. */
  datatype Result<+T, +E> = Success(value: T) | Failure(error: E)
}
