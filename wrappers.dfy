/** Option and Result: the shapes the models use for JavaScript's `null`/`undefined`
    results and for a promise that resolves or rejects. */
module Wrappers {

  datatype Option<+T> = None | Some(value: T) {
    /** The `x ?? def` of JavaScript: the value, or `def` when there is none. */
    function GetOr(def: T): T {
      match this
      case Some(v) => v
      case None => def
    }
  }

  /** A settled promise: resolved with a value, or rejected with an error. */
  datatype Result<+T, +E> = Success(value: T) | Failure(error: E)
}
