/** Optional values, used for JavaScript's `null`/`undefined` alternatives. */
module Wrappers {

  datatype Option<+T> = None | Some(value: T) {

    /** The value, or `default` when absent (`x ?? default`). */
    function GetOr(default: T): T {
      match this
      case Some(v) => v
      case None => default
    }
  }

  /** The result of awaiting a promise: a value, or the thrown error. */
  datatype Settled<+T, +E> = Resolved(value: T) | Rejected(error: E)

  /** The result of a synchronous call: a value, or a thrown `TypeError`
      (reading a property of `undefined` or `null`). */
  datatype Outcome<+T> = Returns(value: T) | Throws
}
