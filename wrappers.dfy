/** Option and Outcome: the model's stand-ins for JavaScript's `undefined`/`null`
    results and for a thrown error. */
module Wrappers {

  /** `None` plays the part of `undefined` (or `null`) in a JavaScript result. */
  datatype Option<+T> = None | Some(value: T) {

    /** The wrapped value, or `default` when there is none (JavaScript's `x || default`
        on a value that is never falsy when present). */
    function GetOr(default: T): T {
      match this
      case Some(v) => v
      case None => default
    }
  }

  /** The result of an `async` operation that either completes or throws `error`. */
  datatype Outcome<+E> = Pass | Fail(error: E)
}
