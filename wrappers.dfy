/**
 * The Option datatype used for JavaScript values that may be `null` or `undefined`,
 * and the outcome of an awaited request.
 */
module Wrappers {
  datatype Option<+T> = None | Some(value: T) {
    /** `x ?? d`: the value if present, else the default. */
    function GetOr(default: T): T {
      match this
      case Some(v) => v
      case None => default
    }
  }

  /**
   * How an awaited `fetch(...)` followed by `res.json()` ends: with a parsed body, or
   * by throwing. A thrown `Error` carries its message; `Failed(None)` is a throw of
   * something that is not an `Error`.
   */
  datatype Outcome<+T> = Received(body: T) | Failed(message: Option<string>)

  /**
   * A parsed HTTP answer: `Accepted` when `res.ok` holds, with the payload the caller
   * reads; `Refused` otherwise, with the `error` member of the body if it has one.
   */
  datatype Reply<+T> = Accepted(payload: T) | Refused(error: Option<string>)
}
