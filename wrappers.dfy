/** Optional values and results, the two shapes the login pipeline passes around:
    a JavaScript value that may be `undefined`/`null`, and a call that returns
    or throws. */
module Wrappers {

  /** A value that may be absent (`undefined` or `null` in the source). */
  datatype Option<+T> = None | Some(value: T) {
    /** The `??` / default-parameter fallback. */
    function GetOr(default: T): T {
      match this
      case Some(v) => v
      case None => default
    }
  }

  /** The value a call returns, or what it throws. */
  datatype Result<+T, +E> = Ok(value: T) | Err(error: E)
}
