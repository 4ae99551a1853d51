/** Optional values: the model's stand-in for JavaScript's `null`/`undefined`
    and for a call whose promise rejects or which throws. */
module Wrappers {

  datatype Option<+T> = None | Some(value: T) {

    /** The value held, or `default` when there is none (JavaScript's `x ?? default`). */
    function GetOr(default: T): T {
      match this
      case Some(v) => v
      case None => default
    }
  }
}
