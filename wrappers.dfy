/**
 * Optional values. `None` stands for a JavaScript value that is absent
 * (`undefined` or `null`), `Some(v)` for one that is present.
 */
module Wrappers {

  datatype Option<+T> = None | Some(value: T) {

    /** The value, or `default` when absent (JavaScript's `x ?? default`). */
    function GetOr(default: T): T {
      match this
      case Some(v) => v
      case None => default
    }
  }
}
