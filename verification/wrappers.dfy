/** Optional values: the model's stand-in for JavaScript's `NaN`, `null` and
    `undefined` wherever the counter reads something that may be missing. */
module Wrappers {

  datatype Option<+T> = None | Some(value: T) {

    /** The wrapped value, or `default` when there is none (the `??` operator). */
    function GetOr(default: T): T {
      match this
      case Some(v) => v
      case None => default
    }
  }
}
