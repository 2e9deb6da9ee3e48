/** Optional values, standing for the `undefined`/`null` of loosely typed JSON. */
module Wrappers {

  datatype Option<+T> = None | Some(value: T) {

    /** `this ?? default`: the value when present, otherwise the default. */
    function GetOr(default: T): T {
      match this
      case Some(v) => v
      case None => default
    }

    /** `this ?? other` where both sides may be absent. */
    function Or(other: Option<T>): Option<T> {
      if Some? then this else other
    }
  }
}
