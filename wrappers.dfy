/** Optional values: JavaScript's `undefined` (a missing environment variable,
    an omitted argument) and `NaN` (an unparsable number) are both modelled
    as `None`. */
module Wrappers {

  datatype Option<+T> = None | Some(value: T) {

    /** The wrapped value, or `default` when there is none. */
    function GetOr(default: T): T {
      match this
      case Some(v) => v
      case None => default
    }
  }
}
