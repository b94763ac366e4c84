/** Optional values: the model's stand-in for JavaScript's `null`/`undefined`
    where the source uses them to mean "nothing here". */
module Wrappers {

  datatype Option<+T> = None | Some(value: T) {

    /** The wrapped value, or `default` when there is none. */
    function GetOr(default: T): T {
      match this
      case Some(v) => v
      case None => default
    }
  }
}
