/** Optional values: `None` stands for JavaScript's `null`/`undefined` where the source uses them. */
module Wrappers {

  datatype Option<+T> = None | Some(value: T) {

    /** The value, or `default` when there is none (a JavaScript default parameter). */
    function GetOr(default: T): T
    {
      match this
      case Some(v) => v
      case None => default
    }
  }
}
