/** Optional values, used where the JavaScript code returns `undefined` or `null`. */
module Opt {

  datatype Option<+T> = None | Some(value: T) {

    /** `value ?? fallback` / `value || fallback` for a present-or-absent value. */
    function GetOr(fallback: T): T
    {
      match this
      case Some(v) => v
      case None => fallback
    }
  }
}
