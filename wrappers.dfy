/** Optional values, as Python's `None` / value. */
module Wrappers {
  datatype Option<+T> = None | Some(value: T) {
    /** `x if x is not None else d` */
    function GetOr(d: T): T {
      match this
      case Some(v) => v
      case None => d
    }
  }

  /** Python truthiness of an optional string: `None` and `""` are both falsy. */
  predicate Present(o: Option<string>) {
    o.Some? && o.value != ""
  }

  /** Python truthiness of an optional number: `None` and `0.0` are both falsy. */
  predicate PresentReal(o: Option<real>) {
    o.Some? && o.value != 0.0
  }

  /** `o or d` for an optional string. */
  function OrElse(o: Option<string>, d: string): string {
    if Present(o) then o.value else d
  }
}
