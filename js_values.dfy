/** JavaScript values that the modelled code distinguishes: a property that may be
    `undefined`. */
module JsValues {

  /** `None` is JavaScript's `undefined`; `Some(v)` is a defined value. */
  datatype Option<+T> = None | Some(value: T) {

    /** The value, or `default` when undefined (the `x !== undefined ? x : d` idiom). */
    function GetOr(default: T): (r: T)
      ensures Some? ==> r == value
      ensures None? ==> r == default
    {
      match this
      case Some(v) => v
      case None => default
    }
  }
}
