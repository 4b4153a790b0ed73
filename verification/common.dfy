/** Small value types shared by the preview worker and the decorator registry. */
module Common {

  /** An optional value: JavaScript's `undefined` for a parameter or field that may be absent. */
  datatype Option<+T> = None | Some(value: T) {

    /** The `??` operator: the value when present, otherwise the default. */
    function GetOr(default: T): T {
      match this
      case Some(v) => v
      case None => default
    }
  }

  /** How a promise settles: with a value, or by rejecting (the reason is not modelled). */
  datatype Settled<+T> = Resolved(value: T) | Rejected
}
