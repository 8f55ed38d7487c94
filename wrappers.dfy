/** The optional value every nullable field of a shipment record is modelled with. */
module Wrappers {
  /** `null`/`undefined` is `None`. */
  datatype Option<+T> = None | Some(value: T) {
    /** `x || fallback` for a value that is either present or absent. */
    function GetOr(fallback: T): T {
      match this
      case Some(v) => v
      case None => fallback
    }
  }
}
