/** The nullable values of the page script (`null`, or a missing key read as
    `undefined`) are modelled as an Option. */
module Wrappers {

  datatype Option<+T> = None | Some(value: T) {

    /** The value, or `fallback` when there is none (JavaScript's `??`). */
    function GetOr(fallback: T): T {
      match this
      case Some(v) => v
      case None => fallback
    }
  }
}
