/** The optional value used wherever the source reads a field that may be
    missing, and where it falls back with `??`. Which missing values a `None`
    stands for (`undefined` only, or `null` too) is said where it is used. */
module Wrappers {

  datatype Option<+T> = None | Some(value: T) {

    /** The value, or `default` when absent: the source's `x ?? default`. */
    function GetOr(default: T): T {
      match this
      case Some(v) => v
      case None => default
    }
  }
}
