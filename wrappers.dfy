/** The optional value used wherever PHP has a nullable value or a missing array key. */
module Wrappers {
  datatype Option<+T> = None | Some(value: T) {
    /** PHP's null-coalescing `??`: the value if present, else the default. */
    function GetOr(default: T): T {
      match this
      case Some(v) => v
      case None => default
    }
  }
}
