/** An optional value: stands for a TypeScript `T | undefined`. */
module Wrappers {
  datatype Option<+T> = None | Some(value: T) {
    /** `this ?? default` */
    function GetOr(default: T): T {
      match this
      case Some(v) => v
      case None => default
    }
  }
}
