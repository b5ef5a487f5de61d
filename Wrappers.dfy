/** An optional value: `None` stands for Python's `None` wherever the system returns it. */
module Wrappers {

  datatype Option<+T> = None | Some(value: T) {

    /** `x if x is not None else default` */
    function GetOr(default: T): T {
      match this
      case Some(v) => v
      case None => default
    }
  }
}
