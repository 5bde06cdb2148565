/** Small helper datatypes shared by the modules of the model. */
module Wrappers {

  /** A value that may be missing: a `null` the program reads back, a key it does not find. */
  datatype Option<+T> = None | Some(value: T) {

    /** The carried value, or `default` when there is none. */
    function GetOr(default: T): T {
      match this
      case Some(v) => v
      case None => default
    }
  }
}
