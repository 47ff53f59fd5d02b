/** Failure-compatible option type shared by every module of the model. */
module Wrappers {

  /** `None` stands for a NULL pointer, a missing key or an absent optional argument. */
  datatype Option<+T> = None | Some(value: T) {

    /** The wrapped value, or `default` when there is none. */
    function GetOr(default: T): T {
      match this
      case Some(v) => v
      case None => default
    }
  }
}
