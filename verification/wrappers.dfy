/** The optional value used wherever the dashboard code tests for `null`,
    `undefined` or a missing lookup. */
module Wrappers {

  datatype Option<+T> = None | Some(value: T) {

    /** The wrapped value, or `default` when there is none (the `x || d`
        and `x ?? d` idioms of the dashboard code). */
    function GetOr(default: T): T {
      match this
      case Some(v) => v
      case None => default
    }
  }
}
