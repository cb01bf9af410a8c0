/** The optional-value datatype the model uses for TypeScript's `undefined`. */
module Wrappers {

  /** `None` stands for an omitted optional parameter or an `undefined` result. */
  datatype Option<+T> = None | Some(value: T) {

    /** The wrapped value, or `default` when there is none. */
    function GetOr(default: T): T {
      match this
      case Some(v) => v
      case None => default
    }
  }
}
