/** The optional-value datatype shared by every module of the model.
    `None` stands for JavaScript's `undefined`: an absent option, an absent
    response key, a `booleanParser` result for `false`. */
module Wrappers {

  datatype Option<+T> = None | Some(value: T) {

    /** The wrapped value, or `default` when there is none. */
    function GetOr(default: T): T {
      match this
      case Some(v) => v
      case None => default
    }
  }
}
