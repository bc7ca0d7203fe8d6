/** The optional value used throughout the model: `None` stands for JavaScript's
    `null`, `undefined` and (for numbers) `NaN`, the values the source tests with `!x`. */
module Wrappers {

  datatype Option<+T> = None | Some(value: T) {

    /** The encapsulated value, or `default` when there is none. */
    function GetOr(default: T): T {
      match this
      case Some(v) => v
      case None => default
    }
  }
}
