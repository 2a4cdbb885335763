/** Nullable values and exception-or-value results, as the C# code uses them. */
module Wrappers {

  /** A C# nullable reference (`string?`): `None` stands for `null`. */
  datatype Option<+T> = None | Some(value: T) {
    /** The `??` operator: the value, or `default` for null. */
    function GetOr(default: T): T {
      match this
      case Some(v) => v
      case None => default
    }
  }

  /** The outcome of an operation that returns a value or throws. */
  datatype Result<+R, +E> = Ok(value: R) | Err(error: E)
}
