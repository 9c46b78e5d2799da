/** Option and Result, used for JavaScript's `undefined` and for thrown errors. */
module Wrappers {

  /** `None` stands for JavaScript's `undefined` (a missing key or argument). */
  datatype Option<+T> = None | Some(value: T) {
    function GetOr(default: T): T {
      if Some? then value else default
    }
  }

  /** The outcome of an operation that may throw: `Err` carries what is thrown. */
  datatype Result<+T, +E> = Ok(value: T) | Err(error: E)
}
