/** Option and Result, the two shapes that the source's `undefined`/`null` lookups and its
    thrown `Error(message)` values take in this model. */
module Wrappers {

  datatype Option<+T> = None | Some(value: T)

  /** A JavaScript call that either returns a value or throws `new Error(message)`. */
  datatype Result<+T> = Ok(value: T) | Err(message: string)

  /** A JavaScript call that returns nothing or throws `new Error(message)`. */
  datatype Outcome = Pass | Fail(message: string)
}
