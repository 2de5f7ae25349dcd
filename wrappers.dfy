/** Option and Result values, used for the places where the modelled code
    returns nothing, raises, or may not find what it looks for. */
module Wrappers {

  datatype Option<+T> = None | Some(value: T)

  /** The outcome of a call that either returns a value or raises. */
  datatype Result<+T, +E> = Ok(value: T) | Err(error: E)

  /** The outcome of a call that returns nothing useful or raises. */
  datatype Outcome<+E> = Pass | Fail(error: E)
}
