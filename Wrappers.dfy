/** Plain optional and result wrappers shared by the modules of the expense tracker model. */
module Wrappers {

  /** A value that may be absent: `None` stands for a JavaScript `undefined` or `null`. */
  datatype Option<+T> = None | Some(value: T)

  /** The outcome of an operation that can fail with an error value. */
  datatype Result<+R, +E> = Ok(value: R) | Err(error: E)
}
