/** Exceptions raised by the listener protocol, and the wrappers that carry them. */
module Errors {

  /** The exceptions of the modelled code. */
  datatype Error =
    | ValueError                                         // verify_inputs before anything was received
    | MismatchedIds(found: int, expected: Option<int>)   // verify_inputs on a different batch
    | IndexError                                         // listeners[-1] on an empty list, d_tensors[i][j] past the end
    | BroadcastError                                     // numpy's ValueError for `+=` of two arrays of different lengths

  datatype Option<+T> = None | Some(value: T)

  /** A value or the exception raised instead. */
  datatype Result<+T> = Ok(value: T) | Err(error: Error)

  /** Normal completion, or the exception raised. */
  datatype Outcome = Pass | Fail(error: Error)
}
