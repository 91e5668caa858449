/** Failure-compatible wrappers shared by every module of the model, and the
    Python exceptions the modelled code raises or catches. */
module Wrappers {

  datatype Option<+T> = None | Some(value: T)

  datatype Result<+T, +E> = Ok(value: T) | Err(error: E)

  /** The exception classes the modelled code raises, catches or lets escape.
      The payload is the part of the message that the model keeps. */
  datatype Exc =
    | KeyError(key: string)
    | ValueError(reason: string)
    | TypeError(reason: string)
    | AttributeError(attribute: string)
    | FileNotFoundError(path: string)
    | NotImplementedError
    | EOFError
    | RuntimeError(message: string)

  /** A step that either completes or raises. */
  datatype Outcome = Pass | Fail(error: Exc)
}
