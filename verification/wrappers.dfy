/** Optional values, the Python exceptions the core raises, and results that carry them. */
module Wrappers {

  datatype Option<+T> = None | Some(value: T) {
    /** `x if x is not None else default` */
    function GetOr(default: T): T {
      match this
      case Some(v) => v
      case None => default
    }
  }

  /** The exception classes that reach a caller of the core, each with its message. */
  datatype Error =
    | ValueError(message: string)
    | TypeError(message: string)
    | AttributeError(message: string)
    | RuntimeError(message: string)
    /** bytes that are not valid UTF-8 (a subclass of ValueError, so `except OSError` does not catch it) */
    | UnicodeDecodeError(message: string)
    /** whatever the model client or the JSON parser raised */
    | ModelError(message: string)
    /** a request body that the payload schema rejects (HTTP 422) */
    | ValidationError(message: string)

  /** A value, or the exception raised instead of returning it. */
  datatype Result<+T> = Ok(value: T) | Err(error: Error)
}
