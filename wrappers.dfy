/** Optional values and results with an error, used for Python's `None` and raised exceptions. */
module Wrappers {

  /** `None` stands for Python's `None` (or a pandas NaN where a column may hold one). */
  datatype Option<+T> = None | Some(value: T)

  /** The outcome of an operation that may raise: its value, or the exception it raised. */
  datatype Result<+T, +E> = Success(value: T) | Failure(error: E)

  /** The exceptions raised by the modelled code, each with the message or key it carries. */
  datatype Error =
    | AssertionError(message: string)
    | KeyError(key: string)
    | ValueError(message: string)
    | TypeError(message: string)
    | IndexError(message: string)
}
