/** Option, errors and results shared by every module of the model.
    Go's `*T` (nil or a value) is an `Option<T>`; Go's `(T, error)` pair is a `Result<T>`. */
module Wrappers {

  datatype Option<+T> = None | Some(value: T)

  /** A Go `error`: its `Error()` text, and whether `errors.Is(err, context.Canceled)` holds
      (true only for errors that wrap the cancelled context's error). */
  datatype Error = Error(msg: string, canceled: bool)

  datatype Result<+T> = Ok(value: T) | Err(error: Error)

  /** An error built by `fmt.Errorf` or `errors.New` without wrapping a context error. */
  function Fail(msg: string): Error
  {
    Error(msg, false)
  }

  /** `fmt.Errorf(prefix + ": %w", err)`: the text gets a prefix, the wrapped chain is kept. */
  function Wrap(prefix: string, e: Error): Error
  {
    Error(prefix + ": " + e.msg, e.canceled)
  }
}
