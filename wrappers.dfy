/** Small failure-carrying datatypes shared by every module of the model. */
module Wrappers {

  /** A value that may be absent: Python's `X | None`. */
  datatype Option<+T> = None | Some(value: T)

  /** The outcome of a Python call that either returns a value or raises
      an exception; `error` is the exception's message. */
  datatype Result<+T> = Ok(value: T) | Err(error: string)

  /** How a computation that may raise an exception or loop forever has
      ended so far: still running, stopped by an exception carrying
      `message`, or caught in a loop that never returns. */
  datatype Halt =
    | Running
    | Raised(message: string)
    | Diverged
}
