/** Option and Result types shared by the model, and the exception kinds the
    PHP code throws. A PHP `throw` becomes an `Err` result; the exception class
    becomes the `Error` constructor. */
module Wrappers {

  datatype Option<+T> = None | Some(value: T)

  /** The exception classes thrown by the modelled code. */
  datatype Error =
    | InvalidArgument(message: string)   // \InvalidArgumentException
    | Runtime(message: string)           // \RuntimeException
    | TypeError(message: string)         // \TypeError raised by the PHP engine

  datatype Result<+T> = Ok(value: T) | Err(error: Error)
}
