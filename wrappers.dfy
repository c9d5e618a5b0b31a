/** Option and Result datatypes, and the Python exceptions the model lets escape. */
module Wrappers {

  datatype Option<+T> = None | Some(value: T)

  /** `Err` stands for an exception that escapes the modelled Python function. */
  datatype Result<+T, +E> = Ok(value: T) | Err(error: E)

  /** The exception classes that the modelled code raises and does not catch. */
  datatype PyError =
    | ValueError(message: string)
    | KeyError(key: string)
    | IndexError
    | UnicodeDecodeError
    | ZeroDivisionError
    | UnboundLocalError
}
