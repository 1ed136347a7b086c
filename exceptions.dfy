/** Failure values of the prediction service: an optional value, a result that
    is either a value or a raised Python exception, and the exceptions that the
    request handler of server.py can meet, with their `str()` text. */
module Exceptions {

  datatype Option<+T> = None | Some(value: T)

  /** The Python exceptions that reach the `except` clauses of `predict()`. */
  datatype Exception =
    | KeyError(key: string)        // str(e) is the key's repr
    | ValueError(message: string)  // raised by list.index for an unknown label
    | IndexError(message: string)  // raised by a list subscript past the end
    | TypeError(message: string)   // raised by `in` on a missing JSON body
    | OtherError(message: string)  // anything else, e.g. raised inside the classifier

  /** Either the value a step computed or the exception it raised. */
  datatype Result<+T> = Ok(value: T) | Raise(error: Exception)

  /** Python's `str(e)`; for a KeyError it is the quoted key. */
  function Str(e: Exception): string {
    match e
    case KeyError(k) => "'" + k + "'"
    case ValueError(m) => m
    case IndexError(m) => m
    case TypeError(m) => m
    case OtherError(m) => m
  }
}
