/** Value types shared by the server and the command-line report. */
module Common {

  datatype Option<+T> = None | Some(value: T)

  datatype Result<+T, +E> = Success(value: T) | Failure(error: E)

  /** An exception as the service catches it. Only the distinctions the
      server's handlers make are kept; everything else is carried by the
      text Python's str() gives it. */
  datatype Exception =
    | UnknownValueError            // server.py's own "nothing recognised" exception, raised without arguments
    | RequestError(message: string)
    | KeyError(key: string)        // a missing key in a parsed JSON object
    | IndexError                   // subscript of an empty list
    | Other(text: string)          // any other exception, by its str() text

  /** Python's str() of the exception. */
  function Str(e: Exception): string
  {
    match e
    case UnknownValueError => ""
    case RequestError(m) => m
    case KeyError(k) => "'" + k + "'"
    case IndexError => "list index out of range"
    case Other(t) => t
  }
}
