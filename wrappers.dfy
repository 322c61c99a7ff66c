/** Option and Result values, and the exceptions the backend raises. */
module Wrappers {

  /** A value that may be absent: Python's `Optional[T]` / `None`. */
  datatype Option<+T> = None | Some(value: T)

  /** The outcome of an operation that either returns or raises. */
  datatype Result<+T, +E> = Ok(value: T) | Err(error: E)
}

/** The exceptions that can end a request. */
module Errors {

  datatype Error =
    /** FastAPI's HTTPException with its status code and detail. */
    | HttpError(status: int, detail: string)
    /** A unique or foreign-key constraint rejected a flushed row. */
    | IntegrityError
    /** A value is longer than its `String(n)` column allows. */
    | DataError
    /** Raised by the session manager when it is not initialised. */
    | RuntimeError(message: string)
    /** Raised by the image route when the file does not exist. */
    | FileNotFoundError(message: string)

  const Forbidden := 403
  const NotFound := 404
  const MethodNotAllowed := 405
}
