/** Failure-carrying values and the library's exception hierarchy.

    Every raise of the client library becomes an `Err(e)` value whose `e`
    names the Python exception class that would have escaped. */
module Errors {

  datatype Option<+T> = None | Some(value: T) {
    predicate IsFailure() { None? }
    function PropagateFailure<U>(): Option<U> requires None? { None }
    function Extract(): T requires Some? { value }
  }

  /** The exceptions a caller of the library can observe. */
  datatype Error =
    | AuthError(reason: string)              // AuthError
    | ConnectionError(reason: string)        // ParkingConnectionError (timeout or transport failure)
    | RateLimitError(retryAfter: Option<int>) // RateLimitError carrying the parsed Retry-After
    | ParseError(what: string)               // ParseError, qualified by the field or label concerned
    | HttpError(status: int)                 // aiohttp's ClientResponseError raised by raise_for_status
    | Overflow                               // OverflowError of datetime.astimezone, never caught
    | ValueError(reason: string)             // constructor validation
    | TypeError(reason: string)              // unexpected constructor keyword arguments

  datatype Result<+T> = Ok(value: T) | Err(error: Error) {
    predicate IsFailure() { Err? }
    function PropagateFailure<U>(): Result<U> requires Err? { Err(error) }
    function Extract(): T requires Ok? { value }
  }

  /** The result of an operation that returns None in Python. */
  datatype Outcome = Pass | Fail(error: Error)
}
