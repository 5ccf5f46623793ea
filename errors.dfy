/**
 * The error kinds the services raise, the reply of a service call, and the
 * top-level handler that turns an error into an error body and a status code.
 */
module Errors {
  import opened Constants

  /** `OtherError` stands for every exception that is none of the three named kinds. */
  datatype Error =
    | DatabaseError(message: string)
    | NotFoundError(message: string)
    | ForwardingError(message: string)
    | OtherError(message: string)

  /** What a service call produces: a body with its status code, or a raised error. */
  datatype Response<+T> = Ok(body: T, code: nat) | Raised(error: Error)

  /** The JSON body `{"error": ...}` and the status code sent back to the caller. */
  datatype ErrorReply = ErrorReply(error: string, code: nat)

  const UnexpectedErrorMessage := "An unexpected error occurred"

  /**
   * Known kinds keep their own message; NotFound is the only 404; anything
   * unrecognised is answered with a fixed text, never its own.
   */
  function HandleException(e: Error): (r: ErrorReply)
    ensures r.code == ResponseCodeNotFound || r.code == ResponseCodeError
    ensures r.code == ResponseCodeNotFound <==> e.NotFoundError?
    ensures !e.OtherError? ==> r.error == e.message
    ensures e.OtherError? ==> r.error == UnexpectedErrorMessage
  {
    match e
    case NotFoundError(m) => ErrorReply(m, ResponseCodeNotFound)
    case DatabaseError(m) => ErrorReply(m, ResponseCodeError)
    case ForwardingError(m) => ErrorReply(m, ResponseCodeError)
    case OtherError(_) => ErrorReply(UnexpectedErrorMessage, ResponseCodeError)
  }
}
