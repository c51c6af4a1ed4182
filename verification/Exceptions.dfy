/** The client's error taxonomy. In C# this is a class hierarchy rooted at
    `AndonAppException` with five direct subclasses; here it is one kind tag
    plus the message the exception was constructed with. */
module Exceptions {
  import opened Wrappers

  datatype ErrorKind =
    | AppException          // the generic base, AndonAppException
    | BadRequest            // AndonBadRequestException
    | InvalidRequest        // AndonInvalidRequestException
    | ResourceNotFound      // AndonResourceNotFoundException
    | UnauthorizedRequest   // AndonUnauthorizedRequestException
    | InternalError         // AndonInternalErrorException

  /** An Andon exception; the message argument may be null. */
  datatype AndonError = AndonError(kind: ErrorKind, message: Option<string>)

  /** Everything a client call can fail with: a null argument, rejected
      before any network activity (`ArgumentNullException`, whose single
      string argument is a parameter name); a change of endpoint after the
      underlying HTTP client has started sending (`InvalidOperationException`);
      or an Andon exception. */
  datatype ClientError =
    | ArgumentNull(paramName: string)
    | InvalidOperation
    | Andon(error: AndonError)

  /** The `errorType` string by which the server names each specific kind;
      the generic base has none. */
  function ErrorTypeName(k: ErrorKind): Option<string> {
    match k
    case AppException => None
    case BadRequest => Some("BAD_REQUEST")
    case InvalidRequest => Some("INVALID_REQUEST")
    case ResourceNotFound => Some("RESOURCE_NOT_FOUND")
    case UnauthorizedRequest => Some("UNAUTHORIZED_REQUEST")
    case InternalError => Some("INTERNAL_ERROR")
  }
}
