/** Classification of a failed response into the error taxonomy. */
module ErrorHandling {
  import opened Wrappers
  import opened Json
  import opened Exceptions
  import opened AppErrorModel

  /** The application shape: an exact match on `errorType` picks the kind;
      any other string gives the generic base. The message is `errorMessage`. */
  function ClassifyErrorType(errorType: string, errorMessage: Option<string>): (e: AndonError)
    ensures e.message == errorMessage
    ensures e.kind != AppException ==> ErrorTypeName(e.kind) == Some(errorType)
    ensures e.kind == AppException ==>
      forall k: ErrorKind {:trigger ErrorTypeName(k)} :: ErrorTypeName(k) != Some(errorType)
  {
    match errorType
    case "BAD_REQUEST" => AndonError(BadRequest, errorMessage)
    case "INVALID_REQUEST" => AndonError(InvalidRequest, errorMessage)
    case "RESOURCE_NOT_FOUND" => AndonError(ResourceNotFound, errorMessage)
    case "UNAUTHORIZED_REQUEST" => AndonError(UnauthorizedRequest, errorMessage)
    case "INTERNAL_ERROR" => AndonError(InternalError, errorMessage)
    case _ => AndonError(AppException, errorMessage)
  }

  /** The framework shape: 401 is unauthorised, the rest of 400..499 is a bad
      request, and every other status (below 400 or from 500) is an internal
      error. The message is `message`. */
  function ClassifyStatus(status: Int64, message: Option<string>): (e: AndonError)
    ensures e.message == message
    ensures e.kind == UnauthorizedRequest || e.kind == BadRequest || e.kind == InternalError
    ensures e.kind == UnauthorizedRequest <==> status == 401
    ensures e.kind == BadRequest <==> 400 <= status < 500 && status != 401
  {
    if status == 401 then AndonError(UnauthorizedRequest, message)
    else if 400 <= status < 500 then AndonError(BadRequest, message)
    else AndonError(InternalError, message)
  }

  /** The message of the last-resort error: the rendered status code and the
      raw body. */
  function FallbackMessage(statusText: string, body: string): (m: string)
    ensures |m| == |statusText| + |body| + 9
    ensures m[..7] == "Status " && m[7..7 + |statusText|] == statusText
    ensures m[7 + |statusText|..9 + |statusText|] == ": " && m[9 + |statusText|..] == body
  {
    "Status " + statusText + ": " + body
  }

  /** Maps a failed response to the error the call fails with. `envelope` is
      the body as deserialised (`None` when it deserialised to null),
      `statusText` the rendered HTTP status and `body` the raw body text. The
      function is total: every failed response becomes some Andon error. */
  function HandleError(envelope: Option<AppError>, statusText: string, body: string): (e: AndonError)
    // the application shape wins whenever `errorType` is present
    ensures envelope.Some? && envelope.value.errorType.Some? ==>
      && e.message == envelope.value.errorMessage
      && (e.kind != AppException ==> ErrorTypeName(e.kind) == envelope.value.errorType)
    // otherwise the framework status decides, and never picks the two application-only kinds
    ensures envelope.Some? && envelope.value.errorType.None? && envelope.value.status.Some? ==>
      && e.message == envelope.value.message
      && e.kind != AppException && e.kind != InvalidRequest && e.kind != ResourceNotFound
    // with neither shape, the generic error carries status and raw body
    ensures (envelope.None? || (envelope.value.errorType.None? && envelope.value.status.None?)) ==>
      e == AndonError(AppException, Some(FallbackMessage(statusText, body)))
    // the application-only kinds come from nothing but their own errorType
    ensures e.kind == InvalidRequest <==> envelope.Some? && envelope.value.errorType == Some("INVALID_REQUEST")
    ensures e.kind == ResourceNotFound <==> envelope.Some? && envelope.value.errorType == Some("RESOURCE_NOT_FOUND")
    // the kinds both shapes can reach, with their two sources
    ensures e.kind == UnauthorizedRequest <==>
      envelope.Some? &&
      (envelope.value.errorType == Some("UNAUTHORIZED_REQUEST") ||
       (envelope.value.errorType.None? && envelope.value.status == Some(401)))
    ensures e.kind == BadRequest <==>
      envelope.Some? &&
      (envelope.value.errorType == Some("BAD_REQUEST") ||
       (envelope.value.errorType.None? && envelope.value.status.Some? &&
        400 <= envelope.value.status.value < 500 && envelope.value.status.value != 401))
    ensures e.kind == InternalError <==>
      envelope.Some? &&
      (envelope.value.errorType == Some("INTERNAL_ERROR") ||
       (envelope.value.errorType.None? && envelope.value.status.Some? &&
        !(400 <= envelope.value.status.value < 500)))
  {
    if envelope.Some? && envelope.value.errorType.Some? then
      ClassifyErrorType(envelope.value.errorType.value, envelope.value.errorMessage)
    else if envelope.Some? && envelope.value.status.Some? then
      ClassifyStatus(envelope.value.status.value, envelope.value.message)
    else
      AndonError(AppException, Some(FallbackMessage(statusText, body)))
  }

  /** Every specific kind is reached from its own `errorType` string, whatever
      the message: the exact-match table and its inverse agree. */
  lemma ErrorTypeNamesClassify(k: ErrorKind, errorMessage: Option<string>)
    ensures k != AppException <==> ErrorTypeName(k).Some?
    ensures k != AppException ==> ClassifyErrorType(ErrorTypeName(k).value, errorMessage) == AndonError(k, errorMessage)
  {
  }

  /** Once `errorType` is present, only `errorType` and `errorMessage` matter:
      the status, the other framework fields, the rendered status code and
      the raw body are all ignored. */
  lemma ErrorTypeTakesPriority(a: AppError, b: AppError, statusA: string, statusB: string, bodyA: string, bodyB: string)
    requires a.errorType.Some? && a.errorType == b.errorType && a.errorMessage == b.errorMessage
    ensures HandleError(Some(a), statusA, bodyA) == HandleError(Some(b), statusB, bodyB)
  {
  }

  /** `timestamp`, `error` and `path` never influence the classification. */
  lemma InformationalFieldsIgnored(a: AppError, timestamp: Option<string>, error: Option<string>, path: Option<string>,
                                   statusText: string, body: string)
    ensures HandleError(Some(a.(timestamp := timestamp, error := error, path := path)), statusText, body)
         == HandleError(Some(a), statusText, body)
  {
  }
}
