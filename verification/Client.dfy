/** The client: its configuration, argument checks, and the shared
    stamp-serialise-post-classify pipeline behind both operations. The HTTP
    transport and the JSON deserialiser are parameters: `send` stands for
    posting and reading the response, `decode` for deserialising an error body. */
module Client {
  import opened Wrappers
  import opened Json
  import opened Exceptions
  import opened AppErrorModel
  import opened BaseRequest
  import Reports
  import StatusUpdates
  import ErrorHandling

  const DefaultEndpoint: string := "https://portal.andonapp.com/public/api/v1/"
  const ReportDataPath: string := "data/report"
  const UpdateStatusPath: string := "station/update"
  /** The content header of a UTF-8 JSON string body. */
  const ContentType: string := "application/json; charset=utf-8"
  const BearerPrefix: string := "Bearer "

  /** A configured client: its organisation, the `Authorization` header value
      it sends, the base address requests are relative to, and whether the
      underlying HTTP client has started sending (after which its base address
      can no longer be changed). */
  datatype AndonAppClient = AndonAppClient(orgName: string, authorization: string, baseAddress: string, started: bool)

  /** One outbound POST as the transport sees it. */
  datatype Post = Post(baseAddress: string, path: string, authorization: string, contentType: string, body: Wire)

  /** The response: numeric status, the status as rendered in messages, raw body. */
  datatype Response = Response(statusCode: int, statusText: string, body: string)

  /** What one call did: the client and the caller's request object as they
      are afterwards (the request is stamped in place, so the caller sees the
      client's organisation in it even when the call fails), the POST it
      issued, if any, and how it ended. */
  datatype Exchange = Exchange(client: AndonAppClient, request: Option<Request>, posted: Option<Post>,
                               outcome: Outcome<ClientError>)

  /** Rejects null, and only null: an empty string passes. */
  function CheckNotNull<T>(value: Option<T>, paramName: string): (r: Result<T, ClientError>)
    ensures r.Success? <==> value.Some?
    ensures r.Success? ==> r.value == value.value
    ensures r.Failure? ==> r.error == ArgumentNull(paramName)
  {
    match value
    case None => Failure(ArgumentNull(paramName))
    case Some(v) => Success(v)
  }

  /** The token carried by a bearer `Authorization` header value, if it is one. */
  function BearerToken(header: string): (token: Option<string>)
    ensures token.Some? ==> header == BearerPrefix + token.value
  {
    if |header| >= |BearerPrefix| && header[..|BearerPrefix|] == BearerPrefix
    then Some(header[|BearerPrefix|..])
    else None
  }

  /** The `Authorization` header value for an API token. */
  function BearerHeader(apiToken: string): (header: string)
    ensures BearerToken(header) == Some(apiToken)
  {
    var h := BearerPrefix + apiToken;
    assert h[..|BearerPrefix|] == BearerPrefix;
    assert h[|BearerPrefix|..] == apiToken;
    h
  }

  /** The constructor: the organisation is checked first, then the token; on
      success the client holds the organisation, authenticates with the token
      as a bearer credential, talks to the default endpoint and has not yet
      sent anything. */
  function NewClient(orgName: Option<string>, apiToken: Option<string>): (r: Result<AndonAppClient, ClientError>)
    ensures r.Success? <==> orgName.Some? && apiToken.Some?
    ensures orgName.None? ==> r == Failure(ArgumentNull("orgName cannot be null"))
    ensures orgName.Some? && apiToken.None? ==> r == Failure(ArgumentNull("apitToken cannot be null"))
    ensures r.Success? ==>
      && r.value.orgName == orgName.value
      && BearerToken(r.value.authorization) == Some(apiToken.value)
      && r.value.baseAddress == DefaultEndpoint
      && !r.value.started
  {
    var org :- CheckNotNull(orgName, "orgName cannot be null");
    var token :- CheckNotNull(apiToken, "apitToken cannot be null");
    Success(AndonAppClient(org, BearerHeader(token), DefaultEndpoint, false))
  }

  /** Replaces the base address for later calls. A null endpoint is rejected
      first; once the client has sent a request the HTTP client refuses a new
      base address. Nothing else about the client changes. */
  function Endpoint(c: AndonAppClient, endpoint: Option<string>): (r: Result<AndonAppClient, ClientError>)
    ensures r.Success? <==> endpoint.Some? && !c.started
    ensures endpoint.None? ==> r == Failure(ArgumentNull("endpoint cannot be null"))
    ensures endpoint.Some? && c.started ==> r == Failure(InvalidOperation)
    ensures r.Success? ==>
      && r.value.baseAddress == endpoint.value
      && r.value.orgName == c.orgName
      && r.value.authorization == c.authorization
      && r.value.started == c.started
  {
    var e :- CheckNotNull(endpoint, "endpoint cannot be null");
    if c.started then Failure(InvalidOperation) else Success(c.(baseAddress := e))
  }

  /** The 2xx range. */
  predicate IsSuccessStatusCode(statusCode: int) {
    200 <= statusCode <= 299
  }

  /** The shared pipeline. A null request fails before anything is posted
      and changes nothing. Otherwise the caller's request object is stamped
      in place with the client's organisation and posted, as JSON with nulls
      omitted, to `path`, which marks the client as started; a 2xx response
      completes the call whatever its body, and any other response fails it
      with the Andon error its body classifies to. */
  function ExecuteRequest(c: AndonAppClient, request: Option<Request>, path: string,
                          send: Post -> Response, decode: string -> Option<AppError>): (x: Exchange)
    ensures x.posted.Some? <==> request.Some?
    ensures request.None? ==> x.outcome == Fail(ArgumentNull("request cannot be null"))
    ensures request.None? ==> x.client == c && x.request.None?
    ensures request.Some? ==>
      && x.client == c.(started := true)
      && x.request == Some(Stamp(request.value, c.orgName))
      && OrgName(x.request.value) == Some(c.orgName)
      && x.posted.value.body == BaseRequest.ToWire(x.request.value)
    ensures request.Some? ==>
      && x.posted.value.baseAddress == c.baseAddress
      && x.posted.value.path == path
      && x.posted.value.authorization == c.authorization
      && x.posted.value.contentType == ContentType
      && x.posted.value.body == BaseRequest.ToWire(request.value)["orgName" := JString(c.orgName)]
    ensures request.Some? ==>
      var response := send(x.posted.value);
      && (x.outcome.Pass? <==> IsSuccessStatusCode(response.statusCode))
      && (x.outcome.Fail? ==>
            x.outcome.error == Andon(ErrorHandling.HandleError(decode(response.body), response.statusText, response.body)))
  {
    match CheckNotNull(request, "request cannot be null")
    case Failure(err) => Exchange(c, None, None, Fail(err))
    case Success(req) =>
      var stamped := Stamp(req, c.orgName);
      var post := Post(c.baseAddress, path, c.authorization, ContentType, BaseRequest.ToWire(stamped));
      var response := send(post);
      var after := c.(started := true);
      if IsSuccessStatusCode(response.statusCode) then Exchange(after, Some(stamped), Some(post), Pass)
      else
        var error := ErrorHandling.HandleError(decode(response.body), response.statusText, response.body);
        Exchange(after, Some(stamped), Some(post), Fail(Andon(error)))
  }

  /** Reports a process outcome: stamps the caller's report in place and
      posts it with the client's header to `data/report`; the receiver reads
      back exactly the caller's report with the client's organisation in
      place of whatever `orgName` the caller set. */
  function ReportData(c: AndonAppClient, request: Option<Reports.ReportDataRequest>,
                      send: Post -> Response, decode: string -> Option<AppError>): (x: Exchange)
    ensures x.posted.Some? <==> request.Some?
    ensures request.None? ==> x.outcome == Fail(ArgumentNull("request cannot be null"))
    ensures request.None? ==> x.client == c && x.request.None?
    ensures request.Some? ==>
      && x.client == c.(started := true)
      && x.request == Some(Report(request.value.(orgName := Some(c.orgName))))
      && x.posted.value.baseAddress == c.baseAddress
      && x.posted.value.path == ReportDataPath
      && x.posted.value.authorization == c.authorization
      && x.posted.value.contentType == ContentType
      && Reports.Describes(x.posted.value.body, request.value.(orgName := Some(c.orgName)))
      && Reports.FromWire(x.posted.value.body) == Some(request.value.(orgName := Some(c.orgName)))
      && var response := send(x.posted.value);
         && (x.outcome.Pass? <==> IsSuccessStatusCode(response.statusCode))
         && (x.outcome.Fail? ==>
               x.outcome.error == Andon(ErrorHandling.HandleError(decode(response.body), response.statusText, response.body)))
  {
    var req := match request case None => None case Some(r) => Some(Report(r));
    var x := ExecuteRequest(c, req, ReportDataPath, send, decode);
    match request
    case None => x
    case Some(r) =>
      StampedReportWire(r, c.orgName);
      Reports.RoundTrip(r.(orgName := Some(c.orgName)));
      x
  }

  /** Changes a station's status: stamps the caller's update in place and
      posts it with the client's header to `station/update`; the receiver
      reads back exactly the caller's update with the client's organisation
      in place of whatever `orgName` the caller set. */
  function UpdateStationStatus(c: AndonAppClient, request: Option<StatusUpdates.UpdateStationStatusRequest>,
                               send: Post -> Response, decode: string -> Option<AppError>): (x: Exchange)
    ensures x.posted.Some? <==> request.Some?
    ensures request.None? ==> x.outcome == Fail(ArgumentNull("request cannot be null"))
    ensures request.None? ==> x.client == c && x.request.None?
    ensures request.Some? ==>
      && x.client == c.(started := true)
      && x.request == Some(StatusUpdate(request.value.(orgName := Some(c.orgName))))
      && x.posted.value.baseAddress == c.baseAddress
      && x.posted.value.path == UpdateStatusPath
      && x.posted.value.authorization == c.authorization
      && x.posted.value.contentType == ContentType
      && StatusUpdates.Describes(x.posted.value.body, request.value.(orgName := Some(c.orgName)))
      && StatusUpdates.FromWire(x.posted.value.body) == Some(request.value.(orgName := Some(c.orgName)))
      && var response := send(x.posted.value);
         && (x.outcome.Pass? <==> IsSuccessStatusCode(response.statusCode))
         && (x.outcome.Fail? ==>
               x.outcome.error == Andon(ErrorHandling.HandleError(decode(response.body), response.statusText, response.body)))
  {
    var req := match request case None => None case Some(u) => Some(StatusUpdate(u));
    var x := ExecuteRequest(c, req, UpdateStatusPath, send, decode);
    match request
    case None => x
    case Some(u) =>
      StampedStatusWire(u, c.orgName);
      StatusUpdates.RoundTrip(u.(orgName := Some(c.orgName)));
      x
  }

  /** A 2xx response completes the call and its body is never looked at;
      any other response always fails the call with an Andon error. */
  lemma SuccessIgnoresBody(c: AndonAppClient, request: Request, path: string,
                           send: Post -> Response, decode: string -> Option<AppError>)
    ensures var x := ExecuteRequest(c, Some(request), path, send, decode);
      && (IsSuccessStatusCode(send(x.posted.value).statusCode) ==> x.outcome == Pass)
      && (!IsSuccessStatusCode(send(x.posted.value).statusCode) ==> x.outcome.Fail? && x.outcome.error.Andon?)
  {
  }
}
