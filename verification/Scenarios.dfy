/** The client's documented test cases, stated about the model: a client for
    organisation "Test Org" with token "api-token", and a transport that
    answers every POST with one fixed response. */
module Scenarios {
  import opened Wrappers
  import opened Json
  import opened Exceptions
  import opened AppErrorModel
  import opened Reports
  import opened StatusUpdates
  import opened ErrorHandling
  import opened Client

  const TestClient: AndonAppClient := AndonAppClient("Test Org", BearerHeader("api-token"), DefaultEndpoint, false)

  /** A report from "line 1", "station 1" with the given result and no failure details. */
  function Report(passResult: string): ReportDataRequest {
    ReportDataRequest(None, Some("line 1"), Some("station 1"), Some(passResult), 100, None, None)
  }

  /** The constructor refuses a null organisation or token, and builds the
      test client from non-null ones. */
  lemma ConstructorChecks()
    ensures NewClient(None, Some("api-token")) == Failure(ArgumentNull("orgName cannot be null"))
    ensures NewClient(Some("Test Org"), None) == Failure(ArgumentNull("apitToken cannot be null"))
    ensures NewClient(Some("Test Org"), Some("api-token")) == Success(TestClient)
    ensures NewClient(Some(""), Some("")).Success?
  {
  }

  /** A passing report answered with 200 succeeds; the receiver reads back
      the report with the organisation stamped, and the null failure details
      are not on the wire at all. */
  lemma ReportPassSucceeds(send: Post -> Response, decode: string -> Option<AppError>)
    requires forall p :: send(p).statusCode == 200
    ensures var x := Client.ReportData(TestClient, Some(Report("PASS")), send, decode);
      && x.outcome == Pass
      && x.posted.value.baseAddress == "https://portal.andonapp.com/public/api/v1/"
      && x.posted.value.path == "data/report"
      && BearerToken(x.posted.value.authorization) == Some("api-token")
      && Reports.FromWire(x.posted.value.body)
         == Some(ReportDataRequest(Some("Test Org"), Some("line 1"), Some("station 1"), Some("PASS"), 100, None, None))
      && "failReason" !in x.posted.value.body && "failNotes" !in x.posted.value.body
  {
  }

  /** A status change with every field set (the test's YELLOW change with
      reason and notes) answered with 200 succeeds, and all five fields plus
      the organisation are on the wire. */
  lemma UpdateYellowSucceeds(c: AndonAppClient, u: UpdateStationStatusRequest,
                             send: Post -> Response, decode: string -> Option<AppError>)
    requires u.lineName.Some? && u.stationName.Some? && u.statusColor.Some?
    requires u.statusReason.Some? && u.statusNotes.Some?
    requires forall p :: send(p).statusCode == 200
    ensures var x := Client.UpdateStationStatus(c, Some(u), send, decode);
      && x.outcome == Pass
      && x.posted.value.path == "station/update"
      && StatusUpdates.FromWire(x.posted.value.body) == Some(u.(orgName := Some(c.orgName)))
      && x.posted.value.body.Keys == StatusKeys
  {
    var x := Client.UpdateStationStatus(c, Some(u), send, decode);
    var w := x.posted.value.body;
    FullUpdateKeys(w, u.(orgName := Some(c.orgName)));
  }

  /** A wire form of an update whose six fields are all set carries exactly
      the update's keys. */
  lemma FullUpdateKeys(w: Wire, v: UpdateStationStatusRequest)
    requires StatusUpdates.Describes(w, v)
    requires v.orgName.Some? && v.lineName.Some? && v.stationName.Some?
    requires v.statusColor.Some? && v.statusReason.Some? && v.statusNotes.Some?
    ensures w.Keys == StatusKeys
  {
  }

  /** A green status change without reason or notes omits both keys. */
  lemma UpdateGreenOmitsNulls(send: Post -> Response, decode: string -> Option<AppError>)
    requires forall p :: send(p).statusCode == 200
    ensures var u := UpdateStationStatusRequest(None, Some("line 1"), Some("station 1"), Some("GREEN"), None, None);
      var x := Client.UpdateStationStatus(TestClient, Some(u), send, decode);
      && x.outcome == Pass
      && x.posted.value.body["statusColor"] == JString("GREEN")
      && "statusReason" !in x.posted.value.body && "statusNotes" !in x.posted.value.body
  {
  }

  /** A report with the unchecked pass result "PAS" is still posted as
      given; the server's INVALID_REQUEST answer fails the call with that kind
      and the server's message. */
  lemma InvalidPassResultIsServerSide(c: AndonAppClient, r: ReportDataRequest,
                                      send: Post -> Response, decode: string -> Option<AppError>)
    requires r.passResult == Some("PAS")
    requires forall p :: send(p) == Response(400, "BadRequest", "invalid")
    requires decode("invalid") == Some(Empty.(errorType := Some("INVALID_REQUEST"),
                                               errorMessage := Some("'PAS' is not a valid pass result.")))
    ensures var x := Client.ReportData(c, Some(r), send, decode);
      && x.posted.value.body["passResult"] == JString("PAS")
      && x.outcome == Fail(Andon(AndonError(InvalidRequest, Some("'PAS' is not a valid pass result."))))
  {
  }

  /** Error bodies and the errors they classify to: the test suite's
      not-found, internal-error, framework 401, 400 and 500 and empty-object
      cases, plus two added cases that the suite does not exercise, a
      framework 404 and an unknown `errorType` together with a 401 status. */
  lemma ClassificationCases()
    ensures HandleError(Some(Empty.(errorType := Some("RESOURCE_NOT_FOUND"), errorMessage := Some("Station not found"))), "BadRequest", "")
         == AndonError(ResourceNotFound, Some("Station not found"))
    ensures HandleError(Some(Empty.(errorType := Some("INTERNAL_ERROR"), errorMessage := Some("something broke"))), "BadRequest", "")
         == AndonError(InternalError, Some("something broke"))
    ensures HandleError(Some(Empty.(timestamp := Some("2018-03-07T16:15:19.033+0000"), status := Some(401),
                                    error := Some("Unauthorized"), message := Some("Unauthorized"),
                                    path := Some("/public/api/v1/data/report"))), "Unauthorized", "")
         == AndonError(UnauthorizedRequest, Some("Unauthorized"))
    ensures HandleError(Some(Empty.(timestamp := Some("2018-03-07T16:15:19.033+0000"), status := Some(400),
                                    error := Some("error"), message := Some("message"),
                                    path := Some("/public/api/v1/data/report"))), "BadRequest", "")
         == AndonError(BadRequest, Some("message"))
    ensures HandleError(Some(Empty.(status := Some(404), message := Some("message"))), "NotFound", "")
         == AndonError(BadRequest, Some("message"))
    ensures HandleError(Some(Empty.(timestamp := Some("2018-03-07T16:15:19.033+0000"), status := Some(500),
                                    error := Some("error"), message := Some("message"),
                                    path := Some("/public/api/v1/data/report"))), "InternalServerError", "")
         == AndonError(InternalError, Some("message"))
    ensures HandleError(Some(Empty), "BadRequest", "{}")
         == AndonError(AppException, Some("Status BadRequest: {}"))
    ensures HandleError(Some(Empty.(errorType := Some("SOMETHING_ELSE"), errorMessage := Some("m"), status := Some(401))), "Unauthorized", "")
         == AndonError(AppException, Some("m"))
  {
    assert FallbackMessage("BadRequest", "{}") == "Status BadRequest: {}";
  }
}
