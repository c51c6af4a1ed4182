# Andon client request pipeline, in Dafny

A model of the .NET client for the Andon factory-monitoring service
(`AndonAppClient`). The client reports process outcomes and station status
changes. For each call it:

- rejects a null argument;
- stamps its own organisation name into the request;
- serialises the request to JSON with null members omitted;
- posts it, authenticated with a bearer token, to `data/report` or
  `station/update`;
- on a non-2xx response, turns the error body into one exception of a flat
  taxonomy.

The model is pure. A C# `null` is `Option.None`. An exception is the failure
side of a `Result` or `Outcome`. The transport is a function parameter
`send: Post -> Response`, and the JSON deserialiser is a parameter
`decode: string -> Option<AppError>`. The JSON wire form is an unordered map
from key to value.

Modules, one per source concern:

- `Wrappers`: `Option`, `Result`, `Outcome`.
- `Json`: the `long` range as `Int64`, the wire map, and `Serialize`, the serialiser with null values ignored.
- `Exceptions`: `ErrorKind`, `AndonError`, `ClientError` (a null argument, a base-address change after the client has started sending, or an Andon error), and the `errorType` name of each kind.
- `AppErrorModel`: the error envelope, which has both the application shape and the web-framework shape.
- `Reports`, `StatusUpdates`: the two request records, their wire form, and a reference reader of that wire form.
- `BaseRequest`: the shared `orgName` property and the stamping of it.
- `ErrorHandling`: `HandleError`, the classification of a failed response.
- `Client`: the constructor, `Endpoint`, the shared `ExecuteRequest` pipeline and the two operations. Each call returns an `Exchange`: the client and the caller's request object as they are after the call, the POST issued, and the outcome.
- `Scenarios`: the cases of the client's test suite, stated about the model.

Behaviour of the code worth noting:

- The client's own checks reject only `null`, not the empty string. This
  holds for the organisation name, the token and the request. The endpoint
  is also only null-checked by the client, but the URI parser then refuses
  an empty or relative string; that parser is outside the model (see
  `Client.Endpoint` under "## Left out").
- There are five recognised `errorType` strings and a default branch
  (AndonApp/AndonAppClient.cs:157-170).
- A body that is not JSON at all makes the deserialiser throw its own
  exception before classification. Only a body that deserialises to null, or
  to an envelope with neither `errorType` nor `status`, reaches the
  `"Status …: …"` fallback.
- `ArgumentNullException(string)` takes a parameter name. The texts such as
  `"orgName cannot be null"` are therefore modelled as `ArgumentNull(paramName)`.
  Their spelling is kept, including the constructor's `"apitToken cannot be null"`.

## Model

| member | source | states |
|---|---|---|
| Json.Serialize | AndonApp/AndonAppClient.cs:57 | With null values ignored, a property is on the wire exactly when its value is non-null, and then with that value. No other key appears. |
| Reports.Properties | AndonApp/Model/ReportDataRequest.cs:9-46 | A report declares exactly seven JSON properties with distinct names. In order they are the names in `ReportNames`: the report's own six, then the inherited `orgName`, which is the order of the expected body at AndonAppTests/AndonAppClientTest.cs:286-295. |
| Reports.NamesAreKeys | AndonApp/Model/ReportDataRequest.cs:15-46 | The seven declared names are distinct and are exactly the report's wire keys, `ReportKeys`. |
| Reports.ToWire | AndonApp/Model/ReportDataRequest.cs:15-46 | The result `Describes` the report. Wire keys are a subset of the seven report keys, and `processTimeSeconds` is always present as its number. Each nullable string key is present exactly when non-null, with its value unchanged. Nothing is validated, so `passResult` and a null `lineName` go out as given. |
| Reports.ReadsBack | AndonApp/Model/ReportDataRequest.cs:15-46 | Any object that describes a report reads back as that report. |
| Reports.DescribesUnique | AndonApp/Model/ReportDataRequest.cs:15-46 | A report has exactly one wire form under null omission. |
| Reports.RoundTrip | AndonApp/Model/ReportDataRequest.cs:15-46 | Reading a report's wire form back gives the same report. Omitting a null member loses nothing. |
| StatusUpdates.Properties | AndonApp/Model/UpdateStationStatusRequest.cs:9-40 | A status update declares exactly six JSON properties with distinct names. In order they are the names in `StatusNames`: the update's own five, then the inherited `orgName`, which is the order of the expected body at AndonAppTests/AndonAppClientTest.cs:300-308. |
| StatusUpdates.NamesAreKeys | AndonApp/Model/UpdateStationStatusRequest.cs:15-40 | The six declared names are distinct and are exactly the update's wire keys, `StatusKeys`. |
| StatusUpdates.ToWire | AndonApp/Model/UpdateStationStatusRequest.cs:15-40 | The result `Describes` the update. Wire keys are a subset of the six status keys. Each is present exactly when non-null, with its value unchanged. `statusColor` is not checked. |
| StatusUpdates.ReadsBack | AndonApp/Model/UpdateStationStatusRequest.cs:15-40 | Any object that describes a status update reads back as that update. |
| StatusUpdates.DescribesUnique | AndonApp/Model/UpdateStationStatusRequest.cs:15-40 | A status update has exactly one wire form under null omission. |
| StatusUpdates.RoundTrip | AndonApp/Model/UpdateStationStatusRequest.cs:15-40 | Reading a status update's wire form back gives the same update. |
| BaseRequest.Stamp | AndonApp/AndonAppClient.cs:130 | After stamping, `orgName` is the client's organisation whatever the caller set. On the wire this sets `orgName` and leaves every other member as the caller's request would send it. |
| BaseRequest.StampedReportWire | AndonApp/Model/BaseRequest.cs:8-12 | For a report, stamping changes the wire form only in its `orgName` member. |
| BaseRequest.StampedStatusWire | AndonApp/Model/BaseRequest.cs:8-12 | For a status update, stamping changes the wire form only in its `orgName` member. |
| ErrorHandling.ClassifyErrorType | AndonApp/AndonAppClient.cs:152-171 | The message is `errorMessage`. A specific kind is chosen only when `errorType` is exactly that kind's name. Otherwise no kind has that name and the result is the generic base. |
| ErrorHandling.ClassifyStatus | AndonApp/AndonAppClient.cs:173-190 | The message is `message`. The kind is unauthorised exactly for 401, bad request exactly for the rest of 400..499, and internal error otherwise. |
| ErrorHandling.FallbackMessage | AndonApp/AndonAppClient.cs:193 | The fallback text is `Status `, the rendered status, `: `, then the raw body. |
| ErrorHandling.HandleError | AndonApp/AndonAppClient.cs:144-194 | Total: every failed response gives an Andon error. A present `errorType` wins over `status`. With no `errorType`, the status decides and never yields the generic, invalid-request or not-found kinds. With neither field, or a null envelope, the result is the generic kind with the status-and-body text. Each kind is characterised both ways by the envelope fields that produce it. |
| ErrorHandling.ErrorTypeNamesClassify | AndonApp/AndonAppClient.cs:157-170 | Exactly the five specific kinds have an `errorType` name, and classifying that name gives back the kind with the given message. |
| ErrorHandling.ErrorTypeTakesPriority | AndonApp/AndonAppClient.cs:152-172 | Once `errorType` is present, only `errorType` and `errorMessage` matter. The status, the other fields, the rendered status and the raw body are ignored. |
| ErrorHandling.InformationalFieldsIgnored | AndonApp/Model/AppError.cs:15-28 | `timestamp`, `error` and `path` never change the classification. |
| Client.CheckNotNull | AndonApp/AndonAppClient.cs:196-203 | Fails with `ArgumentNull` exactly on null, so the empty string passes. Otherwise it returns the value unchanged. |
| Client.BearerToken | AndonApp/AndonAppClient.cs:54 | A header value it accepts is `Bearer ` followed by the token it returns. |
| Client.BearerHeader | AndonApp/AndonAppClient.cs:54 | The header value built from a token reads back as that token. |
| Client.NewClient | AndonApp/AndonAppClient.cs:48-58 | Succeeds exactly when organisation and token are both non-null. The organisation is checked first. The client holds the organisation, a bearer header for the token and the default endpoint, and has not started sending. |
| Client.Endpoint | AndonApp/AndonAppClient.cs:64-68 | A null endpoint is rejected first with `ArgumentNull`. A non-null endpoint on a client that has already sent a request is refused with `InvalidOperation`. Otherwise only the base address changes. |
| Client.ExecuteRequest | AndonApp/AndonAppClient.cs:126-142 | A POST is issued exactly when the request is non-null. A null request fails with `ArgumentNull`, posts nothing and changes nothing. Otherwise the caller's request object is left stamped with the client's organisation, whatever the outcome, and the client is marked as started. The POST goes to the client's base address and the given path with the client's header and the JSON content type. Its body is the stamped request's wire form, which is the caller's wire form with `orgName` replaced. The call completes exactly on 2xx, and otherwise fails with the classified error. |
| Client.ReportData | AndonApp/AndonAppClient.cs:94-97 | Leaves the caller's report stamped in place and the client started. Posts to the client's base address and `data/report`, with the client's `Authorization` header and the JSON content type. The body describes the caller's report with the client's organisation stamped, and the receiver reads back exactly that report. Completes exactly on 2xx, and otherwise fails with the classified error. |
| Client.UpdateStationStatus | AndonApp/AndonAppClient.cs:121-124 | Leaves the caller's update stamped in place and the client started. Posts to the client's base address and `station/update`, with the client's `Authorization` header and the JSON content type. The body describes the caller's update with the organisation stamped, and the receiver reads back exactly that update. Completes exactly on 2xx, and otherwise fails with the classified error. |
| Client.SuccessIgnoresBody | AndonApp/AndonAppClient.cs:138-141 | A 2xx response completes the call whatever its body. Any other response always fails it with an Andon error. |
| Scenarios.ConstructorChecks | AndonAppTests/AndonAppClientTest.cs:34-46 | A null organisation or token is refused with the matching parameter name. Empty strings are accepted. |
| Scenarios.ReportPassSucceeds | AndonAppTests/AndonAppClientTest.cs:48-62 | A PASS report answered with 200 succeeds and is posted to the default endpoint's `data/report` with the bearer token. It carries the stamped organisation and no `failReason`/`failNotes` keys. |
| Scenarios.UpdateYellowSucceeds | AndonAppTests/AndonAppClientTest.cs:252-267 | For any client, an update with every field set, like the test's YELLOW change, succeeds on 200. All six keys are on the wire, and the receiver reads back the update with the organisation stamped. |
| Scenarios.UpdateGreenOmitsNulls | AndonAppTests/AndonAppClientTest.cs:269-282 | A GREEN update without reason or notes omits both keys. |
| Scenarios.InvalidPassResultIsServerSide | AndonAppTests/AndonAppClientTest.cs:122-141 | For any client and any report with pass result "PAS", the value is posted unchanged. The server's INVALID_REQUEST answer fails the call with the invalid-request kind and the server's message. |
| Scenarios.ClassificationCases | AndonAppTests/AndonAppClientTest.cs:101-250 | The suite's not-found, internal-error, 401, 400, 500 and `{}` bodies, written out field by field, classify as the tests expect, and `{}` gives the fallback text. Two added cases are not in the suite: a framework 404 gives a bad request, and an unknown `errorType` gives the generic kind even when a 401 status is present. |

## Left out

- HTTP transport (`HttpClient`, handler injection, `PostAsync`, reading the body): modelled as the `send` parameter. Transport failures are not modelled.
- async/`Task`/`ConfigureAwait`: scheduling only, no logic.
- `new Uri(...)` in the constructor and `Endpoint`: URI parsing belongs to a foreign library, and so do its format errors. The base address is kept as a string.
- Client.Endpoint: a non-null endpoint that the URI parser refuses fails the source with `UriFormatException`, and the client is left unchanged. Examples are the empty string and a relative path. The model accepts any non-null string on a client that has not started, because URI parsing is outside the model.
- Client.NewClient: a token that the HTTP header parser refuses fails the source with `FormatException` when the `Authorization` header is added. An example is a token containing a bare newline. The model accepts every non-null token, because header parsing belongs to the HTTP library.
- BaseRequest.Stamp: the source writes the organisation into the caller's own request object rather than a copy. The model makes this visible in `Exchange.request`, the caller's object after the call. The model does not cover concurrent reuse of one request object. If two clients post the same object at once, one call's write can land between the other's write and its serialisation. That body then carries the other client's organisation under this client's token. The body contract of `Client.ExecuteRequest` holds only when a request object is not posted concurrently.
- JSON text: byte-level serialisation, key order and deserialisation are a foreign library. The wire is an abstract map, and the deserialiser is the `decode` parameter. A malformed body makes the deserialiser throw, which is not modelled.
- Rendering of the HTTP status code in the fallback message (enum `ToString`): taken as the opaque `statusText` of the response.
- Exception class files (constructors, inner-exception overloads, the default message of an exception built with a null message): each class is only a constructor of `ErrorKind`. The message is the constructor argument, possibly null.
- The `Content-Type` header is a constant of the model. The 2xx test is .NET's `IsSuccessStatusCode` range, 200..299.
- AndonApp/IAndonAppClient.cs (signatures only) is not part of this model.
- Reports.FromWire and StatusUpdates.FromWire are reference readers used to state round trips. The client has no decoder for requests.
