# Astra DevOps client core, in Dafny

This project models the request logic of the Go client for the Astra DevOps
API (`astraops/astra.go`): how each operation judges the one HTTP reply it
gets, the error texts it builds, the convergence poller `WaitUntil`, the
blocking operations built on it (`CreateDb`, `Park`, `Unpark`), the separate
poll loop of `Terminate`, the query parameters of `ListDb` and
`TerminateAsync`, and the formatting of the API's structured errors
(`readErrorFromResponse`, `FormatErrors`).

The HTTP round trip is an oracle. A `Reply` is one of three things:

- the request could not be built (`RequestFailed`);
- the transport failed (`TransportFailed`);
- a `Response` arrived. It carries the status code, the `location` header,
  and what decoding its body as an error list, a database or a database list
  yields.

A polling operation takes the replies to its successive fetches as a
sequence and consumes one per attempt. Sleeping is not performed. Each
polling method returns, as ghost results, the number of fetches it made and
the seconds it would have slept.

Modules:

- `Text` (`text.dfy`): decimal printing of integers (`%v`,
  `strconv.FormatInt`) with its inverse, and `strings.Join`.
- `Api` (`api.dfy`): `StatusEnum`, the `Database` fields the client reads,
  the API `Error` (here `ApiError`), and the reply oracle. `Status` is the
  canonical form of a status string: a text equal to a named constant is
  always that constant. So comparing statuses is comparing their strings,
  as Go does.
- `ErrorFormat` (`errorformat.dfy`): `FormatErrors` and
  `readErrorFromResponse`. Each is a loop-carrying method proved equal to a
  specification function. Lemmas cover the plural suffixes, the error-list
  tail, the decode-failure form, and the exact strings of the repository's
  tests.
- `Dispatch` (`dispatch.dfy`): the single-request operations and their
  status-code checks, plus the query selection of `ListDb` and
  `TerminateAsync`.
- `Poller` (`poller.dfy`): `WaitUntil`, `CreateDb`, `Park` and `Unpark`.
- `Deletion` (`deletion.dfy`): `Terminate`, whose own poll loop (not `WaitUntil`) is the method `AwaitDeletion`.

In `Terminate`, a fetch that cannot be built or sent aborts at once with
that error. So does a 200 reply whose body does not decode. `ClassifyPoll`
marks both as `Aborted`, and `TerminateDecidedByFirstDecisivePoll` proves
the abort. Only a response with a code other than 200 or 401, or a 200
showing a status that is not terminal, is retried.

## Model

| member | source | states |
|---|---|---|
| Api.Parse | astraops/astra.go:42-60 | any JSON text denotes exactly one status, whose wire name is that text |
| Api.ParseName | astraops/astra.go:42-60 | the fourteen named constants and every other text round-trip through their wire name |
| Api.StatusEqualityIsTextEquality | astraops/astra.go:42-60 | two statuses are equal exactly when their strings are equal, the comparison Go makes at line 166 |
| Text.IntDecimalRoundTrip | astraops/astra.go:201-203 | the decimal text printed for an integer parses back to that integer |
| Text.IntToDecimalInjective | astraops/astra.go:278 | distinct status codes print as distinct texts |
| ErrorFormat.FormatErrors | astraops/astra.go:742-748 | the loop builds exactly the join, with ", ", of one "ID: <id> Text: '<message>'" entry per error, in order |
| ErrorFormat.FormattedErrorsConcat | astraops/astra.go:742-748 | no errors format as ""; one error formats as its own entry; the text for a concatenated list is the two texts joined by ", " |
| ErrorFormat.FormatErrorsExample | astraops/astra_test.go:211-220 | the two-error list of the formatting test gives exactly the expected string |
| ErrorFormat.ReadErrorFromResponse | astraops/astra.go:259-279 | the loop over the expected codes builds exactly the specified error text, for an undecodable body and for a decoded error list |
| ErrorFormat.ErrorTextCodePlural | astraops/astra.go:265-268 | the message begins "expected status code", followed by "s" exactly when at least one code is expected |
| ErrorFormat.ErrorTextErrorPlural | astraops/astra.go:269-278 | the message ends with " - " and the formatted error list, preceded by "s" exactly when the list is non-empty |
| ErrorFormat.ErrorTextDecodeFailure | astraops/astra.go:260-264 | for an undecodable body the message ignores the expected codes, begins "unable to decode error response", and ends with the status code, which parses back from it |
| ErrorFormat.ReadErrorFromResponseExample | astraops/astra_test.go:222-239 | a 400 carrying two errors, when 201 or 202 was expected, gives exactly the message the test expects |
| ErrorFormat.ReadErrorFromResponseBadJsonExample | astraops/astra_test.go:241-252 | a 400 whose body does not decode gives the decode-failure message with the decoder's reason quoted and the code 400 |
| Dispatch.CreateDbAsync | astraops/astra.go:238-257 | success exactly on a 201, returning the `location` header; any other code fails with the error text for expected code 201 |
| Dispatch.TerminateQuery | astraops/astra.go:363-365 | the termination query holds only `preparedStateOnly`, "true" exactly when the flag is set and "false" exactly when it is not |
| Dispatch.TerminateAsync | astraops/astra.go:357-375 | success exactly on a 202; any other code fails with the error text for expected code 202 |
| Dispatch.ParkAsync | astraops/astra.go:438-453 | success exactly on a 202; any other code fails with the error text for expected code 202 |
| Dispatch.UnparkAsync | astraops/astra.go:473-488 | success exactly on a 202; any other code fails with the error text for expected code 202 |
| Dispatch.FindDb | astraops/astra.go:284-304 | the decoded record exactly on a 200 whose body decodes; any other code fails with the error text for expected code 200 |
| Dispatch.ListQuery | astraops/astra.go:191-204 | each of `include`, `provider`, `starting_after` is sent exactly when non-empty, with its value; `limit` exactly when positive, as its exact decimal text, which parses back to it |
| Dispatch.ListDb | astraops/astra.go:205-218 | the decoded list exactly on a 200 whose body decodes; any other code fails with the error text for expected code 200 |
| Dispatch.AddKeyspaceToDb | astraops/astra.go:310-325 | success exactly on a 200; any other code fails with the error text for expected code 200 |
| Dispatch.ResetPassword | astraops/astra.go:537-553 | success exactly on a 200; any other code fails with the error text for expected code 200 |
| Dispatch.Resize | astraops/astra.go:509-530 | success exactly on a code up to 299; above that, with a decoded error list, the "expected status code 2xx" message with the code and the formatted errors |
| Dispatch.ResizeAcceptsEveryExpectedCode | astraops/astra.go:521 | resize accepts every code another operation accepts, and 204, which the others reject |
| Dispatch.RejectionCarriesPayload | astraops/astra.go:259-279 | a rejected single-code request's error says "expected status codes" and ends with the service's formatted error list |
| Poller.WaitUntil | astraops/astra.go:154-176 | the loop returns what the specified poll returns, having slept `attempts` times the interval (zero for a non-positive interval) |
| Poller.WaitUntilFirstArrival | astraops/astra.go:154-176 | success exactly when some fetch within the budget shows the status; then the FIRST such record, no earlier fetch having shown it; otherwise exactly `tries` fetches (none if `tries <= 0`), the zero database and the timeout message |
| Poller.FetchErrorIsAbsorbed | astraops/astra.go:157-165 | a failed fetch only uses up its attempt: swapping any non-matching reply for any other leaves the result and the attempt count unchanged |
| Poller.ParkTimeoutScenario | astraops/astra.go:175 | a poll for PARKED with 3 tries 1 second apart that never sees it fails after 3 fetches with "... with status PARKED after 3 seconds" |
| Poller.CreateDb | astraops/astra.go:223-233 | a failed creation returns its error without polling; otherwise the poll for ACTIVE with 30 tries 30 seconds apart, its error wrapped in "create db failed because '...'" |
| Poller.CreateDbScenario | astraops/astra.go:223-233 | a 201 with location "db-123", then PENDING, PENDING, ACTIVE, returns the ACTIVE record after 3 fetches and 90 seconds |
| Poller.CreateDbConverges | astraops/astra.go:223-233 | `CreateDb` succeeds exactly when the creation is accepted and a fetch within 30 shows ACTIVE, returning the first such record; a rejected creation makes no fetch; running out makes all 30 fetches and returns the zero database with the timeout wrapped in "create db failed because '...'" |
| Poller.Park | astraops/astra.go:458-468 | a rejected park is wrapped in "park db failed because '...'" without polling; otherwise the poll for PARKED with 30 tries 30 seconds apart, its error wrapped in "unable to check status for park db ..." |
| Poller.ParkConverges | astraops/astra.go:458-468 | `Park` succeeds exactly when the request is accepted and a fetch within 30 shows PARKED, the last fetch being the first to show it; a rejected request makes no fetch; running out makes all 30 and wraps the timeout in "unable to check status for park db ..." |
| Poller.Unpark | astraops/astra.go:493-503 | a rejected unpark is wrapped in "unpark db failed because '...'" without polling; otherwise the poll for ACTIVE with 60 tries 30 seconds apart, its error wrapped in "unable to check status for unpark db ..." |
| Poller.UnparkConverges | astraops/astra.go:493-503 | `Unpark` succeeds exactly when the request is accepted and a fetch within 60 shows ACTIVE, the last fetch being the first to show it; a rejected request makes no fetch; running out makes all 60 and wraps the timeout in "unable to check status for unpark db ..." |
| Deletion.Terminate | astraops/astra.go:381-433 | a rejected termination request is returned before any poll; otherwise the poll loop runs, and the whole returns what the specified termination returns, having slept 10 seconds per poll |
| Deletion.AwaitDeletion | astraops/astra.go:386-433 | the poll loop, with its tracking of the last rejection text and the last status code, returns what the specified poll over the classified replies returns, having slept 10 seconds per poll |
| Deletion.TerminateDecidedByFirstDecisivePoll | astraops/astra.go:391-418 | the first poll that is a 401, a 200 showing TERMINATED or TERMINATING, a failed fetch, or an undecodable 200 decides `Terminate` after exactly that many polls: success for the first two, that poll's own error for the others |
| Deletion.TerminateExhausted | astraops/astra.go:419-432 | when no poll is decisive, all 30 are made and the failure names the text of the last rejected poll ("" if none) and the status code of the 30th poll |
| Deletion.TerminateRequestFailureSkipsPolling | astraops/astra.go:382-385 | a failed termination request is returned as is, before any poll |
| Deletion.TerminateGoneScenario | astraops/astra.go:402-404 | a 202 on termination and a 401 on the first poll give success after one poll |

## Left out

- Transport, authentication (`Authenticate`, `AuthenticateToken`, `newHTTPClient`) and `setHeaders`: the reply oracle stands in for the network.
- `GetSecureBundle`, `GetTierInfo` and the DTOs other than `Database` and `Error`: outside the modelled core.
- JSON decoding: a `Response` carries what decoding would yield for each shape, so decoder errors are given, not computed.
- The request bodies of `CreateDbAsync`, `Resize` and `ResetPassword`, and `CreateDbAsync`'s marshal failure: the body is opaque to the status handling that is modelled.
- URL query encoding (`url.Values.Encode`, its sorting and escaping, repeated keys): the queries are modelled as maps from key to value.
- `closeBody` and the `defer` inside the `Terminate` loop, which keeps every response body open until `Terminate` returns: resource handling, not behaviour.
- Logging in `WaitUntil` and `Terminate`: it does not affect any result.
- Real time: `time.Sleep` is a ghost count of seconds.
- Poller.WaitUntil: does not model the 64-bit overflow of `intervalSeconds * tries` in the timeout message, or of `time.Duration(intervalSeconds) * time.Second`; integers are unbounded.
- The value returned beside an error by `FindDb` and `ListDb` (a zero or empty value) is not modelled; `WaitUntil` and `CreateDb` do return the zero database.
- The polling methods require at least as many scripted replies as their budget of fetches; the source makes at most that many.
- Dispatch.Resize: says nothing about its request-failure texts, which read "unpark" as in the source, or about its decode-failure text.
- `Error` wraps with `%w` and `%v` are modelled by their message text only; error unwrapping is not modelled.
