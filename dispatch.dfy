/** The client's single-request operations. Each issues one request, takes the
    reply the service gives, and either succeeds on the one status code the
    operation expects or fails with the text of `readErrorFromResponse`. No
    operation here retries. */
module Dispatch {
  import opened Api
  import opened Text
  import opened ErrorFormat

  /** The operations that issue exactly one request. */
  datatype Action =
    | CreateAction | TerminateAction | ParkAction | UnparkAction
    | FindAction | ListAction | AddKeyspaceAction | ResetPasswordAction
    | ResizeAction

  /** The one status code an operation accepts; resize accepts a range instead. */
  function ExpectedCode(a: Action): int
    requires a != ResizeAction
  {
    match a
    case CreateAction => 201
    case TerminateAction => 202
    case ParkAction => 202
    case UnparkAction => 202
    case FindAction => 200
    case ListAction => 200
    case AddKeyspaceAction => 200
    case ResetPasswordAction => 200
  }

  /** Whether an operation treats a status code as success. */
  predicate Accepts(a: Action, code: int) {
    if a == ResizeAction then code <= 299 else code == ExpectedCode(a)
  }

  /** Resize is the only operation that accepts more than one code: every
      code the others accept, and everything else up to 299. */
  lemma ResizeAcceptsEveryExpectedCode(a: Action, code: int)
    requires a != ResizeAction && Accepts(a, code)
    ensures Accepts(ResizeAction, code)
    ensures Accepts(ResizeAction, 204) && !Accepts(a, 204)
  {
  }

  /** Whether a reply is a response that the operation accepts. */
  predicate Accepted(a: Action, reply: Reply) {
    reply.Received? && Accepts(a, reply.res.statusCode)
  }

  /** The rejection text for a received response with an unexpected code. */
  function Rejection(a: Action, res: Response): string
    requires a != ResizeAction
  {
    ErrorText(res, [ExpectedCode(a)])
  }

  /** `CreateDbAsync`: success only on 201, with the new id from the
      `location` header. */
  function CreateDbAsync(reply: Reply): (r: Result<string>)
    ensures r.Ok? <==> Accepted(CreateAction, reply)
    ensures r.Ok? ==> r.value == reply.res.location
    ensures reply.Received? && r.Err? ==> r.message == Rejection(CreateAction, reply.res)
  {
    match reply
    case RequestFailed(reason) => Err("failed creating request with: " + reason)
    case TransportFailed(reason) => Err("failed creating database with: " + reason)
    case Received(res) =>
      if res.statusCode != 201 then Err(ErrorText(res, [201])) else Ok(res.location)
  }

  /** The query `TerminateAsync` sends: `preparedStateOnly`, as `strconv.FormatBool` prints it. */
  function TerminateQuery(preparedStateOnly: bool): (q: map<string, string>)
    ensures q.Keys == {"preparedStateOnly"}
    ensures q["preparedStateOnly"] == "true" <==> preparedStateOnly
    ensures q["preparedStateOnly"] == "false" <==> !preparedStateOnly
  {
    map["preparedStateOnly" := if preparedStateOnly then "true" else "false"]
  }

  /** `TerminateAsync`: success only on 202. */
  function TerminateAsync(id: string, reply: Reply): (r: Outcome)
    ensures r.Pass? <==> Accepted(TerminateAction, reply)
    ensures reply.Received? && r.Fail? ==> r.message == Rejection(TerminateAction, reply.res)
  {
    match reply
    case RequestFailed(reason) =>
      Fail("failed creating request to terminate db with id " + id + " with: " + reason)
    case TransportFailed(reason) =>
      Fail("failed to terminate database id " + id + " with: " + reason)
    case Received(res) =>
      if res.statusCode != 202 then Fail(ErrorText(res, [202])) else Pass
  }

  /** `ParkAsync`: success only on 202. */
  function ParkAsync(id: string, reply: Reply): (r: Outcome)
    ensures r.Pass? <==> Accepted(ParkAction, reply)
    ensures reply.Received? && r.Fail? ==> r.message == Rejection(ParkAction, reply.res)
  {
    match reply
    case RequestFailed(reason) =>
      Fail("failed creating request to park db with id " + id + " with: " + reason)
    case TransportFailed(reason) =>
      Fail("failed to park database id " + id + " with: " + reason)
    case Received(res) =>
      if res.statusCode != 202 then Fail(ErrorText(res, [202])) else Pass
  }

  /** `UnparkAsync`: success only on 202. */
  function UnparkAsync(id: string, reply: Reply): (r: Outcome)
    ensures r.Pass? <==> Accepted(UnparkAction, reply)
    ensures reply.Received? && r.Fail? ==> r.message == Rejection(UnparkAction, reply.res)
  {
    match reply
    case RequestFailed(reason) =>
      Fail("failed creating request to unpark db with id " + id + " with: " + reason)
    case TransportFailed(reason) =>
      Fail("failed to unpark database id " + id + " with: " + reason)
    case Received(res) =>
      if res.statusCode != 202 then Fail(ErrorText(res, [202])) else Pass
  }

  const FindRequestLead: string := "failed creating request to find db with id "

  /** The error for a fetch of one database whose request cannot be built. */
  function FindRequestError(id: string, reason: string): string {
    FindRequestLead + id + " with: " + reason
  }

  /** The error for a fetch of one database whose transport fails. */
  function FindTransportError(id: string, reason: string): string {
    "failed get database id " + id + " with: " + reason
  }

  /** `FindDb`: the decoded record on a 200 whose body decodes, an error otherwise. */
  function FindDb(id: string, reply: Reply): (r: Result<Database>)
    ensures r.Ok? <==> Accepted(FindAction, reply) && reply.res.asDatabase.Decoded?
    ensures r.Ok? ==> r.value == reply.res.asDatabase.value
    ensures reply.Received? && !Accepted(FindAction, reply) ==>
      r == Err(Rejection(FindAction, reply.res))
  {
    match reply
    case RequestFailed(reason) =>
      Err(FindRequestError(id, reason))
    case TransportFailed(reason) =>
      Err(FindTransportError(id, reason))
    case Received(res) =>
      if res.statusCode != 200 then Err(ErrorText(res, [200]))
      else match res.asDatabase
        case DecodeFailed(reason) => Err("unable to decode response with error: " + reason)
        case Decoded(db) => Ok(db)
  }

  /** The query parameters `ListDb` sends: each optional string filter only
      when non-empty, the page limit only when positive. */
  function ListQuery(includeFilter: string, provider: string, startingAfter: string, limit: int32): (q: map<string, string>)
    ensures q.Keys <= {"include", "provider", "starting_after", "limit"}
    ensures "include" in q <==> |includeFilter| > 0
    ensures "include" in q ==> q["include"] == includeFilter
    ensures "provider" in q <==> |provider| > 0
    ensures "provider" in q ==> q["provider"] == provider
    ensures "starting_after" in q <==> |startingAfter| > 0
    ensures "starting_after" in q ==> q["starting_after"] == startingAfter
    ensures "limit" in q <==> limit > 0
    ensures "limit" in q ==> q["limit"] == IntToDecimal(limit as int)
    ensures "limit" in q ==> ParseDecimal(q["limit"]) == limit as int
  {
    var q0: map<string, string> := map[];
    var q1 := if |includeFilter| > 0 then q0["include" := includeFilter] else q0;
    var q2 := if |provider| > 0 then q1["provider" := provider] else q1;
    var q3 := if |startingAfter| > 0 then q2["starting_after" := startingAfter] else q2;
    IntDecimalRoundTrip(limit as int);
    if limit > 0 then q3["limit" := IntToDecimal(limit as int)] else q3
  }

  /** `ListDb`, once its request has been sent: the decoded list on a 200
      whose body decodes, an error otherwise. */
  function ListDb(reply: Reply): (r: Result<seq<Database>>)
    ensures r.Ok? <==> Accepted(ListAction, reply) && reply.res.asDatabases.Decoded?
    ensures r.Ok? ==> r.value == reply.res.asDatabases.value
    ensures reply.Received? && !Accepted(ListAction, reply) ==>
      r == Err(Rejection(ListAction, reply.res))
  {
    match reply
    case RequestFailed(reason) => Err("failed creating request with: " + reason)
    case TransportFailed(reason) => Err("failed listing databases with: " + reason)
    case Received(res) =>
      if res.statusCode != 200 then Err(ErrorText(res, [200]))
      else match res.asDatabases
        case DecodeFailed(reason) => Err("unable to decode response with error: " + reason)
        case Decoded(dbs) => Ok(dbs)
  }

  /** `AddKeyspaceToDb`: success only on 200. */
  function AddKeyspaceToDb(id: string, keyspace: string, reply: Reply): (r: Outcome)
    ensures r.Pass? <==> Accepted(AddKeyspaceAction, reply)
    ensures reply.Received? && r.Fail? ==> r.message == Rejection(AddKeyspaceAction, reply.res)
  {
    match reply
    case RequestFailed(reason) =>
      Fail("failed creating request to add keyspace to db with id " + id + " with: " + reason)
    case TransportFailed(reason) =>
      Fail("failed to add keyspace to db id " + id + " with: " + reason)
    case Received(res) =>
      if res.statusCode != 200 then Fail(ErrorText(res, [200])) else Pass
  }

  /** `ResetPassword`: success only on 200. */
  function ResetPassword(id: string, reply: Reply): (r: Outcome)
    ensures r.Pass? <==> Accepted(ResetPasswordAction, reply)
    ensures reply.Received? && r.Fail? ==> r.message == Rejection(ResetPasswordAction, reply.res)
  {
    match reply
    case RequestFailed(reason) =>
      Fail("failed creating request to reset password for db with id " + id + " with: " + reason)
    case TransportFailed(reason) =>
      Fail("failed to reset password for database id " + id + " with: " + reason)
    case Received(res) =>
      if res.statusCode != 200 then Fail(ErrorText(res, [200])) else Pass
  }

  /** `Resize`: success on any code up to 299; above that its own message,
      which does not go through `readErrorFromResponse`. The request-failure
      texts say "unpark", as the source has them. */
  function Resize(id: string, reply: Reply): (r: Outcome)
    ensures r.Pass? <==> Accepted(ResizeAction, reply)
    ensures reply.Received? && r.Fail? && reply.res.asErrors.Decoded? ==>
      r.message == "expected status code 2xx but had: " + IntToDecimal(reply.res.statusCode)
        + " with error(s) - " + FormattedErrors(reply.res.asErrors.value)
  {
    match reply
    case RequestFailed(reason) =>
      Fail("failed creating request to unpark db with id " + id + " with: " + reason)
    case TransportFailed(reason) =>
      Fail("failed to unpark database id " + id + " with: " + reason)
    case Received(res) =>
      if res.statusCode > 299 then
        match res.asErrors
        case DecodeFailed(reason) => Fail("unable to decode error response with error: " + reason)
        case Decoded(errs) =>
          Fail("expected status code 2xx but had: " + IntToDecimal(res.statusCode)
            + " with error(s) - " + FormattedErrors(errs))
      else Pass
  }

  /** A rejected request's error carries the structured error list the
      service sent: the message ends with its formatting and says "code"
      in the plural, since one code is always expected. */
  lemma RejectionCarriesPayload(a: Action, res: Response)
    requires a != ResizeAction && res.asErrors.Decoded?
    ensures var t := Rejection(a, res);
      var tail := " - " + FormattedErrors(res.asErrors.value);
      |t| > |tail| && t[|t| - |tail|..] == tail
      && |t| > 20 && t[..21] == "expected status codes"
  {
    ErrorTextErrorPlural(res, [ExpectedCode(a)]);
    ErrorTextCodePlural(res, [ExpectedCode(a)]);
    var t := Rejection(a, res);
    assert t[..21] == t[..20] + [t[20]];
  }
}
