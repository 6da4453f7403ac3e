/** The client's data model: database status, the database record as far as
    the client inspects it, the API's structured errors, and the HTTP round
    trip seen as an oracle that yields one reply per request. */
module Api {

  /** A 32-bit signed integer, Go's `int32` (error ids, page limits). */
  newtype int32 = x: int | -0x8000_0000 <= x < 0x8000_0000

  /** The failure-carrying results the client's functions return. A Go
      `error` is represented by its message text. */
  datatype Outcome = Pass | Fail(message: string)

  datatype Result<T> = Ok(value: T) | Err(message: string)

  /** `StatusEnum` is a Go string type filled from JSON: any text can arrive,
      the fourteen named constants are the ones the API documents. */
  datatype StatusEnum =
    | Active | Pending | Preparing | Prepared | Initializing
    | Parked | Parking | Unparking | Terminated | Terminating
    | Resizing | Error | Maintenance | Unknown
    | Other(name: string)

  const KnownNames: set<string> := {
    "ACTIVE", "PENDING", "PREPARING", "PREPARED", "INITIALIZING",
    "PARKED", "PARKING", "UNPARKING", "TERMINATED", "TERMINATING",
    "RESIZING", "ERROR", "MAINTENANCE", "UNKNOWN"
  }

  /** A status value in canonical form: text equal to a named constant is
      always that constant, never `Other`. */
  type Status = s: StatusEnum | s.Other? ==> s.name !in KnownNames witness Other("")

  /** The wire text of a status. */
  function Name(s: StatusEnum): string {
    match s
    case Active => "ACTIVE"
    case Pending => "PENDING"
    case Preparing => "PREPARING"
    case Prepared => "PREPARED"
    case Initializing => "INITIALIZING"
    case Parked => "PARKED"
    case Parking => "PARKING"
    case Unparking => "UNPARKING"
    case Terminated => "TERMINATED"
    case Terminating => "TERMINATING"
    case Resizing => "RESIZING"
    case Error => "ERROR"
    case Maintenance => "MAINTENANCE"
    case Unknown => "UNKNOWN"
    case Other(n) => n
  }

  /** The status a JSON string denotes. */
  function Parse(text: string): (s: Status)
    ensures Name(s) == text
  {
    if text == "ACTIVE" then Active
    else if text == "PENDING" then Pending
    else if text == "PREPARING" then Preparing
    else if text == "PREPARED" then Prepared
    else if text == "INITIALIZING" then Initializing
    else if text == "PARKED" then Parked
    else if text == "PARKING" then Parking
    else if text == "UNPARKING" then Unparking
    else if text == "TERMINATED" then Terminated
    else if text == "TERMINATING" then Terminating
    else if text == "RESIZING" then Resizing
    else if text == "ERROR" then Error
    else if text == "MAINTENANCE" then Maintenance
    else if text == "UNKNOWN" then Unknown
    else Other(text)
  }

  /** Parsing the wire text of a canonical status gives the status back. */
  lemma ParseName(s: Status)
    ensures Parse(Name(s)) == s
  {
  }

  /** Comparing canonical statuses is comparing their strings, as Go does. */
  lemma StatusEqualityIsTextEquality(a: Status, b: Status)
    ensures a == b <==> Name(a) == Name(b)
  {
    if Name(a) == Name(b) {
      ParseName(a);
      ParseName(b);
    }
  }

  /** The fields of a database record that the client reads. */
  datatype Database = Database(id: string, orgId: string, ownerId: string, status: Status)

  /** Go's zero `Database{}`. */
  const ZeroDatabase: Database := Database("", "", "", Other(""))

  /** One entry of the API's structured error list. */
  datatype ApiError = ApiError(id: int32, message: string)

  /** The result of decoding a response body into some shape. */
  datatype Decoded<T> = Decoded(value: T) | DecodeFailed(reason: string)

  /** A received HTTP response: the status code, the `location` header, and
      what decoding the body as each shape the client may ask for yields. */
  datatype Response = Response(
    statusCode: int,
    location: string,
    asErrors: Decoded<seq<ApiError>>,
    asDatabase: Decoded<Database>,
    asDatabases: Decoded<seq<Database>>)

  /** What one request yields: building the request failed, the transport
      failed, or a response came back. */
  datatype Reply =
    | RequestFailed(reason: string)
    | TransportFailed(reason: string)
    | Received(res: Response)
}
