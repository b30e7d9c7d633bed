/**
 * Values shared by the attendance server and its client pages: the scalar
 * JSON values a request body can carry, the two enums of the data model
 * (EventType and Role), the user and time-log records held by the store,
 * and the reply an API route sends back.
 */
module Types {

  datatype Option<+T> = None | Some(value: T)

  /** A scalar JavaScript value, as a field of a parsed JSON body holds it.
      `Undefined` is a key that the body does not carry. */
  datatype Json = Undefined | Null | Bool(b: bool) | Num(n: real) | Str(s: string)

  /** JavaScript falsiness of a scalar (`!v`): undefined, null, false, 0 and "". */
  predicate Falsy(v: Json) {
    match v
    case Undefined => true
    case Null => true
    case Bool(b) => !b
    case Num(n) => n == 0.0
    case Str(s) => s == ""
  }

  /** The four values of the `EventType` enum of the store schema. */
  datatype EventType = ClockIn | LunchOut | LunchIn | ClockOut

  /** The string the enum value is stored and transmitted as. */
  function EventTypeName(e: EventType): string {
    match e
    case ClockIn => "CLOCK_IN"
    case LunchOut => "LUNCH_OUT"
    case LunchIn => "LUNCH_IN"
    case ClockOut => "CLOCK_OUT"
  }

  /** `Object.values(EventType).includes(v)`: a strict-equality search among
      the four enum strings, so only a string value can match. */
  function ParseEventType(v: Json): (r: Option<EventType>)
    ensures r.Some? ==> v == Str(EventTypeName(r.value))
    ensures forall e :: v == Str(EventTypeName(e)) ==> r == Some(e)
  {
    match v
    case Str(s) =>
      if s == "CLOCK_IN" then Some(ClockIn)
      else if s == "LUNCH_OUT" then Some(LunchOut)
      else if s == "LUNCH_IN" then Some(LunchIn)
      else if s == "CLOCK_OUT" then Some(ClockOut)
      else None
    case _ => None
  }

  /** The two values of the `Role` enum of the store schema. */
  datatype Role = Employee | Admin

  function RoleName(r: Role): string {
    match r
    case Employee => "EMPLOYEE"
    case Admin => "ADMIN"
  }

  /** `Object.values(Role).includes(v)`. */
  function ParseRole(v: Json): (r: Option<Role>)
    ensures r.Some? ==> v == Str(RoleName(r.value))
    ensures forall x :: v == Str(RoleName(x)) ==> r == Some(x)
  {
    match v
    case Str(s) =>
      if s == "EMPLOYEE" then Some(Employee)
      else if s == "ADMIN" then Some(Admin)
      else None
    case _ => None
  }

  /** A row of the user table; `password` holds the password hash. */
  datatype User = User(id: string, email: string, password: string, name: string, role: Role)

  /** `id` is the primary key of the user table: no two rows share it. */
  predicate UniqueIds(users: seq<User>) {
    forall i, j :: 0 <= i < j < |users| ==> users[i].id != users[j].id
  }

  /** `email` is a unique column of the user table. */
  predicate UniqueEmails(users: seq<User>) {
    forall i, j :: 0 <= i < j < |users| ==> users[i].email != users[j].email
  }

  /** The columns the user routes select: every column but the password. */
  datatype PublicUser = PublicUser(id: string, email: string, name: string, role: Role)

  /** A row of the time-log table; `timestamp` is in seconds. */
  datatype TimeLog = TimeLog(userId: string, eventType: EventType, timestamp: int, latitude: real, longitude: real)

  /** An HTTP reply of an API route: a JSON value with a success status, or a
      `{ message }` body with an error status. */
  datatype Reply<+T> = Ok(status: int, value: T) | Err(status: int, message: string)

  const MsgUnauthorized := "Unauthorized"
  const MsgMissingFields := "Missing required fields"
  const MsgInternal := "Internal server error"
}
