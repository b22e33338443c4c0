/**
 * The records the stores hold, the request payloads the handlers decode, and
 * the outcome every handler answers with.
 */
module Models {

  import opened Ids

  /**
   * A wall-clock instant in nanoseconds since Go's zero time (January 1 of
   * year 1, UTC); `time.Time.IsZero` holds exactly of `ZeroTime`.
   */
  type Time = int

  const ZeroTime: Time := 0

  /** A `float64` reading value, kept as its IEEE-754 bit pattern: it is only stored and returned. */
  type Value = bv64

  datatype Role = Role(id: Uuid, name: string, description: string, permissions: seq<string>)

  /** A user holds copies of its roles as they were when it registered. */
  datatype User = User(
    id: Uuid,
    username: string,
    password: string,
    email: string,
    roles: seq<Role>,
    createdAt: Time,
    updatedAt: Time)

  datatype Room = Room(id: Uuid, name: string, description: string, createdAt: Time, updatedAt: Time)

  datatype Metric = Metric(
    id: Uuid,
    name: string,
    description: string,
    unit: string,
    roomId: Uuid,
    createdAt: Time,
    updatedAt: Time)

  datatype MetricReading = MetricReading(id: Uuid, metricId: Uuid, value: Value, timestamp: Time, createdAt: Time)

  // Request payloads, as decoded from a JSON body.

  datatype RegisterRequest = RegisterRequest(username: string, password: string, email: string, roles: seq<string>)

  datatype LoginRequest = LoginRequest(username: string, password: string)

  datatype CreateRoleRequest = CreateRoleRequest(name: string, description: string, permissions: seq<string>)

  datatype CreateRoomRequest = CreateRoomRequest(name: string, description: string)

  datatype CreateMetricRequest = CreateMetricRequest(name: string, description: string, unit: string, roomId: Uuid)

  /** A `timestamp` left out of the JSON body decodes to `ZeroTime`. */
  datatype AddReadingRequest = AddReadingRequest(value: Value, timestamp: Time)

  // What a handler answers.

  datatype Reply =
    | Auth(token: string, user: User)
    | UserList(users: seq<User>, total: int)
    | RoleCreated(role: Role)
    | RoomReply(room: Room)
    | RoomList(rooms: seq<Room>, total: int)
    | Deleted
    | MetricReply(metric: Metric)
    | MetricList(metrics: seq<Metric>, total: int)
    | MetricWithReadings(metric: Metric, readings: seq<MetricReading>)
    | ReadingReply(reading: MetricReading)
    | ReadingList(readings: seq<MetricReading>, total: int)

  /** The error classes the handlers distinguish (the HTTP status they write). */
  datatype Failure = Unauthorized | NotFound | Forbidden | BadRequest | InternalError

  datatype Outcome = Ok(reply: Reply) | Fail(failure: Failure)

  const AdminRoleName: string := "admin"
  const UserRoleName: string := "user"

  /** The coarse authorization test: some held role carries the given name; permissions are not read. */
  predicate HasRole(user: User, name: string) {
    exists i :: 0 <= i < |user.roles| && user.roles[i].name == name
  }

  /** `readings[id]` in Go: a missing key reads as the empty list. */
  function ReadingsOf(readings: map<Uuid, seq<MetricReading>>, id: Uuid): seq<MetricReading> {
    if id in readings then readings[id] else []
  }

  /** The reading AddReading stores; a zero timestamp is replaced by the current time. */
  function NewReading(newId: Uuid, metricId: Uuid, req: AddReadingRequest, now: Time): MetricReading {
    var timestamp := if req.timestamp == ZeroTime then now else req.timestamp;
    MetricReading(newId, metricId, req.value, timestamp, now)
  }
}
