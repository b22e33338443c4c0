/**
 * The authenticated resource store. Its state is five maps: users by id, the
 * role catalog by name, rooms, metrics, and each metric's reading list. Every
 * HTTP handler is a transition from a state and a request to a new state and
 * an outcome. The caller supplies what the source draws from the outside
 * world: the `Authorization` header, the decoded body (None when it does not
 * decode), the parsed path id (None when it is not a UUID), the id `uuid.New`
 * returns, the clock reading, and the JWT library's signer and verifier.
 */
module Server {

  import opened Wrappers
  import opened Ids
  import opened Models
  import opened Auth

  datatype State = State(
    users: map<Uuid, User>,
    roles: map<string, Role>,
    rooms: map<Uuid, Room>,
    metrics: map<Uuid, Metric>,
    readings: map<Uuid, seq<MetricReading>>)

  /** A handler's effect: the state after the request and the answer to it. */
  datatype Step = Step(state: State, outcome: Outcome)

  const AdminPermissions: seq<string> :=
    ["read", "write", "delete", "manage_users", "manage_roles", "manage_metrics", "manage_rooms"]

  const UserPermissions: seq<string> := ["read", "write"]

  // ---------------------------------------------------------------------------
  // The store invariant
  // ---------------------------------------------------------------------------

  predicate UniqueUsernames(users: map<Uuid, User>) {
    forall a, b :: a in users && b in users && users[a].username == users[b].username ==> a == b
  }

  /** Every user is stored under its own id. */
  predicate UserIdsMatch(users: map<Uuid, User>) {
    forall k :: k in users ==> users[k].id == k
  }

  /**
   * What every reachable state satisfies: unique usernames, every record
   * stored under its own key, both default roles present, every metric in an
   * existing room, a reading list for exactly the stored metrics, and every
   * reading filed under its own metric.
   */
  ghost predicate Valid(s: State) {
    && UniqueUsernames(s.users)
    && UserIdsMatch(s.users)
    && (forall n :: n in s.roles ==> s.roles[n].name == n)
    && AdminRoleName in s.roles && UserRoleName in s.roles
    && (forall k :: k in s.rooms ==> s.rooms[k].id == k)
    && (forall k :: k in s.metrics ==> s.metrics[k].id == k && s.metrics[k].roomId in s.rooms)
    && s.readings.Keys == s.metrics.Keys
    && (forall k, i :: k in s.readings && 0 <= i < |s.readings[k]| ==> s.readings[k][i].metricId == k)
  }

  /** NewServer: the two default roles, with ids drawn from `uuid.New`, and nothing else. */
  function NewServer(adminRoleId: Uuid, userRoleId: Uuid): (s: State)
    ensures s.roles.Keys == {AdminRoleName, UserRoleName}
    ensures s.roles[AdminRoleName].permissions == AdminPermissions
    ensures s.roles[UserRoleName].permissions == UserPermissions
    ensures s.users == map[] && s.rooms == map[] && s.metrics == map[] && s.readings == map[]
    ensures Valid(s)
  {
    var admin := Role(adminRoleId, AdminRoleName, "Administrator role with full access", AdminPermissions);
    var user := Role(userRoleId, UserRoleName, "Regular user role", UserPermissions);
    State(map[], map[AdminRoleName := admin, UserRoleName := user], map[], map[], map[])
  }

  // ---------------------------------------------------------------------------
  // Identity and the admin gate
  // ---------------------------------------------------------------------------

  /**
   * The key of the user a `for _, u := range s.users` scan for `name` stops
   * at. Go visits keys in an unspecified order; this takes the least matching
   * key, which is the only one when usernames are unique.
   */
  function FindUser(users: map<Uuid, User>, name: string): (r: Option<Uuid>)
    ensures r.None? <==> forall k :: k in users ==> users[k].username != name
    ensures r.Some? ==> r.value in users && users[r.value].username == name
  {
    var matches := set k | k in users && users[k].username == name;
    assert forall k :: k in users && users[k].username == name ==> k in matches;
    if matches == {} then None else Some(Least(matches))
  }

  predicate UsernameTaken(users: map<Uuid, User>, name: string) {
    exists k :: k in users && users[k].username == name
  }

  /** The stored user a valid token's username names, if any. */
  function Caller(s: State, header: string, verify: Verifier): Option<User> {
    match ValidateToken(header, verify)
    case Failure(_) => None
    case Success(claims) =>
      match FindUser(s.users, claims.username)
      case None => None
      case Some(k) => Some(s.users[k])
  }

  predicate IsAdmin(s: State, header: string, verify: Verifier) {
    Caller(s, header, verify).Some? && HasRole(Caller(s, header, verify).value, AdminRoleName)
  }

  /** GetUserIDFromToken: the id of the user the token names; an invalid token or unknown username is an error. */
  function UserIdFromToken(s: State, header: string, verify: Verifier): (r: Option<Uuid>)
    ensures r.Some? <==> Caller(s, header, verify).Some?
    ensures r.Some? ==> r.value == Caller(s, header, verify).value.id
    ensures r.Some? ==> exists k :: k in s.users && s.users[k].id == r.value
  {
    match ValidateToken(header, verify)
    case Failure(_) => None
    case Success(claims) =>
      match FindUser(s.users, claims.username)
      case None => None
      case Some(k) => Some(s.users[k].id)
  }

  /** The admin gate of ListUsers and CreateRole: an unknown username is NotFound. */
  function NameGate(s: State, header: string, verify: Verifier): (r: Result<User, Failure>)
    ensures ValidateToken(header, verify).Failure? ==> r == Failure(Unauthorized)
    ensures ValidateToken(header, verify).Success? && Caller(s, header, verify).None? ==> r == Failure(NotFound)
    ensures Caller(s, header, verify).Some? && !IsAdmin(s, header, verify) ==> r == Failure(Forbidden)
    ensures r.Success? <==> IsAdmin(s, header, verify)
  {
    match ValidateToken(header, verify)
    case Failure(_) => Failure(Unauthorized)
    case Success(claims) =>
      match FindUser(s.users, claims.username)
      case None => Failure(NotFound)
      case Some(k) =>
        var user := s.users[k];
        if !HasRole(user, AdminRoleName) then Failure(Forbidden) else Success(user)
  }

  /**
   * The admin gate of the room and metric handlers: the user is found through
   * GetUserIDFromToken, so an unknown username is Unauthorized, then looked up
   * again by id.
   */
  function IdGate(s: State, header: string, verify: Verifier): (r: Result<User, Failure>)
    ensures Caller(s, header, verify).None? ==> r == Failure(Unauthorized)
    ensures UserIdsMatch(s.users) && Caller(s, header, verify).Some? && !IsAdmin(s, header, verify) ==>
              r == Failure(Forbidden)
    ensures UserIdsMatch(s.users) ==> (r.Success? <==> IsAdmin(s, header, verify))
    ensures UserIdsMatch(s.users) ==> r != Failure(NotFound)
  {
    match UserIdFromToken(s, header, verify)
    case None => Failure(Unauthorized)
    case Some(id) =>
      if id !in s.users then Failure(NotFound)
      else
        var user := s.users[id];
        if !HasRole(user, AdminRoleName) then Failure(Forbidden) else Success(user)
  }

  // ---------------------------------------------------------------------------
  // Users and roles
  // ---------------------------------------------------------------------------

  /** Copies of the catalog roles the names denote, in request order; unknown names are dropped. */
  function KnownRoles(catalog: map<string, Role>, names: seq<string>): (r: seq<Role>)
    ensures |r| <= |names|
    ensures forall x :: x in r ==> exists n :: n in names && n in catalog && catalog[n] == x
    ensures forall i :: 0 <= i < |names| && names[i] in catalog ==> catalog[names[i]] in r
    ensures r == [] <==> forall n :: n in names ==> n !in catalog
    ensures (forall n :: n in names ==> n in catalog) ==>
              |r| == |names| && forall i :: 0 <= i < |r| ==> r[i] == catalog[names[i]]
  {
    if names == [] then []
    else
      var rest := KnownRoles(catalog, names[1..]);
      assert forall n :: n in names[1..] ==> n in names;
      assert forall i :: 0 < i < |names| ==> names[i] == names[1..][i - 1];
      if names[0] in catalog then [catalog[names[0]]] + rest else rest
  }

  /** Whether registration can build a role list: an empty request needs the "user" role. */
  predicate RolesResolvable(catalog: map<string, Role>, names: seq<string>) {
    |names| > 0 || UserRoleName in catalog
  }

  /** The roles a new user receives; the source dereferences a missing "user" role, here None. */
  function ResolveRoles(catalog: map<string, Role>, names: seq<string>): Option<seq<Role>> {
    if |names| == 0 then
      if UserRoleName in catalog then Some([catalog[UserRoleName]]) else None
    else Some(KnownRoles(catalog, names))
  }

  /**
   * Register. The user is stored before the token is signed, so a signing
   * failure answers InternalError with the user already registered.
   */
  function Register(s: State, body: Option<RegisterRequest>, newId: Uuid, now: Time, sign: Signer): (r: Step)
    ensures body.None? ==> r == Step(s, Fail(BadRequest))
    ensures body.Some? && UsernameTaken(s.users, body.value.username) ==> r == Step(s, Fail(BadRequest))
    ensures body.Some? && !UsernameTaken(s.users, body.value.username) && !RolesResolvable(s.roles, body.value.roles) ==>
              r == Step(s, Fail(InternalError))
    ensures body.Some? && !UsernameTaken(s.users, body.value.username) && RolesResolvable(s.roles, body.value.roles) ==>
              var req := body.value;
              && newId in r.state.users
              && r.state == s.(users := s.users[newId := r.state.users[newId]])
              && var u := r.state.users[newId];
              && u.id == newId && u.username == req.username && u.password == req.password && u.email == req.email
              && u.createdAt == now && u.updatedAt == now
              && (|req.roles| == 0 ==> u.roles == [s.roles[UserRoleName]])
              && (|req.roles| > 0 ==> u.roles == KnownRoles(s.roles, req.roles))
              && (r.outcome.Ok? <==> sign(NewClaims(u, now, now)).Some?)
              && (r.outcome.Ok? ==> r.outcome.reply == Auth(sign(NewClaims(u, now, now)).value, u))
              && (r.outcome.Fail? ==> r.outcome.failure == InternalError)
  {
    match body
    case None => Step(s, Fail(BadRequest))
    case Some(req) =>
      if UsernameTaken(s.users, req.username) then Step(s, Fail(BadRequest))
      else
        match ResolveRoles(s.roles, req.roles)
        case None => Step(s, Fail(InternalError))
        case Some(roles) =>
          var user := User(newId, req.username, req.password, req.email, roles, now, now);
          var t := s.(users := s.users[newId := user]);
          match GenerateToken(user, now, now, sign)
          case None => Step(t, Fail(InternalError))
          case Some(token) => Step(t, Ok(Auth(token, user)))
  }

  /** Login: the stored user with the username, if the password matches. */
  function Login(s: State, body: Option<LoginRequest>, now: Time, sign: Signer): (r: Step)
    ensures r.state == s
    ensures body.None? ==> r.outcome == Fail(BadRequest)
    ensures r.outcome.Ok? ==>
              && body.Some? && r.outcome.reply.Auth?
              && r.outcome.reply.user in s.users.Values
              && r.outcome.reply.user.username == body.value.username
              && r.outcome.reply.user.password == body.value.password
              && sign(NewClaims(r.outcome.reply.user, now, now)) == Some(r.outcome.reply.token)
    ensures r.outcome != Fail(Forbidden) && r.outcome != Fail(NotFound)
    ensures body.Some? && UniqueUsernames(s.users) ==>
              forall k :: k in s.users && s.users[k].username == body.value.username
                                       && s.users[k].password == body.value.password ==>
                r.outcome == if sign(NewClaims(s.users[k], now, now)).Some?
                             then Ok(Auth(sign(NewClaims(s.users[k], now, now)).value, s.users[k]))
                             else Fail(InternalError)
    ensures body.Some? && UniqueUsernames(s.users) ==>
              (r.outcome == Fail(Unauthorized) <==>
               !exists k :: k in s.users && s.users[k].username == body.value.username
                                         && s.users[k].password == body.value.password)
  {
    match body
    case None => Step(s, Fail(BadRequest))
    case Some(req) =>
      match FindUser(s.users, req.username)
      case None => Step(s, Fail(Unauthorized))
      case Some(k) =>
        var user := s.users[k];
        if user.password != req.password then Step(s, Fail(Unauthorized))
        else
          match GenerateToken(user, now, now, sign)
          case None => Step(s, Fail(InternalError))
          case Some(token) => Step(s, Ok(Auth(token, user)))
  }

  /** ListUsers: every stored user, for an admin caller. */
  function ListUsers(s: State, header: string, verify: Verifier): (r: Step)
    ensures r.state == s
    ensures ValidateToken(header, verify).Failure? ==> r.outcome == Fail(Unauthorized)
    ensures ValidateToken(header, verify).Success? && Caller(s, header, verify).None? ==> r.outcome == Fail(NotFound)
    ensures Caller(s, header, verify).Some? && !IsAdmin(s, header, verify) ==> r.outcome == Fail(Forbidden)
    ensures r.outcome.Ok? <==> IsAdmin(s, header, verify)
    ensures r.outcome.Ok? ==>
              r.outcome.reply.UserList? && Enumerates(r.outcome.reply.users, s.users)
              && r.outcome.reply.total == |s.users|
  {
    match NameGate(s, header, verify)
    case Failure(f) => Step(s, Fail(f))
    case Success(_) =>
      var users := Values(s.users);
      Step(s, Ok(UserList(users, |users|)))
  }

  /** CreateRole: a new catalog entry under an unused name, for an admin caller. */
  function CreateRole(s: State, header: string, verify: Verifier, body: Option<CreateRoleRequest>, newId: Uuid): (r: Step)
    ensures r.outcome.Fail? ==> r.state == s
    ensures ValidateToken(header, verify).Failure? ==> r.outcome == Fail(Unauthorized)
    ensures ValidateToken(header, verify).Success? && Caller(s, header, verify).None? ==> r.outcome == Fail(NotFound)
    ensures Caller(s, header, verify).Some? && !IsAdmin(s, header, verify) ==> r.outcome == Fail(Forbidden)
    ensures IsAdmin(s, header, verify) && body.None? ==> r.outcome == Fail(BadRequest)
    ensures IsAdmin(s, header, verify) && body.Some? && body.value.name in s.roles ==> r.outcome == Fail(BadRequest)
    ensures IsAdmin(s, header, verify) && body.Some? && body.value.name !in s.roles ==> r.outcome.Ok?
    ensures r.outcome.Ok? ==>
              && body.Some? && body.value.name !in s.roles
              && r.outcome.reply == RoleCreated(Role(newId, body.value.name, body.value.description, body.value.permissions))
              && r.state == s.(roles := s.roles[body.value.name := r.outcome.reply.role])
  {
    match NameGate(s, header, verify)
    case Failure(f) => Step(s, Fail(f))
    case Success(_) =>
      match body
      case None => Step(s, Fail(BadRequest))
      case Some(req) =>
        if req.name in s.roles then Step(s, Fail(BadRequest))
        else
          var role := Role(newId, req.name, req.description, req.permissions);
          Step(s.(roles := s.roles[role.name := role]), Ok(RoleCreated(role)))
  }

  // ---------------------------------------------------------------------------
  // Rooms
  // ---------------------------------------------------------------------------

  /** CreateRoom: a room under the new id, for an admin caller. */
  function CreateRoom(s: State, header: string, verify: Verifier, body: Option<CreateRoomRequest>, newId: Uuid, now: Time): (r: Step)
    ensures r.outcome.Fail? ==> r.state == s
    ensures Caller(s, header, verify).None? ==> r.outcome == Fail(Unauthorized)
    ensures UserIdsMatch(s.users) && Caller(s, header, verify).Some? && !IsAdmin(s, header, verify) ==>
              r.outcome == Fail(Forbidden)
    ensures UserIdsMatch(s.users) && IsAdmin(s, header, verify) ==> (r.outcome.Ok? <==> body.Some?)
    ensures UserIdsMatch(s.users) && IsAdmin(s, header, verify) && body.None? ==> r.outcome == Fail(BadRequest)
    ensures r.outcome.Fail? && body.Some? && UserIdsMatch(s.users) ==> !IsAdmin(s, header, verify)
    ensures r.outcome.Ok? ==>
              && body.Some? && r.outcome.reply.RoomReply?
              && r.outcome.reply.room == Room(newId, body.value.name, body.value.description, now, now)
              && r.state == s.(rooms := s.rooms[newId := r.outcome.reply.room])
  {
    match IdGate(s, header, verify)
    case Failure(f) => Step(s, Fail(f))
    case Success(_) =>
      match body
      case None => Step(s, Fail(BadRequest))
      case Some(req) =>
        var room := Room(newId, req.name, req.description, now, now);
        Step(s.(rooms := s.rooms[newId := room]), Ok(RoomReply(room)))
  }

  /** ListRooms: every room, for any authenticated caller. */
  function ListRooms(s: State, header: string, verify: Verifier): (r: Step)
    ensures r.state == s
    ensures r.outcome.Ok? <==> Caller(s, header, verify).Some?
    ensures r.outcome.Fail? ==> r.outcome.failure == Unauthorized
    ensures r.outcome.Ok? ==>
              r.outcome.reply.RoomList? && Enumerates(r.outcome.reply.rooms, s.rooms)
              && r.outcome.reply.total == |s.rooms|
  {
    match UserIdFromToken(s, header, verify)
    case None => Step(s, Fail(Unauthorized))
    case Some(_) =>
      var rooms := Values(s.rooms);
      Step(s, Ok(RoomList(rooms, |rooms|)))
  }

  /** GetRoom: the room with the path id, for any authenticated caller. */
  function GetRoom(s: State, header: string, verify: Verifier, id: Option<Uuid>): (r: Step)
    ensures r.state == s
    ensures Caller(s, header, verify).None? ==> r.outcome == Fail(Unauthorized)
    ensures Caller(s, header, verify).Some? && id.None? ==> r.outcome == Fail(BadRequest)
    ensures Caller(s, header, verify).Some? && id.Some? ==>
              r.outcome == if id.value in s.rooms then Ok(RoomReply(s.rooms[id.value])) else Fail(NotFound)
  {
    match UserIdFromToken(s, header, verify)
    case None => Step(s, Fail(Unauthorized))
    case Some(_) =>
      match id
      case None => Step(s, Fail(BadRequest))
      case Some(roomId) =>
        if roomId !in s.rooms then Step(s, Fail(NotFound)) else Step(s, Ok(RoomReply(s.rooms[roomId])))
  }

  /** The metrics DeleteRoom removes: those whose RoomID is the room. */
  function MetricsOfRoom(metrics: map<Uuid, Metric>, room: Uuid): set<Uuid> {
    set m | m in metrics && metrics[m].roomId == room
  }

  /**
   * The room, its metrics and their reading lists are gone; every other
   * room, metric and reading list, and the users and roles, are as before.
   */
  ghost predicate CascadeDeleted(s: State, t: State, room: Uuid) {
    && t.users == s.users && t.roles == s.roles
    && t.rooms == s.rooms - {room}
    && (forall m :: m in t.metrics <==> m in s.metrics && s.metrics[m].roomId != room)
    && (forall m :: m in t.metrics ==> t.metrics[m] == s.metrics[m])
    && (forall m :: m in t.readings <==> m in s.readings && !(m in s.metrics && s.metrics[m].roomId == room))
    && (forall m :: m in t.readings ==> t.readings[m] == s.readings[m])
  }

  /** DeleteRoom: the room and everything it owns, for an admin caller. */
  function DeleteRoom(s: State, header: string, verify: Verifier, id: Option<Uuid>): (r: Step)
    ensures r.outcome.Fail? ==> r.state == s
    ensures Caller(s, header, verify).None? ==> r.outcome == Fail(Unauthorized)
    ensures UserIdsMatch(s.users) && Caller(s, header, verify).Some? && !IsAdmin(s, header, verify) ==>
              r.outcome == Fail(Forbidden)
    ensures UserIdsMatch(s.users) && IsAdmin(s, header, verify) && id.None? ==> r.outcome == Fail(BadRequest)
    ensures UserIdsMatch(s.users) && IsAdmin(s, header, verify) && id.Some? ==>
              r.outcome == if id.value in s.rooms then Ok(Deleted) else Fail(NotFound)
    ensures r.outcome.Ok? ==> id.Some? && id.value in s.rooms && CascadeDeleted(s, r.state, id.value)
  {
    match IdGate(s, header, verify)
    case Failure(f) => Step(s, Fail(f))
    case Success(_) =>
      match id
      case None => Step(s, Fail(BadRequest))
      case Some(roomId) =>
        if roomId !in s.rooms then Step(s, Fail(NotFound))
        else
          var doomed := MetricsOfRoom(s.metrics, roomId);
          var t := s.(rooms := s.rooms - {roomId}, metrics := s.metrics - doomed, readings := s.readings - doomed);
          Step(t, Ok(Deleted))
  }

  // ---------------------------------------------------------------------------
  // Metrics and readings
  // ---------------------------------------------------------------------------

  /** CreateMetric: a metric in an existing room, with an empty reading list, for an admin caller. */
  function CreateMetric(s: State, header: string, verify: Verifier, body: Option<CreateMetricRequest>, newId: Uuid, now: Time): (r: Step)
    ensures r.outcome.Fail? ==> r.state == s
    ensures Caller(s, header, verify).None? ==> r.outcome == Fail(Unauthorized)
    ensures UserIdsMatch(s.users) && Caller(s, header, verify).Some? && !IsAdmin(s, header, verify) ==>
              r.outcome == Fail(Forbidden)
    ensures UserIdsMatch(s.users) && IsAdmin(s, header, verify) && body.None? ==> r.outcome == Fail(BadRequest)
    ensures UserIdsMatch(s.users) && IsAdmin(s, header, verify) && body.Some? ==>
              (r.outcome.Ok? <==> body.value.roomId in s.rooms)
    ensures UserIdsMatch(s.users) && IsAdmin(s, header, verify) && body.Some? && body.value.roomId !in s.rooms ==>
              r.outcome == Fail(BadRequest)
    ensures r.outcome.Fail? && UserIdsMatch(s.users) ==> r.outcome.failure != NotFound
    ensures r.outcome.Ok? ==>
              && body.Some? && body.value.roomId in s.rooms && r.outcome.reply.MetricReply?
              && var m := r.outcome.reply.metric;
              && m == Metric(newId, body.value.name, body.value.description, body.value.unit, body.value.roomId, now, now)
              && r.state == s.(metrics := s.metrics[newId := m], readings := s.readings[newId := []])
  {
    match IdGate(s, header, verify)
    case Failure(f) => Step(s, Fail(f))
    case Success(_) =>
      match body
      case None => Step(s, Fail(BadRequest))
      case Some(req) =>
        if req.roomId !in s.rooms then Step(s, Fail(BadRequest))
        else
          var metric := Metric(newId, req.name, req.description, req.unit, req.roomId, now, now);
          Step(s.(metrics := s.metrics[newId := metric], readings := s.readings[newId := []]), Ok(MetricReply(metric)))
  }

  /** ListMetrics: every metric, for any authenticated caller. */
  function ListMetrics(s: State, header: string, verify: Verifier): (r: Step)
    ensures r.state == s
    ensures r.outcome.Ok? <==> Caller(s, header, verify).Some?
    ensures r.outcome.Fail? ==> r.outcome.failure == Unauthorized
    ensures r.outcome.Ok? ==>
              r.outcome.reply.MetricList? && Enumerates(r.outcome.reply.metrics, s.metrics)
              && r.outcome.reply.total == |s.metrics|
  {
    match UserIdFromToken(s, header, verify)
    case None => Step(s, Fail(Unauthorized))
    case Some(_) =>
      var metrics := Values(s.metrics);
      Step(s, Ok(MetricList(metrics, |metrics|)))
  }

  /** GetMetric: the metric with its readings in insertion order, for any authenticated caller. */
  function GetMetric(s: State, header: string, verify: Verifier, id: Option<Uuid>): (r: Step)
    ensures r.state == s
    ensures Caller(s, header, verify).None? ==> r.outcome == Fail(Unauthorized)
    ensures Caller(s, header, verify).Some? && id.None? ==> r.outcome == Fail(BadRequest)
    ensures Caller(s, header, verify).Some? && id.Some? ==>
              r.outcome == if id.value in s.metrics
                           then Ok(MetricWithReadings(s.metrics[id.value], ReadingsOf(s.readings, id.value)))
                           else Fail(NotFound)
  {
    match UserIdFromToken(s, header, verify)
    case None => Step(s, Fail(Unauthorized))
    case Some(_) =>
      match id
      case None => Step(s, Fail(BadRequest))
      case Some(metricId) =>
        if metricId !in s.metrics then Step(s, Fail(NotFound))
        else Step(s, Ok(MetricWithReadings(s.metrics[metricId], ReadingsOf(s.readings, metricId))))
  }

  /** DeleteMetric: the metric and its reading list, for an admin caller. */
  function DeleteMetric(s: State, header: string, verify: Verifier, id: Option<Uuid>): (r: Step)
    ensures r.outcome.Fail? ==> r.state == s
    ensures Caller(s, header, verify).None? ==> r.outcome == Fail(Unauthorized)
    ensures UserIdsMatch(s.users) && Caller(s, header, verify).Some? && !IsAdmin(s, header, verify) ==>
              r.outcome == Fail(Forbidden)
    ensures UserIdsMatch(s.users) && IsAdmin(s, header, verify) && id.None? ==> r.outcome == Fail(BadRequest)
    ensures UserIdsMatch(s.users) && IsAdmin(s, header, verify) && id.Some? ==>
              r.outcome == if id.value in s.metrics then Ok(Deleted) else Fail(NotFound)
    ensures r.outcome.Ok? ==>
              && id.Some? && id.value in s.metrics
              && r.state == s.(metrics := s.metrics - {id.value}, readings := s.readings - {id.value})
  {
    match IdGate(s, header, verify)
    case Failure(f) => Step(s, Fail(f))
    case Success(_) =>
      match id
      case None => Step(s, Fail(BadRequest))
      case Some(metricId) =>
        if metricId !in s.metrics then Step(s, Fail(NotFound))
        else Step(s.(metrics := s.metrics - {metricId}, readings := s.readings - {metricId}), Ok(Deleted))
  }

  /**
   * AddReading: one reading appended to the metric's list, for any
   * authenticated caller. The id is checked before the body is decoded.
   */
  function AddReading(s: State, header: string, verify: Verifier, id: Option<Uuid>, body: Option<AddReadingRequest>, newId: Uuid, now: Time): (r: Step)
    ensures r.outcome.Fail? ==> r.state == s
    ensures Caller(s, header, verify).None? ==> r.outcome == Fail(Unauthorized)
    ensures Caller(s, header, verify).Some? && id.None? ==> r.outcome == Fail(BadRequest)
    ensures Caller(s, header, verify).Some? && id.Some? && id.value !in s.metrics ==> r.outcome == Fail(NotFound)
    ensures Caller(s, header, verify).Some? && id.Some? && id.value in s.metrics ==> (r.outcome.Ok? <==> body.Some?)
    ensures Caller(s, header, verify).Some? && id.Some? && id.value in s.metrics && body.None? ==>
              r.outcome == Fail(BadRequest)
    ensures r.outcome.Ok? ==>
              && id.Some? && id.value in s.metrics && body.Some? && r.outcome.reply.ReadingReply?
              && var reading := r.outcome.reply.reading;
              && reading.id == newId && reading.metricId == id.value
              && reading.value == body.value.value && reading.createdAt == now
              && (body.value.timestamp == ZeroTime ==> reading.timestamp == now)
              && (body.value.timestamp != ZeroTime ==> reading.timestamp == body.value.timestamp)
              && r.state == s.(readings := s.readings[id.value := ReadingsOf(s.readings, id.value) + [reading]])
  {
    match UserIdFromToken(s, header, verify)
    case None => Step(s, Fail(Unauthorized))
    case Some(_) =>
      match id
      case None => Step(s, Fail(BadRequest))
      case Some(metricId) =>
        if metricId !in s.metrics then Step(s, Fail(NotFound))
        else
          match body
          case None => Step(s, Fail(BadRequest))
          case Some(req) =>
            var reading := NewReading(newId, metricId, req, now);
            var t := s.(readings := s.readings[metricId := ReadingsOf(s.readings, metricId) + [reading]]);
            Step(t, Ok(ReadingReply(reading)))
  }

  /** GetReadings: the metric's readings in insertion order and their count, for any authenticated caller. */
  function GetReadings(s: State, header: string, verify: Verifier, id: Option<Uuid>): (r: Step)
    ensures r.state == s
    ensures Caller(s, header, verify).None? ==> r.outcome == Fail(Unauthorized)
    ensures Caller(s, header, verify).Some? && id.None? ==> r.outcome == Fail(BadRequest)
    ensures Caller(s, header, verify).Some? && id.Some? ==>
              r.outcome == if id.value in s.metrics
                           then Ok(ReadingList(ReadingsOf(s.readings, id.value), |ReadingsOf(s.readings, id.value)|))
                           else Fail(NotFound)
    ensures r.outcome.Ok? ==>
              && id.Some? && id.value in s.metrics && r.outcome.reply.ReadingList?
              && r.outcome.reply.readings == ReadingsOf(s.readings, id.value)
              && r.outcome.reply.total == |r.outcome.reply.readings|
  {
    match UserIdFromToken(s, header, verify)
    case None => Step(s, Fail(Unauthorized))
    case Some(_) =>
      match id
      case None => Step(s, Fail(BadRequest))
      case Some(metricId) =>
        if metricId !in s.metrics then Step(s, Fail(NotFound))
        else
          var readings := ReadingsOf(s.readings, metricId);
          Step(s, Ok(ReadingList(readings, |readings|)))
  }

  // ---------------------------------------------------------------------------
  // All handlers as one transition
  // ---------------------------------------------------------------------------

  /** One request to one of the handlers, with its header, path id and decoded body. */
  datatype Request =
    | RegisterCall(registration: Option<RegisterRequest>)
    | LoginCall(login: Option<LoginRequest>)
    | ListUsersCall(header: string)
    | CreateRoleCall(header: string, role: Option<CreateRoleRequest>)
    | CreateRoomCall(header: string, room: Option<CreateRoomRequest>)
    | ListRoomsCall(header: string)
    | GetRoomCall(header: string, id: Option<Uuid>)
    | DeleteRoomCall(header: string, id: Option<Uuid>)
    | CreateMetricCall(header: string, metric: Option<CreateMetricRequest>)
    | ListMetricsCall(header: string)
    | GetMetricCall(header: string, id: Option<Uuid>)
    | DeleteMetricCall(header: string, id: Option<Uuid>)
    | AddReadingCall(header: string, id: Option<Uuid>, reading: Option<AddReadingRequest>)
    | GetReadingsCall(header: string, id: Option<Uuid>)

  /** What a request draws from outside the store: a new id, the clock, and the JWT library. */
  datatype Env = Env(newId: Uuid, now: Time, verify: Verifier, sign: Signer)

  function Handle(s: State, req: Request, env: Env): Step {
    match req
    case RegisterCall(body) => Register(s, body, env.newId, env.now, env.sign)
    case LoginCall(body) => Login(s, body, env.now, env.sign)
    case ListUsersCall(header) => ListUsers(s, header, env.verify)
    case CreateRoleCall(header, body) => CreateRole(s, header, env.verify, body, env.newId)
    case CreateRoomCall(header, body) => CreateRoom(s, header, env.verify, body, env.newId, env.now)
    case ListRoomsCall(header) => ListRooms(s, header, env.verify)
    case GetRoomCall(header, id) => GetRoom(s, header, env.verify, id)
    case DeleteRoomCall(header, id) => DeleteRoom(s, header, env.verify, id)
    case CreateMetricCall(header, body) => CreateMetric(s, header, env.verify, body, env.newId, env.now)
    case ListMetricsCall(header) => ListMetrics(s, header, env.verify)
    case GetMetricCall(header, id) => GetMetric(s, header, env.verify, id)
    case DeleteMetricCall(header, id) => DeleteMetric(s, header, env.verify, id)
    case AddReadingCall(header, id, body) => AddReading(s, header, env.verify, id, body, env.newId, env.now)
    case GetReadingsCall(header, id) => GetReadings(s, header, env.verify, id)
  }

  /** The state after serving the requests one at a time, in order. */
  function Run(s: State, calls: seq<(Request, Env)>): State
    decreases |calls|
  {
    if calls == [] then s else Run(Handle(s, calls[0].0, calls[0].1).state, calls[1..])
  }
}
