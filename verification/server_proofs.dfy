/**
 * Properties of the authenticated store that relate several requests: the
 * store invariant holds in every reachable state, deletes cascade, and what
 * one handler writes the next one reads back.
 */
module ServerProofs {

  import opened Wrappers
  import opened Ids
  import opened Models
  import opened Auth
  import opened Server

  // ---------------------------------------------------------------------------
  // The store invariant is preserved by every handler
  // ---------------------------------------------------------------------------

  lemma RegisterPreservesValid(s: State, body: Option<RegisterRequest>, newId: Uuid, now: Time, sign: Signer)
    requires Valid(s)
    ensures Valid(Register(s, body, newId, now, sign).state)
  {
  }

  lemma CreateRolePreservesValid(s: State, header: string, verify: Verifier, body: Option<CreateRoleRequest>, newId: Uuid)
    requires Valid(s)
    ensures Valid(CreateRole(s, header, verify, body, newId).state)
  {
  }

  lemma CreateRoomPreservesValid(s: State, header: string, verify: Verifier, body: Option<CreateRoomRequest>, newId: Uuid, now: Time)
    requires Valid(s)
    ensures Valid(CreateRoom(s, header, verify, body, newId, now).state)
  {
  }

  lemma DeleteRoomPreservesValid(s: State, header: string, verify: Verifier, id: Option<Uuid>)
    requires Valid(s)
    ensures Valid(DeleteRoom(s, header, verify, id).state)
  {
    var r := DeleteRoom(s, header, verify, id);
    if r.outcome.Ok? {
      var t := r.state;
      forall k | k in t.metrics
        ensures t.metrics[k].id == k && t.metrics[k].roomId in t.rooms
      {
        assert t.metrics[k] == s.metrics[k];
      }
    }
  }

  lemma CreateMetricPreservesValid(s: State, header: string, verify: Verifier, body: Option<CreateMetricRequest>, newId: Uuid, now: Time)
    requires Valid(s)
    ensures Valid(CreateMetric(s, header, verify, body, newId, now).state)
  {
  }

  lemma DeleteMetricPreservesValid(s: State, header: string, verify: Verifier, id: Option<Uuid>)
    requires Valid(s)
    ensures Valid(DeleteMetric(s, header, verify, id).state)
  {
  }

  lemma AddReadingPreservesValid(s: State, header: string, verify: Verifier, id: Option<Uuid>, body: Option<AddReadingRequest>, newId: Uuid, now: Time)
    requires Valid(s)
    ensures Valid(AddReading(s, header, verify, id, body, newId, now).state)
  {
  }

  /** The handlers that only read: login and every list and get leave the whole state as it was. */
  lemma ReadOnlyHandlersKeepState(s: State, req: Request, env: Env)
    requires req.LoginCall? || req.ListUsersCall? || req.ListRoomsCall? || req.GetRoomCall?
             || req.ListMetricsCall? || req.GetMetricCall? || req.GetReadingsCall?
    ensures Handle(s, req, env).state == s
  {
  }

  /** Every handler keeps the store invariant. */
  lemma HandlePreservesValid(s: State, req: Request, env: Env)
    requires Valid(s)
    ensures Valid(Handle(s, req, env).state)
  {
    if req.LoginCall? || req.ListUsersCall? || req.ListRoomsCall? || req.GetRoomCall?
       || req.ListMetricsCall? || req.GetMetricCall? || req.GetReadingsCall? {
      ReadOnlyHandlersKeepState(s, req, env);
    } else {
      MutatingHandlersPreserveValid(s, req, env);
    }
  }

  lemma MutatingHandlersPreserveValid(s: State, req: Request, env: Env)
    requires Valid(s)
    requires req.RegisterCall? || req.CreateRoleCall? || req.CreateRoomCall? || req.DeleteRoomCall?
             || req.CreateMetricCall? || req.DeleteMetricCall? || req.AddReadingCall?
    ensures Valid(Handle(s, req, env).state)
  {
    match req
    case RegisterCall(body) =>
      assert Handle(s, req, env) == Register(s, body, env.newId, env.now, env.sign);
      RegisterPreservesValid(s, body, env.newId, env.now, env.sign);
    case CreateRoleCall(header, body) =>
      assert Handle(s, req, env) == CreateRole(s, header, env.verify, body, env.newId);
      CreateRolePreservesValid(s, header, env.verify, body, env.newId);
    case CreateRoomCall(header, body) =>
      assert Handle(s, req, env) == CreateRoom(s, header, env.verify, body, env.newId, env.now);
      CreateRoomPreservesValid(s, header, env.verify, body, env.newId, env.now);
    case DeleteRoomCall(header, id) =>
      assert Handle(s, req, env) == DeleteRoom(s, header, env.verify, id);
      DeleteRoomPreservesValid(s, header, env.verify, id);
    case CreateMetricCall(header, body) =>
      assert Handle(s, req, env) == CreateMetric(s, header, env.verify, body, env.newId, env.now);
      CreateMetricPreservesValid(s, header, env.verify, body, env.newId, env.now);
    case DeleteMetricCall(header, id) =>
      assert Handle(s, req, env) == DeleteMetric(s, header, env.verify, id);
      DeleteMetricPreservesValid(s, header, env.verify, id);
    case AddReadingCall(header, id, body) =>
      assert Handle(s, req, env) == AddReading(s, header, env.verify, id, body, env.newId, env.now);
      AddReadingPreservesValid(s, header, env.verify, id, body, env.newId, env.now);
  }

  /** Every state reachable from a fresh server satisfies the store invariant. */
  lemma {:induction false} RunPreservesValid(s: State, calls: seq<(Request, Env)>)
    requires Valid(s)
    ensures Valid(Run(s, calls))
    decreases |calls|
  {
    if calls != [] {
      HandlePreservesValid(s, calls[0].0, calls[0].1);
      RunPreservesValid(Handle(s, calls[0].0, calls[0].1).state, calls[1..]);
    }
  }

  lemma ReachableStatesValid(adminRoleId: Uuid, userRoleId: Uuid, calls: seq<(Request, Env)>)
    ensures Valid(Run(NewServer(adminRoleId, userRoleId), calls))
  {
    RunPreservesValid(NewServer(adminRoleId, userRoleId), calls);
  }

  // ---------------------------------------------------------------------------
  // Error-check order across handlers
  // ---------------------------------------------------------------------------

  /** The Authorization header a request carries, for the handlers that read one. */
  function HeaderOf(req: Request): Option<string> {
    match req
    case RegisterCall(_) => None
    case LoginCall(_) => None
    case ListUsersCall(header) => Some(header)
    case CreateRoleCall(header, _) => Some(header)
    case CreateRoomCall(header, _) => Some(header)
    case ListRoomsCall(header) => Some(header)
    case GetRoomCall(header, _) => Some(header)
    case DeleteRoomCall(header, _) => Some(header)
    case CreateMetricCall(header, _) => Some(header)
    case ListMetricsCall(header) => Some(header)
    case GetMetricCall(header, _) => Some(header)
    case DeleteMetricCall(header, _) => Some(header)
    case AddReadingCall(header, _, _) => Some(header)
    case GetReadingsCall(header, _) => Some(header)
  }

  /** The handlers that demand the "admin" role. */
  predicate AdminOnly(req: Request) {
    req.ListUsersCall? || req.CreateRoleCall? || req.CreateRoomCall? || req.DeleteRoomCall?
    || req.CreateMetricCall? || req.DeleteMetricCall?
  }

  /** A header the token front-end rejects gets Unauthorized from every protected handler, before anything else. */
  lemma TokenFailureFirst(s: State, req: Request, env: Env)
    requires HeaderOf(req).Some? && ValidateToken(HeaderOf(req).value, env.verify).Failure?
    ensures Handle(s, req, env) == Step(s, Fail(Unauthorized))
  {
    if req.ListUsersCall? || req.CreateRoleCall? || req.CreateRoomCall?
       || req.ListRoomsCall? || req.GetRoomCall? || req.DeleteRoomCall? {
      UserAndRoomHandlersRejectBadToken(s, req, env);
    } else {
      MetricHandlersRejectBadToken(s, req, env);
    }
  }

  lemma UserAndRoomHandlersRejectBadToken(s: State, req: Request, env: Env)
    requires req.ListUsersCall? || req.CreateRoleCall? || req.CreateRoomCall?
             || req.ListRoomsCall? || req.GetRoomCall? || req.DeleteRoomCall?
    requires ValidateToken(HeaderOf(req).value, env.verify).Failure?
    ensures Handle(s, req, env) == Step(s, Fail(Unauthorized))
  {
    assert Caller(s, HeaderOf(req).value, env.verify).None?;
    match req
    case ListUsersCall(header) =>
      assert Handle(s, req, env) == ListUsers(s, header, env.verify);
    case CreateRoleCall(header, body) =>
      assert Handle(s, req, env) == CreateRole(s, header, env.verify, body, env.newId);
    case CreateRoomCall(header, body) =>
      assert Handle(s, req, env) == CreateRoom(s, header, env.verify, body, env.newId, env.now);
    case ListRoomsCall(header) =>
      assert Handle(s, req, env) == ListRooms(s, header, env.verify);
    case GetRoomCall(header, id) =>
      assert Handle(s, req, env) == GetRoom(s, header, env.verify, id);
    case DeleteRoomCall(header, id) =>
      assert Handle(s, req, env) == DeleteRoom(s, header, env.verify, id);
  }

  lemma MetricHandlersRejectBadToken(s: State, req: Request, env: Env)
    requires req.CreateMetricCall? || req.ListMetricsCall? || req.GetMetricCall?
             || req.DeleteMetricCall? || req.AddReadingCall? || req.GetReadingsCall?
    requires ValidateToken(HeaderOf(req).value, env.verify).Failure?
    ensures Handle(s, req, env) == Step(s, Fail(Unauthorized))
  {
    assert Caller(s, HeaderOf(req).value, env.verify).None?;
    match req
    case CreateMetricCall(header, body) =>
      assert Handle(s, req, env) == CreateMetric(s, header, env.verify, body, env.newId, env.now);
    case ListMetricsCall(header) =>
      assert Handle(s, req, env) == ListMetrics(s, header, env.verify);
    case GetMetricCall(header, id) =>
      assert Handle(s, req, env) == GetMetric(s, header, env.verify, id);
    case DeleteMetricCall(header, id) =>
      assert Handle(s, req, env) == DeleteMetric(s, header, env.verify, id);
    case AddReadingCall(header, id, body) =>
      assert Handle(s, req, env) == AddReading(s, header, env.verify, id, body, env.newId, env.now);
    case GetReadingsCall(header, id) =>
      assert Handle(s, req, env) == GetReadings(s, header, env.verify, id);
  }

  /**
   * A valid token for a username no user has: ListUsers and CreateRole answer
   * NotFound, every other protected handler Unauthorized.
   */
  lemma UnknownUsernameOutcome(s: State, req: Request, env: Env)
    requires HeaderOf(req).Some?
    requires ValidateToken(HeaderOf(req).value, env.verify).Success?
    requires Caller(s, HeaderOf(req).value, env.verify).None?
    ensures Handle(s, req, env) ==
              Step(s, Fail(if req.ListUsersCall? || req.CreateRoleCall? then NotFound else Unauthorized))
  {
  }

  /**
   * An identified caller without a role named "admin" is Forbidden by every
   * admin-only handler whatever its body or path id, and the state is unchanged.
   */
  lemma NonAdminForbidden(s: State, req: Request, env: Env)
    requires UserIdsMatch(s.users)
    requires AdminOnly(req) && HeaderOf(req).Some?
    requires Caller(s, HeaderOf(req).value, env.verify).Some? && !IsAdmin(s, HeaderOf(req).value, env.verify)
    ensures Handle(s, req, env) == Step(s, Fail(Forbidden))
  {
  }

  /** The handlers open to every authenticated caller never answer Forbidden. */
  lemma OpenHandlersNeverForbid(s: State, req: Request, env: Env)
    requires !AdminOnly(req)
    ensures Handle(s, req, env).outcome != Fail(Forbidden)
  {
  }

  // ---------------------------------------------------------------------------
  // Users
  // ---------------------------------------------------------------------------

  /**
   * A registration that passes the username and role checks adds exactly one
   * user under a fresh id, whether or not signing the token then succeeds.
   */
  lemma RegisterAddsOneUser(s: State, body: Option<RegisterRequest>, newId: Uuid, now: Time, sign: Signer)
    requires newId !in s.users
    requires body.Some? && !UsernameTaken(s.users, body.value.username) && RolesResolvable(s.roles, body.value.roles)
    ensures var t := Register(s, body, newId, now, sign).state;
            t.users.Keys == s.users.Keys + {newId} && |t.users| == |s.users| + 1
  {
  }

  /** Registering a taken username again fails, and the first user stays as stored. */
  lemma DuplicateRegistrationRejected(
    s: State, first: RegisterRequest, second: RegisterRequest,
    id1: Uuid, id2: Uuid, now1: Time, now2: Time, sign: Signer)
    requires first.username == second.username
    requires Register(s, Some(first), id1, now1, sign).outcome.Ok?
    ensures var t := Register(s, Some(first), id1, now1, sign).state;
            && Register(t, Some(second), id2, now2, sign) == Step(t, Fail(BadRequest))
            && id1 in t.users && t.users[id1].username == first.username
  {
  }

  /** A role created later does not reach users registered earlier: their role copies are untouched. */
  lemma RoleCopiesAreSnapshots(s: State, header: string, verify: Verifier, body: Option<CreateRoleRequest>, newId: Uuid)
    ensures var t := CreateRole(s, header, verify, body, newId).state;
            forall k :: k in s.users ==> k in t.users && t.users[k].roles == s.users[k].roles
  {
  }

  /** One requested name resolves to its catalog role, or to nothing when the catalog lacks it. */
  lemma KnownRolesSingle(catalog: map<string, Role>, name: string)
    ensures KnownRoles(catalog, [name]) == if name in catalog then [catalog[name]] else []
  {
  }

  /**
   * Role resolution works name by name in request order: resolving a
   * concatenation is resolving each part and concatenating the results.
   */
  lemma {:induction false} KnownRolesAppend(catalog: map<string, Role>, a: seq<string>, b: seq<string>)
    ensures KnownRoles(catalog, a + b) == KnownRoles(catalog, a) + KnownRoles(catalog, b)
    decreases |a|
  {
    if a == [] {
      assert a + b == b;
    } else {
      assert (a + b)[0] == a[0];
      assert (a + b)[1..] == a[1..] + b;
      KnownRolesAppend(catalog, a[1..], b);
    }
  }

  // ---------------------------------------------------------------------------
  // Rooms, metrics, readings
  // ---------------------------------------------------------------------------

  /** A room just created is read back with the fields it was created with. */
  lemma CreateRoomThenGetRoom(
    s: State, header: string, verify: Verifier, body: Option<CreateRoomRequest>, newId: Uuid, now: Time,
    reader: string, readerVerify: Verifier)
    requires CreateRoom(s, header, verify, body, newId, now).outcome.Ok?
    requires Caller(s, reader, readerVerify).Some?
    ensures var t := CreateRoom(s, header, verify, body, newId, now).state;
            GetRoom(t, reader, readerVerify, Some(newId)).outcome
              == Ok(RoomReply(Room(newId, body.value.name, body.value.description, now, now)))
  {
  }

  /** A metric just created is read back with its fields and no readings. */
  lemma CreateMetricThenGetMetric(
    s: State, header: string, verify: Verifier, body: Option<CreateMetricRequest>, newId: Uuid, now: Time,
    reader: string, readerVerify: Verifier)
    requires CreateMetric(s, header, verify, body, newId, now).outcome.Ok?
    requires Caller(s, reader, readerVerify).Some?
    ensures var t := CreateMetric(s, header, verify, body, newId, now).state;
            GetMetric(t, reader, readerVerify, Some(newId)).outcome
              == Ok(MetricWithReadings(
                      Metric(newId, body.value.name, body.value.description, body.value.unit, body.value.roomId, now, now), []))
  {
  }

  /** After a room is deleted, the room and each metric it owned read as NotFound. */
  lemma DeleteRoomThenGet(
    s: State, header: string, verify: Verifier, room: Uuid,
    reader: string, readerVerify: Verifier, metric: Uuid)
    requires DeleteRoom(s, header, verify, Some(room)).outcome.Ok?
    requires Caller(s, reader, readerVerify).Some?
    requires metric in s.metrics && s.metrics[metric].roomId == room
    ensures var t := DeleteRoom(s, header, verify, Some(room)).state;
            && GetRoom(t, reader, readerVerify, Some(room)).outcome == Fail(NotFound)
            && GetMetric(t, reader, readerVerify, Some(metric)).outcome == Fail(NotFound)
            && GetReadings(t, reader, readerVerify, Some(metric)).outcome == Fail(NotFound)
  {
  }

  /** After a metric is deleted its readings read as NotFound rather than as an empty list. */
  lemma DeleteMetricThenGetReadings(
    s: State, header: string, verify: Verifier, metric: Uuid, reader: string, readerVerify: Verifier)
    requires DeleteMetric(s, header, verify, Some(metric)).outcome.Ok?
    requires Caller(s, reader, readerVerify).Some?
    ensures var t := DeleteMetric(s, header, verify, Some(metric)).state;
            GetReadings(t, reader, readerVerify, Some(metric)).outcome == Fail(NotFound)
  {
  }

  /** A reading just added is the last one GetReadings lists, after all earlier ones. */
  lemma AddReadingThenGetReadings(
    s: State, header: string, verify: Verifier, metric: Uuid, body: Option<AddReadingRequest>, newId: Uuid, now: Time,
    reader: string, readerVerify: Verifier)
    requires AddReading(s, header, verify, Some(metric), body, newId, now).outcome.Ok?
    requires Caller(s, reader, readerVerify).Some?
    ensures var step := AddReading(s, header, verify, Some(metric), body, newId, now);
            var listed := GetReadings(step.state, reader, readerVerify, Some(metric)).outcome;
            && listed.Ok?
            && listed.reply.readings == ReadingsOf(s.readings, metric) + [step.outcome.reply.reading]
            && listed.reply.total == |ReadingsOf(s.readings, metric)| + 1
  {
  }

  /**
   * The cascade loop of DeleteRoom as written: walk the metrics and delete
   * every one in the room together with its reading list. It removes exactly
   * the room's metrics.
   */
  method CascadeLoop(metrics: map<Uuid, Metric>, readings: map<Uuid, seq<MetricReading>>, room: Uuid)
    returns (ms: map<Uuid, Metric>, rs: map<Uuid, seq<MetricReading>>)
    ensures ms == metrics - MetricsOfRoom(metrics, room)
    ensures rs == readings - MetricsOfRoom(metrics, room)
  {
    ms, rs := metrics, readings;
    var pending := metrics.Keys;
    while pending != {}
      invariant pending <= metrics.Keys
      invariant ms == metrics - (MetricsOfRoom(metrics, room) - pending)
      invariant rs == readings - (MetricsOfRoom(metrics, room) - pending)
      decreases pending
    {
      var id :| id in pending;
      if metrics[id].roomId == room {
        ms := ms - {id};
        rs := rs - {id};
      }
      pending := pending - {id};
    }
  }
}
