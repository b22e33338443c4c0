# Household metrics backend: authenticated in-memory store

This project models the core of a small Go HTTP backend for household measurements. It has two parts:

- **`Server`**: an authenticated store of users, a role catalog, rooms, metrics and metric readings. It keeps its state in five in-memory maps. Register and Login are open; every other handler checks a JWT bearer token and, for the managing operations, the caller's "admin" role.
- **`MetricServer`**: a smaller, unauthenticated store of metrics and readings.

It also models the token front-end in `auth/jwt.go`:

- the claims an issued token carries;
- the parsing of the `Authorization: Bearer <token>` header;
- the order of the checks in `ValidateToken`.

Each handler is a pure function from a state and a request to a new state and an outcome. An outcome is `Ok(reply)` or `Fail(failure)`. The failure kinds are Unauthorized, NotFound, Forbidden, BadRequest and InternalError, one per HTTP status the handlers write. What the Go code draws from outside the store enters as parameters:

- the `Authorization` header;
- the decoded JSON body, which is `None` when decoding fails;
- the parsed path id, which is `None` when `uuid.Parse` rejects it;
- the id `uuid.New()` returns;
- the clock reading;
- the JWT library's signer and verifier, as function values.

Modules, in dependency order:

| file | module | contents |
|---|---|---|
| wrappers.dfy | Wrappers | `Option`, `Result` |
| ids.dfy | Ids | 128-bit `Uuid`, the canonical 36-character text form and its round trip, least element and ordered enumeration of map keys |
| strings.dfy | Strings | `strings.Split` on one separator and its inverse `Join` |
| models.dfy | Models | users, roles, rooms, metrics, readings, request bodies, replies, failures |
| auth.dfy | Auth | claims, `NumericDate` truncation, Bearer header parsing, `ValidateToken` |
| server.dfy | Server | the store state, the invariant `Valid`, every handler, `Handle` and `Run` |
| server_proofs.dfy | ServerProofs | invariant preservation, error order across handlers, read-after-write, the cascade loop |
| metric_server.dfy | MetricServer | the unauthenticated metric store, its invariant and read-after-write lemmas |

The `Valid` invariant of the store says:

- usernames are unique;
- every user, room and metric is stored under its own id;
- every role is stored under its own name;
- the "admin" and "user" roles exist;
- every metric's room exists;
- the reading lists are keyed by exactly the stored metrics;
- every reading is filed under its own metric.

`ServerProofs.ReachableStatesValid` proves `Valid` for every state reachable from `NewServer` by any sequence of requests.

### Behaviour worth knowing

- **Duplicate username or role name**: the code answers BadRequest.
- **Empty role list in Register**: the "user" role is assigned only when the request's role list is empty. A non-empty list whose names are all unknown gives a user with no roles, not the "user" default.
- **CreateMetric with an unknown room**: the authenticated store answers BadRequest, not NotFound.
- **Valid token for an unknown username**:
  - ListUsers and CreateRole answer NotFound.
  - Every other protected handler goes through `GetUserIDFromToken` and answers Unauthorized.
- **Token lifetime**: the expiry and the issue time are two separate clock readings, each truncated to a whole second. The expiry is read first. The expiry is therefore at most, not exactly, 24 hours after the issue time. It is exactly 24 hours when both readings fall in the same second (`Auth.NewClaims`).
- **The unauthenticated `MetricServer`**:
  - It ignores the room id in the creation body, so its metrics carry the nil room id.
  - It performs no room check.

## Model


| member | source | states |
|---|---|---|
| Ids.Least | Lab2/pzpi-22-2-ieremenko-andrii-lab2/server/server.go:132-139 | the username scan stops at one matching user: the result is a member of the set and no larger than any other member |
| Ids.SortedKeys | Lab2/pzpi-22-2-ieremenko-andrii-lab2/server/server.go:203-206 | one fixed order of a map's keys: exactly the keys, each once, strictly ascending |
| Ids.SortedCons | Lab2/pzpi-22-2-ieremenko-andrii-lab2/server/server.go:203-206 | the least key followed by an ascending listing of the other keys is an ascending listing of all of them |
| Ids.Values | Lab2/pzpi-22-2-ieremenko-andrii-lab2/server/server.go:203-206 | a `range`-and-append copy of a map's values: the values read along a repeat-free listing of the keys, so one entry per key, every stored value and nothing else |
| Ids.UuidString | Lab2/pzpi-22-2-ieremenko-andrii-lab2/auth/jwt.go:24 | `ID.String()` is 36 characters: dashes at positions 8, 13, 18, 23 and lower-case hex digits everywhere else |
| Ids.HexRoundTrip | Lab2/pzpi-22-2-ieremenko-andrii-lab2/auth/jwt.go:24 | reading back a fixed-width hex rendering gives the number, for every number that fits the width |
| Ids.UuidStringRoundTrip | Lab2/pzpi-22-2-ieremenko-andrii-lab2/auth/jwt.go:24 | the user id text in the claims reads back as the user's id |
| Ids.UuidStringInjective | Lab2/pzpi-22-2-ieremenko-andrii-lab2/auth/jwt.go:24 | two users with the same id text in their claims have the same id |
| Strings.Split | Lab2/pzpi-22-2-ieremenko-andrii-lab2/auth/jwt.go:43 | splitting on a space gives at least one piece, no piece contains a space, and joining the pieces with spaces gives the header back |
| Strings.SplitJoin | Lab2/pzpi-22-2-ieremenko-andrii-lab2/auth/jwt.go:43 | splitting the join of space-free pieces gives those pieces back |
| Strings.SplitInTwo | Lab2/pzpi-22-2-ieremenko-andrii-lab2/auth/jwt.go:43-44 | a header splits into exactly two pieces `a`, `b` iff it is `a`, one space, `b`, with no space in either piece |
| Auth.NumericDate | Lab2/pzpi-22-2-ieremenko-andrii-lab2/auth/jwt.go:27-28 | a registered date is a whole second, at most the instant, less than one second before it |
| Auth.NewClaims | Lab2/pzpi-22-2-ieremenko-andrii-lab2/auth/jwt.go:22-30 | the claims carry the username and the canonical text of the user's id, and that text reads back as the id; the issue time is the issue clock reading and the expiry is the expiry clock reading plus 24 hours, each floored to a whole second; with the expiry read first, the expiry is at most 24 hours after the issue time, with equality iff both readings fall in the same second |
| Auth.BearerToken | Lab2/pzpi-22-2-ieremenko-andrii-lab2/auth/jwt.go:38-48 | a header yields a token iff it is "Bearer", one space, and a space-free rest, and the token is that rest; an empty header yields none |
| Auth.BearerSplit | Lab2/pzpi-22-2-ieremenko-andrii-lab2/auth/jwt.go:43-48 | the two-pieces-starting-with-"Bearer" test is equivalent to the prefix-and-no-further-space test, and the second piece is the header after the prefix |
| Auth.BearerHeader | Lab2/pzpi-22-2-ieremenko-andrii-lab2/auth/jwt.go:43-48 | inverse direction: "Bearer " followed by any space-free token splits into "Bearer" and that token |
| Auth.ValidateToken | Lab2/pzpi-22-2-ieremenko-andrii-lab2/auth/jwt.go:37-64 | empty or malformed header gives SignatureInvalid; otherwise the library's parse error is passed on, an invalid token gives SignatureInvalid, and a valid one gives its claims |
| Auth.MalformedHeadersRejected | Lab2/pzpi-22-2-ieremenko-andrii-lab2/auth/jwt.go:43-46 | "bearer x", "Bearer", "Bearer a b" and "Bearer  x" are rejected with SignatureInvalid whatever the verifier says |
| Auth.WellFormedHeaderReachesVerifier | Lab2/pzpi-22-2-ieremenko-andrii-lab2/auth/jwt.go:48-63 | "Bearer " followed by any space-free token hands exactly that token to the verifier, whose verdict decides the answer |
| Server.NewServer | Lab2/pzpi-22-2-ieremenko-andrii-lab2/server/server.go:26-50 | a new server holds exactly the "admin" and "user" roles with their permission lists and nothing else, and satisfies the store invariant |
| Server.FindUser | Lab2/pzpi-22-2-ieremenko-andrii-lab2/server/server.go:132-139 | the username scan finds nothing iff no user has the name, and otherwise a stored user with that name |
| Server.UserIdFromToken | Lab2/pzpi-22-2-ieremenko-andrii-lab2/server/server.go:285-299 | an id is returned iff the token is valid and names a stored user, and it is that user's id |
| Server.NameGate | Lab2/pzpi-22-2-ieremenko-andrii-lab2/server/server.go:169-201 | token failure gives Unauthorized, an unknown username NotFound, a user without "admin" Forbidden; it passes iff the caller is an admin |
| Server.IdGate | Lab2/pzpi-22-2-ieremenko-andrii-lab2/server/server.go:313-336 | no identified caller gives Unauthorized, a non-admin Forbidden; with users stored under their ids it passes iff the caller is an admin and never answers NotFound |
| Server.KnownRoles | Lab2/pzpi-22-2-ieremenko-andrii-lab2/server/server.go:82-86 | unknown role names are dropped: every result is a catalog role some name denotes, every known name contributes its role, none result iff no name is known, and an all-known list maps name by name |
| Server.Register | Lab2/pzpi-22-2-ieremenko-andrii-lab2/server/server.go:62-113 | bad body or taken username gives BadRequest with nothing stored; otherwise exactly one user is stored under the new id with the body's fields and resolved roles ("user" for an empty list), and the reply is the signed token and that user, or InternalError when signing fails |
| Server.Login | Lab2/pzpi-22-2-ieremenko-andrii-lab2/server/server.go:125-157 | the state is unchanged and the answer is never Forbidden or NotFound; with unique usernames a stored user with that username and password gets the signer's token for its claims and the user, or InternalError when signing fails, and the answer is Unauthorized iff no stored user has both; a reply's token is the signed claims of the user it names |
| Server.ListUsers | Lab2/pzpi-22-2-ieremenko-andrii-lab2/server/server.go:167-212 | answers in the gate's order; succeeds iff the caller is an admin, listing every user once with the total |
| Server.CreateRole | Lab2/pzpi-22-2-ieremenko-andrii-lab2/server/server.go:224-282 | answers in the gate's order, then BadRequest for a bad body or an existing name; otherwise exactly the new role is added under its name |
| Server.CreateRoom | Lab2/pzpi-22-2-ieremenko-andrii-lab2/server/server.go:311-356 | Unauthorized, then Forbidden for non-admins; for an admin a bad body is BadRequest, and otherwise exactly the room with the body's fields is added |
| Server.ListRooms | Lab2/pzpi-22-2-ieremenko-andrii-lab2/server/server.go:366-383 | succeeds iff the caller is identified, listing every room once with the total; fails only with Unauthorized |
| Server.GetRoom | Lab2/pzpi-22-2-ieremenko-andrii-lab2/server/server.go:395-417 | Unauthorized, then BadRequest for an unparsable id, then the room or NotFound |
| Server.DeleteRoom | Lab2/pzpi-22-2-ieremenko-andrii-lab2/server/server.go:429-481 | gate, then BadRequest, then NotFound; on success the room, exactly its metrics and their reading lists are gone and everything else is as before |
| Server.CreateMetric | Lab2/pzpi-22-2-ieremenko-andrii-lab2/server/server.go:493-547 | gate, then BadRequest for a bad body, then BadRequest for an unknown room; otherwise the metric and an empty reading list are added under the new id |
| Server.ListMetrics | Lab2/pzpi-22-2-ieremenko-andrii-lab2/server/server.go:557-574 | succeeds iff the caller is identified, listing every metric once with the total |
| Server.GetMetric | Lab2/pzpi-22-2-ieremenko-andrii-lab2/server/server.go:586-616 | Unauthorized, then BadRequest, then the metric with its readings in stored order, or NotFound |
| Server.DeleteMetric | Lab2/pzpi-22-2-ieremenko-andrii-lab2/server/server.go:628-673 | gate, then BadRequest, then NotFound; on success exactly the metric and its reading list are removed |
| Server.AddReading | Lab2/pzpi-22-2-ieremenko-andrii-lab2/server/server.go:687-730 | Unauthorized, BadRequest id, NotFound, BadRequest body, in that order; otherwise one reading is appended to the metric's list with a zero timestamp replaced by the clock |
| Server.GetReadings | Lab2/pzpi-22-2-ieremenko-andrii-lab2/server/server.go:742-772 | Unauthorized, BadRequest, then NotFound for a missing metric and otherwise the metric's readings in stored order with their count |
| ServerProofs.RegisterPreservesValid | Lab2/pzpi-22-2-ieremenko-andrii-lab2/server/server.go:69-100 | the username check before the store keeps usernames unique, and registration keeps the whole invariant |
| ServerProofs.CreateRolePreservesValid | Lab2/pzpi-22-2-ieremenko-andrii-lab2/server/server.go:266-279 | role creation never removes the default roles and stores each role under its name |
| ServerProofs.CreateRoomPreservesValid | Lab2/pzpi-22-2-ieremenko-andrii-lab2/server/server.go:344-353 | room creation keeps the store invariant |
| ServerProofs.DeleteRoomPreservesValid | Lab2/pzpi-22-2-ieremenko-andrii-lab2/server/server.go:468-476 | the cascade leaves no metric pointing at a deleted room and no orphaned reading list |
| ServerProofs.CreateMetricPreservesValid | Lab2/pzpi-22-2-ieremenko-andrii-lab2/server/server.go:526-544 | the room check keeps every metric in an existing room; a reading list is created with the metric |
| ServerProofs.DeleteMetricPreservesValid | Lab2/pzpi-22-2-ieremenko-andrii-lab2/server/server.go:667-668 | metric and reading list are deleted together |
| ServerProofs.AddReadingPreservesValid | Lab2/pzpi-22-2-ieremenko-andrii-lab2/server/server.go:703-727 | a reading is only appended to an existing metric's list, filed under that metric |
| ServerProofs.ReadOnlyHandlersKeepState | Lab2/pzpi-22-2-ieremenko-andrii-lab2/server/server.go:62-772 | login and every list and get handler leave every map exactly as it was |
| ServerProofs.MutatingHandlersPreserveValid | Lab2/pzpi-22-2-ieremenko-andrii-lab2/server/server.go:62-772 | every handler that writes keeps the store invariant |
| ServerProofs.HandlePreservesValid | Lab2/pzpi-22-2-ieremenko-andrii-lab2/server/server.go:62-772 | every handler keeps the store invariant |
| ServerProofs.RunPreservesValid | Lab2/pzpi-22-2-ieremenko-andrii-lab2/server/server.go:62-772 | any sequence of requests keeps the store invariant |
| ServerProofs.ReachableStatesValid | Lab2/pzpi-22-2-ieremenko-andrii-lab2/server/server.go:26-50 | every state reachable from a new server satisfies the store invariant |
| ServerProofs.TokenFailureFirst | Lab2/pzpi-22-2-ieremenko-andrii-lab2/server/server.go:285-289 | a rejected token gives Unauthorized from every protected handler before the body or id is looked at, with the state unchanged |
| ServerProofs.UnknownUsernameOutcome | Lab2/pzpi-22-2-ieremenko-andrii-lab2/server/server.go:184-187 | a valid token naming no user gives NotFound from ListUsers and CreateRole and Unauthorized from every other protected handler |
| ServerProofs.NonAdminForbidden | Lab2/pzpi-22-2-ieremenko-andrii-lab2/server/server.go:325-336 | an identified caller without the "admin" role is Forbidden by every admin-only handler, whatever the body or id, with the state unchanged |
| ServerProofs.OpenHandlersNeverForbid | Lab2/pzpi-22-2-ieremenko-andrii-lab2/server/server.go:366-372 | handlers open to any authenticated caller never answer Forbidden |
| ServerProofs.RegisterAddsOneUser | Lab2/pzpi-22-2-ieremenko-andrii-lab2/server/server.go:100-107 | a registration past the username and role checks adds exactly one user under a fresh id, even when signing the token then fails |
| ServerProofs.DuplicateRegistrationRejected | Lab2/pzpi-22-2-ieremenko-andrii-lab2/server/server.go:69-75 | registering the same username twice: the second answers BadRequest with nothing changed, and the first user stays |
| ServerProofs.RoleCopiesAreSnapshots | Lab2/pzpi-22-2-ieremenko-andrii-lab2/server/server.go:78-86 | users hold copies of roles: creating a role changes no stored user's roles |
| ServerProofs.KnownRolesSingle | Lab2/pzpi-22-2-ieremenko-andrii-lab2/server/server.go:82-86 | one requested name gives its catalog role, or nothing when the catalog lacks it |
| ServerProofs.KnownRolesAppend | Lab2/pzpi-22-2-ieremenko-andrii-lab2/server/server.go:82-86 | resolution keeps request order: resolving a concatenation of name lists is the concatenation of their resolutions |
| ServerProofs.CreateRoomThenGetRoom | Lab2/pzpi-22-2-ieremenko-andrii-lab2/server/server.go:344-353 | a created room is read back by any identified caller with the fields it was created with |
| ServerProofs.CreateMetricThenGetMetric | Lab2/pzpi-22-2-ieremenko-andrii-lab2/server/server.go:532-544 | a metric just created is read back by any identified caller with its fields and no readings |
| ServerProofs.DeleteRoomThenGet | Lab2/pzpi-22-2-ieremenko-andrii-lab2/server/server.go:468-476 | after a room is deleted, the room, each metric it owned and that metric's readings read as NotFound |
| ServerProofs.DeleteMetricThenGetReadings | Lab2/pzpi-22-2-ieremenko-andrii-lab2/server/server.go:667-668 | after a metric is deleted, its readings read as NotFound |
| ServerProofs.AddReadingThenGetReadings | Lab2/pzpi-22-2-ieremenko-andrii-lab2/server/server.go:727 | a reading just added is listed last, after the earlier ones, and the total grows by one |
| ServerProofs.CascadeLoop | Lab2/pzpi-22-2-ieremenko-andrii-lab2/server/server.go:468-474 | the delete-while-ranging loop removes exactly the room's metrics and their reading lists, whatever order it visits keys in |
| MetricServer.NewMetricServer | Lab2/pzpi-22-2-ieremenko-andrii-lab2/server/metric_server.go:19-24 | a new metric server is empty and satisfies its invariant |
| MetricServer.CreateMetric | Lab2/pzpi-22-2-ieremenko-andrii-lab2/server/metric_server.go:36-57 | BadRequest iff the body does not decode; otherwise the metric with the nil room id and an empty reading list are added under the new id |
| MetricServer.ListMetrics | Lab2/pzpi-22-2-ieremenko-andrii-lab2/server/metric_server.go:67-77 | every metric once, with the total |
| MetricServer.GetMetric | Lab2/pzpi-22-2-ieremenko-andrii-lab2/server/metric_server.go:89-112 | BadRequest, then the metric with its readings in stored order, or NotFound |
| MetricServer.DeleteMetric | Lab2/pzpi-22-2-ieremenko-andrii-lab2/server/metric_server.go:124-143 | BadRequest, NotFound, or exactly the metric and its reading list removed and nothing else changed |
| MetricServer.AddReading | Lab2/pzpi-22-2-ieremenko-andrii-lab2/server/metric_server.go:157-193 | BadRequest id, NotFound, BadRequest body; otherwise one reading appended to that metric's list only, a zero timestamp replaced by the clock |
| MetricServer.GetReadings | Lab2/pzpi-22-2-ieremenko-andrii-lab2/server/metric_server.go:205-228 | BadRequest, then NotFound for a missing metric and otherwise the readings in stored order with their count |
| MetricServer.HandlePreservesValid | Lab2/pzpi-22-2-ieremenko-andrii-lab2/server/metric_server.go:53-54 | every handler keeps the reading lists keyed by exactly the stored metrics |
| MetricServer.RunPreservesValid | Lab2/pzpi-22-2-ieremenko-andrii-lab2/server/metric_server.go:36-228 | any sequence of requests keeps the invariant |
| MetricServer.ReachableStatesValid | Lab2/pzpi-22-2-ieremenko-andrii-lab2/server/metric_server.go:19-24 | every state reachable from a new metric server satisfies the invariant |
| MetricServer.CreateMetricThenGetMetric | Lab2/pzpi-22-2-ieremenko-andrii-lab2/server/metric_server.go:53-54 | a metric created under a fresh id is one more metric and reads back with no readings |
| MetricServer.AddReadingThenGetReadings | Lab2/pzpi-22-2-ieremenko-andrii-lab2/server/metric_server.go:190 | a reading just added is listed last and the total grows by one |
| MetricServer.DeleteMetricThenGet | Lab2/pzpi-22-2-ieremenko-andrii-lab2/server/metric_server.go:137-138 | after a delete both reads of the metric answer NotFound |

## Left out

- HTTP routing, status codes as numbers, JSON encoding and decoding, and path slicing: a decoded body and a parsed id enter as `Option` values, and failures as the `Failure` kind a status stands for.
- `uuid.Parse` accepts several text formats besides the canonical one; only its success or failure matters to the handlers, so the model takes the parsed id as input.
- HMAC-SHA256 signing, token encoding, signature checking and the expiry check of the JWT library (`jwt.ParseWithClaims`, `SignedString`): these are the `Signer` and `Verifier` parameters. The hard-coded key is part of them.
- `uuid.New()` randomness: the new id is a parameter; the store does not assume it is fresh, and the lemmas that need freshness require it.
- The clock: every handler takes one reading `now`. AddReading in both servers reads the clock twice, for the default timestamp and for `CreatedAt`. Register reads it three times: for `CreatedAt`, then twice inside GenerateToken. Login reads it twice inside GenerateToken. The model uses one reading for all of them, so the tokens the handler model issues always last exactly 24 hours; `Auth.NewClaims` on its own takes the two token readings separately and states the general bound.
- Auth.GenerateToken: not given its own contract; it is the signer applied to `Auth.NewClaims`, whose contract carries the promise.
- Go's random map iteration order: lookups by username take the least matching key and listings are in ascending key order; contracts promise only membership and count.
- Reading values are float64 in Go; here they are the 64-bit pattern (`bv64`) and are copied, never computed on.
- Time values past the range of Go's `time.Time` arithmetic: `Time` is an unbounded integer of nanoseconds.
- The declared correlation request and response types carry no behaviour.
- Concurrency: the Go maps are used without a lock; the model serves requests one at a time.
- `Start` (route registration and the listener), `main.go` and the HTTP client in `client/` are not part of this model.
- Register with an empty role list when the "user" role is missing would dereference a nil pointer in Go; the model answers InternalError with nothing stored. No reachable state lacks the "user" role.
