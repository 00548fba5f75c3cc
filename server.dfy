/** The Express backend of backend/server.js: the bearer-token guard, the per-route role
    allow-lists, login, user registration, the violation listing, worker CRUD by id and the
    caller's profile. The MySQL tables are fields of `Database`; a signed JSON Web Token is an
    abstract `Jwt` value. */
module Server {
  import opened Common
  import opened Records

  const Admin: string := "admin"
  const Manager: string := "manager"
  const WorkerRole: string := "worker"

  /** `expiresIn: '1h'`, in seconds. */
  const TokenLifetime: int := 3600

  /** The payload the backend signs into a token and reads back as `req.userId`, `req.userRole`. */
  datatype Claims = Claims(userId: int, role: string)

  /** A token as the token library decodes it: its claims, its expiry (seconds) and whether its
      signature is the one made with the server's secret. */
  datatype Jwt = Jwt(claims: Claims, expiresAt: int, signedWithSecret: bool)

  /** A row of `users`; the password is stored and compared as plain text. */
  datatype User = User(id: int, email: string, password: string, role: string)

  /** The five columns of a `workers` row besides its id. */
  datatype Worker = Worker(
    name: string,
    employeeId: string,
    department: string,
    contact: string,
    assignedArea: string)

  /** The JSON bodies the handlers send. */
  datatype Body =
    | Message(text: string)
    | LoginOk(token: Jwt, role: string, text: string)
    | TokenValid(text: string, role: string)
    | ViolationRows(rows: seq<Violation>)
    | WorkerTable(table: map<int, Worker>)
    | WorkerRow(id: int, worker: Worker)
    | ProfileRow(id: int, email: string, role: string)

  datatype Response = Response(status: int, body: Body)

  const NoTokenProvided: Response := Response(403, Message("No token provided"))
  const Unauthorized: Response := Response(401, Message("Unauthorized"))
  const AccessDenied: Response := Response(403, Message("Access denied"))
  const DatabaseError: Response := Response(500, Message("Database error"))
  const WorkerNotFound: Response := Response(404, Message("Worker not found"))
  const UserNotFound: Response := Response(404, Message("User not found"))

  // ---------------------------------------------------------------------------------------
  // Tokens and the guard

  /** `jwt.verify(text, secret)`. `wire` stands for the token library's decoding of token
      texts: a text verifies when it is not empty (the library refuses an empty string before
      decoding), decodes, carries the server's signature and has not expired (the library
      rejects a token once the clock reaches `exp`). */
  function Verify(text: Option<string>, wire: map<string, Jwt>, now: int): Option<Claims>
  {
    if text.Some? && text.value != "" && text.value in wire && wire[text.value].signedWithSecret
       && now < wire[text.value].expiresAt
    then Some(wire[text.value].claims)
    else None
  }

  /** `header.split(' ')[1]`: the second space-separated field, absent when there is no space. */
  function BearerField(header: string): (r: Option<string>)
    ensures r.Some? <==> ' ' in header
  {
    var parts := Split(header, ' ');
    if |parts| > 1 then Some(parts[1]) else None
  }

  /** The header the client sends, `Bearer <token>`, yields the token text back. */
  lemma BearerFieldOfBearer(t: string)
    requires ' ' !in t
    ensures BearerField("Bearer " + t) == Some(t)
  {
    SplitJoin(["Bearer", t], ' ');
    assert Join(["Bearer", t], [' ']) == "Bearer " + t;
  }

  /** `verifyToken`: a missing (or empty) `Authorization` header is refused with 403, a header
      whose second field does not verify with 401; otherwise the token's claims become the
      request's `userId` and `userRole`. */
  function Authenticate(header: Option<string>, wire: map<string, Jwt>, now: int): (r: Result<Claims, Response>)
    ensures r.Failure? ==> r.error == NoTokenProvided || r.error == Unauthorized
    ensures r.Failure? && r.error == NoTokenProvided <==> header.None? || header == Some("")
    ensures r.Success? ==> header.Some? && Verify(BearerField(header.value), wire, now) == Some(r.value)
  {
    if header.None? || header.value == "" then Failure(NoTokenProvided)
    else match Verify(BearerField(header.value), wire, now)
      case None => Failure(Unauthorized)
      case Some(c) => Success(c)
  }

  /** A non-empty header without a space never authenticates, whatever tokens exist. */
  lemma HeaderWithoutSpaceIsUnauthorized(h: string, wire: map<string, Jwt>, now: int)
    requires h != "" && ' ' !in h
    ensures Authenticate(Some(h), wire, now) == Failure(Unauthorized)
  {
  }

  /** `Bearer ` with nothing after it hands the library an empty text, which it refuses: 401
      whatever tokens exist. */
  lemma EmptyBearerIsUnauthorized(wire: map<string, Jwt>, now: int)
    ensures Authenticate(Some("Bearer "), wire, now) == Failure(Unauthorized)
  {
    BearerFieldOfBearer("");
    assert "Bearer " + "" == "Bearer ";
  }

  /** A second space before the token also hands the library an empty text: 401. */
  lemma DoubleSpaceIsUnauthorized(t: string, wire: map<string, Jwt>, now: int)
    ensures Authenticate(Some("Bearer  " + t), wire, now) == Failure(Unauthorized)
  {
    var h := "Bearer  " + t;
    var tail := " " + t;
    assert h == "Bearer" + [' '] + tail;
    assert tail == "" + [' '] + t;
    SplitPrefix("Bearer", tail, ' ');
    SplitPrefix("", t, ' ');
    assert Split(h, ' ')[1] == "";
    assert BearerField(h) == Some("");
  }

  /** `Bearer <t>` authenticates exactly when `t` is a non-empty, signed, unexpired token, and
      then with the claims signed into it. */
  lemma BearerAuthenticates(t: string, wire: map<string, Jwt>, now: int)
    requires ' ' !in t
    ensures Authenticate(Some("Bearer " + t), wire, now).Success?
            <==> t != "" && t in wire && wire[t].signedWithSecret && now < wire[t].expiresAt
    ensures Authenticate(Some("Bearer " + t), wire, now).Success?
            ==> Authenticate(Some("Bearer " + t), wire, now).value == wire[t].claims
  {
    BearerFieldOfBearer(t);
  }

  /** The routes behind `verifyToken`. */
  datatype Route =
    | ViolationList | WorkerList | WorkerDetail | WorkerRegistration | WorkerUpdate
    | WorkerRemoval | UserProfile

  /** The roles each route's handler admits; `None` when any authenticated caller may proceed. */
  function AllowList(route: Route): Option<seq<string>>
  {
    match route
    case ViolationList | WorkerList | WorkerDetail => Some([Admin, Manager])
    case WorkerRegistration | WorkerUpdate | WorkerRemoval => Some([Admin])
    case UserProfile => None
  }

  predicate Admits(route: Route, role: string)
  {
    AllowList(route).None? || role in AllowList(route).value
  }

  /** The allow-lists, route by route. */
  lemma AllowListsByRoute(role: string)
    ensures Admits(ViolationList, role) <==> role == Admin || role == Manager
    ensures Admits(WorkerList, role) <==> role == Admin || role == Manager
    ensures Admits(WorkerDetail, role) <==> role == Admin || role == Manager
    ensures Admits(WorkerRegistration, role) <==> role == Admin
    ensures Admits(WorkerUpdate, role) <==> role == Admin
    ensures Admits(WorkerRemoval, role) <==> role == Admin
    ensures Admits(UserProfile, role)
  {
  }

  /** The guard followed by the route's role check, which every gated handler runs before it
      touches a table. */
  function Authorize(header: Option<string>, wire: map<string, Jwt>, now: int, route: Route): (r: Result<Claims, Response>)
    ensures r.Success? <==> Authenticate(header, wire, now).Success? && Admits(route, Authenticate(header, wire, now).value.role)
    ensures r.Success? ==> r.value == Authenticate(header, wire, now).value
    ensures Authenticate(header, wire, now).Failure? ==> r == Authenticate(header, wire, now)
    ensures Authenticate(header, wire, now).Success? && !r.Success? ==> r == Failure(AccessDenied)
  {
    match Authenticate(header, wire, now)
    case Failure(e) => Failure(e)
    case Success(c) => if Admits(route, c.role) then Success(c) else Failure(AccessDenied)
  }

  /** `POST /validate-token`: the same header checks as the guard, with its own 401 message,
      answering with the role in the token. */
  function ValidateToken(header: Option<string>, wire: map<string, Jwt>, now: int): (r: Response)
    ensures r.status == 200 <==> Authenticate(header, wire, now).Success?
    ensures r.status == 200 ==> r.body == TokenValid("Token is valid", Authenticate(header, wire, now).value.role)
    ensures r.status != 200 ==> r == NoTokenProvided || r == Response(401, Message("Invalid token"))
  {
    if header.None? || header.value == "" then NoTokenProvided
    else match Verify(BearerField(header.value), wire, now)
      case None => Response(401, Message("Invalid token"))
      case Some(c) => Response(200, TokenValid("Token is valid", c.role))
  }

  // ---------------------------------------------------------------------------------------
  // Users: login and profile

  /** `SELECT * FROM users WHERE email = ?`, first row. */
  function FindByEmail(users: seq<User>, email: string): (r: Option<User>)
    ensures r.Some? ==> r.value in users && r.value.email == email
    ensures r.None? <==> forall u :: u in users ==> u.email != email
    decreases |users|
  {
    if |users| == 0 then None
    else if users[0].email == email then Some(users[0])
    else FindByEmail(users[1..], email)
  }

  /** `SELECT id, email, role FROM users WHERE id = ?`, first row. */
  function FindById(users: seq<User>, id: int): (r: Option<User>)
    ensures r.Some? ==> r.value in users && r.value.id == id
    ensures r.None? <==> forall u :: u in users ==> u.id != id
    decreases |users|
  {
    if |users| == 0 then None
    else if users[0].id == id then Some(users[0])
    else FindById(users[1..], id)
  }

  ghost predicate UniqueEmails(users: seq<User>)
  {
    forall i, j :: 0 <= i < j < |users| ==> users[i].email != users[j].email
  }

  predicate EmailTaken(users: seq<User>, email: string)
  {
    exists i :: 0 <= i < |users| && users[i].email == email
  }

  /** With unique emails the lookup finds the one user who has it. */
  lemma FindByEmailUnique(users: seq<User>, u: User)
    requires UniqueEmails(users) && u in users
    ensures FindByEmail(users, u.email) == Some(u)
  {
    var r := FindByEmail(users, u.email);
    var i :| 0 <= i < |users| && users[i] == u;
    var j :| 0 <= j < |users| && users[j] == r.value;
    assert i == j;
  }

  /** `POST /login`. Empty fields (JavaScript's falsy `undefined` or `""`) are refused before the
      lookup; an unknown email gives 404, a different stored password 400; a match issues a
      token with the stored id and role, valid for an hour from `now`. */
  function Login(users: seq<User>, email: string, password: string, dbFails: bool, now: int): (r: Response)
    ensures r.status in {200, 400, 404, 500}
    ensures email != "" && password != "" && dbFails ==> r == DatabaseError
    ensures r.status == 200 ==> && r.body.LoginOk? && r.body.token.signedWithSecret
                                && r.body.token.expiresAt == now + TokenLifetime
                                && exists u :: u in users && u.email == email && u.password == password
                                               && r.body.token.claims == Claims(u.id, u.role) && r.body.role == u.role
  {
    if email == "" || password == "" then Response(400, Message("Email and password are required"))
    else if dbFails then DatabaseError
    else match FindByEmail(users, email)
      case None => UserNotFound
      case Some(u) =>
        if password != u.password then Response(400, Message("Invalid password"))
        else Response(200, LoginOk(Jwt(Claims(u.id, u.role), now + TokenLifetime, true), u.role, "Login successful"))
  }

  /** The four outcomes of a login, in the order the handler checks them. */
  lemma LoginOutcomes(users: seq<User>, email: string, password: string, dbFails: bool, now: int)
    requires UniqueEmails(users)
    ensures email == "" || password == "" ==> Login(users, email, password, dbFails, now).status == 400
    ensures email != "" && password != "" && !dbFails && !EmailTaken(users, email)
            ==> Login(users, email, password, dbFails, now) == UserNotFound
    ensures forall u :: (u in users && u.email == email && email != "" && password != "" && !dbFails && password != u.password
                         ==> Login(users, email, password, dbFails, now) == Response(400, Message("Invalid password")))
    ensures Login(users, email, password, dbFails, now).status == 200
            <==> email != "" && password != "" && !dbFails
                 && exists u :: u in users && u.email == email && u.password == password
  {
    if email != "" && password != "" && !dbFails {
      if !EmailTaken(users, email) {
        assert forall u :: u in users ==> u.email != email;
      }
      forall u | u in users && u.email == email
        ensures FindByEmail(users, email) == Some(u)
      {
        FindByEmailUnique(users, u);
      }
    }
  }

  /** A successful login hands out a signed token for the stored user's id and role, the body's
      role is the stored role, and the token is accepted by the guard until it expires. */
  lemma LoginIssuesStoredClaims(users: seq<User>, u: User, dbFails: bool, now: int, t: string, wire: map<string, Jwt>, later: int)
    requires UniqueEmails(users) && u in users && u.email != "" && u.password != "" && !dbFails
    ensures Login(users, u.email, u.password, dbFails, now).status == 200
    ensures Login(users, u.email, u.password, dbFails, now).body.LoginOk?
    ensures Login(users, u.email, u.password, dbFails, now).body.role == u.role
    ensures Login(users, u.email, u.password, dbFails, now).body.token.claims == Claims(u.id, u.role)
    ensures ' ' !in t && t != "" && t in wire && wire[t] == Login(users, u.email, u.password, dbFails, now).body.token
            && now <= later < now + TokenLifetime
            ==> Authenticate(Some("Bearer " + t), wire, later) == Success(Claims(u.id, u.role))
  {
    FindByEmailUnique(users, u);
    if ' ' !in t {
      BearerFieldOfBearer(t);
    }
  }

  /** `GET /api/user/profile`: behind the guard only; the caller's own row, found by the id
      in the token. */
  function Profile(users: seq<User>, header: Option<string>, wire: map<string, Jwt>, now: int, dbFails: bool): (r: Response)
    ensures Authenticate(header, wire, now).Failure? ==> r == Authenticate(header, wire, now).error
    ensures r.status == 200 ==> exists u :: u in users && u.id == Authenticate(header, wire, now).value.userId
                                           && r.body == ProfileRow(u.id, u.email, u.role)
    ensures Authenticate(header, wire, now).Success? && !dbFails
            ==> (r == UserNotFound <==> forall u :: u in users ==> u.id != Authenticate(header, wire, now).value.userId)
    ensures Authenticate(header, wire, now).Success? && !dbFails
            && (exists u :: u in users && u.id == Authenticate(header, wire, now).value.userId)
            ==> r.status == 200
    ensures Authenticate(header, wire, now).Success? && dbFails ==> r == DatabaseError
  {
    match Authenticate(header, wire, now)
    case Failure(e) => e
    case Success(c) =>
      if dbFails then DatabaseError
      else match FindById(users, c.userId)
        case None => UserNotFound
        case Some(u) => Response(200, ProfileRow(u.id, u.email, u.role))
  }

  // ---------------------------------------------------------------------------------------
  // Violations: ORDER BY timestamp DESC

  ghost predicate NewestFirstOrder(rows: seq<Violation>)
  {
    forall i, j :: 0 <= i < j < |rows| ==> rows[i].timestamp >= rows[j].timestamp
  }

  /** Places `v` in front of the first row that is not newer than it. */
  function InsertByTime(v: Violation, rows: seq<Violation>): (r: seq<Violation>)
    requires NewestFirstOrder(rows)
    ensures multiset(r) == multiset(rows) + multiset{v}
    ensures NewestFirstOrder(r)
    ensures |r| > 0 && (r[0] == v || (|rows| > 0 && r[0] == rows[0]))
    decreases |rows|
  {
    if |rows| == 0 then [v]
    else if v.timestamp >= rows[0].timestamp then [v] + rows
    else
      var rest := InsertByTime(v, rows[1..]);
      assert rows == [rows[0]] + rows[1..];
      [rows[0]] + rest
  }

  /** The rows of `safety_violations` as `ORDER BY timestamp DESC` returns them: every row
      exactly once, newest first (rows with equal timestamps in some order). */
  function NewestFirst(rows: seq<Violation>): (r: seq<Violation>)
    ensures multiset(r) == multiset(rows)
    ensures NewestFirstOrder(r)
    decreases |rows|
  {
    if |rows| == 0 then []
    else
      assert rows == [rows[0]] + rows[1..];
      InsertByTime(rows[0], NewestFirst(rows[1..]))
  }

  /** `GET /api/violations`: admin and manager only; every row, newest first. */
  function ListViolations(violations: seq<Violation>, header: Option<string>, wire: map<string, Jwt>, now: int, dbFails: bool): (r: Response)
    ensures Authorize(header, wire, now, ViolationList).Failure? ==> r == Authorize(header, wire, now, ViolationList).error
    ensures Authorize(header, wire, now, ViolationList).Success? && dbFails ==> r == Response(500, Message("Error fetching violations"))
    ensures r.status == 200 <==> Authorize(header, wire, now, ViolationList).Success? && !dbFails
    ensures r.status == 200 ==> r.body.ViolationRows? && multiset(r.body.rows) == multiset(violations)
                                && NewestFirstOrder(r.body.rows)
  {
    match Authorize(header, wire, now, ViolationList)
    case Failure(e) => e
    case Success(_) =>
      if dbFails then Response(500, Message("Error fetching violations"))
      else Response(200, ViolationRows(NewestFirst(violations)))
  }

  // ---------------------------------------------------------------------------------------
  // Workers: reads

  /** `GET /api/workers`: admin and manager only; the whole table. */
  function ListWorkers(workers: map<int, Worker>, header: Option<string>, wire: map<string, Jwt>, now: int, dbFails: bool): (r: Response)
    ensures Authorize(header, wire, now, WorkerList).Failure? ==> r == Authorize(header, wire, now, WorkerList).error
    ensures r.status == 200 <==> Authorize(header, wire, now, WorkerList).Success? && !dbFails
    ensures r.status == 200 ==> r.body == WorkerTable(workers)
    ensures Authorize(header, wire, now, WorkerList).Success? && dbFails ==> r == DatabaseError
  {
    match Authorize(header, wire, now, WorkerList)
    case Failure(e) => e
    case Success(_) => if dbFails then DatabaseError else Response(200, WorkerTable(workers))
  }

  /** `GET /api/workers/:id`: admin and manager only; the row with that id, or 404. */
  function GetWorker(workers: map<int, Worker>, header: Option<string>, wire: map<string, Jwt>, now: int, id: int, dbFails: bool): (r: Response)
    ensures Authorize(header, wire, now, WorkerDetail).Failure? ==> r == Authorize(header, wire, now, WorkerDetail).error
    ensures Authorize(header, wire, now, WorkerDetail).Success? && !dbFails
            ==> (if id in workers then r == Response(200, WorkerRow(id, workers[id])) else r == WorkerNotFound)
    ensures Authorize(header, wire, now, WorkerDetail).Success? && dbFails ==> r == DatabaseError
  {
    match Authorize(header, wire, now, WorkerDetail)
    case Failure(e) => e
    case Success(_) =>
      if dbFails then DatabaseError
      else if id in workers then Response(200, WorkerRow(id, workers[id]))
      else WorkerNotFound
  }

  // ---------------------------------------------------------------------------------------
  // The tables and the handlers that change them

  class Database {
    var users: seq<User>
    var nextUserId: int
    var workers: map<int, Worker>
    var nextWorkerId: int

    /** Emails are unique, user ids increase in insertion order, and the auto-increment
        counters are beyond every id in use. */
    ghost predicate Valid()
      reads this
    {
      && UniqueEmails(users)
      && (forall i, j :: 0 <= i < j < |users| ==> users[i].id < users[j].id)
      && (forall i :: 0 <= i < |users| ==> users[i].id < nextUserId)
      && (forall id :: id in workers ==> id < nextWorkerId)
    }

    /** Empty `users` and `workers` tables; the `safety_violations` rows, which only the
        detection service writes, are the argument of `ListViolations`. */
    constructor ()
      ensures Valid()
      ensures users == [] && workers == map[]
    {
      users := [];
      nextUserId := 1;
      workers := map[];
      nextWorkerId := 1;
    }

    /** `POST /register`: all three fields non-empty, the email not yet taken; then exactly one
        user row is appended. */
    method Register(email: string, password: string, role: string, checkFails: bool, insertFails: bool) returns (r: Response)
      requires Valid()
      modifies this`users, this`nextUserId
      ensures Valid()
      ensures email == "" || password == "" || role == ""
              ==> r == Response(400, Message("All fields are required")) && users == old(users)
      ensures email != "" && password != "" && role != "" && checkFails
              ==> r == DatabaseError && users == old(users)
      ensures email != "" && password != "" && role != "" && !checkFails && EmailTaken(old(users), email)
              ==> r == Response(409, Message("User already exists")) && users == old(users)
      ensures email != "" && password != "" && role != "" && !checkFails && !EmailTaken(old(users), email) && insertFails
              ==> r == Response(500, Message("Database error during registration")) && users == old(users)
      ensures email != "" && password != "" && role != "" && !checkFails && !EmailTaken(old(users), email) && !insertFails
              ==> r == Response(201, Message("User registered successfully"))
                  && users == old(users) + [User(old(nextUserId), email, password, role)]
      ensures r.status == 201 <==> |users| == |old(users)| + 1
      ensures r.status != 201 ==> users == old(users) && nextUserId == old(nextUserId)
    {
      if email == "" || password == "" || role == "" {
        return Response(400, Message("All fields are required"));
      }
      if checkFails {
        return DatabaseError;
      }
      if EmailTaken(users, email) {
        return Response(409, Message("User already exists"));
      }
      if insertFails {
        return Response(500, Message("Database error during registration"));
      }
      users := users + [User(nextUserId, email, password, role)];
      nextUserId := nextUserId + 1;
      r := Response(201, Message("User registered successfully"));
    }

    /** `POST /api/workers/register`: admin only; inserts the five given fields under the next id. */
    method RegisterWorker(header: Option<string>, wire: map<string, Jwt>, now: int, w: Worker, dbFails: bool) returns (r: Response)
      requires Valid()
      modifies this`workers, this`nextWorkerId
      ensures Valid()
      ensures Authorize(header, wire, now, WorkerRegistration).Failure?
              ==> r == Authorize(header, wire, now, WorkerRegistration).error && workers == old(workers)
      ensures Authorize(header, wire, now, WorkerRegistration).Success? && dbFails
              ==> r == DatabaseError && workers == old(workers)
      ensures Authorize(header, wire, now, WorkerRegistration).Success? && !dbFails
              ==> r == Response(201, Message("Worker registered successfully"))
                  && old(nextWorkerId) !in old(workers)
                  && workers == old(workers)[old(nextWorkerId) := w]
                  && nextWorkerId == old(nextWorkerId) + 1
      ensures r.status != 201 ==> nextWorkerId == old(nextWorkerId)
    {
      var auth := Authorize(header, wire, now, WorkerRegistration);
      if auth.Failure? {
        return auth.error;
      }
      if dbFails {
        return DatabaseError;
      }
      workers := workers[nextWorkerId := w];
      nextWorkerId := nextWorkerId + 1;
      r := Response(201, Message("Worker registered successfully"));
    }

    /** `PUT /api/workers/:id`: admin only; overwrites all five fields of that row, or 404. */
    method UpdateWorker(header: Option<string>, wire: map<string, Jwt>, now: int, id: int, w: Worker, dbFails: bool) returns (r: Response)
      requires Valid()
      modifies this`workers
      ensures Valid()
      ensures Authorize(header, wire, now, WorkerUpdate).Failure?
              ==> r == Authorize(header, wire, now, WorkerUpdate).error && workers == old(workers)
      ensures Authorize(header, wire, now, WorkerUpdate).Success? && dbFails
              ==> r == DatabaseError && workers == old(workers)
      ensures Authorize(header, wire, now, WorkerUpdate).Success? && !dbFails && id !in old(workers)
              ==> r == WorkerNotFound && workers == old(workers)
      ensures Authorize(header, wire, now, WorkerUpdate).Success? && !dbFails && id in old(workers)
              ==> r == Response(200, Message("Worker updated successfully")) && workers == old(workers)[id := w]
      ensures workers.Keys == old(workers.Keys)
      ensures forall k :: k in workers && k != id ==> workers[k] == old(workers[k])
    {
      var auth := Authorize(header, wire, now, WorkerUpdate);
      if auth.Failure? {
        return auth.error;
      }
      if dbFails {
        return DatabaseError;
      }
      if id !in workers {
        return WorkerNotFound;
      }
      workers := workers[id := w];
      r := Response(200, Message("Worker updated successfully"));
    }

    /** `DELETE /api/workers/:id`: admin only; removes that row, or 404. */
    method DeleteWorker(header: Option<string>, wire: map<string, Jwt>, now: int, id: int, dbFails: bool) returns (r: Response)
      requires Valid()
      modifies this`workers
      ensures Valid()
      ensures Authorize(header, wire, now, WorkerRemoval).Failure?
              ==> r == Authorize(header, wire, now, WorkerRemoval).error && workers == old(workers)
      ensures Authorize(header, wire, now, WorkerRemoval).Success? && dbFails
              ==> r == DatabaseError && workers == old(workers)
      ensures Authorize(header, wire, now, WorkerRemoval).Success? && !dbFails && id !in old(workers)
              ==> r == WorkerNotFound && workers == old(workers)
      ensures Authorize(header, wire, now, WorkerRemoval).Success? && !dbFails && id in old(workers)
              ==> r == Response(200, Message("Worker deleted successfully")) && workers == old(workers) - {id}
      ensures id !in workers || workers == old(workers)
    {
      var auth := Authorize(header, wire, now, WorkerRemoval);
      if auth.Failure? {
        return auth.error;
      }
      if dbFails {
        return DatabaseError;
      }
      if id !in workers {
        return WorkerNotFound;
      }
      workers := workers - {id};
      r := Response(200, Message("Worker deleted successfully"));
    }
  }
}
