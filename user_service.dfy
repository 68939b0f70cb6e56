/** The user service script: path extraction, dispatch on method and path,
    role-based authorisation from the headers the gateway sets, validation
    of a new user, the INSERT into the users table and the user-created
    event. The database and the broker are state; whether each one is
    reachable, and whether the INSERT or a SELECT raises, are inputs. */
module UserService {
  import opened Php
  import opened Json
  import opened Http
  import opened Ordering
  import opened Messaging

  const CollectionPath := "/users"
  const CollectionSlashPath := "/users/"
  /** The text before `(\d+)` in `/\/users\/(\d+)/`. */
  const ItemPattern := "/users/"

  /** `queue_declare('user_created_queue', false, true, false, false)` on connection. */
  const Declared := QueueDecl("user_created_queue", false, true, false, false)

  const DbErrorMessage := "Database connection error"
  const MissingFieldsMessage := "Missing required fields: name, email, password"
  const CustomRoleMessage := "Forbidden to set custom role"
  const CreateErrorMessage := "Error creating user"
  const ListForbiddenMessage := "Forbidden: Admin access required"
  const ViewForbiddenMessage := "Forbidden to access this user"
  const UserNotFoundMessage := "User not found"
  const NoEndpointMessage := "Endpoint not found"

  /** A row of the users table (the password hash is not modelled). */
  datatype User = User(name: Value, email: Value, role: Value)

  /** The users table with its auto-increment counter, and the messages
      published to the broker so far. */
  datatype State = State(users: map<int, User>, nextId: nat, queue: seq<Message>)

  /** Ids are positive and below the auto-increment counter. */
  predicate WellFormed(st: State) {
    st.nextId >= 1 && forall id :: id in st.users ==> 1 <= id < st.nextId
  }

  /** What the script reads besides the body: method, REQUEST_URI and the
      two headers the gateway sets. */
  datatype Request = Request(verb: string, uri: string, roleHeader: Option<string>, idHeader: Option<string>, body: Doc)

  /** Reachability of the broker (at connection time) and of the database,
      the message of the PDOException the INSERT raises, if it does, and
      whether the SELECT of a listing or of one user raises one. */
  datatype Env = Env(brokerUp: bool, dbUp: bool, insertFault: Option<string>, selectFault: bool)

  // ---------------------------------------------------------------- dispatch

  /** `$path`: REQUEST_URI cut before its first '?'. */
  function RequestPath(uri: string): (path: string)
    ensures path <= uri && '?' !in path
    ensures '?' !in uri ==> path == uri
    ensures '?' in uri ==> uri[|path|] == '?'
  {
    StripQuery(uri)
  }

  predicate IsCollection(path: string) {
    path == CollectionPath || path == CollectionSlashPath
  }

  datatype Endpoint = CreateUser | ListUsers | ShowUser(id: nat) | NoEndpoint

  /** The if/elseif chain on method and path. */
  function Dispatch(verb: string, path: string): (e: Endpoint)
    ensures e == CreateUser <==> verb == "POST" && IsCollection(path)
    ensures e == ListUsers <==> verb == "GET" && IsCollection(path)
    ensures e.ShowUser? <==> verb == "GET" && !IsCollection(path) && MatchNumber(path, ItemPattern).Some?
    ensures e.ShowUser? ==> e.id == MatchNumber(path, ItemPattern).value
  {
    if verb == "POST" && IsCollection(path) then CreateUser
    else if verb == "GET" && IsCollection(path) then ListUsers
    else if verb == "GET" && MatchNumber(path, ItemPattern).Some? then ShowUser(MatchNumber(path, ItemPattern).value)
    else NoEndpoint
  }

  // ----------------------------------------------------------- authorisation

  /** PHP 8 `$userId == $requestedId` for the X-User-Id header (a string, or
      null when absent) against an integer: null equals exactly 0, and a
      string equals the integer its decimal digits spell. */
  function LooselyEqual(idHeader: Option<string>, n: nat): (b: bool)
    ensures idHeader.None? ==> (b <==> n == 0)
    ensures idHeader == Some(NatToString(n)) ==> b
    ensures b && idHeader.Some? ==> AllDigits(idHeader.value)
  {
    ParseNatToString(n);
    match idHeader
    case None => n == 0
    case Some(s) => s != "" && AllDigits(s) && ParseDigits(s) == n
  }

  /** Admins may view any user, anyone else only the id they claim. */
  function MayView(roleHeader: Option<string>, idHeader: Option<string>, id: nat): (b: bool)
    ensures IsAdmin(roleHeader) ==> b
    ensures idHeader == Some(NatToString(id)) ==> b
    ensures !IsAdmin(roleHeader) && idHeader.None? ==> (b <==> id == 0)
  {
    IsAdmin(roleHeader) || LooselyEqual(idHeader, id)
  }

  /** The id the gateway forwards as a decimal string equals that id and no other. */
  lemma LooselyEqualCanonical(id: nat, n: nat)
    ensures LooselyEqual(Some(NatToString(id)), n) <==> n == id
  {
    ParseNatToString(id);
  }

  /** A caller with no X-User-Id header passes the ownership test for id 0,
      because PHP 8 treats `null == 0` as true. */
  lemma NullIdEqualsZero(roleHeader: Option<string>)
    ensures MayView(roleHeader, None, 0)
    ensures forall n: nat :: n != 0 ==> (MayView(roleHeader, None, n) <==> IsAdmin(roleHeader))
  {
  }

  // -------------------------------------------------------------- validation

  datatype Check = Accepted(user: User) | Rejected(status: int, message: string)

  /** The checks before the INSERT: name, email and password must be set and
      not null (400); the role defaults to "user", and only an admin may ask
      for another one (403). */
  function ValidateNewUser(body: Doc, callerIsAdmin: bool): (c: Check)
    ensures c.Accepted? <==>
      && IsSet(body, "name") && IsSet(body, "email") && IsSet(body, "password")
      && (callerIsAdmin || !IsSet(body, "role") || Get(body, "role") == Str("user"))
    ensures c.Accepted? ==> c.user.name == Get(body, "name") && c.user.email == Get(body, "email")
    ensures c.Accepted? && IsSet(body, "role") ==> c.user.role == Get(body, "role")
    ensures c.Accepted? && !IsSet(body, "role") ==> c.user.role == Str("user")
    ensures c.Accepted? && !callerIsAdmin ==> c.user.role == Str("user")
    ensures c.Rejected? && !(IsSet(body, "name") && IsSet(body, "email") && IsSet(body, "password")) ==>
      c == Rejected(400, MissingFieldsMessage)
    ensures c.Rejected? && IsSet(body, "name") && IsSet(body, "email") && IsSet(body, "password") ==>
      c == Rejected(403, CustomRoleMessage)
  {
    if !IsSet(body, "name") || !IsSet(body, "email") || !IsSet(body, "password") then
      Rejected(400, MissingFieldsMessage)
    else if !callerIsAdmin && IsSet(body, "role") && Get(body, "role") != Str("user") then
      Rejected(403, CustomRoleMessage)
    else
      Accepted(User(Get(body, "name"), Get(body, "email"), GetOr(body, "role", Str("user"))))
  }

  // --------------------------------------------------------------- responses

  /** A row as the SELECTs return it (created_at is not modelled). */
  function UserRow(id: int, u: User): map<string, Value> {
    map["id" := Int(id), "name" := u.name, "email" := u.email, "role" := u.role]
  }

  /** The rows of `SELECT ... FROM users`, listed in id order: every row is
      a user's, no id comes twice, and on a well-formed table every user has
      a row. */
  function Listing(st: State): (rows: seq<map<string, Value>>)
    ensures forall i :: 0 <= i < |rows| ==>
      && "id" in rows[i] && rows[i]["id"].Int? && rows[i]["id"].i in st.users
      && rows[i] == UserRow(rows[i]["id"].i, st.users[rows[i]["id"].i])
    ensures forall i, j :: 0 <= i < j < |rows| ==>
      "id" in rows[i] && "id" in rows[j] && rows[i]["id"].Int? && rows[j]["id"].Int? && rows[i]["id"].i < rows[j]["id"].i
    ensures WellFormed(st) ==> forall id :: id in st.users ==> UserRow(id, st.users[id]) in rows
  {
    var ids := OrderBy(st.users.Keys, st.nextId - 1, false);
    var rows := seq(|ids|, i requires 0 <= i < |ids| => UserRow(ids[i], st.users[ids[i]]));
    RowsCoverUsers(st, ids, rows);
    rows
  }

  /** Rows taken under every id of a well-formed table cover every user. */
  lemma RowsCoverUsers(st: State, ids: seq<int>, rows: seq<map<string, Value>>)
    requires forall k :: k in ids <==> k in st.users && 1 <= k <= st.nextId - 1
    requires |rows| == |ids| && forall i :: 0 <= i < |ids| ==> ids[i] in st.users && rows[i] == UserRow(ids[i], st.users[ids[i]])
    ensures WellFormed(st) ==> forall id :: id in st.users ==> UserRow(id, st.users[id]) in rows
  {
    forall id | id in st.users && WellFormed(st)
      ensures UserRow(id, st.users[id]) in rows
    {
      assert id in ids;
      var k :| 0 <= k < |ids| && ids[k] == id;
      assert rows[k] == UserRow(id, st.users[id]);
    }
  }

  /** The 201 body: the new user's fields, with the id as `lastInsertId()`
      returns it, a digit string that parses back to the id. */
  function Created(id: nat, u: User): (r: Response)
    ensures r.status == 201 && r.body.Object? && r.body.fields.Keys == {"id", "name", "email", "role"}
    ensures r.body.Object? && "id" in r.body.fields && r.body.fields["id"].Str?
      && AllDigits(r.body.fields["id"].s) && ParseDigits(r.body.fields["id"].s) == id
    ensures r.body.Object? && r.body.fields == r.body.fields["name" := u.name]["email" := u.email]["role" := u.role]
  {
    ParseNatToString(id);
    Response(201, Object(map["id" := Str(NatToString(id)), "name" := u.name, "email" := u.email, "role" := u.role]))
  }

  /** The event is published only when the broker connected at startup, and
      then it carries the new user's id, email and name to the shared queue. */
  function Publication(brokerUp: bool, id: nat, u: User): (ms: seq<Message>)
    ensures |ms| <= 1 && (ms != [] <==> brokerUp)
    ensures forall m :: m in ms ==>
      && m.routingKey == Declared.name
      && Get(m.body, "email") == u.email && Get(m.body, "name") == u.name
      && Get(m.body, "user_id").Str? && AllDigits(Get(m.body, "user_id").s)
      && ParseDigits(Get(m.body, "user_id").s) == id
  {
    if brokerUp then [UserCreated(id, u.email, u.name)] else []
  }

  // ------------------------------------------------------------------ serving

  /** The response to one request and the state after it. */
  type Outcome = (Response, State)

  /** What a request leads to: a reply with nothing written, or an INSERT. */
  datatype Plan = Reply(resp: Response) | Create(user: User)

  /** The decision chain of the script, in its order of checks. Two errors
      escape every `catch`: `password_hash` on a password that decodes to an
      array raises a TypeError before the INSERT, and the SELECTs of the
      listing and of one user run outside any `try`. */
  function Decide(st: State, req: Request, env: Env): (p: Plan)
    ensures !env.dbUp ==> p == Reply(Error(500, DbErrorMessage))
    ensures p.Create? <==>
      && env.dbUp && env.insertFault.None?
      && Dispatch(req.verb, RequestPath(req.uri)) == CreateUser
      && ValidateNewUser(req.body, IsAdmin(req.roleHeader)).Accepted?
      && !Get(req.body, "password").Array?
    ensures p.Create? ==> p.user == ValidateNewUser(req.body, IsAdmin(req.roleHeader)).user
  {
    if !env.dbUp then Reply(Error(500, DbErrorMessage))
    else
      match Dispatch(req.verb, RequestPath(req.uri))
      case CreateUser =>
        (match ValidateNewUser(req.body, IsAdmin(req.roleHeader))
         case Rejected(status, message) => Reply(Error(status, message))
         case Accepted(u) =>
           if Get(req.body, "password").Array? then Reply(UncaughtError)
           else if env.insertFault.Some? then
             Reply(Response(500, Object(map["error" := Str(CreateErrorMessage), "details" := Str(env.insertFault.value)])))
           else Create(u))
      case ListUsers =>
        if !IsAdmin(req.roleHeader) then Reply(Error(403, ListForbiddenMessage))
        else if env.selectFault then Reply(UncaughtError)
        else Reply(Response(200, Objects(Listing(st))))
      case ShowUser(id) =>
        if !MayView(req.roleHeader, req.idHeader, id) then Reply(Error(403, ViewForbiddenMessage))
        else if env.selectFault then Reply(UncaughtError)
        else if id in st.users then Reply(Response(200, Object(UserRow(id, st.users[id]))))
        else Reply(Error(404, UserNotFoundMessage))
      case NoEndpoint => Reply(Error(404, NoEndpointMessage))
  }

  /** The effect of a plan: an INSERT takes the next id, publishes the
      event when the broker is up, and answers 201. */
  function Apply(st: State, plan: Plan, brokerUp: bool): (r: Outcome)
    ensures plan.Reply? ==> r.1 == st
    ensures plan.Create? ==>
      && r.0.status == 201
      && r.1.users == st.users[st.nextId := plan.user]
      && r.1.nextId == st.nextId + 1
      && st.queue <= r.1.queue
    ensures WellFormed(st) ==> WellFormed(r.1)
  {
    match plan
    case Reply(resp) => (resp, st)
    case Create(u) =>
      var id := st.nextId;
      (Created(id, u), State(st.users[id := u], id + 1, st.queue + Publication(brokerUp, id, u)))
  }

  /** One request: its response and the new state. */
  function Serve(st: State, req: Request, env: Env): (r: Outcome)
    ensures !env.dbUp ==> r == (Error(500, DbErrorMessage), st)
    ensures r.1 != st ==> r.0.status == 201 && ValidateNewUser(req.body, IsAdmin(req.roleHeader)).Accepted?
  {
    Apply(st, Decide(st, req, env), env.brokerUp)
  }

  // ------------------------------------------------------------------ lemmas

  /** Every request keeps the table well formed, never removes or changes a
      user, and only ever appends to the queue. */
  lemma ServeKeepsInvariant(st: State, req: Request, env: Env)
    requires WellFormed(st)
    ensures var st' := Serve(st, req, env).1;
      && WellFormed(st')
      && (forall id :: id in st.users ==> id in st'.users && st'.users[id] == st.users[id])
      && st.queue <= st'.queue
  {
  }

  /** A POST without name, email or password is refused with 400 and
      changes nothing. */
  lemma MissingFieldsRejected(st: State, req: Request, env: Env)
    requires env.dbUp && Dispatch(req.verb, RequestPath(req.uri)) == CreateUser
    requires !IsSet(req.body, "name") || !IsSet(req.body, "email") || !IsSet(req.body, "password")
    ensures Serve(st, req, env) == (Error(400, MissingFieldsMessage), st)
  {
  }

  /** A non-admin asking for a role other than "user" gets 403 and nothing
      is written; an admin gets the role asked for. */
  lemma CustomRoleNeedsAdmin(st: State, req: Request, env: Env)
    requires env.dbUp && Dispatch(req.verb, RequestPath(req.uri)) == CreateUser
    requires IsSet(req.body, "name") && IsSet(req.body, "email") && IsSet(req.body, "password")
    requires IsSet(req.body, "role") && Get(req.body, "role") != Str("user")
    ensures !IsAdmin(req.roleHeader) ==> Serve(st, req, env) == (Error(403, CustomRoleMessage), st)
    ensures IsAdmin(req.roleHeader) && env.insertFault.None? && !Get(req.body, "password").Array? && WellFormed(st) ==>
      Serve(st, req, env).1.users[st.nextId].role == Get(req.body, "role")
  {
  }

  /** A successful create adds exactly one user under the next id, answers
      201 with that id, and publishes `{user_id, email, name}` exactly when
      the broker is up. */
  lemma CreateInserts(st: State, req: Request, env: Env, u: User)
    requires WellFormed(st) && env.dbUp && env.insertFault.None?
    requires Dispatch(req.verb, RequestPath(req.uri)) == CreateUser
    requires ValidateNewUser(req.body, IsAdmin(req.roleHeader)) == Accepted(u)
    requires !Get(req.body, "password").Array?
    ensures var (resp, st') := Serve(st, req, env);
      && resp == Created(st.nextId, u)
      && st.nextId !in st.users
      && st'.users == st.users[st.nextId := u]
      && |st'.users| == |st.users| + 1
      && st'.queue == st.queue + (if env.brokerUp then [UserCreated(st.nextId, Get(req.body, "email"), Get(req.body, "name"))] else [])
  {
    assert st.nextId !in st.users;
  }

  /** Whether the broker connected changes what is published, never the
      response or the table. */
  lemma BrokerDoesNotChangeResponse(st: State, req: Request, env: Env)
    ensures var up := Serve(st, req, env.(brokerUp := true));
      var down := Serve(st, req, env.(brokerUp := false));
      up.0 == down.0 && up.1.users == down.1.users && up.1.nextId == down.1.nextId
      && down.1.queue == st.queue
  {
  }

  /** An INSERT that raises answers 500 with the exception's message and
      neither writes nor publishes: the publication follows the INSERT. */
  lemma InsertFaultPublishesNothing(st: State, req: Request, env: Env, u: User)
    requires env.dbUp && env.insertFault.Some?
    requires Dispatch(req.verb, RequestPath(req.uri)) == CreateUser
    requires ValidateNewUser(req.body, IsAdmin(req.roleHeader)) == Accepted(u)
    requires !Get(req.body, "password").Array?
    ensures Serve(st, req, env).1 == st
    ensures Serve(st, req, env).0 ==
      Response(500, Object(map["error" := Str(CreateErrorMessage), "details" := Str(env.insertFault.value)]))
  {
  }

  /** Only an admin can list users; a listing holds every user exactly once,
      in ascending id order. A SELECT that raises is not caught and ends the
      script with nothing written. */
  lemma ListingIsComplete(st: State, req: Request, env: Env)
    requires WellFormed(st) && env.dbUp && Dispatch(req.verb, RequestPath(req.uri)) == ListUsers
    ensures !IsAdmin(req.roleHeader) ==> Serve(st, req, env) == (Error(403, ListForbiddenMessage), st)
    ensures IsAdmin(req.roleHeader) && env.selectFault ==> Serve(st, req, env) == (UncaughtError, st)
    ensures IsAdmin(req.roleHeader) && !env.selectFault ==>
      var ids := OrderBy(st.users.Keys, st.nextId - 1, false);
      && Serve(st, req, env).0.status == 200
      && Serve(st, req, env).0.body == Objects(Listing(st))
      && (forall id :: id in ids <==> id in st.users)
      && (forall i, j :: 0 <= i < j < |ids| ==> ids[i] < ids[j])
      && |Listing(st)| == |ids|
      && (forall i :: 0 <= i < |ids| ==> Listing(st)[i] == UserRow(ids[i], st.users[ids[i]]))
  {
    var ids := OrderBy(st.users.Keys, st.nextId - 1, false);
    assert forall id :: id in st.users ==> id in ids;
  }

  /** Viewing one user: 403 unless the caller is an admin or claims that very
      id; otherwise the row when it exists and 404 when it does not, unless
      the SELECT raises, which the script does not catch. */
  lemma ShowAuthorised(st: State, req: Request, env: Env, id: nat)
    requires env.dbUp && Dispatch(req.verb, RequestPath(req.uri)) == ShowUser(id)
    ensures Serve(st, req, env).1 == st
    ensures !MayView(req.roleHeader, req.idHeader, id) ==> Serve(st, req, env).0 == Error(403, ViewForbiddenMessage)
    ensures MayView(req.roleHeader, req.idHeader, id) && env.selectFault ==>
      Serve(st, req, env).0 == UncaughtError
    ensures MayView(req.roleHeader, req.idHeader, id) && !env.selectFault && id in st.users ==>
      Serve(st, req, env).0 == Response(200, Object(UserRow(id, st.users[id])))
    ensures MayView(req.roleHeader, req.idHeader, id) && !env.selectFault && id !in st.users ==>
      Serve(st, req, env).0 == Error(404, UserNotFoundMessage)
  {
  }

  /** A user created by one request is returned by a later GET on
      `/users/<id>` from a caller whose X-User-Id is that id. */
  lemma {:induction false} CreatedUserVisibleToItself(st: State, create: Request, env: Env, u: User, role: Option<string>)
    requires WellFormed(st) && env.dbUp && env.insertFault.None? && !env.selectFault
    requires Dispatch(create.verb, RequestPath(create.uri)) == CreateUser
    requires ValidateNewUser(create.body, IsAdmin(create.roleHeader)) == Accepted(u)
    requires !Get(create.body, "password").Array?
    ensures var st' := Serve(st, create, env).1;
      var id := NatToString(st.nextId);
      Serve(st', Request("GET", ItemPattern + id, role, Some(id), NoDoc()), env)
        == (Response(200, Object(UserRow(st.nextId, u))), st')
  {
    ItemPathDispatch(st.nextId);
    LooselyEqualCanonical(st.nextId, st.nextId);
  }

  /** `GET /users/<id>` reaches the single-user endpoint with that id. */
  lemma ItemPathDispatch(id: nat)
    ensures Dispatch("GET", RequestPath(ItemPattern + NatToString(id))) == ShowUser(id)
  {
    var path := ItemPattern + NatToString(id);
    PatternThenId(ItemPattern, id);
    assert RequestPath(path) == path;
    assert |path| > |CollectionSlashPath|;
    ShowDispatch(path, id);
  }

  /** A GET path that names no collection and captures `id` shows user `id`. */
  lemma ShowDispatch(path: string, id: nat)
    requires |path| > |CollectionSlashPath| && MatchNumber(path, ItemPattern) == Some(id)
    ensures Dispatch("GET", path) == ShowUser(id)
  {
  }

  /** The body of a GET, which the script never reads. */
  function NoDoc(): Doc {
    Malformed
  }

  /** A password that decodes to an array makes `password_hash` raise a
      TypeError after validation and before the INSERT: the script dies,
      nothing is written and nothing is published, whatever the database
      would have done. */
  lemma ArrayPasswordWritesNothing(st: State, req: Request, env: Env)
    requires env.dbUp && Dispatch(req.verb, RequestPath(req.uri)) == CreateUser
    requires ValidateNewUser(req.body, IsAdmin(req.roleHeader)).Accepted?
    requires Get(req.body, "password").Array?
    ensures Serve(st, req, env) == (UncaughtError, st)
  {
  }

  /** Any method or path outside the three endpoints answers 404. */
  lemma UnknownEndpoint(st: State, req: Request, env: Env)
    requires env.dbUp && Dispatch(req.verb, RequestPath(req.uri)) == NoEndpoint
    ensures Serve(st, req, env) == (Error(404, NoEndpointMessage), st)
  {
  }

  // ------------------------------------------------------------------ service

  /** The service as a stateful object: the users table and auto-increment
      counter of the database, and the messages on the broker's queue. */
  class Service {
    var users: map<int, User>
    var nextId: nat
    var queue: seq<Message>

    ghost predicate Valid()
      reads this
    {
      WellFormed(State(users, nextId, queue))
    }

    function Snapshot(): State
      reads this
    {
      State(users, nextId, queue)
    }

    constructor ()
      ensures Valid() && users == map[] && nextId == 1 && queue == []
    {
      users := map[];
      nextId := 1;
      queue := [];
    }

    /** The INSERT: the row goes under the auto-increment id, which is returned. */
    method Insert(u: User) returns (id: nat)
      requires Valid()
      modifies this
      ensures Valid()
      ensures id == old(nextId) && id !in old(users)
      ensures users == old(users)[id := u] && nextId == old(nextId) + 1 && queue == old(queue)
    {
      id := nextId;
      users := users[id := u];
      nextId := nextId + 1;
    }

    /** `basic_publish`: the message joins the end of the queue. */
    method Publish(m: Message)
      requires Valid()
      modifies this
      ensures Valid()
      ensures queue == old(queue) + [m] && users == old(users) && nextId == old(nextId)
    {
      queue := queue + [m];
    }

    /** One run of the script against this database and broker. */
    method Handle(req: Request, env: Env) returns (resp: Response)
      requires Valid()
      modifies this
      ensures Valid()
      ensures (resp, Snapshot()) == Serve(old(Snapshot()), req, env)
    {
      var plan := Decide(Snapshot(), req, env);
      if plan.Reply? {
        return plan.resp;
      }
      var u := plan.user;
      var id := Insert(u);
      if env.brokerUp {
        Publish(UserCreated(id, u.email, u.name));
      }
      resp := Created(id, u);
      assert queue == old(queue) + Publication(env.brokerUp, id, u);
    }
  }
}
