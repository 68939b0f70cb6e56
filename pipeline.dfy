/** Properties that span services: what the gateway forwards, what the
    backends make of it, and how the user service's event reaches the
    notification consumer. */
module Pipeline {
  import opened Php
  import opened Json
  import opened Messaging
  import Http
  import Gateway
  import UserService
  import ProductService
  import Notification

  /** What a backend reads for header `name` (`$_SERVER['HTTP_...']`) from
      the `Name: value` lines curl sends: the value of the first line for
      that name, none when no line has it. */
  function Received(hs: seq<string>, name: string): (v: Option<string>)
    ensures v.Some? ==> exists i :: 0 <= i < |hs| && hs[i] == name + ": " + v.value
    ensures v.None? <==> forall i :: 0 <= i < |hs| ==> !StartsWith(hs[i], name + ": ")
  {
    if |hs| == 0 then None
    else if StartsWith(hs[0], name + ": ") then
      assert hs[0] == hs[0][..|name| + 2] + hs[0][|name| + 2..];
      Some(hs[0][|name| + 2..])
    else
      var v := Received(hs[1..], name);
      assert forall i :: 1 <= i < |hs| ==> hs[i] == hs[1..][i - 1];
      v
  }

  /** The X-User-Role value a backend receives from the gateway. */
  function ForwardedRole(inbound: map<string, string>, who: Gateway.Identity): Option<string> {
    Received(Gateway.ForwardHeaders(inbound, who), "X-User-Role")
  }

  /** The X-User-Id value a backend receives from the gateway. */
  function ForwardedId(inbound: map<string, string>, who: Gateway.Identity): Option<string> {
    Received(Gateway.ForwardHeaders(inbound, who), "X-User-Id")
  }

  /** Whatever Content-Type and Accept the client sends, a backend reads the
      role the gateway derived from the token, and the id exactly when the
      gateway forwards one: the client cannot smuggle either header through. */
  lemma ForwardedIdentity(inbound: map<string, string>, who: Gateway.Identity)
    ensures ForwardedRole(inbound, who) == Some(Gateway.RoleName(who.role))
    ensures ForwardedId(inbound, who) == if Gateway.ForwardsId(who) then who.id else None
  {
    ForwardedRoleLine(inbound, who);
    ForwardedIdLine(inbound, who);
  }

  /** The role line is the first line for X-User-Role. */
  lemma ForwardedRoleLine(inbound: map<string, string>, who: Gateway.Identity)
    ensures ForwardedRole(inbound, who) == Some(Gateway.RoleName(who.role))
  {
    var hs := Gateway.ForwardHeaders(inbound, who);
    var role := "X-User-Role";
    OtherLine(hs[0], role, 0);
    OtherLine(hs[1], role, 0);
    ReceivedSkip(hs, role);
    ReceivedSkip(hs[1..], role);
    ReceivedHead(hs[1..][1..], role, Gateway.RoleName(who.role));
  }

  /** The id line, when there is one, is the only line for X-User-Id. */
  lemma ForwardedIdLine(inbound: map<string, string>, who: Gateway.Identity)
    ensures ForwardedId(inbound, who) == if Gateway.ForwardsId(who) then who.id else None
  {
    var hs := Gateway.ForwardHeaders(inbound, who);
    var id := "X-User-Id";
    OtherLine(hs[0], id, 0);
    OtherLine(hs[1], id, 0);
    OtherLine(hs[2], id, 7);
    ReceivedSkip(hs, id);
    ReceivedSkip(hs[1..], id);
    ReceivedSkip(hs[1..][1..], id);
    if Gateway.ForwardsId(who) {
      ReceivedHead(hs[1..][1..][1..], id, who.id.value);
    }
  }

  /** A line that differs from `name: ` at some position is not a line for `name`. */
  lemma OtherLine(line: string, name: string, k: nat)
    requires k < |line| && k < |name| + 2 && line[k] != (name + ": ")[k]
    ensures !StartsWith(line, name + ": ")
  {
    if |name| + 2 <= |line| {
      assert line[..|name| + 2][k] == line[k];
    }
  }

  /** A line for another header is passed over. */
  lemma ReceivedSkip(hs: seq<string>, name: string)
    requires |hs| > 0 && !StartsWith(hs[0], name + ": ")
    ensures Received(hs, name) == Received(hs[1..], name)
  {
  }

  /** The first line for the header gives its value. */
  lemma ReceivedHead(hs: seq<string>, name: string, v: string)
    requires |hs| > 0 && hs[0] == name + ": " + v
    ensures Received(hs, name) == Some(v)
  {
    assert hs[0][..|name| + 2] == name + ": ";
    assert hs[0][|name| + 2..] == v;
  }


  /** Publisher and consumer declare the same durable queue, and the event is
      routed straight to it and marked persistent. */
  lemma QueueDeclarationsAgree(id: nat, email: Value, name: Value)
    ensures UserService.Declared == Notification.Declared
    ensures Notification.Declared.durable && !Notification.Declared.exclusive && !Notification.Declared.autoDelete
    ensures UserCreated(id, email, name).routingKey == Notification.Declared.name
    ensures UserCreated(id, email, name).persistent
  {
  }

  /** Every event the user service publishes leads the consumer to greet the
      new user by name at the address the user signed up with. */
  lemma PublishedUserIsGreeted(st: UserService.State, req: UserService.Request, env: UserService.Env, u: UserService.User)
    requires UserService.WellFormed(st) && env.dbUp && env.brokerUp && env.insertFault.None?
    requires UserService.Dispatch(req.verb, UserService.RequestPath(req.uri)) == UserService.CreateUser
    requires UserService.ValidateNewUser(req.body, Http.IsAdmin(req.roleHeader)) == UserService.Accepted(u)
    requires !Get(req.body, "password").Array?
    ensures var q := UserService.Serve(st, req, env).1.queue;
      && |q| == |st.queue| + 1
      && Notification.Decide(q[|q| - 1].body) == Some(Notification.Notice(Get(req.body, "email"), Get(req.body, "name")))
  {
    UserService.CreateInserts(st, req, env, u);
    var m := UserCreated(st.nextId, Get(req.body, "email"), Get(req.body, "name"));
    Notification.WellFormedIffEmail(m.body);
  }

  /** Every message on the queue is one the consumer turns into a notice. */
  ghost predicate AllNotifiable(queue: seq<Message>) {
    forall i :: 0 <= i < |queue| ==> Notification.Decide(queue[i].body).Some?
  }

  /** No request to the user service ever puts a message on the queue that
      the consumer would only warn about. */
  lemma ServeKeepsQueueNotifiable(st: UserService.State, req: UserService.Request, env: UserService.Env)
    requires AllNotifiable(st.queue)
    ensures AllNotifiable(UserService.Serve(st, req, env).1.queue)
  {
    var st' := UserService.Serve(st, req, env).1;
    if st'.queue != st.queue {
      var plan := UserService.Decide(st, req, env);
      assert plan.Create? && env.brokerUp;
      var u := plan.user;
      var m := UserCreated(st.nextId, u.email, u.name);
      assert st'.queue == st.queue + [m];
      assert u.email != Null;
      Notification.WellFormedIffEmail(m.body);
    }
  }

  /** Through the gateway, only the admin token can change the products
      table: every other Authorization value is forwarded as a non-admin
      role. */
  lemma OnlyAdminTokenWritesProducts(authorization: Option<string>, inbound: map<string, string>,
                                     t: ProductService.Table, req: ProductService.Request, db: ProductService.Db)
    requires req.roleHeader == ForwardedRole(inbound, Gateway.Identify(authorization))
    requires authorization != Some(Gateway.AdminToken)
    ensures ProductService.Serve(t, req, db).1 == t
  {
    ForwardedIdentity(inbound, Gateway.Identify(authorization));
    ProductService.NonAdminNeverWrites(t, req, db);
  }

  /** With the headers the gateway forwards, the user token may view exactly
      user 101, the admin token every user, and a caller without a known
      token exactly user 0 (PHP 8's `null == 0`), which never exists. */
  lemma ViewRightsThroughGateway(authorization: Option<string>, inbound: map<string, string>, n: nat)
    ensures var who := Gateway.Identify(authorization);
      var may := UserService.MayView(ForwardedRole(inbound, who), ForwardedId(inbound, who), n);
      && (authorization == Some(Gateway.AdminToken) ==> may)
      && (authorization == Some(Gateway.UserToken) ==> (may <==> n == 101))
      && (authorization != Some(Gateway.AdminToken) && authorization != Some(Gateway.UserToken) ==> (may <==> n == 0))
  {
    ForwardedIdentity(inbound, Gateway.Identify(authorization));
    UserIdText();
    UserService.LooselyEqualCanonical(101, n);
  }

  /** The id the gateway forwards for the user token is the decimal text of 101. */
  lemma UserIdText()
    ensures Gateway.UserId == NatToString(101)
  {
  }

  /** `/api/<collection>/<id>` reaches the backend as `/<collection>/<id>`:
      the prefix is replaced once, the id's digits contain no second copy
      of it. */
  lemma ItemPathThroughGateway(b: Gateway.Backend, id: nat, cfg: Gateway.Config, queryString: string)
    ensures var uri := Gateway.Prefix(b) + "/" + NatToString(id);
      && Gateway.Route(cfg, uri, queryString).Some?
      && Gateway.Route(cfg, uri, queryString).value.backend == b
      && Gateway.Route(cfg, uri, queryString).value.path == Gateway.Rewrite(b) + "/" + NatToString(id)
  {
    var digits := NatToString(id);
    var rest := "/" + digits;
    assert Gateway.Prefix(b) + "/" + digits == Gateway.Prefix(b) + rest;
    assert Gateway.Rewrite(b) + "/" + digits == Gateway.Rewrite(b) + rest;
    SlashIdIsPlain(id);
    PlainRoute(b, rest, cfg, queryString);
  }

  /** The routing step of ItemPathThroughGateway, for any such tail. */
  lemma PlainRoute(b: Gateway.Backend, rest: string, cfg: Gateway.Config, queryString: string)
    requires 'a' !in rest && '?' !in rest
    ensures Gateway.Route(cfg, Gateway.Prefix(b) + rest, queryString).Some?
    ensures Gateway.Route(cfg, Gateway.Prefix(b) + rest, queryString).value.backend == b
    ensures Gateway.Route(cfg, Gateway.Prefix(b) + rest, queryString).value.path == Gateway.Rewrite(b) + rest
  {
    Gateway.SinglePrefixRoute(b, rest);
  }

  /** A slash followed by an id's digits holds neither 'a' nor '?'. */
  lemma SlashIdIsPlain(id: nat)
    ensures 'a' !in "/" + NatToString(id) && '?' !in "/" + NatToString(id)
  {
    var digits := NatToString(id);
    var rest := "/" + digits;
    assert forall i :: 0 <= i < |digits| ==> IsDigit(digits[i]);
    assert forall i :: 1 <= i < |rest| ==> rest[i] == digits[i - 1];
  }

  /** `GET /api/products/<id>` through the gateway fetches row `<id>`. */
  lemma ProductFetchThroughGateway(id: nat, cfg: Gateway.Config, queryString: string)
    ensures var t := Gateway.Route(cfg, Gateway.ProductsPrefix + "/" + NatToString(id), queryString);
      t.Some? && ProductService.Dispatch("GET", t.value.path) == ProductService.Show(id)
  {
    ItemPathThroughGateway(Gateway.ProductBackend, id, cfg, queryString);
    ProductService.ItemPathDispatch("GET", id);
    assert Gateway.ProductsPath + "/" + NatToString(id) == ProductService.ItemPattern + NatToString(id);
  }

  /** `GET /api/users/<id>` through the gateway asks for user `<id>`. */
  lemma UserFetchThroughGateway(id: nat, cfg: Gateway.Config, queryString: string)
    ensures var t := Gateway.Route(cfg, Gateway.UsersPrefix + "/" + NatToString(id), queryString);
      t.Some? && UserService.Dispatch("GET", UserService.RequestPath(t.value.path)) == UserService.ShowUser(id)
  {
    ItemPathThroughGateway(Gateway.UserBackend, id, cfg, queryString);
    UserService.ItemPathDispatch(id);
    assert Gateway.UsersPath + "/" + NatToString(id) == UserService.ItemPattern + NatToString(id);
  }
}
