/** The API gateway script: simulated identity from the Authorization header,
    prefix routing to the user or product service, target URL composition,
    forward headers, and translation of the transfer result into the
    response. Environment variables, request superglobals and curl are
    parameters; curl itself is the function `transport`. */
module Gateway {
  import opened Php
  import opened Json
  import opened Http

  const UsersPrefix := "/api/users"
  const UsersPath := "/users"
  const ProductsPrefix := "/api/products"
  const ProductsPath := "/products"

  const DefaultUserServiceUrl := "http://user_service_app/index.php"
  const DefaultProductServiceUrl := "http://product_service_app/index.php"

  const AdminToken := "Bearer admin-token"
  const UserToken := "Bearer user-token"
  const AdminId := "100"
  const UserId := "101"

  const DefaultMediaType := "application/json"
  const NotFoundMessage := "Endpoint not found in API Gateway"
  const BackendFailureMessage := "Failed to connect to backend service"

  datatype Config = Config(userServiceUrl: string, productServiceUrl: string)

  /** `getenv($name) ?: $default`: an unset variable, and one whose value PHP
      counts as false ("" or "0"), falls back to the default. */
  function EnvOr(value: Option<string>, default: string): (v: string)
    ensures v == default || (value.Some? && v == value.value && !EmptyString(v))
    ensures value.Some? && !EmptyString(value.value) ==> v == value.value
  {
    if value.Some? && !EmptyString(value.value) then value.value else default
  }

  /** The two backend base URLs, from USER_SERVICE_URL and PRODUCT_SERVICE_URL. */
  function LoadConfig(userEnv: Option<string>, productEnv: Option<string>): (cfg: Config)
    ensures !EmptyString(cfg.userServiceUrl) && !EmptyString(cfg.productServiceUrl)
    ensures userEnv.None? ==> cfg.userServiceUrl == DefaultUserServiceUrl
    ensures productEnv.None? ==> cfg.productServiceUrl == DefaultProductServiceUrl
    ensures userEnv.Some? && !EmptyString(userEnv.value) ==> cfg.userServiceUrl == userEnv.value
    ensures productEnv.Some? && !EmptyString(productEnv.value) ==> cfg.productServiceUrl == productEnv.value
  {
    Config(EnvOr(userEnv, DefaultUserServiceUrl), EnvOr(productEnv, DefaultProductServiceUrl))
  }

  /** `$headers[$name]` when the client sent that header. */
  function Header(headers: map<string, string>, name: string): Option<string> {
    if name in headers then Some(headers[name]) else None
  }

  /** `$headers[$name] ?? $default`. */
  function HeaderOr(headers: map<string, string>, name: string, default: string): string {
    Header(headers, name).GetOr(default)
  }

  // ---------------------------------------------------------------- identity

  datatype Role = Guest | User | Admin

  /** The value forwarded in X-User-Role. */
  function RoleName(r: Role): string {
    match r
    case Guest => "guest"
    case User => "user"
    case Admin => "admin"
  }

  datatype Identity = Identity(role: Role, id: Option<string>)

  /** The token simulation: an exact match on one of two literal tokens
      selects a role and a fixed id; any other value, or no Authorization
      header at all, is a guest without an id. */
  function Identify(authorization: Option<string>): (who: Identity)
    ensures who.role == Admin <==> authorization == Some(AdminToken)
    ensures who.role == User <==> authorization == Some(UserToken)
    ensures who.role == Admin ==> who.id == Some(AdminId)
    ensures who.role == User ==> who.id == Some(UserId)
    ensures who.role == Guest ==> who.id == None
  {
    if authorization == Some(AdminToken) then Identity(Admin, Some(AdminId))
    else if authorization == Some(UserToken) then Identity(User, Some(UserId))
    else Identity(Guest, None)
  }

  // ----------------------------------------------------------------- routing

  datatype Backend = UserBackend | ProductBackend

  function Prefix(b: Backend): string {
    match b
    case UserBackend => UsersPrefix
    case ProductBackend => ProductsPrefix
  }

  function Rewrite(b: Backend): string {
    match b
    case UserBackend => UsersPath
    case ProductBackend => ProductsPath
  }

  function BaseUrl(cfg: Config, b: Backend): string {
    match b
    case UserBackend => cfg.userServiceUrl
    case ProductBackend => cfg.productServiceUrl
  }

  /** The two `strpos($requestUri, ...) === 0` tests, users first. The test
      has no segment boundary and runs on the raw URI, query included. */
  function Resolve(uri: string): (b: Option<Backend>)
    ensures b == Some(UserBackend) <==> StartsWith(uri, UsersPrefix)
    ensures b == Some(ProductBackend) <==> StartsWith(uri, ProductsPrefix) && !StartsWith(uri, UsersPrefix)
    ensures b == None <==> !StartsWith(uri, UsersPrefix) && !StartsWith(uri, ProductsPrefix)
  {
    if StartsWith(uri, UsersPrefix) then Some(UserBackend)
    else if StartsWith(uri, ProductsPrefix) then Some(ProductBackend)
    else None
  }

  /** `$pathInfo`: `str_replace` of every occurrence of the prefix by the
      backend path, then cut before the first '?'. */
  function BackendPath(uri: string, b: Backend): (path: string)
    ensures '?' !in path && path <= ReplaceAll(uri, Prefix(b), Rewrite(b))
  {
    StripQuery(ReplaceAll(uri, Prefix(b), Rewrite(b)))
  }

  /** What `.= '?' . $_SERVER['QUERY_STRING']` adds: nothing when the query
      string is `empty()` (unset, "" or "0"), else '?' and the string verbatim. */
  function QuerySuffix(queryString: string): (suffix: string)
    ensures suffix == "" <==> EmptyString(queryString)
    ensures suffix != "" ==> suffix[0] == '?' && suffix[1..] == queryString
  {
    if EmptyString(queryString) then "" else "?" + queryString
  }

  datatype Target = Target(backend: Backend, path: string, url: string)

  /** The routing block: the backend chosen, the path it is given and the
      full target URL; none for a URI that matches neither prefix. */
  function Route(cfg: Config, uri: string, queryString: string): (t: Option<Target>)
    ensures t.None? <==> Resolve(uri).None?
    ensures t.Some? ==>
      && t.value.backend == Resolve(uri).value
      && t.value.path == BackendPath(uri, t.value.backend)
      && t.value.url == BaseUrl(cfg, t.value.backend) + t.value.path + QuerySuffix(queryString)
  {
    match Resolve(uri)
    case None => None
    case Some(b) =>
      var path := BackendPath(uri, b);
      Some(Target(b, path, BaseUrl(cfg, b) + path + QuerySuffix(queryString)))
  }

  /** No URI starts with both prefixes, so the users-first order decides
      nothing: each prefix alone determines the backend. */
  lemma PrefixesExclusive(uri: string)
    ensures StartsWith(uri, UsersPrefix) ==> !StartsWith(uri, ProductsPrefix)
  {
    if StartsWith(uri, UsersPrefix) {
      assert uri[5] == UsersPrefix[5] == 'u';
    }
  }

  /** Matching on the raw URI, as the gateway does, agrees with matching on
      the URI with its query string cut off first. */
  lemma {:induction false} MatchIgnoresQuery(uri: string, prefix: string)
    requires '?' !in prefix
    ensures StartsWith(uri, prefix) <==> StartsWith(StripQuery(uri), prefix)
  {
    if StartsWith(uri, prefix) {
      assert forall i :: 0 <= i < |prefix| ==> uri[i] == prefix[i] != '?';
    }
  }

  /** The path a backend receives starts with that backend's own path and
      never holds a '?'. */
  lemma {:induction false} BackendPathShape(uri: string, b: Backend)
    requires StartsWith(uri, Prefix(b))
    ensures StartsWith(BackendPath(uri, b), Rewrite(b))
    ensures '?' !in BackendPath(uri, b)
  {
    var n := |Prefix(b)|;
    var rest := ReplaceAll(uri[n..], Prefix(b), Rewrite(b));
    assert ReplaceAll(uri, Prefix(b), Rewrite(b)) == Rewrite(b) + rest;
    var p := BackendPath(uri, b);
    var w := Rewrite(b);
    assert forall i :: 0 <= i < |w| ==> (w + rest)[i] != '?';
    assert |p| >= |w|;
    assert p[..|w|] == (w + rest)[..|w|] == w;
  }

  /** Whatever follows the first '?' of the URI never reaches the backend
      path: the path is the rewrite of the query-free part of the URI. */
  lemma {:induction false} BackendPathIgnoresQuery(uri: string, b: Backend)
    ensures BackendPath(uri, b) == ReplaceAll(StripQuery(uri), Prefix(b), Rewrite(b))
  {
    var prefix, w := Prefix(b), Rewrite(b);
    if '?' in uri {
      var a := StripQuery(uri);
      var rest := uri[|a| + 1..];
      StripQuerySplit(uri);
      ReplaceAllSplit(a, '?', rest, prefix, w);
      ReplaceAllKeepsOut(a, prefix, w, '?');
      StripQueryAt(ReplaceAll(a, prefix, w), ReplaceAll(rest, prefix, w));
      assert ReplaceAll(uri, prefix, w) == ReplaceAll(a, prefix, w) + ['?'] + ReplaceAll(rest, prefix, w);
    } else {
      ReplaceAllKeepsOut(uri, prefix, w, '?');
    }
  }

  /** The target URL holds a '?' after the base URL exactly when a
      non-empty query string was appended, and then ends with it verbatim. */
  lemma {:induction false} TargetQuery(cfg: Config, uri: string, queryString: string, t: Target)
    requires Route(cfg, uri, queryString) == Some(t)
    ensures '?' in t.url[|BaseUrl(cfg, t.backend)|..] <==> !EmptyString(queryString)
    ensures !EmptyString(queryString) ==> t.url[|BaseUrl(cfg, t.backend)|..] == t.path + "?" + queryString
  {
    assert t.path == StripQuery(ReplaceAll(uri, Prefix(t.backend), Rewrite(t.backend)));
    UrlTail(BaseUrl(cfg, t.backend), t.path, queryString);
  }

  lemma UrlTail(base: string, path: string, queryString: string)
    requires '?' !in path
    ensures var tail := (base + path + QuerySuffix(queryString))[|base|..];
      && ('?' in tail <==> !EmptyString(queryString))
      && (!EmptyString(queryString) ==> tail == path + "?" + queryString)
  {
    var tail := (base + path + QuerySuffix(queryString))[|base|..];
    assert tail == path + QuerySuffix(queryString);
    if !EmptyString(queryString) {
      assert tail[|path|] == '?';
    }
  }

  /** A URI made of one copy of a prefix followed by text without '?' and
      without the letter 'a' (which both prefixes hold) goes to that backend
      with only the prefix rewritten. */
  lemma {:induction false} SinglePrefixRoute(b: Backend, rest: string)
    requires 'a' !in rest && '?' !in rest
    ensures Resolve(Prefix(b) + rest) == Some(b)
    ensures BackendPath(Prefix(b) + rest, b) == Rewrite(b) + rest
  {
    var uri := Prefix(b) + rest;
    assert uri[..|Prefix(b)|] == Prefix(b);
    PrefixesExclusive(uri);
    if b == ProductBackend {
      assert uri[5] == 'p';
    }
    ReplaceAllLeading(Prefix(b), rest, Rewrite(b));
    assert Prefix(b)[1] == 'a';
    ReplaceAllForeign(rest, Prefix(b), Rewrite(b), 'a');
    assert '?' !in Rewrite(b);
    ConcatLacks(Rewrite(b), rest, '?');
  }

  /** A character missing from both halves is missing from their concatenation. */
  lemma ConcatLacks(x: string, y: string, c: char)
    requires c !in x && c !in y
    ensures c !in x + y
  {
    assert forall i :: 0 <= i < |x + y| ==> (x + y)[i] == if i < |x| then x[i] else y[i - |x|];
  }

  /** `str_replace` rewrites every occurrence of the prefix, not only the
      leading one: a URI that repeats the prefix loses both copies. */
  lemma EveryOccurrenceRewritten()
    ensures Resolve("/api/users/api/users") == Some(UserBackend)
    ensures BackendPath("/api/users/api/users", UserBackend) == "/users/users"
  {
    var u, w := UsersPrefix, UsersPath;
    assert "/api/users/api/users" == u + (u + "");
    assert StartsWith(u + (u + ""), u);
    ReplaceAllLeading(u, u + "", w);
    ReplaceAllLeading(u, "", w);
    assert w + (w + "") == "/users/users";
    assert '?' !in "/users/users";
    assert "/api/users/api/users"[..|u|] == u;
  }

  /** The prefix test has no segment boundary: "/api/usersX" goes to the
      user service as the path "/usersX". */
  lemma NoSegmentBoundary()
    ensures Resolve("/api/usersX") == Some(UserBackend)
    ensures BackendPath("/api/usersX", UserBackend) == "/usersX"
  {
    var u, w := UsersPrefix, UsersPath;
    assert "/api/usersX" == u + "X";
    assert StartsWith(u + "X", u);
    ReplaceAllLeading(u, "X", w);
    ReplaceAllShort("X", u, w);
    assert w + "X" == "/usersX";
    assert '?' !in "/usersX";

  }

  /** A query string of "0" is `empty()` in PHP and is not forwarded. */
  lemma ZeroQueryDropped(cfg: Config)
    ensures Route(cfg, "/api/products", "0").Some?
    ensures Route(cfg, "/api/products", "0").value.url == cfg.productServiceUrl + "/products"
  {
    var p, w := ProductsPrefix, ProductsPath;
    assert p == p + "";
    assert StartsWith(p + "", p);
    PrefixesExclusive(p);
    ReplaceAllLeading(p, "", w);
    ReplaceAllShort("", p, w);
    assert '?' !in w;
    assert Resolve(p) == Some(ProductBackend);
    assert BackendPath(p, ProductBackend) == w;
    assert QuerySuffix("0") == "";
    assert cfg.productServiceUrl + w + "" == cfg.productServiceUrl + w;
  }

  // ------------------------------------------------------------- forwarding

  /** `if ($simulatedUserId)`: the id is forwarded when it is set and PHP
      counts it as true. */
  function ForwardsId(who: Identity): (b: bool)
    ensures b ==> who.id.Some? && who.id.value != "" && who.id.value != "0"
  {
    who.id.Some? && !EmptyString(who.id.value)
  }

  /** `$forwardHeaders`: Content-Type and Accept as the client sent them
      (application/json when absent), the role, then the id when there is
      one. Nothing else the client sends is forwarded. */
  function ForwardHeaders(inbound: map<string, string>, who: Identity): (hs: seq<string>)
    ensures |hs| == if ForwardsId(who) then 4 else 3
    ensures hs[0] == "Content-Type: " + HeaderOr(inbound, "Content-Type", DefaultMediaType)
    ensures hs[1] == "Accept: " + HeaderOr(inbound, "Accept", DefaultMediaType)
    ensures hs[2] == "X-User-Role: " + RoleName(who.role)
    ensures ForwardsId(who) ==> hs[3] == "X-User-Id: " + who.id.value
  {
    var fixed := [
      "Content-Type: " + HeaderOr(inbound, "Content-Type", DefaultMediaType),
      "Accept: " + HeaderOr(inbound, "Accept", DefaultMediaType),
      "X-User-Role: " + RoleName(who.role)
    ];
    if ForwardsId(who) then fixed + ["X-User-Id: " + who.id.value] else fixed
  }

  /** The script builds the list by appending the id line to the three
      fixed lines. */
  method BuildForwardHeaders(inbound: map<string, string>, who: Identity) returns (hs: seq<string>)
    ensures hs == ForwardHeaders(inbound, who)
  {
    hs := [
      "Content-Type: " + HeaderOr(inbound, "Content-Type", DefaultMediaType),
      "Accept: " + HeaderOr(inbound, "Accept", DefaultMediaType),
      "X-User-Role: " + RoleName(who.role)
    ];
    if ForwardsId(who) {
      hs := hs + ["X-User-Id: " + who.id.value];
    }
  }

  /** Only the two known tokens make the gateway forward an X-User-Id, so the
      forwarded list has four entries for them and three for everyone else. */
  lemma ForwardsIdExactlyForTokens(authorization: Option<string>)
    ensures ForwardsId(Identify(authorization))
        <==> authorization == Some(AdminToken) || authorization == Some(UserToken)
  {
  }

  /** What curl reports: `curl_exec` (none when it returned false),
      `CURLINFO_HTTP_CODE` and `curl_error` ("" when there was no error). */
  datatype Transfer = Transfer(output: Option<string>, httpCode: int, error: string)

  /** The response of the gateway: 502 with the error and its details when
      curl reports an error PHP counts as true; otherwise the backend's
      status, and its output echoed unchanged (with CURLOPT_HEADER on, that
      output is the backend's status line and headers followed by its body). */
  function Respond(x: Transfer): (r: Response)
    ensures !EmptyString(x.error) ==>
      && r.status == 502
      && r.body == Object(map["error" := Str(BackendFailureMessage), "details" := Str(x.error)])
    ensures EmptyString(x.error) ==> r.status == x.httpCode && r.body == Raw(x.output.GetOr(""))
  {
    if !EmptyString(x.error) then
      Response(502, Object(map["error" := Str(BackendFailureMessage), "details" := Str(x.error)]))
    else
      Response(x.httpCode, Raw(x.output.GetOr("")))
  }

  /** The inbound request, as `$_SERVER`, `php://input` and `getallheaders()` give it. */
  datatype Request = Request(verb: string, uri: string, queryString: string, headers: map<string, string>, body: string)

  /** The request handed to curl. `includeHeaders` is CURLOPT_HEADER. */
  datatype Outbound = Outbound(verb: string, url: string, headers: seq<string>, body: string, includeHeaders: bool)

  /** The whole gateway script. `transport` stands for curl: it is called at
      most once, with the outbound request, and only for a routable URI. */
  method Handle(cfg: Config, req: Request, transport: Outbound -> Transfer) returns (resp: Response, sent: Option<Outbound>)
    ensures Route(cfg, req.uri, req.queryString).None? ==>
      sent.None? && resp == Error(404, NotFoundMessage)
    ensures Route(cfg, req.uri, req.queryString).Some? ==>
      && sent.Some?
      && sent.value.url == Route(cfg, req.uri, req.queryString).value.url
      && sent.value.verb == req.verb
      && sent.value.body == req.body
      && sent.value.includeHeaders
      && sent.value.headers == ForwardHeaders(req.headers, Identify(Header(req.headers, "Authorization")))
      && resp == Respond(transport(sent.value))
  {
    var who := Identify(Header(req.headers, "Authorization"));
    var target := Route(cfg, req.uri, req.queryString);
    if target.None? {
      return Error(404, NotFoundMessage), None;
    }
    var headers := BuildForwardHeaders(req.headers, who);
    var out := Outbound(req.verb, target.value.url, headers, req.body, true);
    resp := Respond(transport(out));
    sent := Some(out);
  }
}
