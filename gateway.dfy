/** The gateway application: the route table's handlers put together. A
    request is resolved against the table; a proxying handler forwards it
    through `proxy_request` to its service, the health, preflight and
    welcome handlers answer by themselves, and an unresolved request gets
    the framework's 404 or 405 page. */
module Gateway {
  import opened Text
  import opened HeaderMaps
  import opened Routing
  import opened Proxy

  const HealthReply := Reply(200, [], JsonReply(JObject([("status", JString("ok")), ("gateway", JBool(true))])))

  const MaxAge := "Access-Control-Max-Age"

  const PreflightHeaders: Headers := [
    (AllowOrigin, "*"),
    (AllowMethods, AllowedMethodsValue),
    (AllowHeaders, AllowedHeadersValue),
    (MaxAge, "86400")
  ]

  const PreflightReply := Reply(200, PreflightHeaders, EmptyReply)

  /** The welcome page: plain text with only the origin header. */
  const WelcomeReply := Reply(200, [(AllowOrigin, "*")], TextPage)

  /** The handlers that answer without calling a service. */
  function FixedReply(h: Handler): Reply
  {
    match h
    case Health => HealthReply
    case Preflight => PreflightReply
    case _ => WelcomeReply
  }

  /** The reply of the gateway to one request. */
  function Handle(req: Inbound, decode: seq<byte> -> Option<Json>, upstream: UpstreamRequest -> Outcome): Reply
  {
    match Lookup(req.verb, req.path)
    case NotFound => Reply(404, [], FrameworkPage)
    case MethodNotAllowed => Reply(405, [], FrameworkPage)
    case Matched(handler, captures) =>
      match Rewrite(handler, captures)
      case Some(target) => ProxyResult(BaseUrl(target.upstream), target.path, req.verb, req, decode, upstream)
      case None => FixedReply(handler)
  }

  /** `GET /health` answers `{"status": "ok", "gateway": true}` without
      calling any service. */
  lemma HealthCheck(req: Inbound, decode: seq<byte> -> Option<Json>, upstream: UpstreamRequest -> Outcome)
    requires req.verb == "GET" && req.path == "/health"
    ensures Handle(req, decode, upstream) == HealthReply
  {
    assert FirstAccepting(Table, "GET", "/health", 0);
    ResolveFirst(Table, "GET", "/health", 0);
  }

  /** A preflight outside the auth prefix is answered 200 with the four CORS
      headers, the preflight cached for a day, without calling any service. */
  lemma PreflightAnswered(req: Inbound, decode: seq<byte> -> Option<Json>, upstream: UpstreamRequest -> Outcome)
    requires req.verb == "OPTIONS" && StartsWith(req.path, "/") && !IsAuthPath(req.path)
    ensures Handle(req, decode, upstream) == PreflightReply
    ensures Get(PreflightReply.headers, AllowOrigin) == Some("*")
    ensures Get(PreflightReply.headers, MaxAge) == Some("86400")
  {
    PreflightRoute(req.path);
    var h := PreflightHeaders;
    assert h[..3] == [(AllowOrigin, "*"), (AllowMethods, AllowedMethodsValue), (AllowHeaders, AllowedHeadersValue)];
    assert h[..3][..2] == [(AllowOrigin, "*"), (AllowMethods, AllowedMethodsValue)];
    assert h[..3][..2][..1] == [(AllowOrigin, "*")];
    assert |MaxAge| != |AllowOrigin| && |AllowHeaders| != |AllowOrigin| && |AllowMethods| != |AllowOrigin|;
    assert Get(h, AllowOrigin) == Get(h[..3], AllowOrigin);
    assert Get(h[..3], AllowOrigin) == Get(h[..3][..2], AllowOrigin);
    assert Get(h[..3][..2], AllowOrigin) == Get(h[..3][..2][..1], AllowOrigin);
  }

  /** A preflight on an auth path is proxied with the method OPTIONS, which
      `proxy_request` refuses: the browser gets a 405 without any CORS
      header. */
  lemma AuthPreflightRefused(req: Inbound, decode: seq<byte> -> Option<Json>, upstream: UpstreamRequest -> Outcome)
    requires req.verb == "OPTIONS" && IsAuthPath(req.path)
    ensures Handle(req, decode, upstream) == JsonError(405, "Unsupported method")
    ensures Get(Handle(req, decode, upstream).headers, AllowOrigin).None?
  {
    AuthPreflightProxied(req.path);
    if req.path == "/api/auth" {
      AuthRootRoute("OPTIONS");
    } else {
      assert "/api/auth/" + req.path[|"/api/auth/"|..] == req.path;
      AuthPathRoute("OPTIONS", req.path[|"/api/auth/"|..]);
    }
  }

  /** Every path under `/api/auth/` reaches the auth service unchanged,
      whatever the method. */
  lemma AuthForwarded(req: Inbound, rest: string, decode: seq<byte> -> Option<Json>, upstream: UpstreamRequest -> Outcome)
    requires req.path == "/api/auth/" + rest
    ensures Handle(req, decode, upstream) ==
      ProxyResult(BaseUrl(AuthService), "/api/auth/" + rest, req.verb, req, decode, upstream)
  {
    AuthPathRoute(req.verb, rest);
  }

  /** `/api/auth` reaches the auth service with the trailing slash added. */
  lemma AuthRootForwarded(req: Inbound, decode: seq<byte> -> Option<Json>, upstream: UpstreamRequest -> Outcome)
    requires req.path == "/api/auth"
    ensures Handle(req, decode, upstream) ==
      ProxyResult(BaseUrl(AuthService), "/api/auth/", req.verb, req, decode, upstream)
  {
    AuthRootRoute(req.verb);
  }

  /** Paths under `/api/media/`, and `/api/media` itself, reach the backend
      unchanged for every method but OPTIONS. */
  lemma MediaForwarded(req: Inbound, rest: string, decode: seq<byte> -> Option<Json>, upstream: UpstreamRequest -> Outcome)
    requires req.verb != "OPTIONS"
    ensures req.path == "/api/media/" + rest ==> (Handle(req, decode, upstream) ==
      ProxyResult(BaseUrl(BackendService), "/api/media/" + rest, req.verb, req, decode, upstream))
    ensures req.path == "/api/media" ==> (Handle(req, decode, upstream) ==
      ProxyResult(BaseUrl(BackendService), "/api/media", req.verb, req, decode, upstream))
  {
    MediaPathRoute(req.verb, rest);
    MediaRootRoute(req.verb);
  }

  /** `GET /media/{type}/{filename}` reaches the backend at the same path;
      another method on such a path is the framework's 405, except OPTIONS,
      which the preflight handler answers. */
  lemma MediaFileForwarded(req: Inbound, kind: string, filename: string,
                           decode: seq<byte> -> Option<Json>, upstream: UpstreamRequest -> Outcome)
    requires IsSegment(kind) && IsSegment(filename) && req.path == "/media/" + kind + "/" + filename
    ensures req.verb == "GET" ==> (Handle(req, decode, upstream) ==
      ProxyResult(BaseUrl(BackendService), req.path, "GET", req, decode, upstream))
    ensures req.verb != "GET" && req.verb != "OPTIONS" ==> Handle(req, decode, upstream) == Reply(405, [], FrameworkPage)
  {
    MediaFileRoute(req.verb, kind, filename);
  }

  /** The framework's own page is sent exactly when no route accepts the
      request, and it is a 404 exactly when the path does not begin with
      '/': any other unrouted path matches the preflight pattern, so a
      request to an unknown path is a 405, not a 404. */
  lemma FrameworkAnswers(req: Inbound, decode: seq<byte> -> Option<Json>, upstream: UpstreamRequest -> Outcome)
    ensures Handle(req, decode, upstream).body.FrameworkPage? <==> !Lookup(req.verb, req.path).Matched?
    ensures Handle(req, decode, upstream).body.FrameworkPage? ==>
      (Handle(req, decode, upstream).status == 404 <==> !StartsWith(req.path, "/"))
  {
    NotFoundExactly(req.verb, req.path);
    var r := Lookup(req.verb, req.path);
    if r.Matched? && Rewrite(r.handler, r.captures).Some? {
      var target := Rewrite(r.handler, r.captures).value;
      ProxyAnswers(BaseUrl(target.upstream), target.path, req.verb, req, decode, upstream);
    }
  }

  /** When a service refuses connections, every request forwarded to it is
      answered 503 naming that service: every request but one whose
      non-empty JSON body does not decode, which is refused before any
      connection is tried. */
  lemma ServiceDown(req: Inbound, decode: seq<byte> -> Option<Json>, upstream: UpstreamRequest -> Outcome)
    requires Lookup(req.verb, req.path).Matched?
    requires var m := Lookup(req.verb, req.path); Rewrite(m.handler, m.captures).Some?
    requires forall q :: upstream(q) == ConnectFailed
    requires req.verb in Proxied
    requires !(req.verb in {"POST", "PUT", "PATCH"} && !StartsWith(ContentType(req), "multipart/") &&
               Contains(ContentType(req), "application/json") && |req.body| > 0 && decode(req.body).None?)
    ensures var m := Lookup(req.verb, req.path);
      Handle(req, decode, upstream) ==
      JsonError(503, "Service unavailable: " + BaseUrl(Rewrite(m.handler, m.captures).value.upstream))
  {
    var m := Lookup(req.verb, req.path);
    var t := Rewrite(m.handler, m.captures).value;
    RejectedExactly(BaseUrl(t.upstream), t.path, req.verb, req, decode);
  }

  /** `GET /api/media` while the backend is down: 503 naming the backend,
      whatever the body decoder would say. */
  lemma ListingWhileBackendDown(req: Inbound, decode: seq<byte> -> Option<Json>, upstream: UpstreamRequest -> Outcome)
    requires req.verb == "GET" && req.path == "/api/media"
    requires forall q :: upstream(q) == ConnectFailed
    ensures Handle(req, decode, upstream) == JsonError(503, "Service unavailable: " + BaseUrl(BackendService))
  {
    MediaRootRoute("GET");
    ServiceDown(req, decode, upstream);
  }

  /** A JSON login through the gateway: the auth service's 201 and its body
      come back unchanged, with the CORS headers. */
  lemma LoginScenario(req: Inbound, decode: seq<byte> -> Option<Json>, upstream: UpstreamRequest -> Outcome,
                      headers: Headers, body: seq<byte>)
    requires req.verb == "POST" && req.path == "/api/auth/login/"
    requires !StartsWith(ContentType(req), "multipart/") && Contains(ContentType(req), "application/json")
    requires |req.body| == 0 || decode(req.body).Some?
    requires |body| > 0 && forall q :: upstream(q) == Responded(201, headers, body)
    ensures Handle(req, decode, upstream).status == 201
    ensures Handle(req, decode, upstream).body == BytesReply(body)
    ensures Get(Handle(req, decode, upstream).headers, AllowOrigin) == Some("*")
  {
    assert "/api/auth/" + "login/" == req.path;
    AuthForwarded(req, "login/", decode, upstream);
    var url := BaseUrl(AuthService);
    JsonBody(url, req.path, req.verb, req, decode, upstream);
    ReplyHeadersGet(headers, AllowOrigin);
  }
}
