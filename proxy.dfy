/** `proxy_request`: how the gateway turns one inbound request into one
    upstream request, and the upstream's answer (or failure) into the reply
    sent back to the client.

    The upstream call is a parameter `upstream` from the request sent to the
    outcome received, so that "no upstream call is made" reads as "the reply
    does not depend on `upstream`". Decoding a body as UTF-8 and parsing it as
    JSON is the parameter `decode`, which yields `None` when either step
    fails. */
module Proxy {
  import opened Text
  import opened HeaderMaps

  /** A JSON value as `json.loads` returns it. */
  datatype Json =
    | JNull
    | JBool(b: bool)
    | JNumber(n: int)
    | JString(s: string)
    | JArray(items: seq<Json>)
    | JObject(members: seq<(string, Json)>)

  /** The parts of an inbound request the proxy reads. */
  datatype Inbound = Inbound(
    verb: string,
    path: string,
    query: seq<(string, string)>,
    headers: Headers,
    body: seq<byte>)

  /** What the upstream request carries: nothing (`session.get`,
      `session.delete`, or `json=None`, which the client library treats as
      no body), bytes passed through (`data=`), or a JSON value that the
      client library serialises (`json=`). */
  datatype Payload = NoPayload | RawPayload(bytes: seq<byte>) | JsonPayload(json: Json)

  datatype UpstreamRequest = UpstreamRequest(
    verb: string,
    url: string,
    query: seq<(string, string)>,
    headers: Headers,
    payload: Payload)

  /** What the upstream call produced: a response, a refused connection, or
      any other exception together with its text. */
  datatype Outcome =
    | Responded(status: int, headers: Headers, body: seq<byte>)
    | ConnectFailed
    | Raised(message: string)

  /** A reply body: a JSON document (`web.json_response`, which also sets
      the JSON content type), bytes, nothing, the welcome text page, or the
      framework's own 404/405 page. */
  datatype ReplyBody = JsonReply(json: Json) | BytesReply(bytes: seq<byte>) | EmptyReply | TextPage | FrameworkPage

  datatype Reply = Reply(status: int, headers: Headers, body: ReplyBody)

  /** Request headers not copied upstream (compared lower-cased). */
  const HopByHop: set<string> := {"transfer-encoding", "host", "content-length"}

  /** Upstream response headers not copied back (compared lower-cased). */
  const StrippedOnReply: set<string> := {"content-encoding", "content-length", "transfer-encoding"}

  const AllowOrigin := "Access-Control-Allow-Origin"
  const AllowMethods := "Access-Control-Allow-Methods"
  const AllowHeaders := "Access-Control-Allow-Headers"
  const AllowedMethodsValue := "GET, POST, PUT, DELETE, OPTIONS"
  const AllowedHeadersValue := "Content-Type, Authorization"

  const Proxied: set<string> := {"GET", "POST", "PUT", "PATCH", "DELETE"}

  function JsonError(status: int, message: string): Reply
  {
    Reply(status, [], JsonReply(JObject([("error", JString(message))])))
  }

  const NoData := Reply(204, [], JsonReply(JObject([("message", JString("No data available"))])))

  /** The headers sent upstream: a dict of the inbound headers without the
      hop-by-hop ones, plus `X-Forwarded-Host` carrying the inbound Host. */
  function ForwardHeaders(inbound: Headers): (d: Headers)
    ensures IsDict(d)
  {
    var base := FromItems(FilterOut(inbound, HopByHop));
    match CIGet(inbound, "host")
    case Some(host) => Set(base, "X-Forwarded-Host", host)
    case None => base
  }

  /** The headers of a forwarded reply: `dict` of the upstream headers,
      without the stripped ones, with the three CORS headers set. */
  function ReplyHeaders(upstream: Headers): (d: Headers)
    ensures IsDict(d)
  {
    var kept := FromItems(FilterOut(DictOf(upstream), StrippedOnReply));
    Set(Set(Set(kept, AllowOrigin, "*"), AllowMethods, AllowedMethodsValue), AllowHeaders, AllowedHeadersValue)
  }

  function ContentType(req: Inbound): string
  {
    match CIGet(req.headers, "Content-Type")
    case Some(ct) => ct
    case None => ""
  }

  datatype Plan = Reject(reply: Reply) | Forward(request: UpstreamRequest)

  /** The request side of `proxy_request`: method check and body strategy. */
  function PlanRequest(serviceUrl: string, path: string, verb: string, req: Inbound, decode: seq<byte> -> Option<Json>): Plan
  {
    var url := serviceUrl + path;
    var headers := ForwardHeaders(req.headers);
    if verb == "GET" then
      Forward(UpstreamRequest(verb, url, req.query, headers, NoPayload))
    else if verb == "POST" || verb == "PUT" || verb == "PATCH" then
      var contentType := ContentType(req);
      if StartsWith(contentType, "multipart/") then
        Forward(UpstreamRequest(verb, url, [], Set(headers, "Content-Type", contentType), RawPayload(req.body)))
      else if Contains(contentType, "application/json") then
        if |req.body| == 0 then
          Forward(UpstreamRequest(verb, url, [], headers, JsonPayload(JObject([]))))
        else match decode(req.body)
          case None => Reject(JsonError(400, "Invalid JSON"))
          case Some(json) => Forward(UpstreamRequest(verb, url, [], headers, JsonBodyOf(json)))
      else
        Forward(UpstreamRequest(verb, url, [], headers, RawPayload(req.body)))
    else if verb == "DELETE" then
      Forward(UpstreamRequest(verb, url, [], headers, NoPayload))
    else
      Reject(JsonError(405, "Unsupported method"))
  }

  /** `json=value`: a JSON `null` is `None` in Python, which sends nothing. */
  function JsonBodyOf(json: Json): Payload
  {
    if json.JNull? then NoPayload else JsonPayload(json)
  }

  /** The response side of `proxy_request`. */
  function Translate(serviceUrl: string, outcome: Outcome): Reply
  {
    match outcome
    case Responded(status, headers, body) =>
      if |body| == 0 then NoData else Reply(status, ReplyHeaders(headers), BytesReply(body))
    case ConnectFailed => JsonError(503, "Service unavailable: " + serviceUrl)
    case Raised(message) => JsonError(500, message)
  }

  /** The whole of `proxy_request`. */
  function ProxyResult(serviceUrl: string, path: string, verb: string, req: Inbound,
                       decode: seq<byte> -> Option<Json>, upstream: UpstreamRequest -> Outcome): Reply
  {
    match PlanRequest(serviceUrl, path, verb, req, decode)
    case Reject(reply) => reply
    case Forward(request) => Translate(serviceUrl, upstream(request))
  }

  // ---------------------------------------------------------------------
  // The imperative form of the code, proved against the functions above.

  lemma PrefixStep(s: Headers, i: nat)
    requires i < |s|
    ensures s[..i + 1][..i] == s[..i] && Last(s[..i + 1]) == s[i]
  {
  }

  /** Builds the upstream header dict pair by pair, then adds
      `X-Forwarded-Host`. */
  method CleanRequestHeaders(inbound: Headers) returns (headers: Headers)
    ensures headers == ForwardHeaders(inbound)
  {
    headers := [];
    var i := 0;
    while i < |inbound|
      invariant 0 <= i <= |inbound|
      invariant headers == FromItems(FilterOut(inbound[..i], HopByHop))
    {
      var (name, value) := inbound[i];
      PrefixStep(inbound, i);
      var before := FilterOut(inbound[..i], HopByHop);
      if Lower(name) !in HopByHop {
        assert FilterOut(inbound[..i + 1], HopByHop) == before + [(name, value)];
        assert (before + [(name, value)])[..|before|] == before;
        headers := Set(headers, name, value);
      } else {
        assert FilterOut(inbound[..i + 1], HopByHop) == before + [];
        assert before + [] == before;
      }
      i := i + 1;
    }
    assert inbound[..|inbound|] == inbound;
    var host := CIGet(inbound, "host");
    if host.Some? {
      headers := Set(headers, "X-Forwarded-Host", host.value);
    }
  }

  /** Copies the upstream headers without the stripped ones, then sets the
      CORS headers. */
  method CleanReplyHeaders(upstream: Headers) returns (headers: Headers)
    ensures headers == ReplyHeaders(upstream)
  {
    var received := DictOf(upstream);
    headers := [];
    var i := 0;
    while i < |received|
      invariant 0 <= i <= |received|
      invariant headers == FromItems(FilterOut(received[..i], StrippedOnReply))
    {
      var (name, value) := received[i];
      PrefixStep(received, i);
      var before := FilterOut(received[..i], StrippedOnReply);
      if Lower(name) !in StrippedOnReply {
        assert FilterOut(received[..i + 1], StrippedOnReply) == before + [(name, value)];
        assert (before + [(name, value)])[..|before|] == before;
        headers := Set(headers, name, value);
      } else {
        assert FilterOut(received[..i + 1], StrippedOnReply) == before + [];
        assert before + [] == before;
      }
      i := i + 1;
    }
    assert received[..|received|] == received;
    headers := Set(headers, AllowOrigin, "*");
    headers := Set(headers, AllowMethods, AllowedMethodsValue);
    headers := Set(headers, AllowHeaders, AllowedHeadersValue);
  }

  /** `proxy_request` step by step: clean the headers, pick the body per
      method and content type, make the one upstream call, translate. */
  method ProxyRequest(serviceUrl: string, path: string, verb: string, req: Inbound,
                      decode: seq<byte> -> Option<Json>, upstream: UpstreamRequest -> Outcome)
    returns (reply: Reply)
    ensures reply == ProxyResult(serviceUrl, path, verb, req, decode, upstream)
  {
    var url := serviceUrl + path;
    var headers := CleanRequestHeaders(req.headers);
    ghost var plan := PlanRequest(serviceUrl, path, verb, req, decode);
    var outgoing: UpstreamRequest;
    if verb == "GET" {
      outgoing := UpstreamRequest(verb, url, req.query, headers, NoPayload);
      assert plan == Forward(outgoing);
    } else if verb == "POST" || verb == "PUT" || verb == "PATCH" {
      var contentType := ContentType(req);
      if StartsWith(contentType, "multipart/") {
        var forwardHeaders := Set(headers, "Content-Type", contentType);
        outgoing := UpstreamRequest(verb, url, [], forwardHeaders, RawPayload(req.body));
        assert plan == Forward(outgoing);
      } else if Contains(contentType, "application/json") {
        var json := JObject([]);
        if |req.body| > 0 {
          var parsed := decode(req.body);
          if parsed.None? {
            assert plan == Reject(JsonError(400, "Invalid JSON"));
            return JsonError(400, "Invalid JSON");
          }
          json := parsed.value;
        }
        outgoing := UpstreamRequest(verb, url, [], headers, JsonBodyOf(json));
        assert plan == Forward(outgoing);
      } else {
        outgoing := UpstreamRequest(verb, url, [], headers, RawPayload(req.body));
        assert plan == Forward(outgoing);
      }
    } else if verb == "DELETE" {
      outgoing := UpstreamRequest(verb, url, [], headers, NoPayload);
      assert plan == Forward(outgoing);
    } else {
      assert plan == Reject(JsonError(405, "Unsupported method"));
      return JsonError(405, "Unsupported method");
    }
    var outcome := upstream(outgoing);
    assert ProxyResult(serviceUrl, path, verb, req, decode, upstream) == Translate(serviceUrl, outcome);
    match outcome {
      case ConnectFailed =>
        reply := JsonError(503, "Service unavailable: " + serviceUrl);
      case Raised(message) =>
        reply := JsonError(500, message);
      case Responded(status, received, data) =>
        if |data| == 0 {
          return NoData;
        }
        var replyHeaders := CleanReplyHeaders(received);
        reply := Reply(status, replyHeaders, BytesReply(data));
        assert reply == Translate(serviceUrl, outcome);
    }
  }

  // ---------------------------------------------------------------------
  // Properties

  lemma {:induction false} FilterOutOfDict(d: Headers, names: set<string>)
    requires IsDict(d)
    ensures IsDict(FilterOut(d, names))
    decreases |d|
  {
    if |d| > 0 {
      var init := d[..|d| - 1];
      assert IsDict(init) by {
        forall i, j | 0 <= i < j < |init| ensures init[i].0 != init[j].0 {
          assert init[i] == d[i] && init[j] == d[j];
        }
      }
      FilterOutOfDict(init, names);
      var f := FilterOut(init, names);
      if Lower(Last(d).0) !in names {
        forall x | x in f ensures x.0 != Last(d).0 {
          assert x in init;
          var i :| 0 <= i < |init| && init[i] == x;
          assert d[i] == x;
        }
        var r := f + [Last(d)];
        forall i, j | 0 <= i < j < |r| ensures r[i].0 != r[j].0 {
          if j == |r| - 1 { assert r[i] in f; }
          else { assert r[i] == f[i] && r[j] == f[j]; }
        }
      } else {
        assert f + [] == f;
      }
    }
  }

  /** `X-Forwarded-Host` is not itself a hop-by-hop name (the lengths
      differ). */
  lemma ForwardedHostNotHop()
    ensures Lower("X-Forwarded-Host") !in HopByHop
  {
    assert |Lower("X-Forwarded-Host")| == 16;
  }

  lemma BaseGet(inbound: Headers, k: string)
    ensures Get(FromItems(FilterOut(inbound, HopByHop)), k) == if Lower(k) in HopByHop then None else Get(inbound, k)
  {
    FromItemsGet(FilterOut(inbound, HopByHop), k);
    FilterOutGet(inbound, HopByHop, k);
  }

  /** The upstream sees every inbound header that is not hop-by-hop, with
      the last value sent for its name; hop-by-hop names never reach it; and
      `X-Forwarded-Host` is the inbound Host whenever a Host was sent. */
  lemma ForwardHeadersGet(inbound: Headers, k: string)
    ensures k != "X-Forwarded-Host" ==>
      Get(ForwardHeaders(inbound), k) == if Lower(k) in HopByHop then None else Get(inbound, k)
    ensures CIGet(inbound, "host").Some? ==>
      Get(ForwardHeaders(inbound), "X-Forwarded-Host") == CIGet(inbound, "host")
    ensures CIGet(inbound, "host").None? ==>
      Get(ForwardHeaders(inbound), "X-Forwarded-Host") == Get(inbound, "X-Forwarded-Host")
  {
    var base := FromItems(FilterOut(inbound, HopByHop));
    BaseGet(inbound, k);
    BaseGet(inbound, "X-Forwarded-Host");
    ForwardedHostNotHop();
    match CIGet(inbound, "host")
    case Some(host) =>
      assert ForwardHeaders(inbound) == Set(base, "X-Forwarded-Host", host);
    case None =>
      assert ForwardHeaders(inbound) == base;
  }

  /** No header named like a hop-by-hop header, in any letter case, is sent
      upstream. */
  lemma ForwardHeadersNoHop(inbound: Headers)
    ensures forall x :: x in ForwardHeaders(inbound) ==> Lower(x.0) !in HopByHop
  {
    var d := ForwardHeaders(inbound);
    forall x | x in d ensures Lower(x.0) !in HopByHop {
      var i :| 0 <= i < |d| && d[i] == x;
      assert x.0 in Names(d);
      if x.0 != "X-Forwarded-Host" {
        ForwardHeadersGet(inbound, x.0);
      } else {
        ForwardedHostNotHop();
      }
    }
  }

  /** When the inbound names are distinct and no Host was sent, the upstream
      receives exactly the non-hop-by-hop inbound headers, in their order. */
  lemma ForwardHeadersPreserveOrder(inbound: Headers)
    requires IsDict(inbound) && CIGet(inbound, "host").None?
    ensures ForwardHeaders(inbound) == FilterOut(inbound, HopByHop)
  {
    FilterOutOfDict(inbound, HopByHop);
    FromItemsOfDict(FilterOut(inbound, HopByHop));
  }

  /** The reply carries the three CORS headers with their fixed values,
      whatever the upstream sent for them. Every other name the upstream
      sent, unless stripped, has the FIRST value sent for it in any letter
      case, which is what `dict` of the upstream headers reads; a name the
      upstream did not send is absent. */
  lemma ReplyHeadersGet(upstream: Headers, k: string)
    ensures Get(ReplyHeaders(upstream), AllowOrigin) == Some("*")
    ensures Get(ReplyHeaders(upstream), AllowMethods) == Some(AllowedMethodsValue)
    ensures Get(ReplyHeaders(upstream), AllowHeaders) == Some(AllowedHeadersValue)
    ensures k != AllowOrigin && k != AllowMethods && k != AllowHeaders ==>
      Get(ReplyHeaders(upstream), k) ==
        if Lower(k) in StrippedOnReply || k !in Names(upstream) then None else CIGet(upstream, k)
  {
    var received := DictOf(upstream);
    DictOfGet(upstream, k);
    FilterOutGet(received, StrippedOnReply, k);
    FromItemsGet(FilterOut(received, StrippedOnReply), k);
  }

  /** A header the upstream sends twice comes back with its first value. */
  lemma RepeatedHeaderKeepsFirst(k: string, first: string, rest: Headers)
    requires Lower(k) !in StrippedOnReply && k != AllowOrigin && k != AllowMethods && k != AllowHeaders
    ensures Get(ReplyHeaders([(k, first)] + rest), k) == Some(first)
  {
    var upstream := [(k, first)] + rest;
    assert Names(upstream)[0] == k;
    ReplyHeadersGet(upstream, k);
  }

  /** A method outside GET, POST, PUT, PATCH and DELETE is answered 405
      without calling the upstream, whatever it would have answered. */
  lemma UnsupportedMethod(serviceUrl: string, path: string, verb: string, req: Inbound,
                          decode: seq<byte> -> Option<Json>, upstream: UpstreamRequest -> Outcome)
    requires verb !in Proxied
    ensures PlanRequest(serviceUrl, path, verb, req, decode).Reject?
    ensures ProxyResult(serviceUrl, path, verb, req, decode, upstream) == JsonError(405, "Unsupported method")
  {
  }

  /** The request is refused before any upstream call exactly when the
      method is not proxied or a non-empty JSON body fails to decode. */
  lemma RejectedExactly(serviceUrl: string, path: string, verb: string, req: Inbound,
                        decode: seq<byte> -> Option<Json>)
    ensures PlanRequest(serviceUrl, path, verb, req, decode).Reject? <==>
      verb !in Proxied ||
      (verb in {"POST", "PUT", "PATCH"} && !StartsWith(ContentType(req), "multipart/") &&
       Contains(ContentType(req), "application/json") && |req.body| > 0 && decode(req.body).None?)
  {
  }

  /** What every forwarded request has in common: the same method, the
      service URL followed by the path, and the inbound query string on GET
      and on GET only. It carries no body exactly on GET, on DELETE, and for
      a JSON body that is `null`. */
  lemma ForwardedShape(serviceUrl: string, path: string, verb: string, req: Inbound,
                       decode: seq<byte> -> Option<Json>)
    requires PlanRequest(serviceUrl, path, verb, req, decode).Forward?
    ensures var q := PlanRequest(serviceUrl, path, verb, req, decode).request;
      q.verb == verb && q.url == serviceUrl + path && verb in Proxied &&
      q.query == (if verb == "GET" then req.query else []) &&
      (q.payload.NoPayload? <==>
        verb == "GET" || verb == "DELETE" ||
        (!StartsWith(ContentType(req), "multipart/") && Contains(ContentType(req), "application/json") &&
         |req.body| > 0 && decode(req.body) == Some(JNull)))
  {
    if verb == "GET" {
    } else if verb == "POST" || verb == "PUT" || verb == "PATCH" {
      var contentType := ContentType(req);
      if StartsWith(contentType, "multipart/") {
      } else if Contains(contentType, "application/json") {
        if |req.body| > 0 {
          assert decode(req.body).Some?;
        }
      }
    } else {
      assert verb == "DELETE";
    }
  }

  /** A multipart body is passed through byte for byte with the original
      Content-Type, even when that content type also names JSON. */
  lemma MultipartPassthrough(serviceUrl: string, path: string, verb: string, req: Inbound,
                             decode: seq<byte> -> Option<Json>)
    requires verb in {"POST", "PUT", "PATCH"} && StartsWith(ContentType(req), "multipart/")
    ensures PlanRequest(serviceUrl, path, verb, req, decode).Forward?
    ensures var q := PlanRequest(serviceUrl, path, verb, req, decode).request;
      q.payload == RawPayload(req.body) && Get(q.headers, "Content-Type") == Some(ContentType(req)) &&
      forall k :: k != "Content-Type" ==> Get(q.headers, k) == Get(ForwardHeaders(req.headers), k)
  {
  }

  /** A JSON content type: an empty body is sent as `{}`, a body that does
      not decode is refused with 400 before any upstream call, and any other
      body is sent as the decoded value. */
  lemma JsonBody(serviceUrl: string, path: string, verb: string, req: Inbound,
                 decode: seq<byte> -> Option<Json>, upstream: UpstreamRequest -> Outcome)
    requires verb in {"POST", "PUT", "PATCH"}
    requires !StartsWith(ContentType(req), "multipart/") && Contains(ContentType(req), "application/json")
    ensures |req.body| == 0 ==>
      PlanRequest(serviceUrl, path, verb, req, decode).Forward? &&
      PlanRequest(serviceUrl, path, verb, req, decode).request.payload == JsonPayload(JObject([]))
    ensures |req.body| > 0 && decode(req.body).None? ==>
      ProxyResult(serviceUrl, path, verb, req, decode, upstream) == JsonError(400, "Invalid JSON")
    ensures |req.body| > 0 && decode(req.body).Some? ==>
      PlanRequest(serviceUrl, path, verb, req, decode).Forward? &&
      PlanRequest(serviceUrl, path, verb, req, decode).request.payload ==
        (if decode(req.body).value.JNull? then NoPayload else JsonPayload(decode(req.body).value))
    ensures PlanRequest(serviceUrl, path, verb, req, decode).Forward? ==>
      PlanRequest(serviceUrl, path, verb, req, decode).request.headers == ForwardHeaders(req.headers)
  {
  }

  /** Any other content type, a missing one included, forwards the bytes
      unchanged with the cleaned headers. */
  lemma RawBody(serviceUrl: string, path: string, verb: string, req: Inbound,
                decode: seq<byte> -> Option<Json>)
    requires verb in {"POST", "PUT", "PATCH"}
    requires !StartsWith(ContentType(req), "multipart/") && !Contains(ContentType(req), "application/json")
    ensures PlanRequest(serviceUrl, path, verb, req, decode) ==
      Forward(UpstreamRequest(verb, serviceUrl + path, [], ForwardHeaders(req.headers), RawPayload(req.body)))
  {
  }

  /** The reply for an upstream response: 204 with a fixed message when its
      body is empty, whatever its status; otherwise its status and its bytes
      unchanged. */
  lemma TranslateResponse(serviceUrl: string, status: int, headers: Headers, body: seq<byte>)
    ensures |body| == 0 ==> Translate(serviceUrl, Responded(status, headers, body)) == NoData
    ensures |body| > 0 ==>
      var r := Translate(serviceUrl, Responded(status, headers, body));
      r.status == status && r.body == BytesReply(body) && r.headers == ReplyHeaders(headers)
  {
  }

  /** Failures: a refused connection is 503 naming the service, any other
      exception is 500 carrying its text. */
  lemma TranslateFailure(serviceUrl: string, message: string)
    ensures Translate(serviceUrl, ConnectFailed) == JsonError(503, "Service unavailable: " + serviceUrl)
    ensures Translate(serviceUrl, Raised(message)) == JsonError(500, message)
  {
  }

  /** The CORS headers are on a proxied reply exactly when the upstream
      answered with a non-empty body: the 400, 405, 204, 503 and 500 replies
      do not carry them. */
  lemma CorsOnlyOnForwardedBody(serviceUrl: string, path: string, verb: string, req: Inbound,
                                decode: seq<byte> -> Option<Json>, upstream: UpstreamRequest -> Outcome)
    ensures var plan := PlanRequest(serviceUrl, path, verb, req, decode);
      Get(ProxyResult(serviceUrl, path, verb, req, decode, upstream).headers, AllowOrigin).Some? <==>
      plan.Forward? && upstream(plan.request).Responded? && |upstream(plan.request).body| > 0
  {
    var plan := PlanRequest(serviceUrl, path, verb, req, decode);
    var r := ProxyResult(serviceUrl, path, verb, req, decode, upstream);
    if plan.Reject? {
      RejectShape(serviceUrl, path, verb, req, decode);
      assert r.headers == [];
    } else {
      var outcome := upstream(plan.request);
      assert r == Translate(serviceUrl, outcome);
      match outcome
      case Responded(status, headers, body) =>
        if |body| > 0 {
          ReplyHeadersGet(headers, AllowOrigin);
        } else {
          assert r == NoData;
        }
      case ConnectFailed =>
        assert r.headers == [];
      case Raised(message) =>
        assert r.headers == [];
    }
  }

  /** The 400 and 405 refusals are JSON error documents without headers. */
  lemma RejectShape(serviceUrl: string, path: string, verb: string, req: Inbound,
                           decode: seq<byte> -> Option<Json>)
    requires PlanRequest(serviceUrl, path, verb, req, decode).Reject?
    ensures PlanRequest(serviceUrl, path, verb, req, decode).reply.headers == []
    ensures PlanRequest(serviceUrl, path, verb, req, decode).reply.body.JsonReply?
  {
  }

  /** `proxy_request` always answers itself: its reply is never the
      framework's own page. */
  lemma ProxyAnswers(serviceUrl: string, path: string, verb: string, req: Inbound,
                     decode: seq<byte> -> Option<Json>, upstream: UpstreamRequest -> Outcome)
    ensures !ProxyResult(serviceUrl, path, verb, req, decode, upstream).body.FrameworkPage?
  {
    var plan := PlanRequest(serviceUrl, path, verb, req, decode);
    if plan.Reject? {
      RejectShape(serviceUrl, path, verb, req, decode);
    }
  }
}
