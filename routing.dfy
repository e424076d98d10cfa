/** The gateway's route table and resolver.

    Routes are kept in registration order. The resolver walks them top to
    bottom: the first route whose path pattern matches and whose method set
    admits the method wins; if some pattern matched but no route admitted
    the method the answer is "method not allowed", and if no pattern matched
    at all it is "not found". This is the order in which aiohttp's
    dispatcher tries resources before version 3.10; later versions try the
    most specific path prefix first. The dispatcher is not part of this
    model, so the order is a modelling assumption. */
module Routing {
  import opened Text

  /** `"*"` admits every method; otherwise the listed ones. */
  datatype MethodSet = AnyMethod | Methods(allowed: set<string>)

  /** The three path shapes the table uses: a literal path, a literal
      prefix followed by `{path:.*}` (anything, slashes and the empty text
      included), and a literal prefix followed by `{type}/{filename}` (two
      non-empty segments). */
  datatype Pattern =
    | Exact(path: string)
    | Tail(prefix: string)
    | TwoSegments(prefix: string)

  datatype Handler =
    | Health
    | AuthWithPath
    | AuthTrailingSlash
    | AuthRoot
    | Preflight
    | MediaWithPath
    | MediaRoot
    | MediaFile
    | Welcome

  datatype Route = Route(methods: MethodSet, pattern: Pattern, handler: Handler)

  const RouteHealth := Route(Methods({"GET"}), Exact("/health"), Health)
  const RouteAuthPath := Route(AnyMethod, Tail("/api/auth/"), AuthWithPath)
  const RouteAuthSlash := Route(AnyMethod, Exact("/api/auth/"), AuthTrailingSlash)
  const RouteAuthRoot := Route(AnyMethod, Exact("/api/auth"), AuthRoot)
  const RoutePreflight := Route(Methods({"OPTIONS"}), Tail("/"), Preflight)
  const RouteMediaPath := Route(AnyMethod, Tail("/api/media/"), MediaWithPath)
  const RouteMediaRoot := Route(AnyMethod, Exact("/api/media"), MediaRoot)
  const RouteMediaFile := Route(Methods({"GET"}), TwoSegments("/media/"), MediaFile)
  const RouteWelcome := Route(Methods({"GET"}), Exact("/"), Welcome)

  /** The table in registration order. */
  const Table: seq<Route> := [
    RouteHealth, RouteAuthPath, RouteAuthSlash, RouteAuthRoot, RoutePreflight,
    RouteMediaPath, RouteMediaRoot, RouteMediaFile, RouteWelcome
  ]

  /** What a `{name}` placeholder matches: non-empty, no `/` and no braces. */
  predicate IsSegment(s: string)
  {
    |s| > 0 && '/' !in s && '{' !in s && '}' !in s
  }

  /** The captured placeholder values when `path` matches `p`. */
  function MatchPath(p: Pattern, path: string): (r: Option<seq<string>>)
    ensures p.Exact? ==> (r.Some? <==> path == p.path) && (r.Some? ==> r.value == [])
    ensures p.Tail? ==> (r.Some? <==> StartsWith(path, p.prefix))
    ensures p.Tail? && r.Some? ==> r.value == [path[|p.prefix|..]] && p.prefix + r.value[0] == path
    ensures p.TwoSegments? && r.Some? ==>
      |r.value| == 2 && IsSegment(r.value[0]) && IsSegment(r.value[1]) &&
      p.prefix + r.value[0] + "/" + r.value[1] == path
  {
    match p
    case Exact(s) => if path == s then Some([]) else None
    case Tail(prefix) =>
      if StartsWith(path, prefix) then
        assert prefix + path[|prefix|..] == path;
        Some([path[|prefix|..]])
      else None
    case TwoSegments(prefix) => MatchSegments(prefix, path)
  }

  /** `prefix{a}/{b}`: after the prefix, two segments around the first
      slash. */
  function MatchSegments(prefix: string, path: string): (r: Option<seq<string>>)
    ensures r.Some? ==>
      |r.value| == 2 && IsSegment(r.value[0]) && IsSegment(r.value[1]) &&
      prefix + r.value[0] + "/" + r.value[1] == path
  {
    if !StartsWith(path, prefix) then None
    else
      var rest := path[|prefix|..];
      match IndexOf(rest, '/')
      case None => None
      case Some(i) =>
        var a, b := rest[..i], rest[i + 1..];
        if IsSegment(a) && IsSegment(b) then
          assert prefix + a + "/" + b == path by {
            assert a + "/" + b == rest;
            assert prefix + rest == path;
          }
          Some([a, b])
        else None
  }

  predicate Admits(m: MethodSet, verb: string)
  {
    m.AnyMethod? || verb in m.allowed
  }

  predicate Accepts(r: Route, verb: string, path: string)
  {
    MatchPath(r.pattern, path).Some? && Admits(r.methods, verb)
  }

  datatype Resolution =
    | Matched(handler: Handler, captures: seq<string>)
    | MethodNotAllowed
    | NotFound

  /** Route `i` is the first in `table` that accepts the request. */
  ghost predicate FirstAccepting(table: seq<Route>, verb: string, path: string, i: int)
  {
    0 <= i < |table| && Accepts(table[i], verb, path) &&
    forall j :: 0 <= j < i ==> !Accepts(table[j], verb, path)
  }

  /** First match in table order; 405 only when some path matched. */
  function Resolve(table: seq<Route>, verb: string, path: string): Resolution
    decreases |table|
  {
    if |table| == 0 then NotFound
    else match MatchPath(table[0].pattern, path)
      case Some(c) =>
        if Admits(table[0].methods, verb) then Matched(table[0].handler, c)
        else
          var rest := Resolve(table[1..], verb, path);
          if rest.NotFound? then MethodNotAllowed else rest
      case None => Resolve(table[1..], verb, path)
  }

  /** The first route that accepts a request decides it. */
  lemma {:induction false} ResolveFirst(table: seq<Route>, verb: string, path: string, i: int)
    requires FirstAccepting(table, verb, path, i)
    ensures Resolve(table, verb, path) == Matched(table[i].handler, MatchPath(table[i].pattern, path).value)
    decreases |table|
  {
    if i > 0 {
      assert !Accepts(table[0], verb, path);
      assert forall j :: 0 <= j < |table| - 1 ==> table[1..][j] == table[j + 1];
      ResolveFirst(table[1..], verb, path, i - 1);
    }
  }

  /** Every match comes from the first accepting route. */
  lemma {:induction false} ResolveMatched(table: seq<Route>, verb: string, path: string)
    requires Resolve(table, verb, path).Matched?
    ensures exists i :: (FirstAccepting(table, verb, path, i) &&
      Resolve(table, verb, path) == Matched(table[i].handler, MatchPath(table[i].pattern, path).value))
    decreases |table|
  {
    if !Accepts(table[0], verb, path) {
      ResolveMatched(table[1..], verb, path);
      var i :| FirstAccepting(table[1..], verb, path, i) &&
        Resolve(table[1..], verb, path) == Matched(table[1..][i].handler, MatchPath(table[1..][i].pattern, path).value);
      assert forall j :: 0 <= j < |table| - 1 ==> table[1..][j] == table[j + 1];
      assert FirstAccepting(table, verb, path, i + 1);
    } else {
      assert FirstAccepting(table, verb, path, 0);
    }
  }

  /** With no accepting route, the answer is 405 when some path pattern
      matched and 404 when none did. */
  lemma {:induction false} ResolveUnmatched(table: seq<Route>, verb: string, path: string)
    requires forall i :: 0 <= i < |table| ==> !Accepts(table[i], verb, path)
    ensures (exists i :: 0 <= i < |table| && MatchPath(table[i].pattern, path).Some?) ==>
      Resolve(table, verb, path) == MethodNotAllowed
    ensures (forall i :: 0 <= i < |table| ==> MatchPath(table[i].pattern, path).None?) ==>
      Resolve(table, verb, path) == NotFound
    decreases |table|
  {
    if |table| > 0 {
      assert forall j :: 0 <= j < |table| - 1 ==> table[1..][j] == table[j + 1];
      assert !Accepts(table[0], verb, path);
      ResolveUnmatched(table[1..], verb, path);
      if MatchPath(table[0].pattern, path).None? {
        if exists i :: 0 <= i < |table| && MatchPath(table[i].pattern, path).Some? {
          var i :| 0 <= i < |table| && MatchPath(table[i].pattern, path).Some?;
          assert MatchPath(table[1..][i - 1].pattern, path).Some?;
        }
      }
    }
  }

  /** The two upstream services and their base URLs. */
  datatype Upstream = AuthService | BackendService

  function BaseUrl(u: Upstream): string
  {
    match u
    case AuthService => "http://127.0.0.1:8000"
    case BackendService => "http://127.0.0.1:8001"
  }

  /** Where a proxying handler sends the request. */
  datatype Target = Target(upstream: Upstream, path: string)

  /** The `k`-th captured value; the table's patterns always capture as many
      values as their handlers read. */
  function Capture(captures: seq<string>, k: nat): string
  {
    if k < |captures| then captures[k] else ""
  }

  /** The rewrite each proxying handler performs; the three handlers with a
      fixed response have no target. */
  function Rewrite(h: Handler, captures: seq<string>): Option<Target>
  {
    match h
    case AuthWithPath => Some(Target(AuthService, "/api/auth/" + Capture(captures, 0)))
    case AuthTrailingSlash => Some(Target(AuthService, "/api/auth/"))
    case AuthRoot => Some(Target(AuthService, "/api/auth/"))
    case MediaWithPath => Some(Target(BackendService, "/api/media/" + Capture(captures, 0)))
    case MediaRoot => Some(Target(BackendService, "/api/media"))
    case MediaFile => Some(Target(BackendService, "/media/" + Capture(captures, 0) + "/" + Capture(captures, 1)))
    case Health => None
    case Preflight => None
    case Welcome => None
  }

  /** The target of a request, or the resolver's verdict. */
  function Lookup(verb: string, path: string): Resolution
  {
    Resolve(Table, verb, path)
  }

  predicate IsAuthPath(path: string)
  {
    path == "/api/auth" || StartsWith(path, "/api/auth/")
  }

  // ---------------------------------------------------------------------
  // Properties of the table

  lemma NotPrefixAt(path: string, p: string, q: string, k: nat)
    requires StartsWith(path, p) && k < |p| && k < |q| && p[k] != q[k]
    ensures !StartsWith(path, q) && path != q
  {
    assert path[k] == p[k];
  }

  /** The table entry by entry. */
  lemma TableEntries()
    ensures |Table| == 9
    ensures Table[0] == RouteHealth && Table[1] == RouteAuthPath && Table[2] == RouteAuthSlash
    ensures Table[3] == RouteAuthRoot && Table[4] == RoutePreflight && Table[5] == RouteMediaPath
    ensures Table[6] == RouteMediaRoot && Table[7] == RouteMediaFile && Table[8] == RouteWelcome
  {
  }

  /** Route `i` of the table decides a request that it accepts and that
      none of the routes before it, named one by one, accepts. */
  lemma PickRoute(verb: string, path: string, i: nat)
    requires i < 9 && Accepts(Table[i], verb, path)
    requires i > 0 ==> !Accepts(RouteHealth, verb, path)
    requires i > 1 ==> !Accepts(RouteAuthPath, verb, path)
    requires i > 2 ==> !Accepts(RouteAuthSlash, verb, path)
    requires i > 3 ==> !Accepts(RouteAuthRoot, verb, path)
    requires i > 4 ==> !Accepts(RoutePreflight, verb, path)
    requires i > 5 ==> !Accepts(RouteMediaPath, verb, path)
    requires i > 6 ==> !Accepts(RouteMediaRoot, verb, path)
    requires i > 7 ==> !Accepts(RouteMediaFile, verb, path)
    ensures Lookup(verb, path) == Matched(Table[i].handler, MatchPath(Table[i].pattern, path).value)
  {
    forall j | 0 <= j < i ensures !Accepts(Table[j], verb, path) {
      TableEntries();
      if j == 0 { assert Table[j] == RouteHealth; }
      else if j == 1 { assert Table[j] == RouteAuthPath; }
      else if j == 2 { assert Table[j] == RouteAuthSlash; }
      else if j == 3 { assert Table[j] == RouteAuthRoot; }
      else if j == 4 { assert Table[j] == RoutePreflight; }
      else if j == 5 { assert Table[j] == RouteMediaPath; }
      else if j == 6 { assert Table[j] == RouteMediaRoot; }
      else { assert Table[j] == RouteMediaFile; }
    }
    ResolveFirst(Table, verb, path, i);
  }

  /** `/api/auth/{rest}` goes to the auth service at `/api/auth/{rest}`,
      whatever the method; with `rest` empty this is also the route that
      serves `/api/auth/`. */
  lemma AuthPathRoute(verb: string, rest: string)
    ensures Lookup(verb, "/api/auth/" + rest) == Matched(AuthWithPath, [rest])
    ensures Rewrite(AuthWithPath, [rest]) == Some(Target(AuthService, "/api/auth/" + rest))
  {
    var path := "/api/auth/" + rest;
    assert StartsWith(path, "/api/auth/");
    NotPrefixAt(path, "/api/auth/", "/health", 1);
    assert path[|"/api/auth/"|..] == rest;
    PickRoute(verb, path, 1);
  }

  /** `/api/auth` without the slash goes to the auth service at `/api/auth/`. */
  lemma AuthRootRoute(verb: string)
    ensures Lookup(verb, "/api/auth") == Matched(AuthRoot, [])
    ensures Rewrite(AuthRoot, []) == Some(Target(AuthService, "/api/auth/"))
  {
    var path := "/api/auth";
    assert !StartsWith(path, "/api/auth/");
    PickRoute(verb, path, 3);
  }

  /** The route registered for `/api/auth/` is never reached: the
      `/api/auth/{path:.*}` route before it already takes that path. */
  lemma AuthTrailingSlashShadowed(verb: string, path: string)
    ensures !(Lookup(verb, path).Matched? && Lookup(verb, path).handler == AuthTrailingSlash)
  {
    if Lookup(verb, path).Matched? {
      ResolveMatched(Table, verb, path);
      var i :| FirstAccepting(Table, verb, path, i) &&
        Lookup(verb, path) == Matched(Table[i].handler, MatchPath(Table[i].pattern, path).value);
      TableEntries();
      if path == "/api/auth/" {
        assert StartsWith(path, "/api/auth/");
        assert Accepts(Table[1], verb, path);
        assert i <= 1;
      } else {
        assert !Accepts(Table[2], verb, path);
      }
      SlashHandlerOnlyAt(i);
    }
  }

  /** Only the third route of the table has the trailing-slash handler. */
  lemma SlashHandlerOnlyAt(i: int)
    requires 0 <= i < 9 && i != 2
    ensures Table[i].handler != AuthTrailingSlash
  {
    TableEntries();
    if i == 0 { assert Table[i] == RouteHealth; }
    else if i == 1 { assert Table[i] == RouteAuthPath; }
    else if i == 3 { assert Table[i] == RouteAuthRoot; }
    else if i == 4 { assert Table[i] == RoutePreflight; }
    else if i == 5 { assert Table[i] == RouteMediaPath; }
    else if i == 6 { assert Table[i] == RouteMediaRoot; }
    else if i == 7 { assert Table[i] == RouteMediaFile; }
    else { assert Table[i] == RouteWelcome; }
  }

  /** Any method but OPTIONS on `/api/media/{rest}` goes to the backend at
      `/api/media/{rest}`. */
  lemma MediaPathRoute(verb: string, rest: string)
    requires verb != "OPTIONS"
    ensures Lookup(verb, "/api/media/" + rest) == Matched(MediaWithPath, [rest])
    ensures Rewrite(MediaWithPath, [rest]) == Some(Target(BackendService, "/api/media/" + rest))
  {
    var path := "/api/media/" + rest;
    assert StartsWith(path, "/api/media/");
    NotPrefixAt(path, "/api/media/", "/health", 1);
    NotPrefixAt(path, "/api/media/", "/api/auth/", 5);
    NotPrefixAt(path, "/api/media/", "/api/auth", 5);
    assert path[|"/api/media/"|..] == rest;
    PickRoute(verb, path, 5);
  }

  /** Any method but OPTIONS on `/api/media` goes to the backend at
      `/api/media`, with no slash added. */
  lemma MediaRootRoute(verb: string)
    requires verb != "OPTIONS"
    ensures Lookup(verb, "/api/media") == Matched(MediaRoot, [])
    ensures Rewrite(MediaRoot, []) == Some(Target(BackendService, "/api/media"))
  {
    var path := "/api/media";
    assert path[5] != "/api/auth/"[5];
    assert !StartsWith(path, "/api/auth/");
    assert !StartsWith(path, "/api/media/");
    PickRoute(verb, path, 6);
  }

  /** The media file pattern captures the two segments. */
  lemma MediaFileMatch(kind: string, filename: string)
    requires IsSegment(kind) && IsSegment(filename)
    ensures MatchPath(RouteMediaFile.pattern, "/media/" + kind + "/" + filename) == Some([kind, filename])
  {
    var path := "/media/" + kind + "/" + filename;
    var rest := kind + "/" + filename;
    assert path == "/media/" + rest;
    assert StartsWith(path, "/media/");
    assert path[|"/media/"|..] == rest;
    assert rest[..|kind|] == kind && rest[|kind|] == '/';
    IndexOfAt(rest, '/', |kind|);
    assert rest[|kind| + 1..] == filename;
    assert MatchSegments("/media/", path) == Some([kind, filename]);
  }

  /** No route before the media file route accepts a path under `/media/`
      except the preflight route for OPTIONS, and the welcome route after it
      does not match it. */
  lemma MediaFileOthers(verb: string, path: string)
    requires StartsWith(path, "/media/")
    ensures forall j :: 0 <= j < 7 && !(j == 4 && verb == "OPTIONS") ==> !Accepts(Table[j], verb, path)
    ensures MatchPath(RouteWelcome.pattern, path).None?
    ensures verb != "OPTIONS" ==> forall j :: 0 <= j < 7 ==> MatchPath(Table[j].pattern, path).None? || !Admits(Table[j].methods, verb)
  {
    NotPrefixAt(path, "/media/", "/health", 1);
    NotPrefixAt(path, "/media/", "/api/auth/", 1);
    NotPrefixAt(path, "/media/", "/api/auth", 1);
    NotPrefixAt(path, "/media/", "/api/media/", 1);
    NotPrefixAt(path, "/media/", "/api/media", 1);
    assert path != "/";
    assert !Accepts(RouteHealth, verb, path);
    assert !Accepts(RouteAuthPath, verb, path);
    assert !Accepts(RouteAuthSlash, verb, path);
    assert !Accepts(RouteAuthRoot, verb, path);
    assert verb != "OPTIONS" ==> !Accepts(RoutePreflight, verb, path);
    assert !Accepts(RouteMediaPath, verb, path);
    assert !Accepts(RouteMediaRoot, verb, path);
  }

  /** `/media/{type}/{filename}` is served for GET only, from the backend at
      the same path; any other method except OPTIONS on that path is refused
      by the resolver as not allowed. */
  lemma MediaFileRoute(verb: string, kind: string, filename: string)
    requires IsSegment(kind) && IsSegment(filename)
    ensures verb == "GET" ==>
      Lookup(verb, "/media/" + kind + "/" + filename) == Matched(MediaFile, [kind, filename])
    ensures Rewrite(MediaFile, [kind, filename]) == Some(Target(BackendService, "/media/" + kind + "/" + filename))
    ensures verb != "GET" && verb != "OPTIONS" ==>
      Lookup(verb, "/media/" + kind + "/" + filename) == MethodNotAllowed
  {
    var path := "/media/" + kind + "/" + filename;
    assert StartsWith(path, "/media/");
    MediaFileMatch(kind, filename);
    MediaFileOthers(verb, path);
    if verb == "GET" {
      assert Accepts(RouteMediaFile, verb, path);
      assert FirstAccepting(Table, verb, path, 7);
      ResolveFirst(Table, verb, path, 7);
    } else if verb != "OPTIONS" {
      assert !Accepts(RouteMediaFile, verb, path);
      assert !Accepts(RouteWelcome, verb, path);
      assert forall j :: 0 <= j < |Table| ==> !Accepts(Table[j], verb, path);
      assert MatchPath(Table[7].pattern, path).Some?;
      ResolveUnmatched(Table, verb, path);
    }
  }

  /** OPTIONS on any path outside the auth prefix reaches the preflight
      handler. */
  lemma PreflightRoute(path: string)
    requires StartsWith(path, "/") && !IsAuthPath(path)
    ensures Lookup("OPTIONS", path).Matched? && Lookup("OPTIONS", path).handler == Preflight
  {
    PickRoute("OPTIONS", path, 4);
  }

  /** OPTIONS on an auth path never reaches the preflight handler: one of the
      `"*"` auth routes registered before it takes the request. */
  lemma AuthPreflightProxied(path: string)
    requires IsAuthPath(path)
    ensures Lookup("OPTIONS", path).Matched?
    ensures Lookup("OPTIONS", path).handler == AuthWithPath || Lookup("OPTIONS", path).handler == AuthRoot
  {
    if path == "/api/auth" {
      AuthRootRoute("OPTIONS");
    } else {
      AuthPathRoute("OPTIONS", path[|"/api/auth/"|..]);
      assert "/api/auth/" + path[|"/api/auth/"|..] == path;
    }
  }

  /** A pattern every one of whose matches begins with '/'. */
  predicate Rooted(p: Pattern)
  {
    match p
    case Exact(s) => StartsWith(s, "/")
    case Tail(prefix) => StartsWith(prefix, "/")
    case TwoSegments(prefix) => StartsWith(prefix, "/")
  }

  lemma RootedMatch(p: Pattern, path: string)
    requires Rooted(p) && MatchPath(p, path).Some?
    ensures StartsWith(path, "/")
  {
    match p
    case Exact(s) =>
    case Tail(prefix) => assert path[0] == prefix[0];
    case TwoSegments(prefix) =>
      var c := MatchPath(p, path).value;
      assert path == prefix + c[0] + "/" + c[1];
      assert path[0] == prefix[0];
  }

  /** A path some pattern matches is never answered 404. */
  lemma {:induction false} ResolvePatternMatched(table: seq<Route>, verb: string, path: string, i: int)
    requires 0 <= i < |table| && MatchPath(table[i].pattern, path).Some?
    ensures Resolve(table, verb, path) != NotFound
    decreases |table|
  {
    if MatchPath(table[0].pattern, path).None? {
      assert table[1..][i - 1] == table[i];
      ResolvePatternMatched(table[1..], verb, path, i - 1);
    }
  }

  /** The OPTIONS route's pattern matches every path that begins with '/',
      so the gateway answers 404 exactly for the paths that do not; every
      other unrouted request is a 405. */
  lemma NotFoundExactly(verb: string, path: string)
    ensures Lookup(verb, path) == NotFound <==> !StartsWith(path, "/")
  {
    if StartsWith(path, "/") {
      assert MatchPath(Table[4].pattern, path).Some?;
      ResolvePatternMatched(Table, verb, path, 4);
    } else {
      assert Rooted(RouteHealth.pattern) && Rooted(RouteAuthPath.pattern) && Rooted(RouteAuthSlash.pattern);
      assert Rooted(RouteAuthRoot.pattern) && Rooted(RoutePreflight.pattern) && Rooted(RouteMediaPath.pattern);
      assert Rooted(RouteMediaRoot.pattern) && Rooted(RouteMediaFile.pattern) && Rooted(RouteWelcome.pattern);
      forall i | 0 <= i < |Table| ensures MatchPath(Table[i].pattern, path).None? {
        if MatchPath(Table[i].pattern, path).Some? {
          RootedMatch(Table[i].pattern, path);
        }
      }
      ResolveUnmatched(Table, verb, path);
    }
  }
}
