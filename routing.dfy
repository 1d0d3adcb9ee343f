/** The route table of the server, the way the router picks a route for a
    request, and the static file serving behind the catch-all route. */
module Routing {
  import opened Common
  import opened Http

  /** How a route's path template matches: the whole path, or a prefix of it. */
  datatype Pattern = Exact(path: string) | Prefix(prefix: string)

  /** The handler a route leads to. */
  datatype Target =
    | PublicSessions | PublicSpeakers | Register | AttendeeCount
    | Login | AdminAttendees | AdminStats | AdminSpeakers | AdminSessions
    | Assets | ViteIcon | SinglePageApp

  /** A route: its pattern, the methods it accepts (None: any method), its
      handler, and whether the handler is wrapped in the admin gate. */
  datatype Route = Route(pattern: Pattern, methods: Option<seq<string>>, target: Target, guarded: bool)

  /** The router, as registration builds it: routes are kept in the order
      they are added. */
  class Router {
    var routes: seq<Route>

    constructor ()
      ensures routes == []
    {
      routes := [];
    }

    /** Registers a handler for one exact path and a list of methods. */
    method HandleFunc(path: string, methods: seq<string>, target: Target, guarded: bool)
      modifies this
      ensures routes == old(routes) + [Route(Exact(path), Some(methods), target, guarded)]
    {
      routes := routes + [Route(Exact(path), Some(methods), target, guarded)];
    }

    /** Registers a handler for every path under a prefix, whatever the method. */
    method PathPrefix(prefix: string, target: Target)
      modifies this
      ensures routes == old(routes) + [Route(Prefix(prefix), None, target, false)]
    {
      routes := routes + [Route(Prefix(prefix), None, target, false)];
    }
  }

  /** The API routes, in registration order. */
  const ApiRoutes: seq<Route> := [
    Route(Exact("/api/sessions"), Some([MethodGet, MethodOptions]), PublicSessions, false),
    Route(Exact("/api/speakers"), Some([MethodGet, MethodOptions]), PublicSpeakers, false),
    Route(Exact("/api/register"), Some([MethodPost, MethodOptions]), Register, false),
    Route(Exact("/api/attendees/count"), Some([MethodGet, MethodOptions]), AttendeeCount, false),
    Route(Exact("/api/admin/login"), Some([MethodPost, MethodOptions]), Login, false),
    Route(Exact("/api/admin/attendees"), Some([MethodGet, MethodOptions]), AdminAttendees, true),
    Route(Exact("/api/admin/stats"), Some([MethodGet, MethodOptions]), AdminStats, true),
    Route(Exact("/api/admin/speakers"), Some([MethodPost, MethodOptions]), AdminSpeakers, true),
    Route(Exact("/api/admin/sessions"), Some([MethodPost, MethodOptions]), AdminSessions, true)
  ]

  /** The static routes, registered after the API only when the static
      directory exists; the catch-all comes last. */
  const StaticRoutes: seq<Route> := [
    Route(Prefix("/assets/"), None, Assets, false),
    Route(Prefix("/vite.svg"), None, ViteIcon, false),
    Route(Prefix("/"), None, SinglePageApp, false)
  ]

  /** The table start-up registers. */
  function RouteTable(staticDirExists: bool): (routes: seq<Route>)
    // the API routes come first, in registration order
    ensures |routes| == |ApiRoutes| + (if staticDirExists then |StaticRoutes| else 0)
    ensures routes[..|ApiRoutes|] == ApiRoutes
    // the catch-all, when present, comes last and takes every method
    ensures staticDirExists ==> routes[|ApiRoutes|..] == StaticRoutes
    ensures staticDirExists ==> routes[|routes| - 1] == Route(Prefix("/"), None, SinglePageApp, false)
  {
    ApiRoutes + (if staticDirExists then StaticRoutes else [])
  }

  /** Builds the router the way the server's start-up does. */
  method SetupRouter(staticDirExists: bool) returns (r: Router)
    ensures fresh(r) && r.routes == RouteTable(staticDirExists)
  {
    r := new Router();
    r.HandleFunc("/api/sessions", [MethodGet, MethodOptions], PublicSessions, false);
    r.HandleFunc("/api/speakers", [MethodGet, MethodOptions], PublicSpeakers, false);
    r.HandleFunc("/api/register", [MethodPost, MethodOptions], Register, false);
    r.HandleFunc("/api/attendees/count", [MethodGet, MethodOptions], AttendeeCount, false);
    r.HandleFunc("/api/admin/login", [MethodPost, MethodOptions], Login, false);
    r.HandleFunc("/api/admin/attendees", [MethodGet, MethodOptions], AdminAttendees, true);
    r.HandleFunc("/api/admin/stats", [MethodGet, MethodOptions], AdminStats, true);
    r.HandleFunc("/api/admin/speakers", [MethodPost, MethodOptions], AdminSpeakers, true);
    r.HandleFunc("/api/admin/sessions", [MethodPost, MethodOptions], AdminSessions, true);
    if staticDirExists {
      r.PathPrefix("/assets/", Assets);
      r.PathPrefix("/vite.svg", ViteIcon);
      r.PathPrefix("/", SinglePageApp);
    }
  }

  predicate PathMatches(p: Pattern, path: string) {
    match p
    case Exact(q) => path == q
    case Prefix(q) => StartsWith(path, q)
  }

  predicate MethodMatches(r: Route, httpMethod: string) {
    r.methods.None? || httpMethod in r.methods.value
  }

  predicate FullMatch(r: Route, httpMethod: string, path: string) {
    PathMatches(r.pattern, path) && MethodMatches(r, httpMethod)
  }

  /** The first route that matches both path and method. */
  function FirstMatch(routes: seq<Route>, httpMethod: string, path: string): (o: Option<nat>)
    ensures o.Some? ==> o.value < |routes| && FullMatch(routes[o.value], httpMethod, path)
    ensures o.Some? ==> forall j :: 0 <= j < o.value ==> !FullMatch(routes[j], httpMethod, path)
    ensures o.None? ==> forall j :: 0 <= j < |routes| ==> !FullMatch(routes[j], httpMethod, path)
  {
    if routes == [] then None
    else if FullMatch(routes[0], httpMethod, path) then Some(0)
    else match FirstMatch(routes[1..], httpMethod, path)
         case None => None
         case Some(i) => Some(i + 1)
  }

  /** What the router makes of a request. */
  datatype Outcome = Matched(route: Route) | MethodNotAllowed | NotFound

  /** The router's choice: the first route matching path and method; failing
      that, "method not allowed" when some route's path matched, and
      "not found" otherwise. */
  function Dispatch(routes: seq<Route>, httpMethod: string, path: string): (o: Outcome)
    // a route is chosen exactly when one matches, and it is the first that does
    ensures o.Matched? <==> exists i :: 0 <= i < |routes| && FullMatch(routes[i], httpMethod, path)
    ensures o.Matched? ==>
              exists i :: 0 <= i < |routes| && o.route == routes[i] && FullMatch(routes[i], httpMethod, path)
                          && forall j :: 0 <= j < i ==> !FullMatch(routes[j], httpMethod, path)
    // otherwise the method is refused exactly when some route has the path
    ensures o.MethodNotAllowed? <==>
              && (forall i :: 0 <= i < |routes| ==> !FullMatch(routes[i], httpMethod, path))
              && (exists j :: 0 <= j < |routes| && PathMatches(routes[j].pattern, path))
    ensures o.NotFound? <==> forall j :: 0 <= j < |routes| ==> !PathMatches(routes[j].pattern, path)
  {
    match FirstMatch(routes, httpMethod, path)
    case Some(i) => Matched(routes[i])
    case None =>
      if exists j :: 0 <= j < |routes| && PathMatches(routes[j].pattern, path) then MethodNotAllowed
      else NotFound
  }

  /** The router's own answers when no route is chosen: the status tells a
      refused method from an unknown path, and only the latter has a body. */
  function Unrouted(o: Outcome): (r: Response)
    requires !o.Matched?
    ensures r.status == StatusMethodNotAllowed <==> o.MethodNotAllowed?
    ensures r.status == StatusNotFound <==> o.NotFound?
    ensures r.body.None? <==> o.MethodNotAllowed?
  {
    if o.MethodNotAllowed? then Response(StatusMethodNotAllowed, None) else Error(StatusNotFound, "404 page not found")
  }

  /** A string that differs from `prefix` at some position does not start with it. */
  lemma NotPrefixAt(s: string, prefix: string, k: nat)
    requires k < |prefix| && k < |s| && s[k] != prefix[k]
    ensures !StartsWith(s, prefix)
  {
  }

  /** The API paths are pairwise different. */
  lemma ApiPathsDistinct()
    ensures forall i, j :: 0 <= i < j < |ApiRoutes| ==> ApiRoutes[i].pattern != ApiRoutes[j].pattern
  {
  }

  /** A path of the admin area that needs a token. */
  predicate AdminOnly(p: Pattern) {
    p.Exact? && StartsWith(p.path, "/api/admin/") && p.path != "/api/admin/login"
  }

  /** Whether the admin gate wraps one API route follows its path. */
  lemma ApiRouteGuard(i: nat)
    requires i < |ApiRoutes|
    ensures ApiRoutes[i].guarded <==> AdminOnly(ApiRoutes[i].pattern)
  {
    if i == 0 {
      NotPrefixAt("/api/sessions", "/api/admin/", 5);
    } else if i == 1 {
      NotPrefixAt("/api/speakers", "/api/admin/", 5);
    } else if i == 2 {
      NotPrefixAt("/api/register", "/api/admin/", 5);
    } else if i == 3 {
      NotPrefixAt("/api/attendees/count", "/api/admin/", 6);
    } else if i == 4 {
    } else if i == 5 {
      assert StartsWith("/api/admin/attendees", "/api/admin/");
    } else if i == 6 {
      assert StartsWith("/api/admin/stats", "/api/admin/");
    } else if i == 7 {
      assert StartsWith("/api/admin/speakers", "/api/admin/");
    } else {
      assert StartsWith("/api/admin/sessions", "/api/admin/");
    }
  }

  /** The admin gate wraps exactly the admin routes other than login. */
  lemma GuardedExactlyAdmin(staticDirExists: bool)
    ensures var routes := RouteTable(staticDirExists);
            forall i :: 0 <= i < |routes| ==> (routes[i].guarded <==> AdminOnly(routes[i].pattern))
  {
    var routes := RouteTable(staticDirExists);
    forall i | 0 <= i < |routes|
      ensures routes[i].guarded <==> AdminOnly(routes[i].pattern)
    {
      if i < |ApiRoutes| {
        assert routes[i] == ApiRoutes[i];
        ApiRouteGuard(i);
      } else {
        assert routes[i] == StaticRoutes[i - |ApiRoutes|];
      }
    }
  }

  /** Every API route accepts its one method and the preflight method. */
  lemma ApiMethods()
    ensures forall r :: r in ApiRoutes ==>
              r.methods.Some? && |r.methods.value| == 2 && r.methods.value[1] == MethodOptions
              && (r.methods.value[0] == MethodGet || r.methods.value[0] == MethodPost)
  {
  }

  /** A request naming an API path with one of its methods reaches that
      route, with or without the static routes. */
  lemma ApiRouteReached(staticDirExists: bool, i: nat, httpMethod: string)
    requires i < |ApiRoutes| && httpMethod in ApiRoutes[i].methods.value
    ensures Dispatch(RouteTable(staticDirExists), httpMethod, ApiRoutes[i].pattern.path) == Matched(ApiRoutes[i])
  {
    var routes := RouteTable(staticDirExists);
    ApiPathsDistinct();
    assert routes[i] == ApiRoutes[i];
    forall j | 0 <= j < i
      ensures !FullMatch(routes[j], httpMethod, ApiRoutes[i].pattern.path)
    {
      assert routes[j] == ApiRoutes[j];
    }
  }

  /** Only the catch-all matches an API path among the static routes. */
  lemma StaticRoutesOnApiPath(path: string)
    requires StartsWith(path, "/api")
    ensures !PathMatches(StaticRoutes[0].pattern, path) && !PathMatches(StaticRoutes[1].pattern, path)
    ensures PathMatches(StaticRoutes[2].pattern, path)
  {
    assert path[..4][1] == 'a' && path[..4][2] == 'p';
    NotPrefixAt(path, "/assets/", 2);
    NotPrefixAt(path, "/vite.svg", 1);
    assert path[..1] == "/";
  }

  /** No API route takes an API path with a method its own route refuses. */
  lemma NoApiRouteForMethod(i: nat, httpMethod: string)
    requires i < |ApiRoutes| && httpMethod !in ApiRoutes[i].methods.value
    ensures forall j :: 0 <= j < |ApiRoutes| ==> !FullMatch(ApiRoutes[j], httpMethod, ApiRoutes[i].pattern.path)
    ensures StartsWith(ApiRoutes[i].pattern.path, "/api")
  {
    ApiPathsDistinct();
    forall j | 0 <= j < |ApiRoutes|
      ensures !FullMatch(ApiRoutes[j], httpMethod, ApiRoutes[i].pattern.path)
    {
      if j != i {
        assert ApiRoutes[j].pattern != ApiRoutes[i].pattern;
      }
    }
    assert forall k :: 0 <= k < |ApiRoutes| ==> StartsWith(ApiRoutes[k].pattern.path, "/api");
  }

  /** A path under /api that no API route takes for a method falls, among
      the static routes, to the catch-all. */
  lemma ApiPathFallsToCatchAll(httpMethod: string, path: string)
    requires StartsWith(path, "/api")
    requires forall j :: 0 <= j < |ApiRoutes| ==> !FullMatch(ApiRoutes[j], httpMethod, path)
    ensures FirstMatch(RouteTable(true), httpMethod, path) == Some(|ApiRoutes| + 2)
  {
    StaticRoutesOnApiPath(path);
    var routes := RouteTable(true);
    assert routes[|ApiRoutes|] == StaticRoutes[0] && routes[|ApiRoutes| + 1] == StaticRoutes[1];
    assert routes[|ApiRoutes| + 2] == StaticRoutes[2];
    forall j | 0 <= j < |ApiRoutes| + 2
      ensures !FullMatch(routes[j], httpMethod, path)
    {
      if j < |ApiRoutes| {
        assert routes[j] == ApiRoutes[j];
      }
    }
  }

  /** An API path with a method it does not accept: without the static
      routes the router refuses the method; with them the catch-all takes
      the request. */
  lemma WrongMethodOnApiPath(i: nat, httpMethod: string)
    requires i < |ApiRoutes| && httpMethod !in ApiRoutes[i].methods.value
    ensures Dispatch(RouteTable(false), httpMethod, ApiRoutes[i].pattern.path) == MethodNotAllowed
    ensures Dispatch(RouteTable(true), httpMethod, ApiRoutes[i].pattern.path) == Matched(StaticRoutes[2])
  {
    var path := ApiRoutes[i].pattern.path;
    NoApiRouteForMethod(i, httpMethod);
    assert RouteTable(false) == ApiRoutes;
    assert PathMatches(ApiRoutes[i].pattern, path);
    ApiPathFallsToCatchAll(httpMethod, path);
    assert RouteTable(true)[|ApiRoutes| + 2] == StaticRoutes[2];
  }

  /** No route is registered for the to-do handlers: their paths are not
      found without the static routes and fall to the catch-all with them. */
  lemma TodoPathsUnrouted(httpMethod: string, path: string)
    requires path == "/api/todos" || StartsWith(path, "/api/todos/")
    ensures Dispatch(RouteTable(false), httpMethod, path) == NotFound
    ensures Dispatch(RouteTable(true), httpMethod, path) == Matched(StaticRoutes[2])
  {
    assert StartsWith(path, "/api/todos");
    assert path[..10][5] == 't';
    forall j | 0 <= j < |ApiRoutes|
      ensures !PathMatches(ApiRoutes[j].pattern, path)
    {
      var q := ApiRoutes[j].pattern.path;
      assert |q| > 5 && q[5] != 't';
      NotPrefixAt(q, "/api/todos", 5);
    }
    assert RouteTable(false) == ApiRoutes;
    assert StartsWith(path, "/api");
    ApiPathFallsToCatchAll(httpMethod, path);
    assert RouteTable(true)[|ApiRoutes| + 2] == StaticRoutes[2];
  }

  /** With the static routes every request gets a route: the router never
      refuses a method and never answers "not found" itself. */
  lemma StaticCatchAllTakesAll(httpMethod: string, path: string)
    requires StartsWith(path, "/")
    ensures Dispatch(RouteTable(true), httpMethod, path).Matched?
  {
    var routes := RouteTable(true);
    assert routes[|routes| - 1] == StaticRoutes[2];
    assert FullMatch(routes[|routes| - 1], httpMethod, path);
  }

  /** Without the static routes only the API paths are known. */
  lemma NoStaticOnlyApi(httpMethod: string, path: string)
    requires Dispatch(RouteTable(false), httpMethod, path) != NotFound
    ensures exists i :: 0 <= i < |ApiRoutes| && ApiRoutes[i].pattern == Exact(path)
  {
    assert RouteTable(false) == ApiRoutes;
    var j: nat;
    if FirstMatch(ApiRoutes, httpMethod, path).Some? {
      j := FirstMatch(ApiRoutes, httpMethod, path).value;
    } else {
      j :| 0 <= j < |ApiRoutes| && PathMatches(ApiRoutes[j].pattern, path);
    }
    assert ApiRoutes[j].pattern == Exact(path);
  }

  // ---- static files ----

  /** The file server over the static directory: `files` are the paths,
      each starting with "/", of the regular files under it. */
  function FileServe(files: set<string>, path: string): (r: Response)
    ensures r.status == StatusOK <==> path in files
    ensures path in files ==> r.body == Some(FileBody(path))
  {
    if path in files then Response(StatusOK, Some(FileBody(path))) else Error(StatusNotFound, "404 page not found")
  }

  /** The assets route as written: the "/assets/" prefix is stripped before
      the file server, which roots what is left at the static directory. */
  function ServeAssetsAsWritten(files: set<string>, path: string): (r: Response)
    requires StartsWith(path, "/assets/")
  {
    FileServe(files, "/" + path[8..])
  }

  /** As written, a request for /assets/ followed by a name is answered from
      the file of that name at the root of the static directory. */
  lemma AssetsAsWrittenReadsRoot(files: set<string>, name: string)
    ensures StartsWith("/assets/" + name, "/assets/")
    ensures ServeAssetsAsWritten(files, "/assets/" + name).status == StatusOK <==> "/" + name in files
    ensures "/" + name in files ==> ServeAssetsAsWritten(files, "/assets/" + name).body == Some(FileBody("/" + name))
  {
    assert ("/assets/" + name)[8..] == name;
  }

  /** As written, every file that lies under the static directory's assets
      folder, without a namesake at its root, is not found through the assets
      route, while the corrected route serves it. */
  lemma AssetsAsWrittenMissesBuiltAsset(files: set<string>, name: string)
    requires "/assets/" + name in files && "/" + name !in files
    ensures StartsWith("/assets/" + name, "/assets/")
    ensures ServeAssetsAsWritten(files, "/assets/" + name).status == StatusNotFound
    ensures ServeAssets(files, "/assets/" + name).status == StatusOK
  {
    AssetsAsWrittenReadsRoot(files, name);
  }

  /** The assets route serving the file under the static directory that the
      request names. */
  function ServeAssets(files: set<string>, path: string): (r: Response)
    requires StartsWith(path, "/assets/")
    ensures r.status == StatusOK <==> path in files
    ensures path in files ==> r.body == Some(FileBody(path))
  {
    FileServe(files, path)
  }

  /** The single-page-app catch-all: API paths are not found; an existing
      file is served; anything else gets the app's index page, so client
      routes survive a reload. */
  function SpaFallback(files: set<string>, path: string): (r: Response)
    ensures StartsWith(path, "/api") ==> r == Error(StatusNotFound, "404 page not found")
    ensures !StartsWith(path, "/api") && path in files ==> r == Response(StatusOK, Some(FileBody(path)))
    ensures (!StartsWith(path, "/api") && path !in files)
              ==> r == FileServe(files, "/index.html")
  {
    if StartsWith(path, "/api") then Error(StatusNotFound, "404 page not found")
    else if path in files then FileServe(files, path)
    else FileServe(files, "/index.html")
  }

  /** The catch-all never answers an API path with a page, and answers every
      other path with a page as long as the index page exists. */
  lemma SpaFallbackServesPages(files: set<string>, path: string)
    ensures SpaFallback(files, path).status == StatusOK <==>
              !StartsWith(path, "/api") && (path in files || "/index.html" in files)
    ensures (!StartsWith(path, "/api") && path !in files && "/index.html" in files)
              ==> SpaFallback(files, path).body == Some(FileBody("/index.html"))
  {
  }

  /** The answer of a static route, as written. */
  function ServeStatic(t: Target, files: set<string>, path: string): (r: Response)
    requires t == Assets || t == ViteIcon || t == SinglePageApp
    requires t == Assets ==> StartsWith(path, "/assets/")
    // the assets route finds a file only at the root of the static directory
    ensures t == Assets ==> (r.status == StatusOK <==> "/" + path[|"/assets/"|..] in files)
    ensures t == ViteIcon ==> (r.status == StatusOK <==> path in files)
    ensures t == SinglePageApp ==>
              (r.status == StatusOK <==> !StartsWith(path, "/api") && (path in files || "/index.html" in files))
    // a page is only ever the file asked for or, for the catch-all, the index page
    ensures r.status == StatusOK ==>
              r.body == Some(FileBody(if t == Assets then "/" + path[|"/assets/"|..] else if t == ViteIcon || path in files then path else "/index.html"))
    ensures r.status != StatusOK ==> r == Error(StatusNotFound, "404 page not found")
  {
    match t
    case Assets => ServeAssetsAsWritten(files, path)
    case ViteIcon => FileServe(files, path)
    case SinglePageApp => SpaFallback(files, path)
  }
}
