/** The request-dispatch pieces both `Router` classes share (framework/core/router.ts and
    packages/core/core/router.ts): the custom-route registries, loading the route table,
    resolving a request to a file route (404, 405 and 400 answers), and the WebSocket,
    TCP and tRPC entry points. Handlers, route modules and the middleware they run are
    not visible here: they are functions given to the model. */
module Dispatch {
  import opened Strings
  import opened Opt
  import opened Http
  import opened Routes
  import opened RouteParams

  /** What a handler does: resolves to a response or throws. */
  datatype Reply = Answer(response: Response) | Throw(message: string)

  /** A route registered with `get`, `post` or `all`. */
  datatype CustomRoute = CustomRoute(path: string, handler: Request -> Reply)

  /** How `handleHttp`'s promise settles: with a response, with `undefined`, or rejected. */
  datatype Outcome = Respond(response: Response) | Undefined | Reject(message: string)

  /** A validator's `parse`: the parsed value, or the message of what it throws. */
  datatype Parsed<T> = Ok(value: T) | Fail(message: string)

  type ParamMap = map<string, Option<string>>

  type Query = map<string, string>

  /** A route module's `config` export: the params, query and response validators. The
      response validator yields the message it throws for a response, if any. */
  datatype RouteConfig = RouteConfig(params: Option<ParamMap -> Parsed<ParamMap>>,
                                     querys: Option<Query -> Parsed<Query>>,
                                     response: Option<Response -> Option<string>>)

  /** A loaded route module: the names of its handler exports and its config. */
  datatype FileModule = FileModule(exports: set<string>, config: Option<RouteConfig>)

  /** The first registered `all` route whose pattern matches the pathname. */
  function FirstWildcard(routes: seq<CustomRoute>, pathname: string): (r: Option<nat>)
    ensures r.Some? ==> r.value < |routes| && MatchWildcard(routes[r.value].path, pathname)
    ensures r.Some? ==> forall j :: 0 <= j < r.value ==> !MatchWildcard(routes[j].path, pathname)
    ensures r.None? ==> forall j :: 0 <= j < |routes| ==> !MatchWildcard(routes[j].path, pathname)
    decreases |routes|
  {
    if |routes| == 0 then None
    else if MatchWildcard(routes[0].path, pathname) then Some(0)
    else
      match FirstWildcard(routes[1..], pathname)
      case Some(i) => Some(i + 1)
      case None => None
  }

  /** The first wildcard match a scan stopping at the first hit finds is `FirstWildcard`'s. */
  lemma {:induction false} FirstWildcardIsFirst(routes: seq<CustomRoute>, pathname: string, k: nat)
    requires k < |routes| && MatchWildcard(routes[k].path, pathname)
    requires forall j :: 0 <= j < k ==> !MatchWildcard(routes[j].path, pathname)
    ensures FirstWildcard(routes, pathname) == Some(k)
  {
    if k > 0 {
      FirstWildcardIsFirst(routes[1..], pathname, k - 1);
    }
  }

  /** `routes.find(r => r.path === pathname)`, as an index. */
  function FindExact(routes: seq<CustomRoute>, pathname: string): (r: Option<nat>)
    ensures r.Some? ==> r.value < |routes| && routes[r.value].path == pathname
    ensures r.Some? ==> forall j :: 0 <= j < r.value ==> routes[j].path != pathname
    ensures r.None? ==> forall j :: 0 <= j < |routes| ==> routes[j].path != pathname
    decreases |routes|
  {
    if |routes| == 0 then None
    else if routes[0].path == pathname then Some(0)
    else
      match FindExact(routes[1..], pathname)
      case Some(i) => Some(i + 1)
      case None => None
  }

  /** The response an `all` handler's reply becomes: a throw is a 500. */
  function AllReply(reply: Reply): (r: Response)
    ensures reply.Throw? ==> r == Plain(500, "Internal Server Error")
    ensures reply.Answer? ==> r == reply.response
  {
    match reply
    case Answer(response) => response
    case Throw(_) => Plain(500, "Internal Server Error")
  }

  /** `mod[method] || mod[method.toUpperCase()]`: the export that handles the method. */
  function HandlerExport(mod: FileModule, verb: string): (e: Option<string>)
    ensures e.Some? <==> verb in mod.exports || ToUpper(verb) in mod.exports
    ensures e.Some? ==> e.value in mod.exports
    ensures verb in mod.exports ==> e == Some(verb)
  {
    if verb in mod.exports then Some(verb)
    else if ToUpper(verb) in mod.exports then Some(ToUpper(verb))
    else None
  }

  /** `(await scanRoutes(dir)).filter(r => r.type === kind).map(r => ({ ...r, routePath:
      stripRoutesPrefix(r.routePath, kind) }))`. */
  function Loaded(scanned: seq<RouteFile>, kind: RouteType): (r: seq<RouteFile>)
    ensures |r| <= |scanned|
    ensures forall j :: 0 <= j < |r| ==> r[j].kind == kind
    decreases |scanned|
  {
    if |scanned| == 0 then []
    else
      var rest := Loaded(scanned[1..], kind);
      if scanned[0].kind == kind then [scanned[0].(routePath := StripRoutesPrefix(scanned[0].routePath, kind))] + rest
      else rest
  }

  /** The loaded table holds, in order, exactly the scanned descriptors of the kind, each
      with its path stripped. */
  lemma {:induction false} LoadedSpec(scanned: seq<RouteFile>, kind: RouteType, x: RouteFile)
    ensures x in Loaded(scanned, kind) <==>
            exists i :: 0 <= i < |scanned| && scanned[i].kind == kind &&
                        x == scanned[i].(routePath := StripRoutesPrefix(scanned[i].routePath, kind))
    decreases |scanned|
  {
    if |scanned| > 0 {
      LoadedSpec(scanned[1..], kind, x);
      assert forall i :: 1 <= i < |scanned| ==> scanned[i] == scanned[1..][i - 1];
      if exists i :: 0 <= i < |scanned| && scanned[i].kind == kind &&
                     x == scanned[i].(routePath := StripRoutesPrefix(scanned[i].routePath, kind)) {
        var i :| 0 <= i < |scanned| && scanned[i].kind == kind &&
                 x == scanned[i].(routePath := StripRoutesPrefix(scanned[i].routePath, kind));
        if i > 0 {
          assert scanned[1..][i - 1] == scanned[i];
        }
      }
    }
  }

  // ---------------------------------------------------------------------------
  // Resolving a request to a file route

  /** Where resolution ends: an answer of its own, a thrown import, or a route module
      ready to run with its validated params and query. */
  datatype Resolution =
    | Direct(response: Response)
    | Failed(message: string)
    | Ready(route: RouteFile, mod: FileModule, params: ParamMap, query: Query)

  const ImportFailed: string := "Cannot find module"

  /** The config-based validation: a throwing params parse is a 400 "Invalid params: …",
      then a throwing query parse a 400 "Invalid query: …". */
  function Validate(route: RouteFile, mod: FileModule, params: ParamMap, query: Query): (r: Resolution)
    ensures r.Direct? ==> r.response.status == 400
    ensures r.Ready? ==> r.route == route && r.mod == mod
    ensures mod.config.None? ==> r == Ready(route, mod, params, query)
    ensures !r.Failed?
  {
    if mod.config.None? then Ready(route, mod, params, query)
    else
      var c := mod.config.value;
      var p := if c.params.Some? then c.params.value(params) else Ok(params);
      if p.Fail? then Direct(Plain(400, "Invalid params: " + p.message))
      else
        var q := if c.querys.Some? then c.querys.value(query) else Ok(query);
        if q.Fail? then Direct(Plain(400, "Invalid query: " + q.message))
        else Ready(route, mod, p.value, q.value)
  }

  /** From the route table to a runnable route: no match is a 404 "Not Found", a module
      without the method's export a 405 "Method Not Allowed", then validation. A module
      missing from `modules` is one whose import throws. */
  function Resolve(httpRoutes: seq<RouteFile>, modules: map<string, FileModule>, req: Request): (r: Resolution)
    ensures r.Ready? ==> Match(httpRoutes, req.url.pathname, Some(req.httpMethod), HttpRoute) == Some(r.route) &&
                         r.route.file in modules && r.mod == modules[r.route.file]
    ensures r.Failed? ==> r.message == ImportFailed
  {
    match Match(httpRoutes, req.url.pathname, Some(req.httpMethod), HttpRoute)
    case None => Direct(Plain(404, "Not Found"))
    case Some(route) =>
      if route.file !in modules then Failed(ImportFailed)
      else
        var mod := modules[route.file];
        if HandlerExport(mod, req.httpMethod).None? then Direct(Plain(405, "Method Not Allowed"))
        else
          Validate(route, mod, Params(Segments(route.routePath), Segments(req.url.pathname)), FromEntries(req.url.query))
  }

  /** The outcomes of resolution: 404 exactly when no http route accepts the path and
      method; 405 when the matched module lacks the export; a runnable route is the first
      accepting one, its module has the export and, without a config, the params are the
      extracted ones. */
  lemma ResolveSpec(httpRoutes: seq<RouteFile>, modules: map<string, FileModule>, req: Request)
    ensures var r := Resolve(httpRoutes, modules, req);
            var m := Match(httpRoutes, req.url.pathname, Some(req.httpMethod), HttpRoute);
            && (r == Direct(Plain(404, "Not Found")) <==> m.None?)
            && (m.Some? && m.value.file in modules && HandlerExport(modules[m.value.file], req.httpMethod).None? ==>
                  r == Direct(Plain(405, "Method Not Allowed")))
            && (r.Ready? ==> m == Some(r.route) && r.route.file in modules && r.mod == modules[r.route.file] &&
                             HandlerExport(r.mod, req.httpMethod).Some?)
            && (r.Ready? && r.mod.config.None? ==>
                  r.params == Params(Segments(r.route.routePath), Segments(req.url.pathname)) &&
                  r.query == FromEntries(req.url.query))
  {
  }

  /** The response check after the handler: a config with a response validator that
      throws for the response turns it into a 500 "Invalid response: …". */
  function ResponseCheck(mod: FileModule, response: Response): (r: Option<Response>)
    ensures r.Some? ==> r.value.status == 500
    ensures mod.config.None? || mod.config.value.response.None? ==> r.None?
  {
    if mod.config.None? || mod.config.value.response.None? then None
    else
      match mod.config.value.response.value(response)
      case Some(message) => Some(Plain(500, "Invalid response: " + message))
      case None => None
  }

  /** The context's response headers copied over the response, when there are any:
      status, status text and body are kept. */
  function WithContextHeaders(response: Response, ctxHeaders: Headers): (r: Response)
    ensures r.status == response.status && r.statusText == response.statusText && r.body == response.body
    ensures forall n :: n in ctxHeaders ==> n in r.headers && r.headers[n] == IteratedValue(n, ctxHeaders[n])
    ensures forall n :: n in response.headers && n !in ctxHeaders ==> n in r.headers && r.headers[n] == response.headers[n]
    ensures ctxHeaders == map[] ==> r == response
  {
    if ctxHeaders == map[] then response
    else Response(response.status, response.statusText, SetAll(response.headers, ctxHeaders), response.body)
  }

  // ---------------------------------------------------------------------------
  // WebSocket, TCP and tRPC entry points

  datatype SocketOutcome = Close | Open(route: RouteFile, params: ParamMap)

  /** `handleWebSocket`: the matching ws route opens with its params; no match closes the
      socket. */
  function WebSocketOutcome(wsRoutes: seq<RouteFile>, pathname: string): (r: SocketOutcome)
    ensures r == Close <==> Match(wsRoutes, pathname, None, WsRoute).None?
    ensures r.Open? ==> r.route.kind == WsRoute && Match(wsRoutes, pathname, None, WsRoute) == Some(r.route)
  {
    match Match(wsRoutes, pathname, None, WsRoute)
    case None => Close
    case Some(route) => Open(route, Params(Segments(route.routePath), Segments(pathname)))
  }

  /** `handleTcp`: the first tcp route, its params extracted against an empty path; no
      route ends the socket. */
  function TcpOutcome(tcpRoutes: seq<RouteFile>): (r: SocketOutcome)
    ensures r == Close <==> tcpRoutes == []
    ensures r.Open? ==> r.route == tcpRoutes[0]
  {
    if tcpRoutes == [] then Close
    else Open(tcpRoutes[0], Params(Segments(tcpRoutes[0].routePath), Segments("")))
  }

  /** `handleTrpc`: a 404 without a matching trpc route, else the adapter's response. */
  function TrpcResponse(trpcRoutes: seq<RouteFile>, req: Request, adapter: (RouteFile, Request) -> Response): (r: Response)
    ensures Match(trpcRoutes, req.url.pathname, None, TrpcRoute).None? ==> r == Plain(404, "Not Found")
    ensures Match(trpcRoutes, req.url.pathname, None, TrpcRoute).Some? ==>
            r == adapter(Match(trpcRoutes, req.url.pathname, None, TrpcRoute).value, req)
  {
    match Match(trpcRoutes, req.url.pathname, None, TrpcRoute)
    case None => Plain(404, "Not Found")
    case Some(route) => adapter(route, req)
  }
}
