/** The `Router` of framework/core/router.ts: custom routes, the route table loaded once,
    and `handleHttp`'s fixed order — CORS preflight, `all` routes, exact GET and POST
    routes, then file routes — with every answer passed through `patchCorsHeaders`. */
module FrameworkRouter {
  import opened Strings
  import opened Opt
  import opened Http
  import opened Routes
  import opened RouteParams
  import opened Cors
  import opened Dispatch

  /** What a file route's middleware chain and handler produce: a response and the
      context's response headers at the end, or the message of what they throw. */
  datatype Served = Served(response: Response, ctxHeaders: Headers) | Crashed(message: string)

  /** Discovering, composing and running a route's middleware and handler, given the
      route, its module, the validated params and query and the context's initial
      response headers. */
  type Runner = (RouteFile, FileModule, ParamMap, Query, Headers) -> Served

  /** The CORS headers the middleware computes for a request on fresh headers. */
  function RequestCorsHeaders(o: CorsOptions, req: Request): Headers
  {
    CorsHeaders(Settings(o), HeaderValue(req.headers, OriginHeader), map[])
  }

  /** `patchCorsHeaders(req, res)`: without a CORS config the response itself; otherwise a
      copy with the same status, status text and body whose headers are the response's
      with every CORS header set over them. */
  function PatchCorsHeaders(cors: Option<CorsOptions>, req: Request, res: Response): (r: Response)
    ensures cors.None? ==> r == res
    ensures r.status == res.status && r.statusText == res.statusText && r.body == res.body
    ensures cors.Some? ==>
            (forall n :: n in RequestCorsHeaders(cors.value, req) ==>
               n in r.headers && r.headers[n] == IteratedValue(n, RequestCorsHeaders(cors.value, req)[n])) &&
            (forall n :: n in res.headers && n !in RequestCorsHeaders(cors.value, req) ==>
               n in r.headers && r.headers[n] == res.headers[n])
  {
    if cors.None? then res
    else Response(res.status, res.statusText, SetAll(res.headers, RequestCorsHeaders(cors.value, req)), res.body)
  }

  /** A custom GET or POST handler's reply: its response patched, or its throw. */
  function CustomOutcome(cors: Option<CorsOptions>, req: Request, reply: Reply): Outcome
  {
    match reply
    case Answer(r) => Respond(PatchCorsHeaders(cors, req, r))
    case Throw(m) => Reject(m)
  }

  /** The context's initial response headers: the CORS headers copied in with `ctx.set`. */
  function InitialContextHeaders(cors: Option<CorsOptions>, req: Request): Headers
  {
    if cors.Some? then SetAll(map[], RequestCorsHeaders(cors.value, req)) else map[]
  }

  /** The file-route part of `handleHttp`, with the context's response headers copied
      over the handler's response before it is patched. */
  function FileRouteOutcome(cors: Option<CorsOptions>, httpRoutes: seq<RouteFile>, modules: map<string, FileModule>,
                            run: Runner, req: Request): (r: Outcome)
    ensures !r.Undefined?
    ensures r.Reject? ==> !Resolve(httpRoutes, modules, req).Direct?
  {
    match Resolve(httpRoutes, modules, req)
    case Direct(r) => Respond(PatchCorsHeaders(cors, req, r))
    case Failed(m) => Reject(m)
    case Ready(route, mod, params, query) =>
      match run(route, mod, params, query, InitialContextHeaders(cors, req))
      case Crashed(m) => Reject(m)
      case Served(resp, ctxHeaders) =>
        match ResponseCheck(mod, resp)
        case Some(r) => Respond(PatchCorsHeaders(cors, req, r))
        case None => Respond(PatchCorsHeaders(cors, req, WithContextHeaders(resp, ctxHeaders)))
  }

  /** The message of the TypeError raised by reading `forEach` of `undefined`; the text
      stands for the engine's own wording, which is not modelled. */
  const ResponseHeadersUndefined: string := "Cannot read properties of undefined (reading 'forEach')"

  /** The file-route part as written: the context's headers are read through a
      `responseHeaders` property the context class does not have, so every request that
      gets past the response check throws a TypeError. */
  function FileRouteOutcomeAsWritten(cors: Option<CorsOptions>, httpRoutes: seq<RouteFile>, modules: map<string, FileModule>,
                                     run: Runner, req: Request): (r: Outcome)
    ensures r.Respond? || FileRouteOutcome(cors, httpRoutes, modules, run, req).Reject? ==>
              r == FileRouteOutcome(cors, httpRoutes, modules, run, req)
    ensures r != FileRouteOutcome(cors, httpRoutes, modules, run, req) ==> r == Reject(ResponseHeadersUndefined)
  {
    match Resolve(httpRoutes, modules, req)
    case Direct(r) => Respond(PatchCorsHeaders(cors, req, r))
    case Failed(m) => Reject(m)
    case Ready(route, mod, params, query) =>
      match run(route, mod, params, query, InitialContextHeaders(cors, req))
      case Crashed(m) => Reject(m)
      case Served(resp, ctxHeaders) =>
        match ResponseCheck(mod, resp)
        case Some(r) => Respond(PatchCorsHeaders(cors, req, r))
        case None => Reject(ResponseHeadersUndefined)
  }

  /** `handleHttp(req)` once the routes are loaded. */
  function HttpOutcome(cors: Option<CorsOptions>, alls: seq<CustomRoute>, gets: seq<CustomRoute>, posts: seq<CustomRoute>,
                       httpRoutes: seq<RouteFile>, modules: map<string, FileModule>, run: Runner, req: Request): (r: Outcome)
    ensures !r.Undefined?
    ensures cors.None? && FirstWildcard(alls, req.url.pathname).None? && !(req.httpMethod == "GET" && FindExact(gets, req.url.pathname).Some?) &&
            !(req.httpMethod == "POST" && FindExact(posts, req.url.pathname).Some?) ==>
              r == FileRouteOutcome(cors, httpRoutes, modules, run, req)
  {
    if cors.Some? && req.httpMethod == "OPTIONS" then
      Respond(PatchCorsHeaders(cors, req, Response(204, "", RequestCorsHeaders(cors.value, req), "")))
    else
      match FirstWildcard(alls, req.url.pathname)
      case Some(i) => Respond(PatchCorsHeaders(cors, req, AllReply(alls[i].handler(req))))
      case None =>
        var g := if req.httpMethod == "GET" then FindExact(gets, req.url.pathname) else None;
        var p := if req.httpMethod == "POST" then FindExact(posts, req.url.pathname) else None;
        if g.Some? then CustomOutcome(cors, req, gets[g.value].handler(req))
        else if p.Some? then CustomOutcome(cors, req, posts[p.value].handler(req))
        else FileRouteOutcome(cors, httpRoutes, modules, run, req)
  }

  class Router {
    const apiDir: string
    const tcpDir: string
    const cors: Option<CorsOptions>
    var httpRoutes: seq<RouteFile>
    var wsRoutes: seq<RouteFile>
    var tcpRoutes: seq<RouteFile>
    var trpcRoutes: seq<RouteFile>
    var routesLoaded: bool
    var customGetRoutes: seq<CustomRoute>
    var customPostRoutes: seq<CustomRoute>
    var customAllRoutes: seq<CustomRoute>

    /** The four tables as `loadRoutes` builds them from the directory trees. */
    ghost predicate LoadedFrom(apiTree: seq<Entry>, tcpTree: seq<Entry>)
      reads this
    {
      && httpRoutes == Loaded(Scan(apiDir, "", apiTree), HttpRoute)
      && wsRoutes == Loaded(Scan(apiDir, "", apiTree), WsRoute)
      && tcpRoutes == Loaded(Scan(tcpDir, "", tcpTree), TcpRoute)
      && trpcRoutes == Loaded(Scan(apiDir, "", apiTree), TrpcRoute)
    }

    constructor(apiDir: string, tcpDir: string, cors: Option<CorsOptions>)
      ensures this.apiDir == apiDir && this.tcpDir == tcpDir && this.cors == cors
      ensures httpRoutes == [] && wsRoutes == [] && tcpRoutes == [] && trpcRoutes == [] && !routesLoaded
      ensures customGetRoutes == [] && customPostRoutes == [] && customAllRoutes == []
    {
      this.apiDir := apiDir;
      this.tcpDir := tcpDir;
      this.cors := cors;
      httpRoutes, wsRoutes, tcpRoutes, trpcRoutes := [], [], [], [];
      routesLoaded := false;
      customGetRoutes, customPostRoutes, customAllRoutes := [], [], [];
    }

    /** `get(path, handler)`: appended after the earlier GET routes. */
    method Get(path: string, handler: Request -> Reply)
      modifies this
      ensures customGetRoutes == old(customGetRoutes) + [CustomRoute(path, handler)]
      ensures customPostRoutes == old(customPostRoutes) && customAllRoutes == old(customAllRoutes)
      ensures httpRoutes == old(httpRoutes) && wsRoutes == old(wsRoutes) && tcpRoutes == old(tcpRoutes)
      ensures trpcRoutes == old(trpcRoutes) && routesLoaded == old(routesLoaded)
    {
      customGetRoutes := customGetRoutes + [CustomRoute(path, handler)];
    }

    /** `post(path, handler)`: appended after the earlier POST routes. */
    method Post(path: string, handler: Request -> Reply)
      modifies this
      ensures customPostRoutes == old(customPostRoutes) + [CustomRoute(path, handler)]
      ensures customGetRoutes == old(customGetRoutes) && customAllRoutes == old(customAllRoutes)
      ensures httpRoutes == old(httpRoutes) && wsRoutes == old(wsRoutes) && tcpRoutes == old(tcpRoutes)
      ensures trpcRoutes == old(trpcRoutes) && routesLoaded == old(routesLoaded)
    {
      customPostRoutes := customPostRoutes + [CustomRoute(path, handler)];
    }

    /** `all(path, handler)`: appended after the earlier `all` routes. */
    method All(path: string, handler: Request -> Reply)
      modifies this
      ensures customAllRoutes == old(customAllRoutes) + [CustomRoute(path, handler)]
      ensures customGetRoutes == old(customGetRoutes) && customPostRoutes == old(customPostRoutes)
      ensures httpRoutes == old(httpRoutes) && wsRoutes == old(wsRoutes) && tcpRoutes == old(tcpRoutes)
      ensures trpcRoutes == old(trpcRoutes) && routesLoaded == old(routesLoaded)
    {
      customAllRoutes := customAllRoutes + [CustomRoute(path, handler)];
    }

    /** `loadRoutes()`: scans the trees on the first call only. */
    method LoadRoutes(apiTree: seq<Entry>, tcpTree: seq<Entry>)
      modifies this
      ensures routesLoaded
      ensures old(routesLoaded) ==> unchanged(this)
      ensures !old(routesLoaded) ==> LoadedFrom(apiTree, tcpTree)
      ensures customGetRoutes == old(customGetRoutes) && customPostRoutes == old(customPostRoutes)
      ensures customAllRoutes == old(customAllRoutes)
    {
      if routesLoaded {
        return;
      }
      var api := ScanRoutes(apiDir, "", apiTree);
      var tcp := ScanRoutes(tcpDir, "", tcpTree);
      httpRoutes := Loaded(api, HttpRoute);
      wsRoutes := Loaded(api, WsRoute);
      tcpRoutes := Loaded(tcp, TcpRoute);
      trpcRoutes := Loaded(api, TrpcRoute);
      routesLoaded := true;
    }

    /** `handleHttp(req)`: loads the routes, then answers in the fixed order. */
    method HandleHttp(req: Request, apiTree: seq<Entry>, tcpTree: seq<Entry>, modules: map<string, FileModule>, run: Runner)
      returns (outcome: Outcome)
      modifies this
      ensures routesLoaded
      ensures old(routesLoaded) ==> unchanged(this)
      ensures !old(routesLoaded) ==> LoadedFrom(apiTree, tcpTree)
      ensures customGetRoutes == old(customGetRoutes) && customPostRoutes == old(customPostRoutes)
      ensures customAllRoutes == old(customAllRoutes)
      ensures outcome == HttpOutcome(cors, customAllRoutes, customGetRoutes, customPostRoutes, httpRoutes, modules, run, req)
    {
      LoadRoutes(apiTree, tcpTree);
      var pathname := req.url.pathname;
      if cors.Some? {
        // The CORS middleware with a `next` that resolves to nothing: only a preflight
        // comes back with a response.
        var preflight, headers, calledNext := Cors.Cors(Settings(cors.value), req, map[], Plain(200, ""));
        if !calledNext {
          return Respond(PatchCorsHeaders(cors, req, preflight));
        }
      }
      var k := 0;
      while k < |customAllRoutes|
        invariant 0 <= k <= |customAllRoutes|
        invariant forall j :: 0 <= j < k ==> !MatchWildcard(customAllRoutes[j].path, pathname)
      {
        var route := customAllRoutes[k];
        if MatchWildcard(route.path, pathname) {
          assert FirstWildcard(customAllRoutes, pathname) == Some(k) by {
            FirstWildcardIsFirst(customAllRoutes, pathname, k);
          }
          var reply := route.handler(req);
          var response := if reply.Throw? then Plain(500, "Internal Server Error") else reply.response;
          return Respond(PatchCorsHeaders(cors, req, response));
        }
        k := k + 1;
      }
      if req.httpMethod == "GET" {
        var custom := FindExact(customGetRoutes, pathname);
        if custom.Some? {
          var reply := customGetRoutes[custom.value].handler(req);
          return CustomOutcome(cors, req, reply);
        }
      }
      if req.httpMethod == "POST" {
        var custom := FindExact(customPostRoutes, pathname);
        if custom.Some? {
          var reply := customPostRoutes[custom.value].handler(req);
          return CustomOutcome(cors, req, reply);
        }
      }
      outcome := FileRouteOutcome(cors, httpRoutes, modules, run, req);
    }

    /** `handleWebSocket(req, ws)`: loads the routes; opens the matching ws route or
        closes the socket. */
    method HandleWebSocket(req: Request, apiTree: seq<Entry>, tcpTree: seq<Entry>) returns (o: SocketOutcome)
      modifies this
      ensures routesLoaded
      ensures old(routesLoaded) ==> unchanged(this)
      ensures !old(routesLoaded) ==> LoadedFrom(apiTree, tcpTree)
      ensures o == WebSocketOutcome(wsRoutes, req.url.pathname)
    {
      LoadRoutes(apiTree, tcpTree);
      var route := MatchRoute(wsRoutes, req.url.pathname, None, WsRoute);
      if route.None? {
        return Close;
      }
      var params := ExtractParams(route.value.routePath, req.url.pathname);
      o := Open(route.value, params);
    }

    /** `handleTcp(socket)`: the first tcp route, or the socket is ended. */
    method HandleTcp(apiTree: seq<Entry>, tcpTree: seq<Entry>) returns (o: SocketOutcome)
      modifies this
      ensures routesLoaded
      ensures old(routesLoaded) ==> unchanged(this)
      ensures !old(routesLoaded) ==> LoadedFrom(apiTree, tcpTree)
      ensures o == TcpOutcome(tcpRoutes)
    {
      LoadRoutes(apiTree, tcpTree);
      if tcpRoutes == [] {
        return Close;
      }
      var params := ExtractParams(tcpRoutes[0].routePath, "");
      o := Open(tcpRoutes[0], params);
    }

    /** `handleTrpc(req)`: a 404 without a matching trpc route, else the adapter. */
    method HandleTrpc(req: Request, apiTree: seq<Entry>, tcpTree: seq<Entry>, adapter: (RouteFile, Request) -> Response)
      returns (r: Response)
      modifies this
      ensures routesLoaded
      ensures old(routesLoaded) ==> unchanged(this)
      ensures !old(routesLoaded) ==> LoadedFrom(apiTree, tcpTree)
      ensures r == TrpcResponse(trpcRoutes, req, adapter)
    {
      LoadRoutes(apiTree, tcpTree);
      var route := MatchRoute(trpcRoutes, req.url.pathname, None, TrpcRoute);
      if route.None? {
        return Plain(404, "Not Found");
      }
      r := adapter(route.value, req);
    }
  }

  // ---------------------------------------------------------------------------
  // Properties of the decision order

  /** A preflight is answered by the CORS middleware before any route is consulted. */
  lemma PreflightFirst(cors: Option<CorsOptions>, alls: seq<CustomRoute>, gets: seq<CustomRoute>, posts: seq<CustomRoute>,
                       httpRoutes: seq<RouteFile>, modules: map<string, FileModule>, run: Runner, req: Request)
    requires cors.Some? && req.httpMethod == "OPTIONS"
    ensures var o := HttpOutcome(cors, alls, gets, posts, httpRoutes, modules, run, req);
            o.Respond? && o.response.status == 204 && o.response.body == "" &&
            forall n :: n in RequestCorsHeaders(cors.value, req) ==> n in o.response.headers
  {
  }

  /** Otherwise the earliest matching `all` route answers, before exact routes and file
      routes; a throwing `all` handler becomes a 500. */
  lemma AllRoutesBeforeOthers(cors: Option<CorsOptions>, alls: seq<CustomRoute>, gets: seq<CustomRoute>, posts: seq<CustomRoute>,
                              httpRoutes: seq<RouteFile>, modules: map<string, FileModule>, run: Runner, req: Request, k: nat)
    requires !(cors.Some? && req.httpMethod == "OPTIONS")
    requires k < |alls| && MatchWildcard(alls[k].path, req.url.pathname)
    requires forall j :: 0 <= j < k ==> !MatchWildcard(alls[j].path, req.url.pathname)
    ensures HttpOutcome(cors, alls, gets, posts, httpRoutes, modules, run, req) ==
            Respond(PatchCorsHeaders(cors, req, AllReply(alls[k].handler(req))))
    ensures alls[k].handler(req).Throw? ==>
            HttpOutcome(cors, alls, gets, posts, httpRoutes, modules, run, req).response.status == 500
  {
    FirstWildcardIsFirst(alls, req.url.pathname, k);
  }

  /** A request no custom route takes and no file route accepts is a 404. */
  lemma NotFound(cors: Option<CorsOptions>, alls: seq<CustomRoute>, gets: seq<CustomRoute>, posts: seq<CustomRoute>,
                 httpRoutes: seq<RouteFile>, modules: map<string, FileModule>, run: Runner, req: Request)
    requires !(cors.Some? && req.httpMethod == "OPTIONS")
    requires forall j :: 0 <= j < |alls| ==> !MatchWildcard(alls[j].path, req.url.pathname)
    requires forall j :: 0 <= j < |gets| ==> gets[j].path != req.url.pathname
    requires forall j :: 0 <= j < |posts| ==> posts[j].path != req.url.pathname
    requires Match(httpRoutes, req.url.pathname, Some(req.httpMethod), HttpRoute).None?
    ensures HttpOutcome(cors, alls, gets, posts, httpRoutes, modules, run, req) ==
            Respond(PatchCorsHeaders(cors, req, Plain(404, "Not Found")))
  {
    assert FirstWildcard(alls, req.url.pathname).None?;
  }

  /** Once the file route is chosen, a module without the method's export is a 405 and a
      throwing response validator a 500. */
  lemma FileRouteErrors(cors: Option<CorsOptions>, httpRoutes: seq<RouteFile>, modules: map<string, FileModule>, run: Runner, req: Request)
    ensures var m := Match(httpRoutes, req.url.pathname, Some(req.httpMethod), HttpRoute);
            m.Some? && m.value.file in modules && HandlerExport(modules[m.value.file], req.httpMethod).None? ==>
              FileRouteOutcome(cors, httpRoutes, modules, run, req) == Respond(PatchCorsHeaders(cors, req, Plain(405, "Method Not Allowed")))
    ensures var r := Resolve(httpRoutes, modules, req);
            r.Ready? && run(r.route, r.mod, r.params, r.query, InitialContextHeaders(cors, req)).Served? &&
            ResponseCheck(r.mod, run(r.route, r.mod, r.params, r.query, InitialContextHeaders(cors, req)).response).Some? ==>
              FileRouteOutcome(cors, httpRoutes, modules, run, req).Respond? &&
              FileRouteOutcome(cors, httpRoutes, modules, run, req).response.status == 500
    ensures Resolve(httpRoutes, modules, req).Direct? && Resolve(httpRoutes, modules, req).response.status == 400 ==>
              FileRouteOutcome(cors, httpRoutes, modules, run, req).Respond? &&
              FileRouteOutcome(cors, httpRoutes, modules, run, req).response.status == 400
  {
    ResolveSpec(httpRoutes, modules, req);
  }

  /** A served file route's response carries the headers its context set, over the
      handler's own, with status and body unchanged. */
  lemma ContextHeadersReachResponse(httpRoutes: seq<RouteFile>, modules: map<string, FileModule>, run: Runner, req: Request)
    ensures var r := Resolve(httpRoutes, modules, req);
            r.Ready? ==>
            var s := run(r.route, r.mod, r.params, r.query, map[]);
            s.Served? && ResponseCheck(r.mod, s.response).None? ==>
              var o := FileRouteOutcome(None, httpRoutes, modules, run, req);
              o.Respond? && o.response.status == s.response.status && o.response.body == s.response.body &&
              forall n :: n in s.ctxHeaders ==> n in o.response.headers && o.response.headers[n] == IteratedValue(n, s.ctxHeaders[n])
  {
  }

  /** The code as written rejects every file-route request that is served and passes the
      response check, whatever the route and handler. */
  lemma ServedFileRoutesReject(cors: Option<CorsOptions>, httpRoutes: seq<RouteFile>, modules: map<string, FileModule>, run: Runner, req: Request)
    ensures var r := Resolve(httpRoutes, modules, req);
            r.Ready? ==>
            var s := run(r.route, r.mod, r.params, r.query, InitialContextHeaders(cors, req));
            s.Served? && ResponseCheck(r.mod, s.response).None? ==>
              FileRouteOutcomeAsWritten(cors, httpRoutes, modules, run, req) == Reject(ResponseHeadersUndefined) &&
              FileRouteOutcome(cors, httpRoutes, modules, run, req).Respond?
  {
  }
}
