/** The `Router` of packages/core/core/router.ts: the framework router's order extended
    with mounted applications, request merging and a route-cache fast path, and with
    CORS and the route's middleware run as onRequest and onResponse chains. */
module CoreRouter {
  import opened Strings
  import opened Opt
  import opened Http
  import opened Routes
  import opened RouteParams
  import opened Cors
  import opened Cache
  import opened Compose
  import opened Dispatch

  datatype RequestMerge = RequestMerge(enabled: bool, timeout: Option<int>)

  /** The router options the dispatcher reads. */
  datatype RouterOptions = RouterOptions(cache: Option<CacheConfig>, requestMerge: Option<RequestMerge>,
                                         cors: Option<CorsOptions>, enableTcp: bool)

  /** A mounted fetch-compatible application. */
  type App = Request -> Response

  /** What a file route's handler, run under its middleware, does: how it settles as the
      terminal of the onRequest chain, and the context's response headers at the end. */
  datatype HandlerRun = HandlerRun(outcome: Compose.Outcome, ctxHeaders: Headers)

  /** What the model is given about the world at a request: the route modules, each
      route's onRequest and onResponse middleware, its handler given the context's initial
      headers, the handlers behind route-cache entries, and the route cache's entries. */
  datatype Env = Env(modules: map<string, FileModule>,
                     chains: RouteFile -> (seq<Stage>, seq<Stage>),
                     run: (RouteFile, FileModule, ParamMap, Query, Headers) -> HandlerRun,
                     cached: (RouteCacheEntry, Request) -> Dispatch.Reply,
                     entries: Entries)

  /** How `handleHttp` answers: a mounted application's response, the promise of an
      earlier identical request, or a new promise that settles as `outcome`. */
  datatype HandleResult = Mounted(response: Response) | Joined(promise: nat) | Started(promise: nat, outcome: Dispatch.Outcome)

  /** Merging is on when `requestMerge.enabled` is. */
  predicate MergeEnabled(o: RouterOptions)
  {
    o.requestMerge.Some? && o.requestMerge.value.enabled
  }

  /** The merge delay: `requestMerge.timeout` when merging is on and the timeout is truthy,
      100 ms otherwise. */
  function MergeTimeout(o: RouterOptions): (t: int)
    ensures MergeEnabled(o) && o.requestMerge.value.timeout.Some? && o.requestMerge.value.timeout.value != 0 ==>
            t == o.requestMerge.value.timeout.value
    ensures !MergeEnabled(o) || o.requestMerge.value.timeout.None? || o.requestMerge.value.timeout == Some(0) ==> t == 100
  {
    if MergeEnabled(o) && o.requestMerge.value.timeout.Some? && o.requestMerge.value.timeout.value != 0
    then o.requestMerge.value.timeout.value else 100
  }

  /** The store the constructor creates: one exactly when `cache.routeCache.enabled`. */
  function StoreOf(o: RouterOptions): (r: Option<StoreKind>)
    ensures r.Some? <==> o.cache.Some? && o.cache.value.routeCache.Some? && o.cache.value.routeCache.value.enabled
    ensures r == Some(NullStore) <==> r.Some? && !On(o.cache.value.enabled)
  {
    if o.cache.Some? && o.cache.value.routeCache.Some? && o.cache.value.routeCache.value.enabled
    then Some(StoreKindFor(o.cache.value)) else None
  }

  const AuthorizationHeader: string := "authorization"
  const CookieHeader: string := "cookie"

  /** A header present with a non-empty value. */
  predicate Truthy(h: Headers, n: string)
  {
    HeaderValue(h, n).Some? && HeaderValue(h, n).value != ""
  }

  /** `getRequestKey(req)`: only GET requests without credentials are merged, keyed by
      method, path and query string. */
  function RequestKey(req: Request): (k: Option<string>)
    ensures k.None? <==> req.httpMethod != "GET" || Truthy(req.headers, AuthorizationHeader) || Truthy(req.headers, CookieHeader)
    ensures k.Some? ==> k.value == "GET:" + req.url.pathname + ":" + req.url.search
  {
    if req.httpMethod != "GET" then None
    else if Truthy(req.headers, AuthorizationHeader) || Truthy(req.headers, CookieHeader) then None
    else Some(req.httpMethod + ":" + req.url.pathname + ":" + req.url.search)
  }

  /** The first mount, in mounting order, whose prefix starts the pathname. */
  function FirstMount(mounts: seq<(string, App)>, pathname: string): (r: Option<nat>)
    ensures r.Some? ==> r.value < |mounts| && StartsWith(pathname, mounts[r.value].0)
    ensures r.Some? ==> forall j :: 0 <= j < r.value ==> !StartsWith(pathname, mounts[j].0)
    ensures r.None? ==> forall j :: 0 <= j < |mounts| ==> !StartsWith(pathname, mounts[j].0)
    decreases |mounts|
  {
    if |mounts| == 0 then None
    else if StartsWith(pathname, mounts[0].0) then Some(0)
    else
      match FirstMount(mounts[1..], pathname)
      case Some(i) => Some(i + 1)
      case None => None
  }

  /** A map's keys: no prefix is mounted twice. */
  predicate DistinctPrefixes(mounts: seq<(string, App)>)
  {
    forall i, j :: 0 <= i < j < |mounts| ==> mounts[i].0 != mounts[j].0
  }

  /** `mountedApps.set(prefix, app)`: a mounted prefix keeps its place and gets the new
      application; a new prefix goes last. */
  function MountSet(mounts: seq<(string, App)>, prefix: string, app: App): (r: seq<(string, App)>)
    requires DistinctPrefixes(mounts)
    ensures DistinctPrefixes(r)
    ensures (exists i :: 0 <= i < |mounts| && mounts[i].0 == prefix) ==> |r| == |mounts|
    ensures (forall i :: 0 <= i < |mounts| ==> mounts[i].0 != prefix) ==> r == mounts + [(prefix, app)]
    ensures forall i :: 0 <= i < |mounts| && mounts[i].0 != prefix ==> i < |r| && r[i] == mounts[i]
    ensures forall i :: 0 <= i < |r| && r[i].0 == prefix ==> r[i].1 == app
    ensures forall i :: 0 <= i < |mounts| ==> r[i].0 == mounts[i].0
    decreases |mounts|
  {
    if |mounts| == 0 then [(prefix, app)]
    else if mounts[0].0 == prefix then [(prefix, app)] + mounts[1..]
    else [mounts[0]] + MountSet(mounts[1..], prefix, app)
  }

  /** The path of `new URL(rest + search, origin)` for a remainder that does not start
      with "//": rooted at "/". */
  function RootedPath(rest: string): (p: string)
    ensures StartsWith(p, "/")
  {
    if StartsWith(rest, "/") then rest else "/" + rest
  }

  /** The request handed to a mounted application: the prefix sliced off the path, the
      query, method and headers kept. */
  function Rebased(req: Request, prefix: string): (r: Request)
    requires StartsWith(req.url.pathname, prefix)
    ensures r.httpMethod == req.httpMethod && r.headers == req.headers
    ensures r.url.search == req.url.search && r.url.query == req.url.query
    ensures r.url.pathname == RootedPath(req.url.pathname[|prefix|..])
  {
    Request(req.httpMethod, Url(RootedPath(req.url.pathname[|prefix|..]), req.url.search, req.url.query), req.headers)
  }

  // ---------------------------------------------------------------------------
  // The promise of one request

  /** The message of the TypeError the call raises; the text stands for the engine's own
      wording, which is not modelled. */
  const GetRouteUndefined: string := "this.cacheStore.getRoute is not a function"

  /** The route-cache fast path: a hit is answered by the cached handler. The store a
      disabled cache configuration creates has no route lookup; it is taken as a miss. */
  function RouteCacheStep(store: Option<StoreKind>, env: Env, req: Request): (r: Option<Dispatch.Outcome>)
    ensures store.None? || store == Some(NullStore) ==> r.None?
    ensures r.Some? ==> RouteLookup(env.entries, RouteCacheKey(req.url.pathname, req.httpMethod)).Some?
  {
    if store.None? || store == Some(NullStore) then None
    else
      match RouteLookup(env.entries, RouteCacheKey(req.url.pathname, req.httpMethod))
      case None => None
      case Some(e) =>
        match env.cached(e, req)
        case Answer(resp) => Some(Respond(resp))
        case Throw(m) => Some(Reject(m))
  }

  /** The fast path as written: the store of a disabled cache configuration has no
      `getRoute`, so calling it throws for every request. */
  function RouteCacheStepAsWritten(store: Option<StoreKind>, env: Env, req: Request): (r: Option<Dispatch.Outcome>)
    ensures r != RouteCacheStep(store, env, req) <==> store == Some(NullStore)
  {
    if store == Some(NullStore) then Some(Reject(GetRouteUndefined)) else RouteCacheStep(store, env, req)
  }

  /** The CORS middleware applied around a custom route's response on a fresh context: a
      preflight becomes a 204 with the CORS headers, anything else is left as it is. */
  function CorsWrap(cors: Option<CorsOptions>, req: Request, response: Response): (r: Response)
    ensures cors.None? || req.httpMethod != "OPTIONS" ==> r == response
  {
    if cors.Some? && req.httpMethod == "OPTIONS"
    then Response(204, "", CorsHeaders(Settings(cors.value), HeaderValue(req.headers, OriginHeader), map[]), "")
    else response
  }

  function CustomOutcome(cors: Option<CorsOptions>, req: Request, reply: Dispatch.Reply): Dispatch.Outcome
  {
    match reply
    case Answer(r) => Respond(CorsWrap(cors, req, r))
    case Throw(m) => Reject(m)
  }

  /** The CORS middleware as a stage of the onRequest chain: a preflight is answered 204
      without calling `next`; any other request calls `next` once and relays. */
  function CorsStage(o: CorsOptions, req: Request): Stage
  {
    if req.httpMethod == "OPTIONS"
    then Stage(0, Own(Response(204, "", CorsHeaders(Settings(o), HeaderValue(req.headers, OriginHeader), map[]), "")))
    else Stage(1, Relay)
  }

  /** The onRequest list: the CORS middleware first when configured. */
  function OnRequestStages(cors: Option<CorsOptions>, req: Request, own: seq<Stage>): (s: seq<Stage>)
    ensures cors.Some? ==> |s| == |own| + 1 && s[0] == CorsStage(cors.value, req) && s[1..] == own
    ensures cors.None? ==> s == own
  {
    if cors.Some? then [CorsStage(cors.value, req)] + own else own
  }

  /** The context's headers before the route's middleware: the CORS headers once the CORS
      middleware has run. */
  function InitialHeaders(cors: Option<CorsOptions>, req: Request): Headers
  {
    if cors.Some? then CorsHeaders(Settings(cors.value), HeaderValue(req.headers, OriginHeader), map[]) else map[]
  }

  // The messages of the TypeErrors below stand for the engine's own wording, which is not
  // modelled; only where the error is raised is.
  const CloneUndefined: string := "Cannot read properties of undefined (reading 'clone')"
  const HeadersUndefined: string := "Cannot read properties of undefined (reading 'headers')"

  /** A runnable file route: onRequest chain around the handler, onResponse chain around
      its result, the response check, then the context's headers copied over. */
  function PipelineOutcome(cors: Option<CorsOptions>, env: Env, req: Request, route: RouteFile, mod: FileModule,
                           params: ParamMap, query: Query): (r: Dispatch.Outcome)
    ensures r.Undefined? ==> !(mod.config.Some? && mod.config.value.response.Some?)
    ensures var h := env.run(route, mod, params, query, InitialHeaders(cors, req));
            Composed(OnRequestStages(cors, req, env.chains(route).0), Some(h.outcome)).outcome.Thrown? ==> r.Reject?
  {
    var (onRequest, onResponse) := env.chains(route);
    var h := env.run(route, mod, params, query, InitialHeaders(cors, req));
    var stages := OnRequestStages(cors, req, onRequest);
    var chain := Composed(stages, Some(h.outcome));
    var ctxHeaders := if |stages| in chain.trace then h.ctxHeaders else InitialHeaders(cors, req);
    var first := chain.outcome;
    if first.Thrown? then Reject(first.message)
    else
      var second := Composed(onResponse, Some(first)).outcome;
      if second.Thrown? then Reject(second.message)
      else if mod.config.Some? && mod.config.value.response.Some? && second.Empty? then
        Respond(Plain(500, "Invalid response: " + CloneUndefined))
      else if second.Done? && ResponseCheck(mod, second.response).Some? then
        Respond(ResponseCheck(mod, second.response).value)
      else if ctxHeaders != map[] then
        if second.Empty? then Reject(HeadersUndefined) else Respond(WithContextHeaders(second.response, ctxHeaders))
      else if second.Empty? then Undefined
      else Respond(second.response)
  }

  /** The promise `handleHttp` creates for a request that is neither mounted nor merged. */
  function PromiseOutcome(o: RouterOptions, alls: seq<CustomRoute>, gets: seq<CustomRoute>, posts: seq<CustomRoute>,
                          httpRoutes: seq<RouteFile>, env: Env, req: Request): (r: Dispatch.Outcome)
    ensures RouteCacheStep(StoreOf(o), env, req).Some? ==> r == RouteCacheStep(StoreOf(o), env, req).value
    ensures r.Undefined? ==> Resolve(httpRoutes, env.modules, req).Ready?
  {
    match RouteCacheStep(StoreOf(o), env, req)
    case Some(answer) => answer
    case None =>
      match FirstWildcard(alls, req.url.pathname)
      case Some(i) => Respond(CorsWrap(o.cors, req, AllReply(alls[i].handler(req))))
      case None =>
        var g := if req.httpMethod == "GET" then FindExact(gets, req.url.pathname) else None;
        var p := if req.httpMethod == "POST" then FindExact(posts, req.url.pathname) else None;
        if g.Some? then CustomOutcome(o.cors, req, gets[g.value].handler(req))
        else if p.Some? then CustomOutcome(o.cors, req, posts[p.value].handler(req))
        else
          match Resolve(httpRoutes, env.modules, req)
          case Direct(r) => Respond(r)
          case Failed(m) => Reject(m)
          case Ready(route, mod, params, query) => PipelineOutcome(o.cors, env, req, route, mod, params, query)
  }

  class Router {
    const apiDir: string
    const tcpDir: string
    const options: RouterOptions
    const store: Option<StoreKind>
    var httpRoutes: seq<RouteFile>
    var wsRoutes: seq<RouteFile>
    var tcpRoutes: seq<RouteFile>
    var trpcRoutes: seq<RouteFile>
    var routesLoaded: bool
    var customGetRoutes: seq<CustomRoute>
    var customPostRoutes: seq<CustomRoute>
    var customAllRoutes: seq<CustomRoute>
    var mountedApps: seq<(string, App)>
    /** Request key to the promise stored under it (promises are numbered in creation order). */
    var requestMergeCache: map<string, nat>
    var requestMergeTimeout: int
    /** Pending deletions: timer id to the key it deletes after `requestMergeTimeout` ms. */
    var timers: map<nat, string>
    var nextTimer: nat
    var nextPromise: nat

    /** Every key in the merge map has a pending deletion. */
    ghost predicate Valid()
      reads this`requestMergeCache, this`timers, this`nextTimer, this`mountedApps
    {
      && requestMergeCache.Keys <= timers.Values
      && (forall t :: t in timers ==> t < nextTimer)
      && DistinctPrefixes(mountedApps)
      && store == StoreOf(options)
    }

    constructor(apiDir: string, tcpDir: string, options: RouterOptions)
      ensures Valid()
      ensures this.apiDir == apiDir && this.tcpDir == tcpDir && this.options == options
      ensures store == StoreOf(options) && requestMergeTimeout == MergeTimeout(options)
      ensures httpRoutes == [] && wsRoutes == [] && tcpRoutes == [] && trpcRoutes == [] && !routesLoaded
      ensures customGetRoutes == [] && customPostRoutes == [] && customAllRoutes == [] && mountedApps == []
      ensures requestMergeCache == map[] && timers == map[] && nextTimer == 0 && nextPromise == 0
    {
      this.apiDir := apiDir;
      this.tcpDir := tcpDir;
      this.options := options;
      store := StoreOf(options);
      httpRoutes, wsRoutes, tcpRoutes, trpcRoutes := [], [], [], [];
      routesLoaded := false;
      customGetRoutes, customPostRoutes, customAllRoutes := [], [], [];
      mountedApps := [];
      requestMergeCache := map[];
      requestMergeTimeout := if options.requestMerge.Some? && options.requestMerge.value.enabled then
                               (if options.requestMerge.value.timeout.Some? && options.requestMerge.value.timeout.value != 0
                                then options.requestMerge.value.timeout.value else 100)
                             else 100;
      timers := map[];
      nextTimer, nextPromise := 0, 0;
    }

    /** `get(path, handler)`. */
    method Get(path: string, handler: Request -> Dispatch.Reply)
      modifies this`customGetRoutes
      ensures customGetRoutes == old(customGetRoutes) + [CustomRoute(path, handler)]
    {
      customGetRoutes := customGetRoutes + [CustomRoute(path, handler)];
    }

    /** `post(path, handler)`. */
    method Post(path: string, handler: Request -> Dispatch.Reply)
      modifies this`customPostRoutes
      ensures customPostRoutes == old(customPostRoutes) + [CustomRoute(path, handler)]
    {
      customPostRoutes := customPostRoutes + [CustomRoute(path, handler)];
    }

    /** `all(path, handler)`. */
    method All(path: string, handler: Request -> Dispatch.Reply)
      modifies this`customAllRoutes
      ensures customAllRoutes == old(customAllRoutes) + [CustomRoute(path, handler)]
    {
      customAllRoutes := customAllRoutes + [CustomRoute(path, handler)];
    }

    /** `mount(path, app)`. */
    method Mount(prefix: string, app: App)
      requires Valid()
      modifies this`mountedApps
      ensures Valid()
      ensures mountedApps == MountSet(old(mountedApps), prefix, app)
    {
      mountedApps := MountSet(mountedApps, prefix, app);
    }

    ghost predicate LoadedFrom(apiTree: seq<Entry>, tcpTree: seq<Entry>, oldTcp: seq<RouteFile>)
      reads this
    {
      && httpRoutes == Loaded(Scan(apiDir, "", apiTree), HttpRoute)
      && wsRoutes == Loaded(Scan(apiDir, "", apiTree), WsRoute)
      && tcpRoutes == (if options.enableTcp then Loaded(Scan(tcpDir, "", tcpTree), TcpRoute) else oldTcp)
      && trpcRoutes == Loaded(Scan(apiDir, "", apiTree), TrpcRoute)
    }

    /** `loadRoutes()`: scans on the first call only; the tcp tree only with `enableTcp`. */
    method LoadRoutes(apiTree: seq<Entry>, tcpTree: seq<Entry>)
      modifies this`httpRoutes, this`wsRoutes, this`tcpRoutes, this`trpcRoutes, this`routesLoaded
      ensures routesLoaded
      ensures old(routesLoaded) ==> unchanged(this)
      ensures !old(routesLoaded) ==> LoadedFrom(apiTree, tcpTree, old(tcpRoutes))
    {
      if routesLoaded {
        return;
      }
      var api := ScanRoutes(apiDir, "", apiTree);
      var tcp := tcpRoutes;
      if options.enableTcp {
        var scanned := ScanRoutes(tcpDir, "", tcpTree);
        tcp := Loaded(scanned, TcpRoute);
      }
      httpRoutes, wsRoutes, tcpRoutes, trpcRoutes := Loaded(api, HttpRoute), Loaded(api, WsRoute), tcp, Loaded(api, TrpcRoute);
      routesLoaded := true;
    }

    /** The scan of the mounted applications in mounting order. */
    method FindMount(pathname: string) returns (r: Option<nat>)
      ensures r == FirstMount(mountedApps, pathname)
    {
      for k := 0 to |mountedApps|
        invariant forall j :: 0 <= j < k ==> !StartsWith(pathname, mountedApps[j].0)
      {
        if StartsWith(pathname, mountedApps[k].0) {
          FirstMountIsFirst(mountedApps, pathname, k);
          return Some(k);
        }
      }
      return None;
    }

    /** Stores a promise under its request key and schedules the key's deletion. */
    method Remember(key: string, promise: nat)
      requires Valid()
      modifies this`requestMergeCache, this`timers, this`nextTimer
      ensures Valid()
      ensures requestMergeCache == old(requestMergeCache)[key := promise]
      ensures timers == old(timers)[old(nextTimer) := key] && nextTimer == old(nextTimer) + 1
    {
      ghost var before := timers;
      var timer := nextTimer;
      requestMergeCache := requestMergeCache[key := promise];
      timers := timers[timer := key];
      nextTimer := nextTimer + 1;
      forall k | k in requestMergeCache
        ensures k in timers.Values
      {
        if k == key {
          assert timers[timer] == k;
        } else {
          var u :| u in before && before[u] == k;
          assert u != timer && timers[u] == k;
        }
      }
    }

    /** `handleHttp(req)`: mounted applications first, then a merged promise, else a new
        promise, stored under the request key when merging is on, with its deletion
        scheduled. */
    method HandleHttp(req: Request, apiTree: seq<Entry>, tcpTree: seq<Entry>, env: Env) returns (result: HandleResult)
      requires Valid()
      modifies this`httpRoutes, this`wsRoutes, this`tcpRoutes, this`trpcRoutes, this`routesLoaded
      modifies this`requestMergeCache, this`timers, this`nextTimer, this`nextPromise
      ensures Valid()
      ensures !old(routesLoaded) ==> LoadedFrom(apiTree, tcpTree, old(tcpRoutes))
      ensures old(routesLoaded) ==> httpRoutes == old(httpRoutes)
      ensures routesLoaded
      ensures FirstMount(mountedApps, req.url.pathname).Some? ==>
              var i := FirstMount(mountedApps, req.url.pathname).value;
              result == Mounted(mountedApps[i].1(Rebased(req, mountedApps[i].0))) &&
              requestMergeCache == old(requestMergeCache) && timers == old(timers)
      ensures FirstMount(mountedApps, req.url.pathname).None? && RequestKey(req).Some? && MergeEnabled(options) &&
              RequestKey(req).value in old(requestMergeCache) ==>
              result == Joined(old(requestMergeCache)[RequestKey(req).value]) &&
              requestMergeCache == old(requestMergeCache) && timers == old(timers) && nextPromise == old(nextPromise)
      ensures result.Started? ==>
              result.promise == old(nextPromise) && nextPromise == old(nextPromise) + 1 &&
              result.outcome == PromiseOutcome(options, customAllRoutes, customGetRoutes, customPostRoutes, httpRoutes, env, req)
      ensures result.Started? && RequestKey(req).Some? && MergeEnabled(options) ==>
              requestMergeCache == old(requestMergeCache)[RequestKey(req).value := result.promise] &&
              timers == old(timers)[old(nextTimer) := RequestKey(req).value] && nextTimer == old(nextTimer) + 1
      ensures result.Started? && !(RequestKey(req).Some? && MergeEnabled(options)) ==>
              requestMergeCache == old(requestMergeCache) && timers == old(timers)
      ensures result.Started? <==> FirstMount(mountedApps, req.url.pathname).None? &&
                                   !(RequestKey(req).Some? && MergeEnabled(options) && RequestKey(req).value in old(requestMergeCache))
    {
      LoadRoutes(apiTree, tcpTree);
      var mount := FindMount(req.url.pathname);
      if mount.Some? {
        var (prefix, app) := mountedApps[mount.value];
        return Mounted(app(Rebased(req, prefix)));
      }
      result := JoinOrStart(req, env);
    }

    /** `handleHttp` past the mounted applications: the merged promise of an equal
        request, else a new promise, remembered under the request key when merging is on. */
    method JoinOrStart(req: Request, env: Env) returns (result: HandleResult)
      requires Valid()
      modifies this`requestMergeCache, this`timers, this`nextTimer, this`nextPromise
      ensures Valid()
      ensures RequestKey(req).Some? && MergeEnabled(options) && RequestKey(req).value in old(requestMergeCache) ==>
              result == Joined(old(requestMergeCache)[RequestKey(req).value]) &&
              requestMergeCache == old(requestMergeCache) && timers == old(timers) && nextPromise == old(nextPromise)
      ensures result.Started? ==>
              result.promise == old(nextPromise) && nextPromise == old(nextPromise) + 1 &&
              result.outcome == PromiseOutcome(options, customAllRoutes, customGetRoutes, customPostRoutes, httpRoutes, env, req)
      ensures result.Started? && RequestKey(req).Some? && MergeEnabled(options) ==>
              requestMergeCache == old(requestMergeCache)[RequestKey(req).value := result.promise] &&
              timers == old(timers)[old(nextTimer) := RequestKey(req).value] && nextTimer == old(nextTimer) + 1
      ensures result.Started? && !(RequestKey(req).Some? && MergeEnabled(options)) ==>
              requestMergeCache == old(requestMergeCache) && timers == old(timers)
      ensures result.Started? <==>
              !(RequestKey(req).Some? && MergeEnabled(options) && RequestKey(req).value in old(requestMergeCache))
      ensures !result.Mounted?
    {
      var requestKey := RequestKey(req);
      var merging := options.requestMerge.Some? && options.requestMerge.value.enabled;
      if requestKey.Some? && merging && requestKey.value in requestMergeCache {
        return Joined(requestMergeCache[requestKey.value]);
      }
      var outcome := RunPromise(req, env);
      var promise := nextPromise;
      nextPromise := nextPromise + 1;
      if requestKey.Some? && merging {
        Remember(requestKey.value, promise);
      }
      result := Started(promise, outcome);
    }

    /** The body of the promise `handleHttp` creates: the route-cache fast path, the
        custom ALL routes in registration order, the custom GET and POST routes, then the
        file route under its middleware. */
    method RunPromise(req: Request, env: Env) returns (outcome: Dispatch.Outcome)
      requires Valid()
      ensures outcome == PromiseOutcome(options, customAllRoutes, customGetRoutes, customPostRoutes, httpRoutes, env, req)
    {
      var cachedAnswer := RouteCacheStep(store, env, req);
      if cachedAnswer.Some? {
        return cachedAnswer.value;
      }
      var pathname := req.url.pathname;
      var k := 0;
      while k < |customAllRoutes|
        invariant 0 <= k <= |customAllRoutes|
        invariant forall j :: 0 <= j < k ==> !MatchWildcard(customAllRoutes[j].path, pathname)
      {
        var route := customAllRoutes[k];
        if MatchWildcard(route.path, pathname) {
          assert FirstWildcard(customAllRoutes, pathname) == Some(k) by {
            FirstWildcardIsFirst(customAllRoutes, pathname, k);
          }
          var reply := route.handler(req);
          return Respond(CorsWrap(options.cors, req, AllReply(reply)));
        }
        k := k + 1;
      }
      if req.httpMethod == "GET" {
        var custom := FindExact(customGetRoutes, pathname);
        if custom.Some? {
          return CustomOutcome(options.cors, req, customGetRoutes[custom.value].handler(req));
        }
      }
      if req.httpMethod == "POST" {
        var custom := FindExact(customPostRoutes, pathname);
        if custom.Some? {
          return CustomOutcome(options.cors, req, customPostRoutes[custom.value].handler(req));
        }
      }
      match Resolve(httpRoutes, env.modules, req)
      case Direct(r) => outcome := Respond(r);
      case Failed(m) => outcome := Reject(m);
      case Ready(route, mod, params, query) => outcome := PipelineOutcome(options.cors, env, req, route, mod, params, query);
    }

    /** The deletion scheduled by `clearRequestMergeCache` fires: the key is removed from
        the merge map, whatever promise is stored under it now. */
    method ExpireMerge(t: nat)
      requires Valid()
      modifies this`requestMergeCache, this`timers
      ensures Valid()
      ensures t in old(timers) ==> requestMergeCache == old(requestMergeCache) - {old(timers)[t]} && timers == old(timers) - {t}
      ensures t !in old(timers) ==> requestMergeCache == old(requestMergeCache) && timers == old(timers)
    {
      if t !in timers {
        return;
      }
      var key := timers[t];
      ghost var before := timers;
      requestMergeCache := requestMergeCache - {key};
      timers := timers - {t};
      forall k | k in requestMergeCache
        ensures k in timers.Values
      {
        var u :| u in before && before[u] == k;
        assert u != t && timers[u] == k;
      }
    }

    /** `handleWebSocket(req, ws)`. */
    method HandleWebSocket(req: Request, apiTree: seq<Entry>, tcpTree: seq<Entry>) returns (o: SocketOutcome)
      modifies this
      ensures routesLoaded
      ensures old(routesLoaded) ==> unchanged(this)
      ensures !old(routesLoaded) ==> LoadedFrom(apiTree, tcpTree, old(tcpRoutes))
      ensures o == WebSocketOutcome(wsRoutes, req.url.pathname)
    {
      LoadRoutes(apiTree, tcpTree);
      var route := MatchRoute(wsRoutes, req.url.pathname, None, WsRoute);
      if route.None? {
        return Close;
      }
      var params := ExtractParams(route.value.routePath, req.url.pathname);
      o := Open(route.value, params);
    }

    /** `handleTcp(socket)`. */
    method HandleTcp(apiTree: seq<Entry>, tcpTree: seq<Entry>) returns (o: SocketOutcome)
      modifies this
      ensures routesLoaded
      ensures old(routesLoaded) ==> unchanged(this)
      ensures !old(routesLoaded) ==> LoadedFrom(apiTree, tcpTree, old(tcpRoutes))
      ensures o == TcpOutcome(tcpRoutes)
    {
      LoadRoutes(apiTree, tcpTree);
      if tcpRoutes == [] {
        return Close;
      }
      var params := ExtractParams(tcpRoutes[0].routePath, "");
      o := Open(tcpRoutes[0], params);
    }

    /** `handleTrpc(req)`. */
    method HandleTrpc(req: Request, apiTree: seq<Entry>, tcpTree: seq<Entry>, adapter: (RouteFile, Request) -> Response)
      returns (r: Response)
      modifies this
      ensures routesLoaded
      ensures old(routesLoaded) ==> unchanged(this)
      ensures !old(routesLoaded) ==> LoadedFrom(apiTree, tcpTree, old(tcpRoutes))
      ensures r == TrpcResponse(trpcRoutes, req, adapter)
    {
      LoadRoutes(apiTree, tcpTree);
      var route := MatchRoute(trpcRoutes, req.url.pathname, None, TrpcRoute);
      if route.None? {
        return Plain(404, "Not Found");
      }
      r := adapter(route.value, req);
    }
  }

  lemma {:induction false} FirstMountIsFirst(mounts: seq<(string, App)>, pathname: string, k: nat)
    requires k < |mounts| && StartsWith(pathname, mounts[k].0)
    requires forall j :: 0 <= j < k ==> !StartsWith(pathname, mounts[j].0)
    ensures FirstMount(mounts, pathname) == Some(k)
  {
    if k > 0 {
      FirstMountIsFirst(mounts[1..], pathname, k - 1);
    }
  }

  // ---------------------------------------------------------------------------
  // Properties

  /** Re-mounting a prefix replaces its application: the new one answers where the old
      one did. */
  lemma RemountReplaces(mounts: seq<(string, App)>, prefix: string, app: App, pathname: string)
    requires DistinctPrefixes(mounts)
    ensures var r := MountSet(mounts, prefix, app);
            FirstMount(r, pathname).Some? <==> FirstMount(mounts, pathname).Some? || StartsWith(pathname, prefix)
    ensures var r := MountSet(mounts, prefix, app);
            FirstMount(r, pathname).Some? && r[FirstMount(r, pathname).value].0 == prefix ==> r[FirstMount(r, pathname).value].1 == app
  {
    var r := MountSet(mounts, prefix, app);
    if FirstMount(mounts, pathname).Some? {
      var i := FirstMount(mounts, pathname).value;
      assert r[i].0 == mounts[i].0;
    } else if StartsWith(pathname, prefix) {
      assert forall i :: 0 <= i < |mounts| ==> mounts[i].0 != prefix;
      assert r[|mounts|].0 == prefix;
    }
    if FirstMount(r, pathname).Some? {
      var i := FirstMount(r, pathname).value;
      if i < |mounts| {
        assert StartsWith(pathname, mounts[i].0);
      } else {
        assert r[i].0 == prefix;
      }
    }
  }

  /** A route-cache hit is answered by the cached handler; custom routes, validation and
      middleware are not consulted. */
  lemma CacheHitShortCuts(o: RouterOptions, alls: seq<CustomRoute>, gets: seq<CustomRoute>, posts: seq<CustomRoute>,
                          httpRoutes: seq<RouteFile>, env: Env, req: Request)
    requires StoreOf(o) == Some(MemoryStore) || StoreOf(o) == Some(RedisStore)
    requires RouteLookup(env.entries, RouteCacheKey(req.url.pathname, req.httpMethod)).Some?
    ensures var e := RouteLookup(env.entries, RouteCacheKey(req.url.pathname, req.httpMethod)).value;
            PromiseOutcome(o, alls, gets, posts, httpRoutes, env, req) ==
              match env.cached(e, req)
              case Answer(resp) => Respond(resp)
              case Throw(m) => Reject(m)
  {
  }

  /** As written, a router whose cache is disabled but whose route cache is enabled
      rejects every request that reaches the fast path; the corrected fast path lets it
      through. */
  lemma NullStoreRejects(o: RouterOptions, env: Env, req: Request)
    requires o.cache.Some? && !On(o.cache.value.enabled)
    requires o.cache.value.routeCache.Some? && o.cache.value.routeCache.value.enabled
    ensures RouteCacheStepAsWritten(StoreOf(o), env, req) == Some(Reject(GetRouteUndefined))
    ensures RouteCacheStep(StoreOf(o), env, req).None?
  {
  }

  /** With CORS configured, a preflight to a file route is answered 204 by the first
      onRequest middleware: the handler and the route's own onRequest middleware do not
      run. */
  lemma PreflightStopsChain(o: CorsOptions, req: Request, own: seq<Stage>, handler: Compose.Outcome)
    requires req.httpMethod == "OPTIONS"
    ensures var stages := OnRequestStages(Some(o), req, own);
            Composed(stages, Some(handler)).trace == [0] &&
            Composed(stages, Some(handler)).outcome ==
              Done(Response(204, "", CorsHeaders(Settings(o), HeaderValue(req.headers, OriginHeader), map[]), ""))
  {
    var stages := OnRequestStages(Some(o), req, own);
    ShortCircuit(stages, Some(handler), 0, -1);
  }

  /** Outside a preflight the CORS middleware relays: with it and a relaying route chain,
      the onRequest chain settles as the handler does. */
  lemma CorsRelaysHandler(o: CorsOptions, req: Request, own: seq<Stage>, handler: Compose.Outcome)
    requires req.httpMethod != "OPTIONS"
    requires forall j :: 0 <= j < |own| ==> own[j] == Stage(1, Relay)
    ensures Composed(OnRequestStages(Some(o), req, own), Some(handler)).outcome == handler
  {
    RelayChainIsTerminal(OnRequestStages(Some(o), req, own), Some(handler), 0, -1);
  }

  /** The onResponse chain runs with the onRequest chain's result as its `next`: when its
      stages all relay, the response check and the header copy see the onRequest chain's
      response, and a failing response check answers 500 in its place. */
  lemma OnResponseSeesFirst(cors: Option<CorsOptions>, env: Env, req: Request, route: RouteFile, mod: FileModule,
                            params: ParamMap, query: Query)
    requires forall j :: 0 <= j < |env.chains(route).1| ==> env.chains(route).1[j] == Stage(1, Relay)
    ensures var h := env.run(route, mod, params, query, InitialHeaders(cors, req));
            var first := Composed(OnRequestStages(cors, req, env.chains(route).0), Some(h.outcome)).outcome;
            var r := PipelineOutcome(cors, env, req, route, mod, params, query);
            (first.Done? && ResponseCheck(mod, first.response).Some? ==> r == Respond(ResponseCheck(mod, first.response).value)) &&
            (first.Done? && ResponseCheck(mod, first.response).None? ==>
               r.Respond? && r.response.status == first.response.status && r.response.body == first.response.body)
  {
    var h := env.run(route, mod, params, query, InitialHeaders(cors, req));
    var first := Composed(OnRequestStages(cors, req, env.chains(route).0), Some(h.outcome)).outcome;
    RelayChainIsTerminal(env.chains(route).1, Some(first), 0, -1);
  }

  /** With relaying middleware outside a preflight, a handler response that fails the
      route's response schema is replaced by the 500 "Invalid response" answer. */
  lemma ResponseSchemaFailure(cors: Option<CorsOptions>, env: Env, req: Request, route: RouteFile, mod: FileModule,
                              params: ParamMap, query: Query, resp: Response)
    requires cors.Some? ==> req.httpMethod != "OPTIONS"
    requires forall j :: 0 <= j < |env.chains(route).0| ==> env.chains(route).0[j] == Stage(1, Relay)
    requires forall j :: 0 <= j < |env.chains(route).1| ==> env.chains(route).1[j] == Stage(1, Relay)
    requires env.run(route, mod, params, query, InitialHeaders(cors, req)).outcome == Done(resp)
    requires ResponseCheck(mod, resp).Some?
    ensures PipelineOutcome(cors, env, req, route, mod, params, query) == Respond(ResponseCheck(mod, resp).value)
    ensures PipelineOutcome(cors, env, req, route, mod, params, query).response.status == 500
  {
    var own := env.chains(route).0;
    if cors.Some? {
      CorsRelaysHandler(cors.value, req, own, Done(resp));
    } else {
      RelayChainIsTerminal(own, Some(Done(resp)), 0, -1);
    }
    OnResponseSeesFirst(cors, env, req, route, mod, params, query);
  }

  /** The file-route outcomes: 404 without a matching route, 405 without the method's
      export, 400 when a validator throws. */
  lemma FileRouteErrors(o: RouterOptions, httpRoutes: seq<RouteFile>, env: Env, req: Request)
    requires RouteCacheStep(StoreOf(o), env, req).None?
    ensures var m := Match(httpRoutes, req.url.pathname, Some(req.httpMethod), HttpRoute);
            m.None? ==> PromiseOutcome(o, [], [], [], httpRoutes, env, req) == Respond(Plain(404, "Not Found"))
    ensures var m := Match(httpRoutes, req.url.pathname, Some(req.httpMethod), HttpRoute);
            m.Some? && m.value.file in env.modules && HandlerExport(env.modules[m.value.file], req.httpMethod).None? ==>
              PromiseOutcome(o, [], [], [], httpRoutes, env, req) == Respond(Plain(405, "Method Not Allowed"))
    ensures Resolve(httpRoutes, env.modules, req).Direct? ==>
              PromiseOutcome(o, [], [], [], httpRoutes, env, req) == Respond(Resolve(httpRoutes, env.modules, req).response)
  {
    ResolveSpec(httpRoutes, env.modules, req);
  }

  /** A merged request and its original share one key only if both are GET requests for
      the same path and query string. */
  lemma SameKeySameTarget(a: Request, b: Request)
    requires RequestKey(a).Some? && RequestKey(a) == RequestKey(b)
    requires ':' !in a.url.pathname && ':' !in b.url.pathname
    ensures a.httpMethod == "GET" && b.httpMethod == "GET"
    ensures a.url.pathname == b.url.pathname && a.url.search == b.url.search
  {
    var ka := "GET:" + a.url.pathname + ":" + a.url.search;
    var kb := "GET:" + b.url.pathname + ":" + b.url.search;
    assert ka == kb;
    assert ka[4..] == a.url.pathname + ":" + a.url.search;
    assert kb[4..] == b.url.pathname + ":" + b.url.search;
    ColonSplit(a.url.pathname, a.url.search);
    ColonSplit(b.url.pathname, b.url.search);
  }

  /** The characters before the first ':'. */
  function BeforeColon(x: string): string
  {
    if |x| == 0 || x[0] == ':' then "" else [x[0]] + BeforeColon(x[1..])
  }

  /** The characters after the first ':'. */
  function AfterColon(x: string): string
  {
    if |x| == 0 then "" else if x[0] == ':' then x[1..] else AfterColon(x[1..])
  }

  lemma {:induction false} ColonSplit(p: string, s: string)
    requires ':' !in p
    ensures BeforeColon(p + ":" + s) == p && AfterColon(p + ":" + s) == s
    decreases |p|
  {
    var x := p + ":" + s;
    if |p| == 0 {
      assert x == [':'] + s;
    } else {
      assert x[0] == p[0];
      assert x[1..] == p[1..] + ":" + s;
      ColonSplit(p[1..], s);
      assert p == [p[0]] + p[1..];
    }
  }
}
