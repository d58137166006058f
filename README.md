# breezeapi request dispatch, modelled in Dafny

breezeapi is a file-routed API server for Bun. A directory tree of `route.ts`, `socket.ts`, `handler.ts`
and `trpc.ts` files becomes its route table. A request is matched against that table, gets path
parameters extracted, runs through the middleware found in its directory and that directory's parents,
and is answered by the exported handler for its HTTP method. CORS, caching and compression wrap the
answer. The repository holds two copies of this core: an older one under `framework/` and a newer one
under `packages/core/`. The plugins and the documentation site carry a few more small pieces of logic:
a cron scheduler, a Discord bot loader, a WebSocket sync layer, an OpenAPI generator, and the docs
site's navigation and catalogue lookups.

This project models that core in Dafny 4.11. Here is how it is laid out:

- Pure helpers become functions on datatypes. Examples: path joining, route matching, parameter
  extraction, `Cache-Control` construction, CORS header values, option mapping.
- Objects whose fields the source updates in place become classes with `modifies` frames. These are
  the memory cache, the HTTP context, the WebSocket topic map, the sync layer, both routers, the cron
  plugin, the Discord client holder and the command registry.
- Most loops of the source become methods with invariants, proved against a reference function. Two stay functions: the nested loops of `findActiveItem` (docs/lib/docs-navigation.ts:136-186) are the recursive scans `ScanSubs`, `ScanItems` and `ScanCategories`, and the `commandMap` loop (packages/discord/index.ts:156-158) is the function `CommandMap`.
- The clock is a `now` parameter.
- Timers are ids that an explicit event fires.
- The file system and dynamically imported modules are data given to the operation.
- User handlers and middleware are given by their outcomes: a `Stage` either replies itself, relays
  `next()`, or replaces its response.

Both router copies share the route table, the matcher, the parameter extractor and the handler
validation. These are modelled once (`Routes`, `RouteParams`, `Dispatch`) and cited at the copy they
were read from. Where the two copies differ, each has its own module (`FrameworkRouter`,
`CoreRouter`).

The modules are:

- `Strings`, `Opt`, `Http`: JavaScript string operations, `Option`, and headers as a map from
  lower-case names to value lists.
- `Routes`, `RouteParams`: scanning the routes directory, matching requests, extracting parameters,
  and the wildcard patterns of custom routes.
- `Compose`, `Middleware`: `compose` and its `next() called multiple times` guard, and the discovery of
  middleware along the route's directories.
- `Cache`, `Cors`, `Compression`: the memory store and route cache, the cache middleware, the CORS
  middleware, and the compression decision.
- `ApiContext`, `Topics`, `SyncLayer`: the HTTP context and its cookies, WebSocket topics, and the
  keyed sync layer.
- `Dispatch`, `FrameworkRouter`, `CoreRouter`: handler lookup and validation, and the two routers'
  `handleHttp`, WebSocket, TCP and tRPC entry points.
- `OpenApi`: OpenAPI path templating and document generation.
- `Cron`, `DiscordClient`, `DiscordCommands`, `DiscordLoader`: the cron and Discord plugins.
- `DocsNavigation`, `PluginsCatalog`: the docs site lookups.

## Model

| member | source | states |
|---|---|---|
| `Routes.ForwardSlashes` | framework/core/utils.ts:14 | the result has the input's length and differs from it only where a backslash became '/' |
| `Routes.ScanRoutes` | framework/core/utils.ts:17-35 | the pushed descriptors are exactly the recursive scan of the listed entries, in listing order |
| `Routes.ScanIsListing` | framework/core/utils.ts:13-35 | over a tree of plain names, the scan yields one descriptor per `route.ts`/`socket.ts`/`handler.ts`/`trpc.ts` file, in depth-first order, with the kind its file name sets, no method, and route path '/' followed by its directory chain joined with '/'; other files and directories themselves yield nothing |
| `Routes.ScanEntryIsListEntry` | framework/core/utils.ts:20-32 | one directory entry contributes its scanned contents; one route file contributes one descriptor of its kind whose route path is its directory chain |
| `Routes.RoutePathSegments` | framework/core/utils.ts:25-31 | a scanned route path starts with '/' and its non-empty segments are exactly the directory chain; a route file at the root gets "/" |
| `Routes.JoinPathPair` | framework/core/utils.ts:13-15 | joining a non-empty base and a plain name gives base + '/' + name |
| `Routes.JoinPathUnderRoot` | framework/core/utils.ts:13-15 | the empty base is dropped by the filter: joining "" and a name gives the name |
| `Routes.JoinPathOfClean` | framework/core/utils.ts:13-15 | parts that are non-empty and free of backslashes are joined with '/' unchanged |
| `Routes.Match` | framework/core/utils.ts:37-58 | none is returned iff no descriptor accepts the request; otherwise the returned descriptor accepts it (same type, equal segment count, every non-bracketed segment equal, method not excluded) and no earlier one does |
| `Routes.MatchIsFirst` | framework/core/utils.ts:38-55 | the first accepting descriptor in table order is the one returned |
| `Routes.MatchRoute` | framework/core/utils.ts:37-58 | the loop with the `matched` flag returns the first accepting descriptor, or none |
| `Routes.MatchIgnoresVerb` | framework/core/utils.ts:53 | over descriptors without a method, the method given never changes the match |
| `Routes.ScannedIgnoreMethod` | framework/core/utils.ts:25-31 | scanned descriptors carry no method, so matching a scanned table ignores the request method |
| `RouteParams.ParamName` | framework/core/router.ts:14 | the key of a `[name]` segment is the text between the brackets: re-wrapping it in brackets gives the segment back |
| `RouteParams.ExtractParams` | framework/core/router.ts:8-19 | the loop's parameter object equals the reference map of bracketed route segments to same-index path segments |
| `RouteParams.ParamsSpec` | framework/core/context/ws.ts:18-29 | the keys are exactly the bracketed segment names; each maps to the path segment at the position of the last segment with that name, `undefined` past the end of the path (same code in framework/core/router.ts:8-19 and both WebSocket contexts) |
| `RouteParams.ParamsUpToSpec` | framework/core/router.ts:12-17 | after the first n route segments, the keys are the bracketed names seen so far and a later duplicate name overwrites an earlier one |
| `RouteParams.MatchedParamsDefined` | framework/core/router.ts:225 | for a route the matcher accepted (equal segment counts), every extracted parameter is defined |
| `RouteParams.StripRoutesPrefix` | framework/core/router.ts:21-27 | tcp/trpc paths are returned unchanged; http/ws paths lose a leading "/routes", the result is never empty ("/" instead), and a path without the prefix is kept |
| `RouteParams.WildcardSpec` | framework/core/router.ts:30-36 | `base/*` matches a path iff it equals base or starts with base + '/' |
| `RouteParams.ExactPatternSpec` | framework/core/router.ts:35 | a pattern without a trailing `/*` matches by equality only |
| `RouteParams.WildcardCoversSubtree` | framework/core/router.ts:29-34 | every path below the base matches the base's wildcard |
| `Topics.Subscribed` | framework/core/context/ws.ts:46-49 | the topic exists afterwards and its set is the old set (empty if the topic was new) plus the context; every other topic keeps its set |
| `Topics.Unsubscribed` | framework/core/context/ws.ts:50-52 | the set of topics never changes; a known topic loses only that context, even when its set becomes empty; other topics are untouched |
| `Topics.TopicRegistry.Subscribe` | packages/core/core/context/ws.ts:47-50 | the registry's map becomes the subscribed map and nothing is sent |
| `Topics.TopicRegistry.Unsubscribe` | packages/core/core/context/ws.ts:51-53 | the registry's map becomes the unsubscribed map and nothing is sent |
| `Topics.TopicRegistry.Publish` | packages/core/core/context/ws.ts:54-61 | the registry is unchanged; exactly one send per current subscriber of the topic (no repeats, no one else), none for an unknown topic (same loop in framework/core/context/ws.ts:53-59) |
| `Topics.SubscribeIdempotent` | framework/core/context/ws.ts:46-49 | subscribing the same context twice leaves one membership |
| `Topics.UnsubscribeUnknown` | framework/core/context/ws.ts:51 | unsubscribing from an unknown topic is a no-op |
| `Topics.UnsubscribeAfterSubscribe` | framework/core/context/ws.ts:46-52 | unsubscribing undoes a fresh subscription to a known topic and keeps the topic |
| `Topics.SubscribeCommutes` | framework/core/context/ws.ts:46-49 | two subscriptions commute |
| `Topics.TopicRegistry.constructor` | packages/core/core/context/ws.ts:46 | the topic map starts empty and nothing has been sent |
| `Compose.Chain.Dispatch` | packages/core/core/middleware.ts:35-40 | `dispatch(i)` refuses a position at or below the closure's index, records it, runs the middleware there or the terminal past the end, and settles as the reference evaluation says, leaving the index where that evaluation does |
| `Compose.Chain.CallNext` | packages/core/core/middleware.ts:39 | a middleware's repeated awaited `next()` calls settle as the reference evaluation says; a rejection stops the stage |
| `Compose.RunComposed` | packages/core/core/middleware.ts:32-43 | `compose(middleware)(ctx, next)` starts a fresh closure at index -1 and dispatches position 0; its outcome and the positions that ran are those of the reference evaluation |
| `Compose.EmptyChainIsTerminal` | packages/core/core/middleware.ts:38 | with no middleware, `middleware[0] \|\| next` picks the terminal: the result is the terminal's and only the terminal runs (framework/core/middleware.ts:7-18 the same) |
| `Compose.RelayChainIsTerminal` | framework/core/middleware.ts:7-18 | a chain whose middleware each call `next` once and pass its response on returns exactly what the terminal returns; with no terminal the framework copy's dispatch resolves to a 404 response |
| `Compose.EvalTrace` | packages/core/core/middleware.ts:35-41 | middleware runs in list order, each at most once: exactly the positions from the start up to the first middleware that does not call `next` (or the terminal) run, in order |
| `Compose.TerminalRunsIff` | packages/core/core/middleware.ts:38-39 | the terminal runs iff every middleware calls `next`, and no position runs twice |
| `Compose.ShortCircuit` | packages/core/core/middleware.ts:39 | a middleware that never calls `next` ends the chain: nothing after it runs and its own reply is the result |
| `Compose.SecondNextRejects` | packages/core/core/middleware.ts:36-37 | a second `next()` in one middleware settles with 'next() called multiple times' and the downstream stages are not run again (framework/core/middleware.ts:11 as a rejected promise) |
| `Compose.CallsAfterFirst` | framework/core/middleware.ts:11 | once the index has passed the next position, every further `next()` of the stage is refused and runs nothing |
| `Compose.Reach` | packages/core/core/middleware.ts:39 | the first position from i whose middleware does not call `next`, or the terminal's position; every middleware before it calls `next` |
| `Compose.Chain.constructor` | packages/core/core/middleware.ts:33-34 | a composed call starts with the given stages and terminal, index -1 and nothing run |
| `Middleware.LoadMiddlewareFromDir` | packages/core/core/middleware.ts:14-29 | a missing directory yields two empty lists; otherwise the lists are the reference load: each `.ts` file's first present export among `onRequest`, `onResponse`, `default`, `middleware` pushed, in listing order, to the request list (only `onResponse` to the response list) |
| `Middleware.LoadCounts` | packages/core/core/middleware.ts:19-27 | a module contributes to at most one list, once: the two lists together hold one entry per `.ts` file with a middleware export |
| `Middleware.RequestWins` | packages/core/core/middleware.ts:22-23 | a module exporting both `onRequest` and `onResponse` adds only its `onRequest` to the request list and nothing to the response list |
| `Middleware.LoadLegacyFromDir` | framework/core/middleware.ts:22-32 | a missing directory yields []; otherwise each `.ts`/`.js` file's `default` export, else its `middleware` export, is pushed in listing order; other exports are ignored |
| `Middleware.Reverse` | packages/core/core/middleware.ts:84-85 | `Array.prototype.reverse`: same length, element i is element n-1-i of the input |
| `Middleware.WalkStep` | packages/core/core/middleware.ts:56-67 | while the resolved directory starts with the resolved root it is visited; the root ends the walk, a directory below it continues with its parent |
| `Middleware.CollectWalk` | packages/core/core/middleware.ts:51-67 | the upward loop's lists are each visited directory's `middleware.ts` classified in visiting order (leaf first), up to and including the routes root |
| `Middleware.PushClassified` | packages/core/core/middleware.ts:60-63 | one directory's module adds its first present export to the list the classification names |
| `Middleware.GetMiddlewareForRoute` | packages/core/core/middleware.ts:46-87 | the request list is global, then per-directory reversed, then the cache middleware; the response list is global then per-directory reversed |
| `Middleware.GetLegacyMiddlewareForRoute` | framework/core/middleware.ts:36-56 | the result is global middleware followed by the per-directory middleware reversed |
| `Middleware.CollectLegacyWalk` | framework/core/middleware.ts:41-53 | the framework copy's upward loop collects each visited directory's `default`, else `middleware`, export leaf first |
| `Middleware.PushLegacy` | framework/core/middleware.ts:47-50 | `default` is pushed when present, else `middleware`, else nothing |
| `Middleware.WalkVisitsAncestors` | packages/core/core/middleware.ts:52-67 | below the routes root the walk visits the route directory and every ancestor up to the root, leaf first, and stops there |
| `Middleware.CollectReversed` | packages/core/core/middleware.ts:82-86 | collecting over the reversed directory order reverses both lists |
| `Middleware.ParentsFirst` | packages/core/core/middleware.ts:82-86 | the per-directory lists `getMiddlewareForRoute` returns are the directories' middleware in the order root, ..., route directory: a parent's middleware runs before its child's |
| `Middleware.AbsPrefix` | packages/core/core/middleware.ts:56 | the resolved path of a directory starts with that of each of its ancestors, which is strictly shorter |
| `Middleware.Classify` | packages/core/core/middleware.ts:60-63 | a module is skipped iff it exports none of the four functions; `onRequest` wins; it is an onResponse middleware iff it has `onResponse` and no `onRequest` |
| `Middleware.Walk` | packages/core/core/middleware.ts:52-67 | the directories visited are the route's directory and its parents, nearest first, each still under the routes root |
| `Cache.MemoryCache.constructor` | packages/core/core/cache.ts:27-29 | an empty store and route cache whose bound is the given size, 1000 when absent |
| `Cache.MemoryCache.Get` | packages/core/core/cache.ts:31-39 | null for a missing key; for an entry with nonzero `expires < now` the entry is deleted and null returned; otherwise the stored value, nothing changed |
| `Cache.MemoryCache.Set` | packages/core/core/cache.ts:41-44 | the key is (over)written with expiry `now + ttl*1000` for a truthy ttl and 0 (never) otherwise; nothing else changes |
| `Cache.MemoryCache.Del` | packages/core/core/cache.ts:46-48 | only the key is removed from the store |
| `Cache.MemoryCache.Has` | packages/core/core/cache.ts:50-58 | true exactly when `get` would return a value, with the same lazy deletion of an expired entry |
| `Cache.MemoryCache.GetRoute` | packages/core/core/cache.ts:65-67 | an entry is returned iff the route cache holds the key, and it is the entry stored under that key |
| `Cache.MemoryCache.SetRoute` | packages/core/core/cache.ts:69-78 | when the cache holds at least the bound, the entry with the smallest timestamp (the first such in insertion order) is deleted before the key is set, even when the key is already present; keys stay distinct and a bound of at least 1 is never exceeded; an empty cache with a bound of 0 or less throws and changes nothing |
| `Cache.MemoryCache.ClearRouteCache` | packages/core/core/cache.ts:80-82 | the route cache becomes empty; the store is untouched |
| `Cache.RouteLookup` | packages/core/core/cache.ts:66 | `Map.get`: an entry is found iff some entry has the key, and it is the value of the first entry with that key |
| `Cache.MapSet` | packages/core/core/cache.ts:77 | `Map.set`: the size grows by one iff the key was new, and every key afterwards is the new key or an old one |
| `Cache.OldestIndex` | packages/core/core/cache.ts:73-74 | the position the stable timestamp sort puts first: its timestamp is minimal and every earlier entry's is larger |
| `Cache.RouteLookupAfterSet` | packages/core/core/cache.ts:77 | after `set`, the key reads back as the stored entry and every other key reads as before |
| `Cache.MapSetKeepsDistinct` | packages/core/core/cache.ts:77 | setting a key keeps one entry per key |
| `Cache.OverwriteWhenFullShrinks` | packages/core/core/cache.ts:71-77 | a full cache that already holds the key (not as its oldest entry) loses an entry when that key is set again, since eviction runs before the overwrite |
| `Cache.SetThenLookup` | packages/core/core/cache.ts:31-44 | a value set without a truthy ttl reads back at any time; with a ttl it reads back until `now + ttl*1000` and not after |
| `Cache.ReadIsInvisible` | packages/core/core/cache.ts:34-36 | the lazy deletion of a read never changes what any key reads as at the same time |
| `Cache.CreateMemoryStore` | packages/core/core/cache.ts:154-156 | an enabled non-redis configuration gets an empty memory store bounded by `routeCache.maxSize`, or 1000 when absent |
| `Cache.NullStoreNeverHits` | packages/core/core/cache.ts:144-151 | the store of a disabled configuration never returns a value and `has` is always false |
| `Cache.Present` | packages/core/core/cache.ts:182-222 | the pushed directives are the requested entries of the fixed table, in table order |
| `Cache.PresentContains` | packages/core/core/cache.ts:182-222 | every requested directive is pushed |
| `Cache.PresentFrom` | packages/core/core/cache.ts:182-222 | every pushed directive was requested |
| `Cache.PresentSorted` | packages/core/core/cache.ts:182-222 | the pushed directives keep the table's strictly increasing order |
| `Cache.TableRanks` | packages/core/core/cache.ts:182-222 | the table lists `no-cache`, `private`/`public`, `max-age=`, `s-maxage=`, `must-revalidate`, `proxy-revalidate`, `no-transform`, `immutable`, `stale-while-revalidate`, `stale-if-error` in that order |
| `Cache.CacheControlShape` | packages/core/core/cache.ts:174-225 | with `noStore` the header is exactly `no-store`; otherwise the directives follow the fixed order of section 5.2.2 of RFC 9111 as the code lists them, none repeated, with exactly one of `private`/`public`, `private` exactly when configured |
| `Cache.VaryValues` | packages/core/core/cache.ts:239-240 | at most one value per vary header, none of them empty: absent or empty headers are dropped |
| `Cache.VaryDistinguishes` | packages/core/core/cache.ts:239-241 | two requests to the same URL, one carrying a vary header and one not, get different keys |
| `Cache.CacheMiddleware` | packages/core/core/cache.ts:227-270 | disabled or non-GET: `next()` passes through and the store is untouched; a hit returns the cached body with Cache-Control and default headers without calling `next`; a miss calls `next` and stores the body with `config.ttl` only for status 200 |
| `Cache.MergeLaws` | packages/core/core/middleware.ts:74 | `{ ...global, ...route }`: route keys override global ones, an empty route config changes nothing, and merging the same route config twice equals once |
| `Cache.CacheControlHeader` | packages/core/core/cache.ts:174-180 | `noStore` gives exactly `no-store`, whatever else is configured |
| `Cors.Settings` | framework/core/cors.ts:12-20 | the destructuring defaults: an absent `origin` becomes `'*'`, absent credentials false, absent exposed headers empty |
| `Cors.AllowedOrigin` | framework/core/cors.ts:23-45 | a reflecting policy never yields an empty value; a list policy yields the request origin only when it is listed, and '' otherwise |
| `Cors.WriteOriginHeaders` | framework/core/cors.ts:26-45 | the branch on the policy writes Allow-Origin and, for `true` always and otherwise iff `credentials`, Allow-Credentials 'true' |
| `Cors.Cors` | framework/core/cors.ts:22-61 | the context's headers become the computed CORS headers; an OPTIONS request is answered 204 with them and `next` is not called; any other method returns `next()`'s response |
| `Cors.CorsHeadersSpec` | framework/core/cors.ts:26-50 | Allow-Origin, Allow-Methods and Allow-Headers are always set (lists joined with ','); Allow-Credentials exactly when the policy sends it; Expose-Headers only when non-empty; Max-Age only when non-zero; every other header untouched |
| `Cors.NoOriginAllowsAll` | framework/core/cors.ts:13-14 | without an `origin` option the default `'*'` is sent whatever the request's Origin, so the `undefined` branch at lines 31-35 never runs |
| `Cors.ReflectSpec` | framework/core/cors.ts:27-30 | `origin: true` answers with the request's Origin, or `'*'` when it has none |
| `Cors.AllowListSpec` | framework/core/cors.ts:36-39 | a listed origin is echoed; an unlisted or missing one gets '' |
| `Cors.RejectedPreflightAnswered` | framework/core/cors.ts:36-58 | a preflight from an origin the list rejects is still answered 204, carrying an empty Allow-Origin |
| `ApiContext.ParseCookieHeader` | framework/core/context/api.ts:22-28 | the constructor's loop builds the cookie record the reference parse defines: nothing for an absent or empty header, else each `;`-part trimmed and cut at its first '=' |
| `ApiContext.CookiePairs` | framework/core/context/api.ts:24-25 | one name/value pair per `;`-separated part, in order |
| `ApiContext.CookieValueKeepsEquals` | framework/core/context/api.ts:25-26 | a part `k=v` (k free of '=') yields name k and value v however many '=' characters v holds |
| `ApiContext.CookieWithoutValue` | framework/core/context/api.ts:25-26 | a part without '=' is its trimmed self as the name, with the empty value |
| `ApiContext.CookieLastWins` | framework/core/context/api.ts:24-27 | a parsed name maps to the value of the last part carrying it |
| `ApiContext.CookieNames` | framework/core/context/api.ts:24-27 | a name is a cookie iff some part carries it |
| `ApiContext.HttpContext.constructor` | framework/core/context/api.ts:15-29 | the public cookie record is the parse of the request's Cookie header; no response headers and no Set-Cookie values yet; the lazy cookie map is unset |
| `ApiContext.HttpContext.GetCookie` | framework/core/context/api.ts:62-74 | the header is parsed on the first call only and the map kept; the result is the named cookie or `undefined`; nothing else changes |
| `ApiContext.HttpContext.Set` | framework/core/context/api.ts:54-56 | the response header is replaced; nothing else changes |
| `ApiContext.Prefer` | framework/core/context/api.ts:58-60 | `get` yields a non-empty value, and undefined iff neither the request nor the response carries a non-empty one |
| `ApiContext.SetThenGet` | framework/core/context/api.ts:54-60 | a header set on the response is what `get` reads back, unless a non-empty request header of that name shadows it |
| `ApiContext.BuildCookie` | framework/core/context/api.ts:77-82 | the string `setCookie` builds step by step is the reference serialisation |
| `ApiContext.CookieStartsWithPair` | framework/core/context/api.ts:77-78 | the cookie starts with `name=value`, followed directly by `; Path=` and the path when a path is set (section 4.1 of RFC 6265) |
| `ApiContext.CookieEndsWithMaxAge` | framework/core/context/api.ts:82 | a non-zero `maxAge` is written as the last attribute |
| `ApiContext.ZeroMaxAgeOmitted` | framework/core/context/api.ts:82 | a `maxAge` of 0 writes no `Max-Age`, exactly as when it is absent |
| `ApiContext.BareCookie` | framework/core/context/api.ts:76-82 | with no truthy option the cookie is the bare pair |
| `ApiContext.HttpContext.SetCookie` | framework/core/context/api.ts:76-85 | one more serialised value is appended to the Set-Cookie list and to the response header; earlier ones are kept |
| `ApiContext.HttpContext.BuildResponse` | framework/core/context/api.ts:87-93 | as written: the `init` headers with every context header copied over them by iteration; status defaults to 200 |
| `ApiContext.WriteIterated` | framework/core/context/api.ts:89-91 | the loop over one name's iterated entries leaves what `Http.SetAll` specifies for it: each Set-Cookie value written in turn so only the last survives, any other name once with its values joined |
| `ApiContext.BuildResponseDropsEarlierCookies` | framework/core/context/api.ts:87-93 | a context that set two cookies builds a response carrying only the second |
| `ApiContext.OverrideHeaders` | framework/core/context/api.ts:87-93 | the intended override: every name of either side is present, and a name only `init` has keeps its value |
| `ApiContext.OverrideKeepsCookies` | framework/core/context/api.ts:87-93 | under the override every cookie the context set reaches the response in order, and every other context header replaces the one from `init` exactly as the code's loop does |
| `ApiContext.BuildResponseKeepingCookies` | framework/core/context/api.ts:87-93 | corrected `buildResponse`: all Set-Cookie values of the context reach the response; status defaults to 200 |
| `ApiContext.ResDefaults` | framework/core/context/api.ts:95-106 | without a status or a content-type header, `res.json` answers 200 with `application/json` and `res.text` 200 with `text/plain` |
| `ApiContext.DefaultHeader` | framework/core/context/api.ts:98 | `{ 'Content-Type': ct, ...headers }` keeps `ct` when `headers` never names Content-Type |
| `Http.SetAll` | framework/core/context/api.ts:89-91 | copying one `Headers` over another by iterating `entries()`: every name of the second replaces the same name of the first (Set-Cookie keeping only its last value); other names kept |
| `Http.SetHeader` | framework/core/context/api.ts:55 | `headers.set`: the lower-cased name holds exactly the new value; other names kept |
| `Http.AppendHeader` | framework/core/context/api.ts:84 | `headers.append`: the value goes after the name's earlier values; other names kept |
| `Http.FromEntries` | framework/core/context/api.ts:32 | `Object.fromEntries`: a key is present iff some entry has it |
| `Http.FromEntriesLast` | framework/core/context/api.ts:32 | the value kept for a key is that of its last entry |
| `ApiContext.ParseCookies` | framework/core/context/api.ts:22-28 | no header or an empty one gives no cookies; every parsed name is the text before the first `=` of some `;`-separated part, trimmed |
| `ApiContext.SerializeCookie` | framework/core/context/api.ts:77-84 | the cookie starts with `name=value`; with no truthy option it is exactly that |
| `ApiContext.ResJson` | framework/core/context/api.ts:97-101 | the body is the JSON text, the status defaults to 200, and without a caller content type it is `application/json` |
| `ApiContext.ResText` | framework/core/context/api.ts:102-106 | the body is the text, the status defaults to 200, and without a caller content type it is `text/plain` |
| `Compression.GzipStrategy` | packages/core/core/compression.ts:115-123 | a strategy code lies in 0..4 and is 0 exactly for a name other than `filtered`, `huffman`, `rle`, `fixed` |
| `Compression.BrotliMode` | packages/core/core/compression.ts:91-93 | the mode is in 0..2: 1 exactly for `text`, 2 exactly for `font` |
| `Compression.Excluded` | packages/core/core/compression.ts:27 | a path is excluded iff some configured prefix starts it |
| `Compression.ShouldCompress` | packages/core/core/compression.ts:81-87 | a response is compressible iff it has a non-empty content type containing some configured type |
| `Compression.ChosenEncoding` | packages/core/core/compression.ts:46-64 | brotli iff the client names `br` and brotli is enabled; otherwise gzip iff it names `gzip` and gzip is enabled; otherwise none |
| `Compression.Handle` | packages/core/core/compression.ts:20-79 | as written: the downstream response is passed on unread when disabled, excluded or not compressible; under the threshold or with no usable encoding it is returned after `arrayBuffer()` read its body; otherwise the body is the chosen compressor's output with the configured parameters, status and text kept, and the compression headers set |
| `Compression.HandleRebuilt` | packages/core/core/compression.ts:40-51 | corrected: no returned response has a read body; where the read response was returned, a new one with the same status, text, headers and body is; the compressed case is unchanged |
| `Compression.CompressedHeadersSpec` | packages/core/core/compression.ts:67-76 | a compressed response carries its encoding, `Vary: Accept-Encoding` and the compressed length (sections 8.4 and 12.5.5 of RFC 9110) and keeps every other header |
| `Compression.BrotliPreferred` | packages/core/core/compression.ts:58-64 | brotli wins whenever the client accepts both and both are enabled |
| `Compression.NoTypesNoCompression` | packages/core/core/compression.ts:86 | without configured types nothing is compressed |
| `Compression.CompressedHeaders` | packages/core/core/compression.ts:67-76 | the compressed response's headers are the old ones plus `Content-Encoding` set to the encoding, `Vary: Accept-Encoding` and the new `Content-Length`; every other header is kept |
| `Compression.GzipParamsOf` | packages/core/core/compression.ts:105-113 | without options level 6, window bits 15, memory level 8 and the default strategy; a configured level is used; the strategy is one of zlib's five |
| `Compression.BrotliParamsOf` | packages/core/core/compression.ts:89-103 | without brotli options quality 11, lgwin 22, lgblock 0, generic mode; a configured quality is used; the mode is one of three |
| `SyncLayer.Loaded` | packages/core/core/syncLayer.ts:25-46 | the entry `getOrCreate` yields is loaded; an existing entry keeps its clients and pending teardown; a new one has no clients and none pending |
| `SyncLayer.GetOrCreateOnce` | packages/core/core/syncLayer.ts:25-46 | the first access creates the entry with the initial state (or a truthy loaded one) and no clients; the loader runs once: a second access changes nothing |
| `SyncLayer.Sync.constructor` | packages/core/core/syncLayer.ts:22-23 | a new layer holds no entries, no timers and no effects |
| `SyncLayer.Sync.GetOrCreateEntry` | packages/core/core/syncLayer.ts:25-46 | the layer after `getOrCreate` and the entry it returns |
| `SyncLayer.Sync.CleanupKey` | packages/core/core/syncLayer.ts:48-55 | `onClose`, then `persist`, then the entry is deleted; an unknown key changes nothing |
| `SyncLayer.Sync.Join` | packages/core/core/syncLayer.ts:58-68 | the new layer is the one `join` produces; the timer invariant is kept |
| `SyncLayer.JoinSpec` | packages/core/core/syncLayer.ts:58-68 | after `join` the client is connected, `onInit` saw the state, and no teardown of the key is pending |
| `SyncLayer.JoinKeepsTimersOwned` | packages/core/core/syncLayer.ts:58-68 | `join` keeps every pending timer owned by an empty entry that records it |
| `SyncLayer.Sync.Leave` | packages/core/core/syncLayer.ts:69-81 | corrected `leave`: the new layer cancels a pending teardown before scheduling another; the timer invariant is kept |
| `SyncLayer.LeaveUnknown` | packages/core/core/syncLayer.ts:72 | `leave` on a key without an entry changes nothing, as written and corrected |
| `SyncLayer.LeaveEmptying` | packages/core/core/syncLayer.ts:73-80 | emptying the client set without a `ttl` tears the entry down at once (`onClose` before `persist`); with one, the entry stays and a single teardown is pending |
| `SyncLayer.LeaveKeepsTimersOwned` | packages/core/core/syncLayer.ts:69-81 | corrected `leave` keeps every pending timer owned by an empty entry that records it, so at most one teardown per key is pending |
| `SyncLayer.LeaveTwiceLosesJoinedClient` | packages/core/core/syncLayer.ts:69-81 | as written: join, leave, leave, join again, and the first timer then deletes an entry that has a connected client |
| `SyncLayer.Sync.FireTimer` | packages/core/core/syncLayer.ts:76 | a pending teardown going off cleans its key up; the timer invariant is kept |
| `SyncLayer.FireKeepsTimersOwned` | packages/core/core/syncLayer.ts:48-55 | a teardown going off keeps the timer invariant |
| `SyncLayer.FireSparesActiveEntries` | packages/core/core/syncLayer.ts:76 | under the invariant a timer never deletes an entry that has clients |
| `SyncLayer.Sync.Update` | packages/core/core/syncLayer.ts:82-100 | the clients are broadcast to once each, in an order that lists each exactly once; the new layer is the one `update` produces; the timer invariant is kept |
| `SyncLayer.UpdateKeepsTimersOwned` | packages/core/core/syncLayer.ts:82-100 | `update` keeps the timer invariant |
| `SyncLayer.UpdateRejected` | packages/core/core/syncLayer.ts:87-91 | a failed validation leaves the states as `getOrCreate` left them and sends only the error frame |
| `SyncLayer.UpdateAccepted` | packages/core/core/syncLayer.ts:92-99 | a success stores the parsed state and sends it to each client that can receive it, before `onUpdate` and `persist` |
| `SyncLayer.BroadcastReaches` | packages/core/core/syncLayer.ts:95-97 | a client receives the update frame iff it is connected and can be sent to; every frame carries the new state |
| `SyncLayer.BroadcastSnoc` | packages/core/core/syncLayer.ts:95-97 | broadcasting to one more client appends exactly that client's frame |
| `SyncLayer.ClientOrder` | packages/core/core/syncLayer.ts:95 | `Array.from(entry.clients)` lists every client exactly once |
| `SyncLayer.GetState` | packages/core/core/syncLayer.ts:101-104 | a state is returned iff the key has an entry, and it is that entry's state |
| `SyncLayer.Broadcast` | packages/core/core/syncLayer.ts:95-97 | at most one send per joined client |
| `OpenApi.CloseFrom` | packages/core/core/openapi.ts:32 | the first `]` at or after a position, or none when there is none |
| `OpenApi.NoBracketUnchanged` | packages/core/core/openapi.ts:31-33 | a path without `[` is left unchanged |
| `OpenApi.BracketBecomesBrace` | packages/core/core/openapi.ts:31-33 | `[name]` after a bracket-free prefix becomes `{name}` and the rest is converted in turn (Path Templating of the OpenAPI Specification 3.0.0) |
| `OpenApi.BracketAtStart` | packages/core/core/openapi.ts:32 | a leading `[name]` becomes `{name}` |
| `OpenApi.CloseFromFinds` | packages/core/core/openapi.ts:32 | the match of `[^\]]+\]` ends at the first `]` |
| `OpenApi.PrefixUnchanged` | packages/core/core/openapi.ts:32 | a bracket-free prefix passes through unchanged |
| `OpenApi.SegmentThenTail` | packages/core/core/openapi.ts:32 | a well-formed segment is templated on its own, independently of what follows |
| `OpenApi.TemplatesSegments` | packages/core/core/openapi.ts:31-33 | a route path made of well-formed segments becomes the same segments with each `[name]` templated as `{name}` |
| `OpenApi.ParamsOf` | packages/core/core/openapi.ts:20-28 | no parameters without a shape; else one required string parameter per shape key, in key order, at the given location |
| `OpenApi.JsonSchemaOf` | packages/core/core/openapi.ts:5-17 | the loop filling `properties` yields the schema `SchemaOf` defines |
| `OpenApi.SchemaOfSpec` | packages/core/core/openapi.ts:5-17 | no schema without a shape; else every key is a string-typed property and `required` lists the keys in order |
| `OpenApi.AddOperation` | packages/core/core/openapi.ts:63-72 | the path object is created on first use; the operation is stored under its verb, the path's other verbs and all other paths are kept |
| `OpenApi.GenerateSpec` | packages/core/core/openapi.ts:48-81 | the nested route and method loops build the `paths` object `PathsOf` defines, under OpenAPI 3.0.0 and the fixed info |
| `OpenApi.PathsSpec` | packages/core/core/openapi.ts:35-72 | a method appears under a templated path iff some http route whose module loaded has that path and a `METHOD_config` for a method of the fixed list |
| `OpenApi.DocumentsSnocSkip` | packages/core/core/openapi.ts:51-57 | a route that is not http, or whose import throws, documents nothing |
| `OpenApi.DocumentsSnocAdd` | packages/core/core/openapi.ts:50-72 | one more route adds exactly its own documented methods |
| `OpenApi.AddMethodsSpec` | packages/core/core/openapi.ts:59-72 | entering one route's methods adds exactly those it has a config for, under its key, and keeps every other entry |
| `OpenApi.OperationShape` | packages/core/core/openapi.ts:64-71 | path parameters come before query parameters; the `"200"` response is present iff the config has a response validator; an empty summary is left out |
| `OpenApi.ToOpenApiPath` | packages/core/core/openapi.ts:31-33 | the templated path has the route path's length; only brackets change, each `[` becoming `{` and each `]` becoming `}` |
| `OpenApi.AddMethodsContent` | packages/core/core/openapi.ts:59-73 | after one route's methods, an operation under a path and verb is either built from that route's `METHOD_config` for that verb, or kept from before when the route documents no such verb |
| `OpenApi.PathsContent` | packages/core/core/openapi.ts:49-74 | every operation in the generated paths is the one built from the `METHOD_config` of the last route that documents that path and verb |
| `Dispatch.FirstWildcard` | framework/core/router.ts:176-177 | the `all` route taken is the first registered one whose pattern matches; none is taken iff no pattern matches |
| `Dispatch.FirstWildcardIsFirst` | framework/core/router.ts:176-177 | a route matching with no earlier match is the one taken |
| `Dispatch.FindExact` | framework/core/router.ts:211-216 | `find` by exact path: the first route with that path, none iff no route has it |
| `Dispatch.AllReply` | framework/core/router.ts:186-200 | an `all` handler that throws becomes a 500 "Internal Server Error"; a response is passed on |
| `Dispatch.HandlerExport` | framework/core/router.ts:223 | a handler exists iff the module exports the method or its upper-case form, the exact name taking precedence |
| `Dispatch.Loaded` | framework/core/router.ts:91-94 | the loaded table only holds routes of the kind and is no longer than the scan |
| `Dispatch.LoadedSpec` | framework/core/router.ts:91-94 | the loaded table holds exactly the scanned descriptors of the kind, each with its prefix stripped |
| `Dispatch.Validate` | framework/core/router.ts:228-243 | without a config the extracted params and query pass unchanged; a throwing params or query validator is a 400; validation never throws further |
| `Dispatch.ResolveSpec` | framework/core/router.ts:219-243 | 404 exactly when no http route accepts the path and method; 405 when the matched module lacks the export; a runnable route is the first accepting one, has the export and, without a config, carries the extracted params and the query entries |
| `Dispatch.ResponseCheck` | framework/core/router.ts:270-281 | only a response validator that throws can replace the response, and then by a 500 |
| `Dispatch.WithContextHeaders` | framework/core/router.ts:283-295 | the handler's status, status text and body are kept; every context header is written over the response's headers, the others kept; no context header leaves the response as it was |
| `Dispatch.WebSocketOutcome` | framework/core/router.ts:299-308 | the socket closes iff no ws route matches; otherwise the matching route opens with its params |
| `Dispatch.TcpOutcome` | framework/core/router.ts:326-332 | the socket ends iff there is no tcp route; otherwise the first tcp route opens |
| `Dispatch.TrpcResponse` | framework/core/router.ts:341-352 | a 404 "Not Found" without a matching trpc route, else the adapter's answer for the matched route |
| `Dispatch.Resolve` | framework/core/router.ts:209-243 | a runnable route is the one the matcher picks for the path and method, and its module is the imported one; a failed import is `Failed` with the import-failure message, which both routers turn into a rejected request |
| `FrameworkRouter.PatchCorsHeaders` | framework/core/router.ts:116-138 | without a CORS config the response itself; otherwise status, status text and body kept, every CORS header the middleware computes written over the response's headers, the others kept |
| `FrameworkRouter.Router.constructor` | framework/core/router.ts:41-56 | a new router has empty route tables, no custom routes and its routes not loaded |
| `FrameworkRouter.Router.Get` | framework/core/router.ts:61-66 | the route is appended after the earlier GET routes; nothing else changes |
| `FrameworkRouter.Router.Post` | framework/core/router.ts:71-77 | the route is appended after the earlier POST routes; nothing else changes |
| `FrameworkRouter.Router.All` | framework/core/router.ts:82-87 | the route is appended after the earlier `all` routes; nothing else changes |
| `FrameworkRouter.Router.LoadRoutes` | framework/core/router.ts:89-95 | the trees are scanned on the first call only, each table holding the scanned routes of its kind; later calls change nothing |
| `FrameworkRouter.Router.HandleHttp` | framework/core/router.ts:140-297 | corrected (see Findings): after loading, the answer is the one the fixed decision order gives (preflight, `all` routes, exact GET and POST routes, file routes), with the context headers reaching the response |
| `FrameworkRouter.PreflightFirst` | framework/core/router.ts:146-165 | with a CORS config an OPTIONS request is answered 204 with the CORS headers before any route is consulted |
| `FrameworkRouter.AllRoutesBeforeOthers` | framework/core/router.ts:175-207 | otherwise the earliest matching `all` route answers, before exact and file routes; a throwing `all` handler becomes a 500 |
| `FrameworkRouter.NotFound` | framework/core/router.ts:209-221 | a request no custom route takes and no file route accepts is a patched 404 |
| `FrameworkRouter.FileRouteErrors` | framework/core/router.ts:222-281 | a module without the method's export is a 405, a failing validation a 400, a throwing response validator a 500 |
| `FrameworkRouter.ContextHeadersReachResponse` | framework/core/router.ts:283-296 | corrected: a served file route's response carries the headers its context set over the handler's, with status and body unchanged |
| `FrameworkRouter.ServedFileRoutesReject` | framework/core/router.ts:284 | as written: every file-route request that is served and passes the response check rejects, while the corrected outcome responds |
| `FrameworkRouter.Router.HandleWebSocket` | framework/core/router.ts:299-308 | after loading, the matching ws route opens with its params, or the socket closes |
| `FrameworkRouter.Router.HandleTcp` | framework/core/router.ts:326-333 | after loading, the first tcp route opens, or the socket ends |
| `FrameworkRouter.Router.HandleTrpc` | framework/core/router.ts:341-352 | after loading, a 404 without a matching trpc route, else the adapter's answer |
| `FrameworkRouter.FileRouteOutcome` | framework/core/router.ts:209-296 | corrected: a file route always settles (responds or rejects), and it rejects only for a module that resolved to a handler |
| `FrameworkRouter.FileRouteOutcomeAsWritten` | framework/core/router.ts:283-296 | as written: where it answers or the corrected outcome rejects, it agrees with the corrected outcome; any other difference is the rejection from reading `ctx.responseHeaders` |
| `FrameworkRouter.HttpOutcome` | framework/core/router.ts:140-297 | the request always settles; with no CORS config and no custom route taking it, the answer is the file route's |
| `CoreRouter.MergeTimeout` | packages/core/core/router.ts:67-78 | the merge delay is the configured timeout when merging is on and the timeout is truthy, 100 ms otherwise |
| `CoreRouter.RequestKey` | packages/core/core/router.ts:155-165 | no key iff the request is not a GET or carries a non-empty Authorization or Cookie header; otherwise `GET:path:search` |
| `CoreRouter.SameKeySameTarget` | packages/core/core/router.ts:155-165 | two requests merged under one key (paths free of ':') are both GETs for the same path and query string |
| `CoreRouter.FirstMount` | packages/core/core/router.ts:182-183 | the mount taken is the first, in mounting order, whose prefix starts the path; none iff no prefix does |
| `CoreRouter.FirstMountIsFirst` | packages/core/core/router.ts:182-183 | a mount whose prefix matches with no earlier match is the one taken |
| `CoreRouter.MountSet` | packages/core/core/router.ts:117-118 | `Map.set`: a mounted prefix keeps its place and gets the new application; a new prefix goes last; prefixes stay distinct |
| `CoreRouter.RemountReplaces` | packages/core/core/router.ts:117-118 | after mounting, some mount takes a path iff one did before or the new prefix starts it; the new prefix is answered by the new application |
| `CoreRouter.RootedPath` | packages/core/core/router.ts:185 | the remainder handed to a mounted application is rooted at "/" |
| `CoreRouter.Rebased` | packages/core/core/router.ts:185-199 | the mounted application gets the path with the prefix sliced off, and the same method, headers and query |
| `CoreRouter.Router.constructor` | packages/core/core/router.ts:69-79 | the route store exists exactly when `cache.routeCache.enabled`; the merge delay is set; all tables, mounts and merge state start empty |
| `CoreRouter.Router.Get` | packages/core/core/router.ts:84-89 | the route is appended after the earlier GET routes |
| `CoreRouter.Router.Post` | packages/core/core/router.ts:94-100 | the route is appended after the earlier POST routes |
| `CoreRouter.Router.All` | packages/core/core/router.ts:105-110 | the route is appended after the earlier `all` routes |
| `CoreRouter.Router.Mount` | packages/core/core/router.ts:117-122 | the mounts become `Map.set` of the old ones |
| `CoreRouter.Router.LoadRoutes` | packages/core/core/router.ts:124-132 | the trees are scanned on the first call only, the tcp tree only with `enableTcp`; later calls change nothing |
| `CoreRouter.Router.FindMount` | packages/core/core/router.ts:182-204 | the scan of the mounts in order finds the first prefix that starts the path |
| `CoreRouter.Router.Remember` | packages/core/core/router.ts:388-392 | the promise is stored under its key and exactly one deletion of that key is scheduled; every stored key keeps a pending deletion |
| `CoreRouter.Router.HandleHttp` | packages/core/core/router.ts:174-395 | corrected (see Findings): a mounted prefix answers first with the rebased request; then an identical pending request's promise is shared; otherwise a new promise settles as the dispatch order gives and is stored under its key only when merging is on |
| `CoreRouter.Router.JoinOrStart` | packages/core/core/router.ts:206-394 | corrected (see Findings): a request whose key is already merged joins the stored promise and changes nothing; otherwise a new promise runs the request and is remembered under its key, with its deletion scheduled, exactly when merging is on |
| `CoreRouter.Router.RunPromise` | packages/core/core/router.ts:219-386 | corrected (see Findings): the new promise's body settles as the dispatch order defines: route cache, `all` routes, exact GET and POST routes, then the file route under its middleware |
| `CoreRouter.Router.ExpireMerge` | packages/core/core/router.ts:169-171 | the scheduled deletion removes its key from the merge map whatever promise is stored there; every other key stays |
| `CoreRouter.RouteCacheStep` | packages/core/core/router.ts:221-232 | corrected: no answer without a route-capable store; an answer only for a route-cache hit |
| `CoreRouter.CacheHitShortCuts` | packages/core/core/router.ts:221-231 | a route-cache hit is answered by the cached handler; custom routes, validation and middleware are not consulted |
| `CoreRouter.NullStoreRejects` | packages/core/core/router.ts:221-223 | as written, a disabled cache with an enabled route cache rejects every request reaching the fast path; the corrected step lets it through |
| `CoreRouter.CorsWrap` | packages/core/core/router.ts:259-298 | the CORS middleware around a custom route's response leaves it unchanged except for a preflight, which it answers itself |
| `CoreRouter.OnRequestStages` | packages/core/core/router.ts:345-348 | with CORS configured its middleware runs first, before the route's own onRequest middleware, which keep their order |
| `CoreRouter.PreflightStopsChain` | packages/core/core/router.ts:345-352 | a preflight to a file route is answered 204 by the first onRequest middleware; the handler and the route's own middleware do not run |
| `CoreRouter.CorsRelaysHandler` | packages/core/core/router.ts:345-352 | outside a preflight, with relaying route middleware, the onRequest chain settles as the handler does |
| `CoreRouter.OnResponseSeesFirst` | packages/core/core/router.ts:350-369 | the onResponse chain is given the onRequest chain's result as its `next`: with relaying onResponse middleware, a response that fails the response validator is replaced by its 500, and one that passes is sent with its status and body |
| `CoreRouter.ResponseSchemaFailure` | packages/core/core/router.ts:346-369 | with relaying middleware outside a preflight, a handler response the response validator rejects is answered by the 500 "Invalid response" response |
| `CoreRouter.FileRouteErrors` | packages/core/core/router.ts:304-335 | no matching route is a bare 404, a missing export a bare 405, a failing validation a bare 400; these answers carry no CORS headers |
| `CoreRouter.Router.HandleWebSocket` | packages/core/core/router.ts:397-407 | after loading, the matching ws route opens with its params, or the socket closes |
| `CoreRouter.Router.HandleTcp` | packages/core/core/router.ts:424-430 | after loading, the first tcp route opens, or the socket ends |
| `CoreRouter.Router.HandleTrpc` | packages/core/core/router.ts:439-450 | after loading, a 404 without a matching trpc route, else the adapter's answer |
| `CoreRouter.StoreOf` | packages/core/core/router.ts:72-75 | a route store exists iff `cache.routeCache.enabled`; it is the null store exactly when the cache itself is not enabled |
| `CoreRouter.RouteCacheStepAsWritten` | packages/core/core/router.ts:221-223 | as written: the fast path differs from the corrected step exactly when the store is the null store |
| `CoreRouter.PipelineOutcome` | packages/core/core/router.ts:336-385 | a file route's answer is only left undefined when it has no response validator; an onRequest chain that throws rejects the request; the 500 on a failed response check and the onResponse chain's terminal are stated by `OnResponseSeesFirst` and `ResponseSchemaFailure` |
| `CoreRouter.PromiseOutcome` | packages/core/core/router.ts:219-386 | a route-cache hit decides the answer; an undefined answer only comes from a file route that resolved to a runnable handler |
| `Cron.RunEnd` | packages/cron/index.ts:37 | the end of the run of digits starting at a position |
| `Cron.FirstMatch` | packages/cron/index.ts:37 | the first position where `\d+[smhd]` matches, none iff it matches nowhere |
| `Cron.ParseDuration` | packages/cron/index.ts:34-47 | 0 for an empty string or one without `<digits><unit>`; otherwise the first such number times its unit's milliseconds |
| `Cron.DurationRoundTrip` | packages/cron/index.ts:34-47 | a duration written as a number and a unit reads back as that many units in milliseconds |
| `Cron.ShouldExecute` | packages/cron/index.ts:24-32 | a job that never completed may run; otherwise it may run iff at least the parsed interval has passed since its last completion |
| `Cron.CronPlugin.OnTick` | packages/cron/index.ts:55-67 | the job runs iff it is not time-gated or its interval has passed; only a run that completes records a time, the time it completed at; nothing else changes |
| `Cron.TooSoonSkipped` | packages/cron/index.ts:57-63 | after a time-gated run that completed at `done`, a later tick runs iff the interval has elapsed since `done` |
| `Cron.FailureNotRecorded` | packages/cron/index.ts:62-66 | a failing job leaves the record as it was, so the next tick retries it |
| `Cron.CronPlugin.constructor` | packages/cron/index.ts:22 | no jobs scheduled and no executions recorded |
| `Cron.CronPlugin.RegisterCronJob` | packages/cron/index.ts:49-81 | a disabled job changes nothing; a schedule the `CronJob` constructor refuses throws and changes nothing; otherwise the job is scheduled after the earlier jobs and, with `runOnStart`, ticked once (see Left out for the tick's timing) |
| `Cron.JobName` | packages/cron/index.ts:92-93 | a job is named by its directory relative to the jobs root, or "root" for the root itself |
| `Cron.Candidates` | packages/cron/index.ts:85-90 | every file found is a `cron.ts` or `cron.js` below the directory being walked |
| `Cron.CandidatesOf` | packages/cron/index.ts:86-90 | one listed entry contributes its own cron files, a directory those found inside it |
| `Cron.CandidatesSnoc` | packages/cron/index.ts:85 | walking one more listed entry appends exactly that entry's cron files |
| `Cron.RegisterAllAppend` | packages/cron/index.ts:85-110 | registering two runs of found files one after the other is registering their concatenation |
| `Cron.CronPlugin.LoadCronJobsFromDir` | packages/cron/index.ts:83-111 | the recursive walk leaves the state that registering every found cron file in listing order gives, invalid modules and failed imports skipped |
| `Cron.LastStep` | packages/cron/index.ts:94-108 | the last found file adds exactly one job iff its module is valid, enabled and accepted by the `CronJob` constructor, and that job is named after its directory and runs on its schedule |
| `Cron.JobsFromValidModules` | packages/cron/index.ts:83-111 | earlier jobs are kept, and every newly scheduled job comes from a found cron file whose module is valid, enabled and accepted, and is named after its directory |
| `Cron.ValidModulesScheduled` | packages/cron/index.ts:83-111 | conversely, every found cron file whose module is valid, enabled and accepted gets its job among the newly scheduled ones |
| `Cron.RegisterStep` | packages/cron/index.ts:94-108 | one loaded module adds at most one job after the earlier ones, exactly when it is valid, enabled and its schedule is accepted; the last-run time only changes for such a job run on start that succeeded |
| `DiscordClient.Dedupe` | packages/discord/client.ts:26 | `Array.from(new Set(bits))` holds exactly the values of `bits` |
| `DiscordClient.DedupeSpec` | packages/discord/client.ts:26 | the deduplicated bits have no repeats and keep the order of first occurrences |
| `DiscordClient.FirstIndex` | packages/discord/client.ts:26 | the position of a value's first occurrence |
| `DiscordClient.ExpandSpec` | packages/discord/client.ts:17-24 | a bit is collected iff some entry asks for it, as a known group or as a number; other entries contribute nothing |
| `DiscordClient.ResolveIntents` | packages/discord/client.ts:16-27 | the two loops give the deduplicated expansion: no repeats, and exactly the requested bits |
| `DiscordClient.ClientHolder.constructor` | packages/discord/client.ts:5-6 | no client and not ready |
| `DiscordClient.ClientHolder.GetClient` | packages/discord/client.ts:29-44 | the first call builds the client with the resolved intents, a non-empty public key and the token; every later call returns that client unchanged |
| `DiscordClient.GetClientTwice` | packages/discord/client.ts:29-44 | two calls return the same client whatever the second configuration |
| `DiscordClient.ClientHolder.OnReady` | packages/discord/client.ts:33-34 | the ready event sets `ready` |
| `DiscordClient.ClientHolder.Access` | packages/discord/client.ts:8-14 | reading through the proxy fails with "Discord Client not initialized yet." iff no client exists, else reaches the client |
| `DiscordClient.ClientHolder.SendToChannel` | packages/discord/client.ts:47-63 | without a client the proxy error; an unfetched channel is "Channel not found"; the message is sent iff the channel is text-based, has `send` and is of an allowed type when a list is given; otherwise the text-channel error |
| `DiscordCommands.ResolveOptionType` | packages/discord/index.ts:28-45 | numbers are kept, the eleven known names map per the table, any other name maps to 3 (string) |
| `DiscordCommands.MapOne` | packages/discord/index.ts:49-53 | an option keeps name, description and required flag, gets its resolved type, and its nested options are mapped when present and stay absent otherwise |
| `DiscordCommands.MapList` | packages/discord/index.ts:49-53 | same length, and each position is the mapped option of the same position |
| `DiscordCommands.MapOptions` | packages/discord/index.ts:47-54 | a missing list gives `[]`; a present one is mapped element by element |
| `DiscordCommands.MapOneIdempotent` | packages/discord/index.ts:47-54 | mapping an option twice equals mapping it once, at every nesting depth |
| `DiscordCommands.MapListIdempotent` | packages/discord/index.ts:47-54 | mapping a list twice equals mapping it once |
| `DiscordCommands.CommandToApi` | packages/discord/index.ts:56-63 | name kept, type 1, the description or "No description" when missing or empty, options mapped (`[]` without options) |
| `DiscordCommands.CommandRegistry.constructor` | packages/discord/index.ts:11 | the registry starts empty |
| `DiscordCommands.CommandRegistry.Register` | packages/discord/index.ts:14-25 | the options are filed under the caller file, replacing earlier ones, and nothing changes when no file was found |
| `DiscordCommands.LexIrreflexive` | packages/discord/index.ts:67 | the name order used by the sort is irreflexive |
| `DiscordCommands.LexTotal` | packages/discord/index.ts:67 | any two different names are ordered one way or the other |
| `DiscordCommands.LexTransitive` | packages/discord/index.ts:67 | the name order is transitive |
| `DiscordCommands.Insert` | packages/discord/index.ts:67 | inserting adds exactly one element |
| `DiscordCommands.InsertMultiset` | packages/discord/index.ts:67 | inserting adds the element to the multiset and nothing else |
| `DiscordCommands.InsertSorted` | packages/discord/index.ts:67 | inserting into a name-sorted list keeps it sorted |
| `DiscordCommands.SortByName` | packages/discord/index.ts:67 | the sorted copy is a permutation of the input and is sorted by name |
| `DiscordCommands.CommandsEqualLoop` | packages/discord/index.ts:65-79 | the loop answers true iff the lists have equal length and agree on name and description position by position once both are sorted by name |
| `DiscordCommands.SortedUnique` | packages/discord/index.ts:67-69 | two sorted permutations of one list with distinct names are equal |
| `DiscordCommands.SameHead` | packages/discord/index.ts:67-69 | two sorted permutations with distinct names start with the same command |
| `DiscordCommands.SameTail` | packages/discord/index.ts:67-69 | removing an equal head from two permutations leaves permutations |
| `DiscordCommands.Reordered` | packages/discord/index.ts:65-79 | a reordering of a list of distinctly named commands compares equal to it |
| `DiscordCommands.DistinctOfMultiset` | packages/discord/index.ts:65-79 | distinct names survive any permutation |
| `DiscordCommands.TwoCopies` | packages/discord/index.ts:65-79 | an element at two positions occurs at least twice in the multiset |
| `DiscordCommands.MultiplicityOne` | packages/discord/index.ts:65-79 | with distinct names each element occurs once |
| `DiscordCommands.InsertKeys` | packages/discord/index.ts:67 | inserting name/description-equal commands into name/description-equal lists keeps them equal in name and description |
| `DiscordCommands.SortKeys` | packages/discord/index.ts:67-69 | sorting lists that agree on name and description gives lists that agree on them |
| `DiscordCommands.OnlyNameAndDescription` | packages/discord/index.ts:70-77 | the comparison looks only at names and descriptions: changing type or options changes nothing |
| `DiscordCommands.ShouldRegister` | packages/discord/index.ts:98-119 | commands are sent to Discord iff they differ from the current ones, a failed fetch counting as `[]` |
| `DiscordCommands.CommandMap` | packages/discord/index.ts:155-158 | every loaded name is a key, each key maps to a command of that name, and every command that no later command shares its name with is the one its name maps to: the last command loaded under a name wins |
| `DiscordCommands.Registration` | packages/discord/index.ts:96-119 | the converted commands are put iff `ShouldRegister` holds for them |
| `DiscordCommands.CommandsUnansweredWithoutEvents` | packages/discord/index.ts:122-161 | as written, with commands and a client but no event file no interaction listener is attached; the corrected start-up attaches it |
| `DiscordCommands.ListenerServesCommands` | packages/discord/index.ts:155-162 | with a client the listener is attached and knows every loaded command name, and each name is bound to the last command loaded under it, for duplicated names as well |
| `DiscordCommands.Missing` | packages/discord/index.ts:188-193 | corrected (see Findings): without a usable `has` every required permission is missing; otherwise exactly the required permissions not granted |
| `DiscordCommands.HandleInteraction` | packages/discord/index.ts:162-221 | corrected (see Findings): the listener's sequential flow equals the specification: non-chat-input or unknown commands are ignored, then permissions, checks, `before`, handler, automatic reply, `after`, with the catch-all error reply |
| `DiscordCommands.PermissionDenied` | packages/discord/index.ts:185-198 | corrected (see Findings): a member missing a permission gets exactly one ephemeral reply listing the missing permissions, and the handler does not run |
| `DiscordCommands.FailingCheckStops` | packages/discord/index.ts:200-204 | the first check that returns false stops the interaction with no reply |
| `DiscordCommands.AutoReplyOnlyWhenUnanswered` | packages/discord/index.ts:208-211 | a defined result is sent back iff neither the caller nor the handler replied or deferred |
| `DiscordCommands.ThrowingHandler` | packages/discord/index.ts:215-219 | a throwing handler gives the error reply iff the interaction is unanswered |
| `DiscordCommands.CommandsEqual` | packages/discord/index.ts:65-79 | lists that compare equal have the same length |
| `DiscordCommands.CommandsEqualSymmetric` | packages/discord/index.ts:65-79 | every list compares equal to itself, and the comparison is symmetric |
| `DiscordCommands.RunChecks` | packages/discord/index.ts:200-204 | the checks pass iff every remaining check returns true; running them never clears the replied or deferred flag |
| `DiscordCommands.RunHandler` | packages/discord/index.ts:205-219 | the handler runs iff `before` does not throw; at most two replies; the result is sent only when the handler returned one |
| `DiscordCommands.HandleSpec` | packages/discord/index.ts:162-221 | corrected: a handler only runs for a known chat-input command, and only for a member that holds every permission the command requires |
| `DiscordCommands.MissingAsWritten` | packages/discord/index.ts:188-193 | as written: without `has` every permission is missing; with `has` a non-empty list throws (the `Permissions` lookup), an empty one has nothing missing |
| `DiscordCommands.HandleSpecAsWritten` | packages/discord/index.ts:162-221 | as written: the listener only departs from the corrected one for members whose permissions have `has` |
| `DiscordCommands.PermissionLookupThrows` | packages/discord/index.ts:185-198 | as written, a member with `has` and a command with a non-empty permission list always gets the "An error occurred." reply (when unanswered) and the handler never runs, while the corrected listener runs it when every permission is held |
| `DiscordCommands.PluginSetup` | packages/discord/index.ts:81-227 | corrected: the same commands are put as written; a listener is attached iff there is a client; with event files it is the as-written start-up |
| `DiscordLoader.StripExt` | packages/discord/loader.ts:24 | a `.ts` or `.js` suffix is removed, any other name is kept |
| `DiscordLoader.ScanSpec` | packages/discord/loader.ts:5-18 | every file found lies under the scanned folder and is a `.ts`/`.js` file, and with `ignoreParens` no folder on its path is a `(name)` folder |
| `DiscordLoader.ScanEntrySpec` | packages/discord/loader.ts:9-15 | one entry gives only script files below it, and none under a skipped `(name)` folder |
| `DiscordLoader.ScanSnoc` | packages/discord/loader.ts:8-16 | scanning one more entry appends that entry's files |
| `DiscordLoader.ScanDir` | packages/discord/loader.ts:5-18 | a missing folder gives `[]`; otherwise the loop collects exactly the specified files in listing order |
| `DiscordLoader.ScanEntries` | packages/discord/loader.ts:8-17 | the loop over the listing equals the scan specification |
| `DiscordLoader.GroupFolders` | packages/discord/loader.ts:26 | the groups are exactly the non-parenthesised folders of the path |
| `DiscordLoader.RelOfPlain` | packages/discord/loader.ts:22 | for a path without backslashes the relative path is the segments joined with `/` |
| `DiscordLoader.RelParts` | packages/discord/loader.ts:22-23 | splitting the relative path on `/` gives back its segments |
| `DiscordLoader.CommandMetaSpec` | packages/discord/loader.ts:21-33 | a command is named after its file without extension, grouped by its non-parenthesised folders joined with a space, and keeps its relative path |
| `DiscordLoader.EventNameSpec` | packages/discord/loader.ts:57-66 | a nested event is named after its first folder; a top-level one after its file without extension |
| `DiscordLoader.ContextMenuSpec` | packages/discord/loader.ts:82-86 | a context menu is named after its file without extension; its type is its first folder, or none |
| `DiscordLoader.LoadCommands` | packages/discord/loader.ts:36-49 | one command per scanned file (parenthesised folders skipped), in scan order, with its metadata |
| `DiscordLoader.LoadEvents` | packages/discord/loader.ts:52-75 | one event per scanned file (parenthesised folders kept), in scan order, with its event name |
| `DiscordLoader.LoadContextMenus` | packages/discord/loader.ts:78-96 | one context menu per scanned file, in scan order |
| `DiscordLoader.AddOnce` | packages/discord/loader.ts:114 | `Set.add`: the element is added, nothing else, and no duplicates appear |
| `DiscordLoader.AddAll` | packages/discord/loader.ts:114 | adding a list keeps exactly the old elements and the new ones, with no duplicates |
| `DiscordLoader.IntentsOf` | packages/discord/loader.ts:112-116 | the collected intents have no duplicates |
| `DiscordLoader.IntentsOfSpec` | packages/discord/loader.ts:105-116 | an intent is collected iff some loaded event maps to it |
| `DiscordLoader.SuggestedSpec` | packages/discord/loader.ts:99-120 | the suggestion has no duplicates, always holds "Guilds", and otherwise exactly the intents the events need |
| `DiscordLoader.SuggestIntents` | packages/discord/loader.ts:99-120 | the loop computes the suggestion |
| `DiscordLoader.ParenGroupShape` | packages/discord/loader.ts:26 | `/^\(.+\)$/`: a name in parentheses is a parenthesised folder iff the name between them is non-empty and free of line terminators |
| `DiscordLoader.GetCommandMeta` | packages/discord/loader.ts:21-33 | the relative path is kept; a top-level file has no group and is named after the file without extension |
| `DiscordLoader.EventNameShape` | packages/discord/loader.ts:57-66 | a top-level file names the event after itself without extension; a nested one after a folder name free of `/` that, followed by `/`, starts the path |
| `DiscordLoader.ContextMenuOf` | packages/discord/loader.ts:82-86 | the file is kept; a top-level file has no type and is named after itself without extension |
| `DiscordLoader.Suggested` | packages/discord/loader.ts:99-120 | the suggested intents have no duplicates and always include `Guilds` |
| `DocsNavigation.FirstMatch` | docs/lib/docs-navigation.ts:136-186 | the first link matching in a pass: none iff no link matches, otherwise a matching link with no matching link before it |
| `DocsNavigation.FirstAnswerAt` | docs/lib/docs-navigation.ts:136-186 | the answer of a pass is the answer of its first matching link |
| `DocsNavigation.FirstAnswerAppend` | docs/lib/docs-navigation.ts:136-186 | scanning two lists in a row answers from the first when it has a hit, else from the second |
| `DocsNavigation.ScanSubsIsFirst` | docs/lib/docs-navigation.ts:148-158 | the sub-item loop returns the first matching sub-item, naming category, parent item and sub-item |
| `DocsNavigation.ScanItemsIsFirst` | docs/lib/docs-navigation.ts:137-159 | the item loop tests each item before its sub-items and returns the first hit in that order |
| `DocsNavigation.ScanIsFirstLink` | docs/lib/docs-navigation.ts:136-160 | the nested loops of a pass return the answer of the first matching link in declared order |
| `DocsNavigation.ExactWins` | docs/lib/docs-navigation.ts:136-160 | when some link equals the path, the lookup answers with the first such link, whatever prefix links exist |
| `DocsNavigation.PrefixFallback` | docs/lib/docs-navigation.ts:162-188 | without an exact link, the answer is the first link (other than "/docs") that prefixes the path; with none, all three fields are null |
| `DocsNavigation.ItemAnswers` | docs/lib/docs-navigation.ts:139-157 | an item's link answers with a null sub-item; a sub-item's link names category, parent item and itself |
| `DocsNavigation.SubAnswers` | docs/lib/docs-navigation.ts:149-156 | every sub-item link answers with its category, parent item and own title |
| `DocsNavigation.DocsRootNeverPrefix` | docs/lib/docs-navigation.ts:165-176 | a "/docs" link answers only the path "/docs" itself, never through the prefix pass |
| `PluginsCatalog.FindSlug` | docs/lib/plugins.ts:222 | the first index whose slug equals the given one, or none when no entry has it |
| `PluginsCatalog.GetPluginBySlug` | docs/lib/plugins.ts:221-224 | null iff no entry has the slug; otherwise an entry of the catalogue with exactly that slug |
| `PluginsCatalog.Filter` | docs/lib/plugins.ts:227-235 | an entry is kept iff it is in the catalogue and passes the query |
| `PluginsCatalog.FilterIsSubsequence` | docs/lib/plugins.ts:227-235 | the filtered list keeps catalogue order |
| `PluginsCatalog.GetOfficialPlugins` | docs/lib/plugins.ts:226-228 | exactly the official entries |
| `PluginsCatalog.SearchPlugins` | docs/lib/plugins.ts:230-236 | exactly the entries whose lower-cased name or description contains the lower-cased term |
| `PluginsCatalog.QueriesKeepOrder` | docs/lib/plugins.ts:226-236 | both queries return a subsequence of the catalogue |
| `PluginsCatalog.EmptySearchListsAll` | docs/lib/plugins.ts:230-236 | the empty term returns the whole catalogue |
| `PluginsCatalog.SearchIgnoresTermCase` | docs/lib/plugins.ts:233-234 | terms equal after lower-casing give the same result |
| `PluginsCatalog.FilterSameHits` | docs/lib/plugins.ts:231-235 | queries that accept the same entries filter alike |
| `DocsNavigation.FindActiveItem` | docs/lib/docs-navigation.ts:129-189 | the answer is either nothing active or the category, item and sub-item of some link of the navigation whose href equals the path or is a prefix of it |
| `Strings.Trim` | framework/core/context/api.ts:25 | `trim()`: the result is no longer than the input and starts and ends with no white space; it is empty iff the input is all white space, and an input without white space at either end is kept |
| `Strings.ToLower` | docs/lib/plugins.ts:233-234 | `toLowerCase()`: same length, each character mapped to its lower-case form |

## Left out

- File system and module loading: directory listings, `existsSync`/`statSync`, `require` and dynamic `import(...)` are data passed to the operations. The configuration loaders (`loadConfig`, `loadRouteCacheConfig`, `loadDiscordConfig`, the cron plugin's config and its `stat` of the jobs directory) are not part of this model. Their results are parameters.
- Runtime and network plumbing are foreign calls and are not modelled: `Bun.serve`/`Bun.listen`, the Redis client and the sqlite/redis sync adapters, the tRPC adapter, and discord.js REST, gateway login and events. A constructed Discord client is its configuration, and a fetched channel is a value.
- Opaque libraries are parameters: zlib's gzip and brotli compressors, the md5 of route-cache keys, and Zod's `parse`/`safeParse` and shape. Only the keys of a validator's shape are read.
- Timers and the clock: `Date.now()` is a `now` parameter. `setTimeout` callbacks become explicit events that the caller fires: merge-cache expiry, sync-layer teardown and cron ticks.
- Cron.CronPlugin.RegisterCronJob: the run-on-start tick is applied inline, at the registration time `now`, and its outcome (the completion time or a throw) is a parameter. In the source the tick is not awaited (packages/cron/index.ts:62-63), so registration and later work run on while the job function is still pending.
- Cron.CronPlugin.OnTick: ticks do not overlap. A tick's run settles before the next tick is considered, so a tick that fires while an earlier run of the job function is still awaited, and reads `lastExecutions` before that run records its completion, is not modelled.
- Concurrency: merged requests share one promise in the source. The model keeps the merge map and its key, but not the interleaving of the awaiting requests. The async loaders run to completion one after another.
- Handlers and middleware are described by their outcomes. A stage replies, relays `next()` or replaces the response, and a handler returns or throws a given value. An `all` handler's reply is always a `Response`: the path where it returns another value, which the older router hands back without the CORS patch (framework/core/router.ts:202-205), is not modelled. What a middleware does to the context's headers is not modelled. The newer router's context headers after a short-circuited chain are the CORS headers alone.
- The `handler.length === 1` test of `all` routes, with its retry on an exception, is not modelled. Neither is the stack-trace scraping in Discord's `Command()`. The caller file is a parameter of `CommandRegistry.Register`.
- The Discord interaction handler's `options` object (the values read from `interaction.options`) is not modelled. Only whether the handler ran and what the plugin replied are. The `ctx.discord` assignment and `addRoleToUser` are plain foreign calls and are left out.
- Logging (`console.log`/`console.error`), debug output and the HTML of the Swagger UI page are not modelled.
- `packages/core/core/context/api.ts`, `packages/core/core/utils.ts` and `packages/core/core/cors.ts` are not part of this model. The newer router uses the framework copies, and its context is taken to expose the response headers it merges.
- Both routers' request entry points are modelled as corrected, not as written: they use the corrected steps listed under Findings, and the as-written steps are kept beside them.
- FrameworkRouter.Router.HandleHttp: corrected; a served file route gets the context's headers merged, where the source throws on reading `ctx.responseHeaders` (see Findings).
- CoreRouter.Router.HandleHttp: corrected; a null store on the route-cache fast path is a miss, where the source rejects (see Findings).
- CoreRouter.Router.JoinOrStart: corrected, through `RunPromise`, in the same way.
- CoreRouter.Router.RunPromise: corrected; it uses `RouteCacheStep`, not `RouteCacheStepAsWritten`.
- SyncLayer.Sync.Leave: corrected; a pending teardown is cancelled before another is scheduled, where the source leaves it pending (see Findings). The as-written step is `AfterLeaveAsWritten`.
- The newer router's other behaviours are kept as written. A file route without an `OPTIONS` export answers an `OPTIONS` request with 405, because the CORS middleware runs inside the chain after the method lookup. Custom routes get no CORS headers on other methods.
- CoreRouter.Rebased: URL resolution is not modelled. The rebased path is the remainder joined to the origin as text; how `new URL` treats a remainder starting with "//" or holding `.`/`..` segments is not captured. The same holds for CoreRouter.RootedPath.
- The `TypeError` messages of the as-written rejections (`ResponseHeadersUndefined`, the null store's missing `getRoute`) stand for the engine's error; their wording is illustrative.
- Plain-object lookups ignore inherited keys: the model treats `lastExecutions`, `Intents`, `eventIntentMap` and `OptionTypeMap` as maps, so a key such as `constructor` reads as absent, where JavaScript would find `Object.prototype`'s member.
- `generateOpenAPISpec` is given the route table and module map directly. The choice of API directory is not modelled.
- `getAllPlugins` returns the catalogue itself. Every catalogue query takes the catalogue as a parameter, and the constant entries of `docs/lib/plugins.ts` and the navigation tree of `docs/lib/docs-navigation.ts` are not reproduced.
- `packages/discord/types.ts` is reproduced only as the table of intent groups that `resolveIntents` expands. It exports no `Permissions` object, so the as-written permission check throws (see Findings). In the corrected listener a member's permissions are the set of permission names it holds, and `has` is membership in that set.
- DiscordCommands.HandleInteraction: corrected; the permission check looks names up in the member's granted set rather than through the missing `Permissions` table.
- Strings.ToLower: maps ASCII letters only, where JavaScript's `toLowerCase` also maps non-ASCII letters.
- Strings.Trim: removes ASCII white space only (space, tab, line feed, vertical tab, form feed, carriage return). JavaScript's `trim` also removes U+00A0, U+FEFF, U+2028, U+2029 and the other Unicode space separators.
- Compression.Handle: a response body is a string, so a null body is taken as the empty string. A compressible response without a body under a nonzero threshold, such as a 204 with a JSON content type, is reported as read, where `arrayBuffer()` leaves a null body undisturbed. `Compression.HandleRebuilt` likewise rebuilds such a response, which fetch refuses to construct with a body for a null-body status.
- Topics.TopicRegistry.Publish: the subscribers of a topic are a set, so the order of the sends is not kept. The source sends in the insertion order of the JavaScript `Set`; the model promises one send per subscriber in some order.
- SyncLayer.Sync.Update: the connected clients are a set, so the broadcast order is not the insertion order of the JavaScript `Set`. The model promises one frame per client in some order that lists each exactly once.
- CoreRouter.SameKeySameTarget: holds only for paths without ':', because `GET:path:search` does not separate a colon in the path from the separator.
- Integers are unbounded. No JavaScript number overflow or floating-point rounding is modelled; durations, timestamps and sizes are naturals.

## Findings

| source | as written | input that shows it | evidently intended | confidence | as-written member | corrected member |
|---|---|---|---|---|---|---|
| framework/core/router.ts:284 | reads `ctx.responseHeaders`, but the framework `HttpContext` only has a private `_responseHeaders` (framework/core/context/api.ts:13), so the `forEach` call on `undefined` throws | any request served by a file route whose response passes the response check | the context's response headers are merged into the handler's response | high, not executed | `FrameworkRouter.ServedFileRoutesReject` | `FrameworkRouter.ContextHeadersReachResponse` |
| packages/core/core/syncLayer.ts:74-76 | a second `leave` with a TTL schedules a new teardown timer without clearing the pending one | join, leave, leave, join, then the first timer fires | one pending teardown per key, and a rejoin cancels it | medium, not executed | `SyncLayer.LeaveTwiceLosesJoinedClient` | `SyncLayer.LeaveKeepsTimersOwned` |
| packages/core/core/router.ts:221-223 | with `cache.enabled` false (packages/core/core/router.ts:72-75) the store is the null store, which has no `getRoute`, yet the route-cache fast path calls it whenever `routeCache.enabled` holds | `cache.enabled = false`, `routeCache.enabled = true`, any GET request | a store without a route cache is a route-cache miss | medium, not executed | `CoreRouter.NullStoreRejects` | `CoreRouter.RouteCacheStep` |
| framework/core/context/api.ts:87-93 | `buildResponse` copies headers with `set` while iterating them, so of several `Set-Cookie` values only the last survives | `setCookie("a", "1")`, `setCookie("b", "2")`, then `buildResponse` | every cookie set on the context reaches the response | high, not executed | `ApiContext.BuildResponseDropsEarlierCookies` | `ApiContext.BuildResponseKeepingCookies` |
| packages/discord/index.ts:122-161 | the command map and the `interactionCreate` listener are built inside `if (events.length)` | a bot with one command file and no event file | slash commands are answered whether or not event files exist | medium, not executed | `DiscordCommands.CommandsUnansweredWithoutEvents` | `DiscordCommands.ListenerServesCommands` |
| packages/discord/index.ts:185-198 | `Permissions[perm]` reads a name that packages/discord/types.ts does not export, so for a member whose permissions have `has` and a non-empty permission list the lookup throws; the catch replies "An error occurred." and the handler never runs (an ES module linker may also refuse the import outright) | a member whose `has` holds every permission, and a command with `permissions: ["Administrator"]` | the permission names are looked up and a member holding them all reaches the handler | high, not executed | `DiscordCommands.PermissionLookupThrows` | `DiscordCommands.PermissionDenied` |
| packages/core/core/compression.ts:40-51 | after `response.arrayBuffer()` the same response is returned on the under-threshold and the no-encoding paths, so a non-null body handed on has already been read | a compressible 10-byte response with a threshold of 1024 | a new `Response(body, {status, statusText, headers})` is returned on those paths | high, not executed | `Compression.Handle` | `Compression.HandleRebuilt` |
