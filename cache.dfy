/** Response and route caching (packages/core/core/cache.ts): the in-memory TTL store with
    lazy expiry, the bounded route cache, the `Cache-Control` builder and the
    response-cache middleware. Time is the `now` parameter, in milliseconds. */
module Cache {
  import opened Strings
  import opened Opt
  import opened Http

  // ---------------------------------------------------------------------------
  // Configuration

  datatype RouteCacheConfig = RouteCacheConfig(enabled: bool, ttl: Option<int>, maxSize: Option<int>)

  /** A cache configuration; `None` is a key that is absent from the object. Header values
      in `defaultHeaders` are given as the strings `toString()` yields (`""` for a falsy one). */
  datatype CacheConfig = CacheConfig(
    enabled: Option<bool>,
    storeType: Option<string>,
    ttl: Option<int>,
    defaultHeaders: Option<seq<(string, string)>>,
    staleWhileRevalidate: Option<bool>,
    staleIfError: Option<bool>,
    maxAge: Option<int>,
    sMaxAge: Option<int>,
    mustRevalidate: Option<bool>,
    proxyRevalidate: Option<bool>,
    noTransform: Option<bool>,
    immutable: Option<bool>,
    isPrivate: Option<bool>,
    noCache: Option<bool>,
    noStore: Option<bool>,
    vary: Option<seq<string>>,
    routeCache: Option<RouteCacheConfig>)

  /** JavaScript truthiness of an optional flag or number. */
  predicate On(b: Option<bool>) { b == Some(true) }
  predicate Truthy(n: Option<int>) { n.Some? && n.value != 0 }

  function Pick<T>(over: Option<T>, base: Option<T>): Option<T>
  {
    if over.Some? then over else base
  }

  /** `{ ...global, ...route }`: every key the route config has replaces the global one. */
  function Merge(g: CacheConfig, r: CacheConfig): CacheConfig
  {
    CacheConfig(Pick(r.enabled, g.enabled), Pick(r.storeType, g.storeType), Pick(r.ttl, g.ttl),
      Pick(r.defaultHeaders, g.defaultHeaders), Pick(r.staleWhileRevalidate, g.staleWhileRevalidate),
      Pick(r.staleIfError, g.staleIfError), Pick(r.maxAge, g.maxAge), Pick(r.sMaxAge, g.sMaxAge),
      Pick(r.mustRevalidate, g.mustRevalidate), Pick(r.proxyRevalidate, g.proxyRevalidate),
      Pick(r.noTransform, g.noTransform), Pick(r.immutable, g.immutable), Pick(r.isPrivate, g.isPrivate),
      Pick(r.noCache, g.noCache), Pick(r.noStore, g.noStore), Pick(r.vary, g.vary),
      Pick(r.routeCache, g.routeCache))
  }

  const NoKeys: CacheConfig := CacheConfig(None, None, None, None, None, None, None, None, None,
                                          None, None, None, None, None, None, None, None)

  /** Spreading an empty route config changes nothing, spreading over an empty global
      config gives the route config, and applying the same route config twice is the same
      as once. */
  lemma MergeLaws(g: CacheConfig, r: CacheConfig)
    ensures Merge(g, NoKeys) == g
    ensures Merge(NoKeys, r) == r
    ensures Merge(Merge(g, r), r) == Merge(g, r)
    ensures r.enabled.Some? ==> Merge(g, r).enabled == r.enabled
    ensures r.enabled.None? ==> Merge(g, r).enabled == g.enabled
  {
  }

  // ---------------------------------------------------------------------------
  // The key/value store

  /** A stored value and its expiry time; 0 means it never expires. */
  datatype Item = Item(value: string, expires: int)

  /** `item.expires && item.expires < Date.now()`. */
  predicate Expired(item: Item, now: int)
  {
    item.expires != 0 && item.expires < now
  }

  /** What `get` returns. */
  function Lookup(store: map<string, Item>, key: string, now: int): Option<string>
  {
    if key !in store || Expired(store[key], now) then None else Some(store[key].value)
  }

  /** The store after a `get` or `has` of `key`: an expired entry is deleted. */
  function AfterRead(store: map<string, Item>, key: string, now: int): map<string, Item>
  {
    if key in store && Expired(store[key], now) then store - {key} else store
  }

  /** The expiry `set` stores: `now + ttl * 1000` for a truthy ttl, otherwise 0. */
  function ExpiryFor(ttl: Option<int>, now: int): int
  {
    if Truthy(ttl) then now + ttl.value * 1000 else 0
  }

  // ---------------------------------------------------------------------------
  // The route cache

  /** A cached route resolution. The handler is named by its module file and method. */
  datatype RouteCacheEntry = RouteCacheEntry(path: string, verb: string, handlerFile: string,
                                             params: map<string, Option<string>>, timestamp: int)

  /** A `Map` as its entries in insertion order. */
  type Entries = seq<(string, RouteCacheEntry)>

  predicate DistinctKeys(m: Entries)
  {
    forall a, b :: 0 <= a < b < |m| ==> m[a].0 != m[b].0
  }

  function RouteLookup(m: Entries, key: string): (r: Option<RouteCacheEntry>)
    ensures r.Some? <==> exists i :: 0 <= i < |m| && m[i].0 == key
    ensures r.Some? ==> exists i :: 0 <= i < |m| && m[i] == (key, r.value) && forall j :: 0 <= j < i ==> m[j].0 != key
  {
    if |m| == 0 then None
    else if m[0].0 == key then Some(m[0].1)
    else
      var r := RouteLookup(m[1..], key);
      assert r.Some? <==> exists i :: 0 <= i < |m| && m[i].0 == key by {
        if exists i :: 0 <= i < |m| && m[i].0 == key {
          var i :| 0 <= i < |m| && m[i].0 == key;
          assert m[1..][i - 1].0 == key;
        }
      }
      assert r.Some? ==> exists i :: 0 <= i < |m| && m[i] == (key, r.value) && forall j :: 0 <= j < i ==> m[j].0 != key by {
        if r.Some? {
          var i :| 0 <= i < |m[1..]| && m[1..][i] == (key, r.value) && forall j :: 0 <= j < i ==> m[1..][j].0 != key;
          assert m[i + 1] == (key, r.value);
          assert forall j :: 0 <= j < i + 1 ==> m[j].0 != key by {
            forall j | 0 <= j < i + 1 ensures m[j].0 != key {
              if j > 0 {
                assert m[j] == m[1..][j - 1];
              }
            }
          }
        }
      }
      r
  }

  /** `map.set(key, entry)`: an existing key keeps its position, a new one goes last. */
  function MapSet(m: Entries, key: string, e: RouteCacheEntry): (r: Entries)
    ensures |r| == |m| || |r| == |m| + 1
    ensures (|r| == |m|) <==> exists i :: 0 <= i < |m| && m[i].0 == key
    ensures forall i :: 0 <= i < |r| ==> r[i].0 == key || exists j :: 0 <= j < |m| && m[j].0 == r[i].0
  {
    if |m| == 0 then [(key, e)]
    else if m[0].0 == key then [(key, e)] + m[1..]
    else
      var rest := MapSet(m[1..], key, e);
      var r := [m[0]] + rest;
      assert (|r| == |m|) <==> exists i :: 0 <= i < |m| && m[i].0 == key by {
        if exists i :: 0 <= i < |m| && m[i].0 == key {
          var i :| 0 <= i < |m| && m[i].0 == key;
          assert m[1..][i - 1].0 == key;
        }
      }
      assert forall i :: 0 <= i < |r| ==> r[i].0 == key || exists j :: 0 <= j < |m| && m[j].0 == r[i].0 by {
        forall i | 0 < i < |r| && r[i].0 != key
          ensures exists j :: 0 <= j < |m| && m[j].0 == r[i].0
        {
          var j :| 0 <= j < |m[1..]| && m[1..][j].0 == rest[i - 1].0;
          assert m[j + 1].0 == r[i].0;
        }
      }
      r
  }

  /** `map.delete(key)` of the entry at position `i`. */
  function RemoveAt(m: Entries, i: nat): (r: Entries)
    requires i < |m|
    ensures |r| == |m| - 1
  {
    m[..i] + m[i + 1..]
  }

  /** The position the stable sort by timestamp puts first: the earliest-inserted entry
      among those with the smallest timestamp. */
  function OldestIndex(m: Entries): (i: nat)
    requires |m| > 0
    ensures i < |m|
    ensures forall j :: 0 <= j < |m| ==> m[i].1.timestamp <= m[j].1.timestamp
    ensures forall j :: 0 <= j < i ==> m[j].1.timestamp > m[i].1.timestamp
  {
    if |m| == 1 then 0
    else
      var k := OldestIndex(m[1..]) + 1;
      if m[0].1.timestamp <= m[k].1.timestamp then 0 else k
  }

  lemma MapSetKeepsDistinct(m: Entries, key: string, e: RouteCacheEntry)
    requires DistinctKeys(m)
    ensures DistinctKeys(MapSet(m, key, e))
    decreases |m|
  {
    if |m| > 0 && m[0].0 != key {
      MapSetKeepsDistinct(m[1..], key, e);
      var rest := MapSet(m[1..], key, e);
      forall i | 0 <= i < |rest| ensures rest[i].0 != m[0].0 {
        if rest[i].0 != key {
          var j :| 0 <= j < |m[1..]| && m[1..][j].0 == rest[i].0;
          assert m[j + 1].0 == rest[i].0;
        }
      }
    }
  }

  lemma RemoveKeepsDistinct(m: Entries, i: nat)
    requires i < |m| && DistinctKeys(m)
    ensures DistinctKeys(RemoveAt(m, i))
  {
    var r := RemoveAt(m, i);
    forall a, b | 0 <= a < b < |r| ensures r[a].0 != r[b].0 {
      var a' := if a < i then a else a + 1;
      var b' := if b < i then b else b + 1;
      assert r[a] == m[a'] && r[b] == m[b'];
    }
  }

  /** After `set`, the key reads back as the stored entry and every other key is unaffected. */
  lemma {:induction false} RouteLookupAfterSet(m: Entries, key: string, e: RouteCacheEntry, other: string)
    ensures RouteLookup(MapSet(m, key, e), key) == Some(e)
    ensures other != key ==> RouteLookup(MapSet(m, key, e), other) == RouteLookup(m, other)
    decreases |m|
  {
    if |m| > 0 && m[0].0 != key {
      RouteLookupAfterSet(m[1..], key, e, other);
    }
  }

  /** The route cache after `setRoute` when it does not throw: when full, the entry the
      sort puts first is deleted before the key is set. */
  function RouteCacheAfterSet(m: Entries, max: int, key: string, e: RouteCacheEntry): Entries
    requires |m| > 0 || |m| < max
  {
    if |m| >= max then MapSet(RemoveAt(m, OldestIndex(m)), key, e) else MapSet(m, key, e)
  }

  class MemoryCache {
    var store: map<string, Item>
    var routeCache: Entries
    const maxRouteCacheSize: int

    /** The route cache is a map (one entry per key) and, for a positive bound, never holds
        more entries than the bound. */
    ghost predicate Valid()
      reads this
    {
      DistinctKeys(routeCache) && (maxRouteCacheSize >= 1 ==> |routeCache| <= maxRouteCacheSize)
    }

    /** `new MemoryCache(maxRouteCacheSize)`; an absent size defaults to 1000. */
    constructor(maxSize: Option<int>)
      ensures Valid()
      ensures store == map[] && routeCache == []
      ensures maxRouteCacheSize == (if maxSize.Some? then maxSize.value else 1000)
    {
      store := map[];
      routeCache := [];
      maxRouteCacheSize := if maxSize.Some? then maxSize.value else 1000;
    }

    method Get(key: string, now: int) returns (r: Option<string>)
      modifies this
      ensures r == Lookup(old(store), key, now)
      ensures store == AfterRead(old(store), key, now)
      ensures routeCache == old(routeCache)
    {
      if key !in store {
        return None;
      }
      var item := store[key];
      if item.expires != 0 && item.expires < now {
        store := store - {key};
        return None;
      }
      return Some(item.value);
    }

    method Set(key: string, value: string, ttl: Option<int>, now: int)
      modifies this
      ensures store == old(store)[key := Item(value, ExpiryFor(ttl, now))]
      ensures routeCache == old(routeCache)
    {
      var expires := if ttl.Some? && ttl.value != 0 then now + ttl.value * 1000 else 0;
      store := store[key := Item(value, expires)];
    }

    method Del(key: string)
      modifies this
      ensures store == old(store) - {key}
      ensures routeCache == old(routeCache)
    {
      store := store - {key};
    }

    /** `has` answers as `get` would and deletes an expired entry the same way. */
    method Has(key: string, now: int) returns (b: bool)
      modifies this
      ensures b == Lookup(old(store), key, now).Some?
      ensures store == AfterRead(old(store), key, now)
      ensures routeCache == old(routeCache)
    {
      if key !in store {
        return false;
      }
      var item := store[key];
      if item.expires != 0 && item.expires < now {
        store := store - {key};
        return false;
      }
      return true;
    }

    function GetRoute(key: string): (r: Option<RouteCacheEntry>)
      reads this
      ensures r.Some? <==> exists i :: 0 <= i < |routeCache| && routeCache[i].0 == key
      ensures r.Some? ==> exists i :: 0 <= i < |routeCache| && routeCache[i] == (key, r.value)
    {
      RouteLookup(routeCache, key)
    }

    /** `setRoute`: when the cache holds at least the bound, deletes the entry with the
        oldest timestamp (the first of them in insertion order), then sets the key. With an
        empty cache and a bound of 0 or less the sort result has no first element and the
        call throws (`ok` is false, nothing changes). */
    method SetRoute(key: string, entry: RouteCacheEntry) returns (ok: bool)
      requires Valid()
      modifies this
      ensures Valid()
      ensures ok <==> |old(routeCache)| > 0 || |old(routeCache)| < maxRouteCacheSize
      ensures ok ==> routeCache == RouteCacheAfterSet(old(routeCache), maxRouteCacheSize, key, entry)
      ensures !ok ==> routeCache == old(routeCache)
      ensures store == old(store)
    {
      if |routeCache| >= maxRouteCacheSize {
        if |routeCache| == 0 {
          return false;
        }
        var oldest := OldestIndex(routeCache);
        RemoveKeepsDistinct(routeCache, oldest);
        routeCache := RemoveAt(routeCache, oldest);
      }
      MapSetKeepsDistinct(routeCache, key, entry);
      routeCache := MapSet(routeCache, key, entry);
      return true;
    }

    method ClearRouteCache()
      modifies this
      ensures routeCache == [] && store == old(store)
    {
      routeCache := [];
    }
  }

  /** `getRouteCacheKey(path, method)`: the digest input `method:path`. */
  function RouteCacheKey(path: string, verb: string): string
  {
    verb + ":" + path
  }

  // ---------------------------------------------------------------------------
  // Properties of the stores

  /** A value set without a truthy ttl reads back at any time; with a ttl it reads back
      until `now + ttl * 1000` and is gone after that. */
  lemma SetThenLookup(store: map<string, Item>, key: string, value: string, ttl: Option<int>, setAt: int, readAt: int)
    ensures var s := store[key := Item(value, ExpiryFor(ttl, setAt))];
            Lookup(s, key, readAt) ==
              if Truthy(ttl) && setAt + ttl.value * 1000 != 0 && setAt + ttl.value * 1000 < readAt then None
              else Some(value)
  {
  }

  /** Reading never changes what any key reads as at the same time. */
  lemma ReadIsInvisible(store: map<string, Item>, key: string, other: string, now: int)
    ensures Lookup(AfterRead(store, key, now), other, now) == Lookup(store, other, now)
  {
  }

  /** For a positive bound, a cache that is full and already holds the key (other than as
      its oldest entry) shrinks by one when that key is set again. */
  lemma OverwriteWhenFullShrinks(m: Entries, max: int, key: string, e: RouteCacheEntry)
    requires max >= 1 && |m| == max && DistinctKeys(m)
    requires exists i :: 0 <= i < |m| && m[i].0 == key && i != OldestIndex(m)
    ensures |RouteCacheAfterSet(m, max, key, e)| == max - 1
  {
    var o := OldestIndex(m);
    var i :| 0 <= i < |m| && m[i].0 == key && i != o;
    var r := RemoveAt(m, o);
    var i' := if i < o then i else i - 1;
    assert r[i'] == m[i];
  }

  // ---------------------------------------------------------------------------
  // Cache-Control

  /** Every directive the builder knows, in its fixed order, each with whether the
      configuration asks for it. */
  function DirectiveTable(c: CacheConfig): seq<(bool, string)>
  {
    [ (On(c.noCache), "no-cache"),
      (true, if On(c.isPrivate) then "private" else "public"),
      (c.maxAge.Some?, "max-age=" + (if c.maxAge.Some? then IntToString(c.maxAge.value) else "")),
      (c.sMaxAge.Some?, "s-maxage=" + (if c.sMaxAge.Some? then IntToString(c.sMaxAge.value) else "")),
      (On(c.mustRevalidate), "must-revalidate"),
      (On(c.proxyRevalidate), "proxy-revalidate"),
      (On(c.noTransform), "no-transform"),
      (On(c.immutable), "immutable"),
      (On(c.staleWhileRevalidate), "stale-while-revalidate"),
      (On(c.staleIfError), "stale-if-error") ]
  }

  /** The requested directives of a table, in table order (the `push` calls that run). */
  function Present(t: seq<(bool, string)>): (r: seq<string>)
    ensures |r| <= |t|
  {
    if |t| == 0 then []
    else if t[0].0 then [t[0].1] + Present(t[1..])
    else Present(t[1..])
  }

  /** Every requested entry of the table is pushed. */
  lemma {:induction false} PresentContains(t: seq<(bool, string)>, j: nat)
    requires j < |t| && t[j].0
    ensures t[j].1 in Present(t)
  {
    if j > 0 {
      PresentContains(t[1..], j - 1);
    }
  }

  /** Every directive pushed is a requested entry of the table. */
  lemma {:induction false} PresentFrom(t: seq<(bool, string)>, x: string)
    requires x in Present(t)
    ensures exists j :: 0 <= j < |t| && t[j] == (true, x)
  {
    if t[0] != (true, x) {
      PresentFrom(t[1..], x);
      var j :| 0 <= j < |t[1..]| && t[1..][j] == (true, x);
      assert t[j + 1] == (true, x);
    }
  }

  /** The directives `generateCacheControlHeader` pushes: only `no-store` when that is
      set, otherwise the requested ones in the fixed order. */
  function CacheControlDirectives(c: CacheConfig): seq<string>
  {
    if On(c.noStore) then ["no-store"] else Present(DirectiveTable(c))
  }

  function CacheControlHeader(c: CacheConfig): (r: string)
    ensures On(c.noStore) ==> r == "no-store"
  {
    Join(CacheControlDirectives(c), ", ")
  }

  /** Position of a directive in the builder's order. */
  function Rank(d: string): int
  {
    if d == "no-cache" then 0
    else if d == "private" || d == "public" then 1
    else if StartsWith(d, "max-age=") then 2
    else if StartsWith(d, "s-maxage=") then 3
    else if d == "must-revalidate" then 4
    else if d == "proxy-revalidate" then 5
    else if d == "no-transform" then 6
    else if d == "immutable" then 7
    else if d == "stale-while-revalidate" then 8
    else if d == "stale-if-error" then 9
    else 10
  }

  lemma PrefixedRank(prefix: string, rest: string)
    requires prefix == "max-age=" || prefix == "s-maxage="
    ensures Rank(prefix + rest) == if prefix == "max-age=" then 2 else 3
  {
    var d := prefix + rest;
    assert d[..|prefix|] == prefix;
    assert d[0] == prefix[0];
    assert "no-cache"[0] == 'n' && "private"[0] == 'p' && "public"[0] == 'p';
    assert "max-age="[0] == 'm' && "s-maxage="[0] == 's';
    if prefix == "s-maxage=" {
      assert !StartsWith(d, "max-age=");
    }
  }

  lemma TableRanks(c: CacheConfig)
    ensures forall k :: 0 <= k < |DirectiveTable(c)| ==> Rank(DirectiveTable(c)[k].1) == k
  {
    var t := DirectiveTable(c);
    PrefixedRank("max-age=", if c.maxAge.Some? then IntToString(c.maxAge.value) else "");
    PrefixedRank("s-maxage=", if c.sMaxAge.Some? then IntToString(c.sMaxAge.value) else "");
    LiteralRank("must-revalidate", 'u');
    LiteralRank("proxy-revalidate", 'r');
    LiteralRank("no-transform", 'o');
    LiteralRank("immutable", 'm');
    LiteralRank("stale-while-revalidate", 't');
    LiteralRank("stale-if-error", 't');
  }

  /** A plain directive name is not taken for a `max-age=` or `s-maxage=` one. */
  lemma LiteralRank(d: string, second: char)
    requires |d| >= 9 && d[1] == second && second != 'a' && second != '-'
    ensures !StartsWith(d, "max-age=") && !StartsWith(d, "s-maxage=")
  {
    assert "max-age="[1] == 'a' && "s-maxage="[1] == '-';
  }

  lemma {:induction false} PresentSorted(t: seq<(bool, string)>)
    requires forall a, b :: 0 <= a < b < |t| ==> Rank(t[a].1) < Rank(t[b].1)
    ensures forall a, b :: 0 <= a < b < |Present(t)| ==> Rank(Present(t)[a]) < Rank(Present(t)[b])
  {
    if |t| > 0 {
      PresentSorted(t[1..]);
      var rest := Present(t[1..]);
      forall i | 0 <= i < |rest| ensures Rank(t[0].1) < Rank(rest[i]) {
        PresentFrom(t[1..], rest[i]);
        var j :| 0 <= j < |t[1..]| && t[1..][j] == (true, rest[i]);
        assert t[1..][j] == t[j + 1];
      }
    }
  }

  /** `no-store` excludes everything else; otherwise the directives follow the fixed
      order with none repeated, and exactly one of them is `private` or `public`, the
      former exactly when the configuration asks for it. */
  lemma CacheControlShape(c: CacheConfig)
    ensures On(c.noStore) ==> CacheControlHeader(c) == "no-store"
    ensures !On(c.noStore) ==>
              var ds := CacheControlDirectives(c);
              (forall a, b :: 0 <= a < b < |ds| ==> Rank(ds[a]) < Rank(ds[b])) &&
              (exists i :: 0 <= i < |ds| && ds[i] == (if On(c.isPrivate) then "private" else "public")) &&
              (forall a, b :: 0 <= a < |ds| && 0 <= b < |ds| && Rank(ds[a]) == 1 && Rank(ds[b]) == 1 ==> a == b)
  {
    if !On(c.noStore) {
      var t := DirectiveTable(c);
      TableRanks(c);
      PresentSorted(t);
      PresentContains(t, 1);
    }
  }

  // ---------------------------------------------------------------------------
  // The response-cache middleware

  /** The values of the vary headers the request carries (absent or empty ones dropped). */
  function VaryValues(h: Headers, names: seq<string>): (vs: seq<string>)
    ensures |vs| <= |names|
    ensures forall i :: 0 <= i < |vs| ==> vs[i] != ""
  {
    if |names| == 0 then []
    else
      match TruthyHeader(h, names[0])
      case Some(v) => [v] + VaryValues(h, names[1..])
      case None => VaryValues(h, names[1..])
  }

  /** The cache key: path and query, then ':' and the vary values joined by ':' if any. */
  function CacheKey(req: Request, vary: Option<seq<string>>): string
  {
    var vs := VaryValues(req.headers, if vary.Some? then vary.value else []);
    req.url.pathname + req.url.search + (if |vs| > 0 then ":" + Join(vs, ":") else "")
  }

  /** Requests that differ in a present vary header value get different keys. */
  lemma VaryDistinguishes(req: Request, other: Request, name: string)
    requires req.url == other.url && TruthyHeader(req.headers, name).Some? && TruthyHeader(other.headers, name).None?
    ensures CacheKey(req, Some([name])) != CacheKey(other, Some([name]))
  {
    assert VaryValues(other.headers, [name]) == [];
    var v := TruthyHeader(req.headers, name).value;
    assert VaryValues(req.headers, [name]) == [v];
    assert |CacheKey(req, Some([name]))| > |CacheKey(other, Some([name]))|;
  }

  /** `response.headers.set(k, v)` for each truthy default header. */
  function SetDefaults(h: Headers, defaults: seq<(string, string)>): Headers
    decreases |defaults|
  {
    if |defaults| == 0 then h
    else SetDefaults(if defaults[0].1 != "" then SetHeader(h, defaults[0].0, defaults[0].1) else h, defaults[1..])
  }

  /** The response a hit produces: `new Response(cached)` (a text body), with the
      Cache-Control header and the default headers. */
  function HitResponse(cached: string, c: CacheConfig): Response
  {
    var cc := CacheControlHeader(c);
    var h := SetHeader(map[], "content-type", "text/plain;charset=UTF-8");
    var h2 := if cc != "" then SetHeader(h, "Cache-Control", cc) else h;
    Response(200, "", SetDefaults(h2, if c.defaultHeaders.Some? then c.defaultHeaders.value else []), cached)
  }

  /** The middleware `createCacheMiddleware(store, config)` returns, for one request.
      `downstream` is what `next()` resolves to; `calledNext` says whether it was called. */
  method CacheMiddleware(m: MemoryCache, c: CacheConfig, req: Request, now: int, downstream: Response)
    returns (resp: Response, calledNext: bool)
    modifies m
    ensures !On(c.enabled) || req.httpMethod != "GET" ==>
              resp == downstream && calledNext && m.store == old(m.store)
    ensures On(c.enabled) && req.httpMethod == "GET" ==>
              var key := CacheKey(req, c.vary);
              var hit := Lookup(old(m.store), key, now);
              var s := AfterRead(old(m.store), key, now);
              if hit.Some? && hit.value != "" then
                resp == HitResponse(hit.value, c) && !calledNext && m.store == s
              else
                resp == downstream && calledNext &&
                m.store == (if downstream.status == 200 then s[key := Item(downstream.body, ExpiryFor(c.ttl, now))] else s)
    ensures m.routeCache == old(m.routeCache)
  {
    if !(c.enabled.Some? && c.enabled.value) {
      return downstream, true;
    }
    if req.httpMethod != "GET" {
      return downstream, true;
    }
    var key := CacheKey(req, c.vary);
    var cached := m.Get(key, now);
    if cached.Some? && cached.value != "" {
      return HitResponse(cached.value, c), false;
    }
    resp := downstream;
    calledNext := true;
    if resp.status == 200 {
      m.Set(key, resp.body, c.ttl, now);
    }
  }

  // ---------------------------------------------------------------------------
  // createCacheStore

  datatype StoreKind = NullStore | MemoryStore | RedisStore

  /** Which store `createCacheStore(config)` builds. */
  function StoreKindFor(c: CacheConfig): StoreKind
  {
    if !On(c.enabled) then NullStore
    else if c.storeType == Some("redis") then RedisStore
    else MemoryStore
  }

  /** The null store: `get` is always null, `has` always false, `set` and `del` do
      nothing and the route key is empty. */
  function NullGet(key: string): Option<string> { None }
  function NullHas(key: string): bool { false }
  function NullRouteCacheKey(path: string, verb: string): string { "" }

  /** `createCacheStore` for an enabled memory configuration: an empty MemoryCache bounded by
      `routeCache.maxSize`, or 1000 when that is absent. */
  method CreateMemoryStore(c: CacheConfig) returns (m: MemoryCache)
    requires StoreKindFor(c) == MemoryStore
    ensures fresh(m) && m.Valid() && m.store == map[] && m.routeCache == []
    ensures m.maxRouteCacheSize ==
              if c.routeCache.Some? && c.routeCache.value.maxSize.Some? then c.routeCache.value.maxSize.value else 1000
  {
    m := new MemoryCache(if c.routeCache.Some? then c.routeCache.value.maxSize else None);
  }

  /** The disabled store never reports a hit, whatever was "set" before. */
  lemma NullStoreNeverHits(key: string)
    ensures NullGet(key).None? && !NullHas(key)
  {
  }
}
