/** The route table of the file-routed server: scanning a directory tree into route
    descriptors and matching a request path against them (framework/core/utils.ts). */
module Routes {
  import opened Strings
  import opened Opt

  /** The four kinds of route file. */
  datatype RouteType = HttpRoute | WsRoute | TcpRoute | TrpcRoute

  /** A route descriptor: its kind, the file that defines it, the URL path it serves and
      an optional method restriction. */
  datatype RouteFile = RouteFile(kind: RouteType, file: string, routePath: string, verb: Option<string>)

  /** A directory tree as `readdir` reports it, entries in listing order. */
  datatype Entry = Dir(name: string, entries: seq<Entry>) | File(name: string)

  /** Which kind of route a file name defines, if any. */
  function RoleOf(name: string): Option<RouteType>
  {
    if name == "route.ts" then Some(HttpRoute)
    else if name == "socket.ts" then Some(WsRoute)
    else if name == "handler.ts" then Some(TcpRoute)
    else if name == "trpc.ts" then Some(TrpcRoute)
    else None
  }

  /** `s.replace(/\\/g, '/')`: every backslash becomes a slash. */
  function ForwardSlashes(s: string): (r: string)
    ensures |r| == |s|
    ensures forall i :: 0 <= i < |s| ==> r[i] == (if s[i] == '\\' then '/' else s[i])
  {
    if |s| == 0 then "" else [if s[0] == '\\' then '/' else s[0]] + ForwardSlashes(s[1..])
  }

  /** `joinPath(...parts)`: the non-empty parts joined with '/', backslashes turned into '/'. */
  function JoinPath(parts: seq<string>): string
  {
    ForwardSlashes(Join(NonEmpty(parts), "/"))
  }

  /** `path.join(dir, name)` for a plain entry name. */
  function FullPath(dir: string, name: string): string
  {
    dir + "/" + name
  }

  /** What `scanRoutes(dir, base)` returns for the listed entries of `dir`. */
  function Scan(dir: string, base: string, entries: seq<Entry>): seq<RouteFile>
    decreases entries
  {
    if |entries| == 0 then []
    else ScanEntry(dir, base, entries[0]) + Scan(dir, base, entries[1..])
  }

  /** The descriptors one entry of `dir` contributes: a directory its scanned contents, a
      route file one descriptor, any other file nothing. */
  function ScanEntry(dir: string, base: string, e: Entry): seq<RouteFile>
    decreases e
  {
    match e
    case Dir(name, children) => Scan(FullPath(dir, name), JoinPath([base, name]), children)
    case File(name) =>
      match RoleOf(name)
      case Some(kind) => [RouteFile(kind, FullPath(dir, name), "/" + JoinPath([base]), None)]
      case None => []
  }

  /** `scanRoutes`: pushes each entry's descriptors in listing order, recursing into
      directories. */
  method ScanRoutes(dir: string, base: string, entries: seq<Entry>) returns (routes: seq<RouteFile>)
    ensures routes == Scan(dir, base, entries)
    decreases entries
  {
    routes := [];
    var i := 0;
    while i < |entries|
      invariant 0 <= i <= |entries|
      invariant routes + Scan(dir, base, entries[i..]) == Scan(dir, base, entries)
    {
      var entry := entries[i];
      ScanUnfold(dir, base, entries, i);
      var found: seq<RouteFile> := [];
      match entry {
        case Dir(name, children) =>
          found := ScanRoutes(FullPath(dir, name), JoinPath([base, name]), children);
        case File(name) =>
          if name == "route.ts" {
            found := [RouteFile(HttpRoute, FullPath(dir, name), "/" + JoinPath([base]), None)];
          } else if name == "socket.ts" {
            found := [RouteFile(WsRoute, FullPath(dir, name), "/" + JoinPath([base]), None)];
          } else if name == "handler.ts" {
            found := [RouteFile(TcpRoute, FullPath(dir, name), "/" + JoinPath([base]), None)];
          } else if name == "trpc.ts" {
            found := [RouteFile(TrpcRoute, FullPath(dir, name), "/" + JoinPath([base]), None)];
          }
      }
      assert found == ScanEntry(dir, base, entry);
      assert routes + found + Scan(dir, base, entries[i + 1..]) == routes + (found + Scan(dir, base, entries[i + 1..]));
      routes := routes + found;
      i := i + 1;
    }
  }

  lemma ScanUnfold(dir: string, base: string, entries: seq<Entry>, i: nat)
    requires i < |entries|
    ensures Scan(dir, base, entries[i..]) == ScanEntry(dir, base, entries[i]) + Scan(dir, base, entries[i + 1..])
  {
    assert entries[i..][1..] == entries[i + 1..];
  }

  // ---------------------------------------------------------------------------
  // Reference listing of the tree and what the scan yields for it

  /** A route file found in the tree: the directory names leading to it from the scan
      root and its kind. */
  datatype Found = Found(dirs: seq<string>, name: string, kind: RouteType)

  /** Every route file of the tree in depth-first listing order, with its directory chain. */
  function Listing(dirs: seq<string>, entries: seq<Entry>): seq<Found>
    decreases entries
  {
    if |entries| == 0 then []
    else ListEntry(dirs, entries[0]) + Listing(dirs, entries[1..])
  }

  function ListEntry(dirs: seq<string>, e: Entry): seq<Found>
    decreases e
  {
    match e
    case Dir(name, children) => Listing(dirs + [name], children)
    case File(name) => if RoleOf(name).Some? then [Found(dirs, name, RoleOf(name).value)] else []
  }

  /** Names as a directory listing produces them: non-empty, without separators. */
  predicate PlainName(name: string)
  {
    name != "" && '/' !in name && '\\' !in name
  }

  predicate PlainTree(entries: seq<Entry>)
    decreases entries
  {
    forall i :: 0 <= i < |entries| ==> PlainEntry(entries[i])
  }

  predicate PlainEntry(e: Entry)
    decreases e
  {
    PlainName(e.name) && (e.Dir? ==> PlainTree(e.entries))
  }

  lemma ForwardSlashesId(s: string)
    requires '\\' !in s
    ensures ForwardSlashes(s) == s
  {
    assert forall i :: 0 <= i < |s| ==> ForwardSlashes(s)[i] == s[i];
  }

  lemma {:induction false} JoinNoBackslash(parts: seq<string>)
    requires forall i :: 0 <= i < |parts| ==> '\\' !in parts[i]
    ensures '\\' !in Join(parts, "/")
    decreases |parts|
  {
    if |parts| > 1 {
      JoinNoBackslash(parts[1..]);
    }
  }

  lemma {:induction false} JoinSnoc(parts: seq<string>, last: string)
    requires |parts| >= 1
    ensures Join(parts + [last], "/") == Join(parts, "/") + "/" + last
    decreases |parts|
  {
    if |parts| == 1 {
      assert parts + [last] == [parts[0], last];
    } else {
      assert (parts + [last])[1..] == parts[1..] + [last];
      JoinSnoc(parts[1..], last);
    }
  }

  /** `joinPath` of plain names is their join with '/'. */
  lemma JoinPathOfPlain(parts: seq<string>)
    requires forall i :: 0 <= i < |parts| ==> PlainName(parts[i])
    ensures JoinPath(parts) == Join(parts, "/")
  {
    NonEmptyOfNonEmpty(parts);
    JoinNoBackslash(parts);
    ForwardSlashesId(Join(parts, "/"));
  }

  lemma {:induction false} JoinOfPlainNonEmpty(parts: seq<string>)
    requires |parts| >= 1
    requires forall i :: 0 <= i < |parts| ==> PlainName(parts[i])
    ensures Join(parts, "/") != ""
    ensures '\\' !in Join(parts, "/")
  {
    JoinNoBackslash(parts);
    if |parts| > 1 {
      assert Join(parts, "/") == parts[0] + "/" + Join(parts[1..], "/");
    }
  }

  /** `joinPath` of non-empty parts without backslashes is their join with '/'. */
  lemma JoinPathOfClean(parts: seq<string>)
    requires forall i :: 0 <= i < |parts| ==> parts[i] != "" && '\\' !in parts[i]
    ensures JoinPath(parts) == Join(parts, "/")
  {
    NonEmptyOfNonEmpty(parts);
    JoinNoBackslash(parts);
    ForwardSlashesId(Join(parts, "/"));
  }

  /** Extending the base with one plain directory name is joining one more name. */
  lemma JoinPathExtend(dirs: seq<string>, name: string)
    requires forall i :: 0 <= i < |dirs| ==> PlainName(dirs[i])
    requires PlainName(name)
    ensures JoinPath([Join(dirs, "/"), name]) == Join(dirs + [name], "/")
  {
    if |dirs| == 0 {
      JoinPathUnderRoot(name);
      assert dirs + [name] == [name];
    } else {
      JoinPathUnderDir(dirs, name);
    }
  }

  lemma JoinPathUnderRoot(name: string)
    requires PlainName(name)
    ensures JoinPath(["", name]) == name
  {
    assert ["", name][1..] == [name];
    NonEmptyOfNonEmpty([name]);
    assert NonEmpty(["", name]) == [name];
    ForwardSlashesId(name);
  }

  lemma JoinPathUnderDir(dirs: seq<string>, name: string)
    requires |dirs| >= 1
    requires forall i :: 0 <= i < |dirs| ==> PlainName(dirs[i])
    requires PlainName(name)
    ensures JoinPath([Join(dirs, "/"), name]) == Join(dirs + [name], "/")
  {
    JoinOfPlainNonEmpty(dirs);
    JoinPathPair(Join(dirs, "/"), name);
    JoinSnoc(dirs, name);
  }

  lemma JoinPathPair(base: string, name: string)
    requires base != "" && '\\' !in base
    requires PlainName(name)
    ensures JoinPath([base, name]) == base + "/" + name
  {
    var pair := [base, name];
    assert pair[1..] == [name];
    assert NonEmpty(pair) == pair by {
      assert NonEmpty([name]) == [name];
    }
    var joined := base + "/" + name;
    assert Join(pair, "/") == joined;
    ForwardSlashesId(joined);
  }

  /** The route path written for a file whose directory chain is `dirs`. */
  lemma RoutePathOfChain(dirs: seq<string>)
    requires forall i :: 0 <= i < |dirs| ==> PlainName(dirs[i])
    ensures "/" + JoinPath([Join(dirs, "/")]) == "/" + Join(dirs, "/")
  {
    if |dirs| == 0 {
      assert NonEmpty([""]) == [];
    } else {
      JoinOfPlainNonEmpty(dirs);
      var base := Join(dirs, "/");
      assert NonEmpty([base]) == [base];
      ForwardSlashesId(base);
    }
  }

  /** Scanning a plain tree yields exactly one descriptor per route file, in listing order,
      whose kind is the one its file name defines and whose route path is '/' followed by
      the directory names from the scan root joined with '/'. */
  lemma {:induction false} ScanIsListing(dir: string, dirs: seq<string>, entries: seq<Entry>)
    requires forall i :: 0 <= i < |dirs| ==> PlainName(dirs[i])
    requires PlainTree(entries)
    ensures |Scan(dir, Join(dirs, "/"), entries)| == |Listing(dirs, entries)|
    ensures forall k :: 0 <= k < |Listing(dirs, entries)| ==>
              Scan(dir, Join(dirs, "/"), entries)[k].kind == Listing(dirs, entries)[k].kind &&
              Scan(dir, Join(dirs, "/"), entries)[k].routePath == "/" + Join(Listing(dirs, entries)[k].dirs, "/") &&
              Scan(dir, Join(dirs, "/"), entries)[k].verb.None?
    decreases entries
  {
    if |entries| > 0 {
      assert PlainEntry(entries[0]);
      assert PlainTree(entries[1..]) by {
        forall i | 0 <= i < |entries[1..]| ensures PlainEntry(entries[1..][i]) {
          assert entries[1..][i] == entries[i + 1];
        }
      }
      ScanEntryIsListEntry(dir, dirs, entries[0]);
      ScanIsListing(dir, dirs, entries[1..]);
    }
  }

  lemma {:induction false} ScanEntryIsListEntry(dir: string, dirs: seq<string>, e: Entry)
    requires forall i :: 0 <= i < |dirs| ==> PlainName(dirs[i])
    requires PlainEntry(e)
    ensures |ScanEntry(dir, Join(dirs, "/"), e)| == |ListEntry(dirs, e)|
    ensures forall k :: 0 <= k < |ListEntry(dirs, e)| ==>
              ScanEntry(dir, Join(dirs, "/"), e)[k].kind == ListEntry(dirs, e)[k].kind &&
              ScanEntry(dir, Join(dirs, "/"), e)[k].routePath == "/" + Join(ListEntry(dirs, e)[k].dirs, "/") &&
              ScanEntry(dir, Join(dirs, "/"), e)[k].verb.None?
    decreases e
  {
    match e
    case Dir(name, children) =>
      JoinPathExtend(dirs, name);
      var more := dirs + [name];
      assert forall i :: 0 <= i < |more| ==> PlainName(more[i]);
      ScanIsListing(FullPath(dir, name), more, children);
    case File(name) =>
      RoutePathOfChain(dirs);
  }

  /** The segments of every scanned route path are exactly the directory chain of its file:
      a route file at the root is served at "/". */
  lemma RoutePathSegments(dirs: seq<string>)
    requires forall i :: 0 <= i < |dirs| ==> PlainName(dirs[i])
    ensures Segments("/" + Join(dirs, "/")) == dirs
    ensures ("/" + Join(dirs, "/"))[0] == '/'
  {
    SegmentsOfAbsolute(dirs);
  }

  // ---------------------------------------------------------------------------
  // Matching

  /** A `[name]` route segment. */
  predicate IsDynamic(seg: string)
  {
    StartsWith(seg, "[") && EndsWith(seg, "]")
  }

  /** Same number of non-empty segments, and every static route segment equals the path
      segment at its position. */
  predicate SegmentsAgree(routeParts: seq<string>, pathParts: seq<string>)
  {
    |routeParts| == |pathParts| &&
    forall i :: 0 <= i < |routeParts| ==> IsDynamic(routeParts[i]) || routeParts[i] == pathParts[i]
  }

  /** The method filter: only for http lookups, and only when both the request method and
      the descriptor's method are given (non-empty) and differ. */
  predicate MethodExcludes(r: RouteFile, verb: Option<string>, kind: RouteType)
  {
    kind == HttpRoute && verb.Some? && verb.value != "" &&
    r.verb.Some? && r.verb.value != "" && r.verb.value != verb.value
  }

  predicate Accepts(r: RouteFile, path: string, verb: Option<string>, kind: RouteType)
  {
    r.kind == kind && SegmentsAgree(Segments(r.routePath), Segments(path)) && !MethodExcludes(r, verb, kind)
  }

  /** The descriptor `matchRoute` returns: the first accepting one in table order. */
  function Match(routes: seq<RouteFile>, path: string, verb: Option<string>, kind: RouteType): (r: Option<RouteFile>)
    ensures r.None? <==> forall i :: 0 <= i < |routes| ==> !Accepts(routes[i], path, verb, kind)
    ensures r.Some? ==> (exists i :: 0 <= i < |routes| && routes[i] == r.value &&
                           Accepts(routes[i], path, verb, kind) &&
                           (forall j :: 0 <= j < i ==> !Accepts(routes[j], path, verb, kind)))
  {
    if |routes| == 0 then None
    else if Accepts(routes[0], path, verb, kind) then Some(routes[0])
    else
      var rest := Match(routes[1..], path, verb, kind);
      assert forall i :: 1 <= i < |routes| ==> routes[i] == routes[1..][i - 1];
      if rest.Some? then
        var i :| 0 <= i < |routes[1..]| && routes[1..][i] == rest.value &&
                 Accepts(routes[1..][i], path, verb, kind) &&
                 (forall j :: 0 <= j < i ==> !Accepts(routes[1..][j], path, verb, kind));
        assert routes[i + 1] == rest.value;
        rest
      else rest
  }

  /** Scanned descriptors carry no method, so the method filter never skips them. */
  lemma ScannedIgnoreMethod(dir: string, base: string, entries: seq<Entry>, path: string, verb: Option<string>, kind: RouteType)
    ensures Match(Scan(dir, base, entries), path, verb, kind) == Match(Scan(dir, base, entries), path, None, kind)
  {
    ScanHasNoVerb(dir, base, entries);
    MatchIgnoresVerb(Scan(dir, base, entries), path, verb, kind);
  }

  lemma {:induction false} ScanHasNoVerb(dir: string, base: string, entries: seq<Entry>)
    ensures forall k :: 0 <= k < |Scan(dir, base, entries)| ==> Scan(dir, base, entries)[k].verb.None?
    decreases entries
  {
    if |entries| > 0 {
      ScanEntryHasNoVerb(dir, base, entries[0]);
      ScanHasNoVerb(dir, base, entries[1..]);
    }
  }

  lemma {:induction false} ScanEntryHasNoVerb(dir: string, base: string, e: Entry)
    ensures forall k :: 0 <= k < |ScanEntry(dir, base, e)| ==> ScanEntry(dir, base, e)[k].verb.None?
    decreases e
  {
    match e
    case Dir(name, children) => ScanHasNoVerb(FullPath(dir, name), JoinPath([base, name]), children);
    case File(name) =>
  }

  lemma {:induction false} MatchIgnoresVerb(routes: seq<RouteFile>, path: string, verb: Option<string>, kind: RouteType)
    requires forall k :: 0 <= k < |routes| ==> routes[k].verb.None?
    ensures Match(routes, path, verb, kind) == Match(routes, path, None, kind)
  {
    if |routes| > 0 {
      MatchIgnoresVerb(routes[1..], path, verb, kind);
    }
  }

  /** The first accepting descriptor is the match. */
  lemma {:induction false} MatchIsFirst(routes: seq<RouteFile>, k: nat, path: string, verb: Option<string>, kind: RouteType)
    requires k < |routes| && Accepts(routes[k], path, verb, kind)
    requires forall j :: 0 <= j < k ==> !Accepts(routes[j], path, verb, kind)
    ensures Match(routes, path, verb, kind) == Some(routes[k])
  {
    if k > 0 {
      MatchIsFirst(routes[1..], k - 1, path, verb, kind);
    }
  }

  /** `matchRoute`: the loop over the table with the segment-by-segment comparison. */
  method MatchRoute(routes: seq<RouteFile>, path: string, verb: Option<string>, kind: RouteType)
    returns (r: Option<RouteFile>)
    ensures r == Match(routes, path, verb, kind)
  {
    var k := 0;
    while k < |routes|
      invariant 0 <= k <= |routes|
      invariant forall j :: 0 <= j < k ==> !Accepts(routes[j], path, verb, kind)
    {
      var route := routes[k];
      if route.kind != kind {
        k := k + 1;
        continue;
      }
      var routeParts := Segments(route.routePath);
      var pathParts := Segments(path);
      if |routeParts| != |pathParts| {
        k := k + 1;
        continue;
      }
      var matched := true;
      var i := 0;
      while i < |routeParts|
        invariant 0 <= i <= |routeParts|
        invariant matched
        invariant forall j :: 0 <= j < i ==> IsDynamic(routeParts[j]) || routeParts[j] == pathParts[j]
      {
        if IsDynamic(routeParts[i]) {
          i := i + 1;
          continue;
        }
        if routeParts[i] != pathParts[i] {
          assert !SegmentsAgree(routeParts, pathParts);
          matched := false;
          break;
        }
        i := i + 1;
      }
      assert matched <==> SegmentsAgree(routeParts, pathParts);
      if matched {
        if kind == HttpRoute && verb.Some? && verb.value != "" && route.verb.Some? && route.verb.value != "" && route.verb.value != verb.value {
          k := k + 1;
          continue;
        }
        MatchIsFirst(routes, k, path, verb, kind);
        return Some(route);
      }
      k := k + 1;
    }
    return None;
  }
}
