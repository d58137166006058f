/** The helpers at the top of both router files (and of both WebSocket contexts): path
    parameters of a matched route, the `/routes` prefix, and wildcard patterns ending in a slash and a star. */
module RouteParams {
  import opened Strings
  import opened Opt
  import opened Routes

  /** `seg.slice(1, -1)` for a `[name]` segment: the name between the brackets. */
  function ParamName(seg: string): (name: string)
    requires IsDynamic(seg)
    ensures "[" + name + "]" == seg
  {
    assert |seg| >= 2 by {
      assert seg[..1] == "[" && seg[|seg| - 1..] == "]";
      assert seg[0] == '[' && seg[|seg| - 1] == ']';
    }
    seg[1..|seg| - 1]
  }

  /** `pathParts[i]`, which is `undefined` past the end. */
  function At(parts: seq<string>, i: nat): Option<string>
  {
    if i < |parts| then Some(parts[i]) else None
  }

  /** The parameter object after the first `n` route segments were visited: each `[name]`
      segment sets `name` to the path segment at its position, a later one overwriting. */
  function ParamsUpTo(routeParts: seq<string>, pathParts: seq<string>, n: nat): map<string, Option<string>>
    requires n <= |routeParts|
  {
    if n == 0 then map[]
    else
      var m := ParamsUpTo(routeParts, pathParts, n - 1);
      if IsDynamic(routeParts[n - 1]) then m[ParamName(routeParts[n - 1]) := At(pathParts, n - 1)] else m
  }

  function Params(routeParts: seq<string>, pathParts: seq<string>): map<string, Option<string>>
  {
    ParamsUpTo(routeParts, pathParts, |routeParts|)
  }

  /** `extractParams(routePath, actualPath)`. */
  method ExtractParams(routePath: string, actualPath: string) returns (params: map<string, Option<string>>)
    ensures params == Params(Segments(routePath), Segments(actualPath))
  {
    params := map[];
    var routeParts := Segments(routePath);
    var pathParts := Segments(actualPath);
    for i := 0 to |routeParts|
      invariant params == ParamsUpTo(routeParts, pathParts, i)
    {
      if StartsWith(routeParts[i], "[") && EndsWith(routeParts[i], "]") {
        var key := routeParts[i][1..|routeParts[i]| - 1];
        params := params[key := if i < |pathParts| then Some(pathParts[i]) else None];
      }
    }
  }

  /** Among the first `n` route segments, `i` is the last `[name]` segment with its name. */
  predicate LastWithName(routeParts: seq<string>, n: nat, i: int)
  {
    0 <= i < n <= |routeParts| && IsDynamic(routeParts[i]) &&
    forall j :: i < j < n && IsDynamic(routeParts[j]) ==> ParamName(routeParts[j]) != ParamName(routeParts[i])
  }

  /** The keys are exactly the bracketed segment names, and each maps to the path segment
      at the position of the last segment carrying that name (`undefined` past the path). */
  lemma ParamsUpToSpec(routeParts: seq<string>, pathParts: seq<string>, n: nat)
    requires n <= |routeParts|
    ensures forall name :: name in ParamsUpTo(routeParts, pathParts, n) <==>
              exists i :: 0 <= i < n && IsDynamic(routeParts[i]) && ParamName(routeParts[i]) == name
    ensures forall i :: LastWithName(routeParts, n, i) ==>
              ParamsUpTo(routeParts, pathParts, n)[ParamName(routeParts[i])] == At(pathParts, i)
  {
    ParamsUpToKeys(routeParts, pathParts, n);
    ParamsUpToValues(routeParts, pathParts, n);
  }

  lemma {:induction false} ParamsUpToKeys(routeParts: seq<string>, pathParts: seq<string>, n: nat)
    requires n <= |routeParts|
    ensures forall name :: name in ParamsUpTo(routeParts, pathParts, n) <==>
              exists i :: 0 <= i < n && IsDynamic(routeParts[i]) && ParamName(routeParts[i]) == name
  {
    if n > 0 {
      ParamsUpToKeys(routeParts, pathParts, n - 1);
      forall name | name in ParamsUpTo(routeParts, pathParts, n)
        ensures exists i :: 0 <= i < n && IsDynamic(routeParts[i]) && ParamName(routeParts[i]) == name
      {
        if name !in ParamsUpTo(routeParts, pathParts, n - 1) {
          assert IsDynamic(routeParts[n - 1]) && ParamName(routeParts[n - 1]) == name;
        }
      }
    }
  }

  lemma {:induction false} ParamsUpToValues(routeParts: seq<string>, pathParts: seq<string>, n: nat)
    requires n <= |routeParts|
    ensures forall i :: LastWithName(routeParts, n, i) ==>
              ParamName(routeParts[i]) in ParamsUpTo(routeParts, pathParts, n) &&
              ParamsUpTo(routeParts, pathParts, n)[ParamName(routeParts[i])] == At(pathParts, i)
  {
    if n > 0 {
      ParamsUpToKeys(routeParts, pathParts, n - 1);
      ParamsUpToValues(routeParts, pathParts, n - 1);
      forall i | LastWithName(routeParts, n, i)
        ensures ParamName(routeParts[i]) in ParamsUpTo(routeParts, pathParts, n) &&
                ParamsUpTo(routeParts, pathParts, n)[ParamName(routeParts[i])] == At(pathParts, i)
      {
        if i < n - 1 {
          assert LastWithName(routeParts, n - 1, i);
        }
      }
    }
  }

  lemma ParamsSpec(routeParts: seq<string>, pathParts: seq<string>)
    ensures forall name :: name in Params(routeParts, pathParts) <==>
              exists i :: 0 <= i < |routeParts| && IsDynamic(routeParts[i]) && ParamName(routeParts[i]) == name
    ensures forall i :: LastWithName(routeParts, |routeParts|, i) ==>
              Params(routeParts, pathParts)[ParamName(routeParts[i])] == At(pathParts, i)
  {
    ParamsUpToSpec(routeParts, pathParts, |routeParts|);
  }

  /** For a route the matcher accepted, every parameter is defined. */
  lemma {:induction false} MatchedParamsDefined(routeParts: seq<string>, pathParts: seq<string>, n: nat)
    requires n <= |routeParts|
    requires SegmentsAgree(routeParts, pathParts)
    ensures forall name :: name in ParamsUpTo(routeParts, pathParts, n) ==> ParamsUpTo(routeParts, pathParts, n)[name].Some?
  {
    if n > 0 {
      MatchedParamsDefined(routeParts, pathParts, n - 1);
    }
  }

  /** `stripRoutesPrefix(routePath, type)`: http and ws paths lose a leading "/routes" (with
      no segment boundary check), an empty result becoming "/"; tcp and trpc paths are kept. */
  function StripRoutesPrefix(routePath: string, kind: RouteType): (r: string)
    ensures kind == TcpRoute || kind == TrpcRoute ==> r == routePath
    ensures kind == HttpRoute || kind == WsRoute ==>
              r != "" &&
              (StartsWith(routePath, "/routes") && routePath != "/routes" ==> "/routes" + r == routePath) &&
              (!StartsWith(routePath, "/routes") && routePath != "" ==> r == routePath)
  {
    if kind == HttpRoute || kind == WsRoute then
      var rest := if StartsWith(routePath, "/routes") then routePath[7..] else routePath;
      if rest == "" then "/" else rest
    else routePath
  }

  /** `matchWildcard(pattern, path)`. */
  function MatchWildcard(pattern: string, path: string): bool
  {
    if EndsWith(pattern, "/*") then
      var base := pattern[..|pattern| - 2];
      path == base || StartsWith(path, base + "/")
    else pattern == path
  }

  /** The wildcard of a base matches the base itself and everything below it, and nothing else. */
  lemma WildcardSpec(base: string, path: string)
    ensures MatchWildcard(base + "/*", path) <==> path == base || StartsWith(path, base + "/")
  {
    var pattern := base + "/*";
    assert EndsWith(pattern, "/*") by {
      assert pattern[|pattern| - 2..] == "/*";
    }
    assert pattern[..|pattern| - 2] == base;
  }

  /** A pattern without the trailing wildcard matches by equality only. */
  lemma ExactPatternSpec(pattern: string, path: string)
    requires !EndsWith(pattern, "/*")
    ensures MatchWildcard(pattern, path) <==> pattern == path
  {
  }

  /** Every path below the base matches the base's wildcard. */
  lemma WildcardCoversSubtree(base: string, rest: string)
    ensures MatchWildcard(base + "/*", base + "/" + rest)
  {
    WildcardSpec(base, base + "/" + rest);
    assert (base + "/" + rest)[..|base + "/"|] == base + "/";
  }
}
