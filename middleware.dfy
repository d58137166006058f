/** Middleware discovery (packages/core/core/middleware.ts and framework/core/middleware.ts):
    classifying a module's exports, loading a middleware directory, and collecting the
    middleware that applies to a route file. Module loading is given as data: a directory
    listing pairs each file name with its module's function-valued exports, and
    `mwAt` maps a directory to the exports of its `middleware.ts`, when it has one. */
module Middleware {
  import opened Strings
  import opened Opt
  import opened Cache
  import Routes

  /** The function-valued exports of a module (`typeof mod.x === 'function'`). */
  datatype Exports<T> = Exports(onRequest: Option<T>, onResponse: Option<T>, defaultExport: Option<T>, middleware: Option<T>)

  datatype Slot = RequestSlot | ResponseSlot

  /** The two lists a load produces. */
  datatype Lists<T> = Lists(onRequest: seq<T>, onResponse: seq<T>)

  /** Where a module's middleware goes: the first present export among `onRequest`,
      `onResponse`, `default`, `middleware`; only `onResponse` goes to the response list. */
  function Classify<T>(m: Exports<T>): (r: Option<(Slot, T)>)
    ensures r.None? <==> m.onRequest.None? && m.onResponse.None? && m.defaultExport.None? && m.middleware.None?
    ensures r.Some? && r.value.0 == ResponseSlot <==> m.onRequest.None? && m.onResponse.Some?
    ensures m.onRequest.Some? ==> r == Some((RequestSlot, m.onRequest.value))
  {
    if m.onRequest.Some? then Some((RequestSlot, m.onRequest.value))
    else if m.onResponse.Some? then Some((ResponseSlot, m.onResponse.value))
    else if m.defaultExport.Some? then Some((RequestSlot, m.defaultExport.value))
    else if m.middleware.Some? then Some((RequestSlot, m.middleware.value))
    else None
  }

  /** The framework copy's choice: `default`, else `middleware`, other exports ignored. */
  function ClassifyLegacy<T>(m: Exports<T>): Option<T>
  {
    if m.defaultExport.Some? then m.defaultExport
    else m.middleware
  }

  function Add<T>(l: Lists<T>, c: Option<(Slot, T)>): Lists<T>
  {
    match c
    case None => l
    case Some((RequestSlot, f)) => Lists(l.onRequest + [f], l.onResponse)
    case Some((ResponseSlot, f)) => Lists(l.onRequest, l.onResponse + [f])
  }

  /** The lists after pushing, in listing order, the classified middleware of each `.ts` file. */
  function LoadSpec<T>(files: seq<(string, Exports<T>)>): Lists<T>
    decreases |files|
  {
    if |files| == 0 then Lists([], [])
    else
      var last := files[|files| - 1];
      var l := LoadSpec(files[..|files| - 1]);
      if EndsWith(last.0, ".ts") then Add(l, Classify(last.1)) else l
  }

  /** `loadMiddlewareFromDir(dir)` of packages/core; `None` is a missing directory. */
  method LoadMiddlewareFromDir<T>(dir: Option<seq<(string, Exports<T>)>>) returns (l: Lists<T>)
    ensures dir.None? ==> l == Lists([], [])
    ensures dir.Some? ==> l == LoadSpec(dir.value)
  {
    l := Lists([], []);
    if dir.None? {
      return;
    }
    var files := dir.value;
    for i := 0 to |files|
      invariant l == LoadSpec(files[..i])
    {
      assert files[..i + 1][..i] == files[..i];
      var file := files[i];
      if EndsWith(file.0, ".ts") {
        var mod := file.1;
        if mod.onRequest.Some? {
          l := l.(onRequest := l.onRequest + [mod.onRequest.value]);
        } else if mod.onResponse.Some? {
          l := l.(onResponse := l.onResponse + [mod.onResponse.value]);
        } else if mod.defaultExport.Some? {
          l := l.(onRequest := l.onRequest + [mod.defaultExport.value]);
        } else if mod.middleware.Some? {
          l := l.(onRequest := l.onRequest + [mod.middleware.value]);
        }
      }
    }
    assert files[..|files|] == files;
  }

  /** The number of `.ts` files whose module exports a middleware function. */
  function Contributing<T>(files: seq<(string, Exports<T>)>): nat
    decreases |files|
  {
    if |files| == 0 then 0
    else
      var last := files[|files| - 1];
      Contributing(files[..|files| - 1]) + (if EndsWith(last.0, ".ts") && Classify(last.1).Some? then 1 else 0)
  }

  /** Each module lands in at most one list, once: the two lists together hold one entry
      per contributing file, and a file without a `.ts` name or a middleware export
      contributes nothing. */
  lemma {:induction false} LoadCounts<T>(files: seq<(string, Exports<T>)>)
    ensures |LoadSpec(files).onRequest| + |LoadSpec(files).onResponse| == Contributing(files)
    decreases |files|
  {
    if |files| > 0 {
      LoadCounts(files[..|files| - 1]);
    }
  }

  /** A module exporting both `onRequest` and `onResponse` contributes only to the request
      list. */
  lemma RequestWins<T>(files: seq<(string, Exports<T>)>, name: string, f: T, g: T, rest: Exports<T>)
    requires EndsWith(name, ".ts")
    ensures var l := LoadSpec(files + [(name, rest.(onRequest := Some(f), onResponse := Some(g)))]);
            l.onRequest == LoadSpec(files).onRequest + [f] && l.onResponse == LoadSpec(files).onResponse
  {
    var all := files + [(name, rest.(onRequest := Some(f), onResponse := Some(g)))];
    assert all[..|all| - 1] == files;
  }

  /** The framework's `loadMiddlewareFromDir`: `.ts` and `.js` files, one list. */
  function LoadLegacySpec<T>(files: seq<(string, Exports<T>)>): seq<T>
    decreases |files|
  {
    if |files| == 0 then []
    else
      var last := files[|files| - 1];
      var l := LoadLegacySpec(files[..|files| - 1]);
      if (EndsWith(last.0, ".ts") || EndsWith(last.0, ".js")) && ClassifyLegacy(last.1).Some?
      then l + [ClassifyLegacy(last.1).value] else l
  }

  method LoadLegacyFromDir<T>(dir: Option<seq<(string, Exports<T>)>>) returns (l: seq<T>)
    ensures dir.None? ==> l == []
    ensures dir.Some? ==> l == LoadLegacySpec(dir.value)
  {
    l := [];
    if dir.None? {
      return;
    }
    var files := dir.value;
    for i := 0 to |files|
      invariant l == LoadLegacySpec(files[..i])
    {
      assert files[..i + 1][..i] == files[..i];
      var file := files[i];
      if EndsWith(file.0, ".ts") || EndsWith(file.0, ".js") {
        if file.1.defaultExport.Some? {
          l := l + [file.1.defaultExport.value];
        } else if file.1.middleware.Some? {
          l := l + [file.1.middleware.value];
        }
      }
    }
    assert files[..|files|] == files;
  }

  // ---------------------------------------------------------------------------
  // The upward walk

  /** `resolve(dir)` for an absolute directory given by its segments. */
  function Abs(dir: seq<string>): string
  {
    "/" + Join(dir, "/")
  }

  /** A directory whose resolved path starts with the root's but differs from it is not
      the file-system root, so `dirname` shortens it. */
  lemma BelowRootIsNotTop(dir: seq<string>, root: seq<string>)
    requires StartsWith(Abs(dir), Abs(root)) && Abs(dir) != Abs(root)
    ensures |dir| > 0
  {
  }

  /** The directories the walk visits, starting at the route file's directory: while the
      resolved path starts with the resolved root, visit it; stop after the root itself. */
  function Walk(dir: seq<string>, root: seq<string>): (r: seq<seq<string>>)
    ensures forall i :: 0 <= i < |r| ==> i <= |dir| && r[i] == dir[..|dir| - i] && StartsWith(Abs(r[i]), Abs(root))
    decreases |dir|
  {
    if !StartsWith(Abs(dir), Abs(root)) then []
    else if Abs(dir) == Abs(root) then [dir]
    else
      BelowRootIsNotTop(dir, root);
      [dir] + Walk(dir[..|dir| - 1], root)
  }

  /** The exports of each visited directory's `middleware.ts`, in visiting order. */
  function Found<T>(dirs: seq<seq<string>>, mwAt: map<seq<string>, Exports<T>>): seq<Exports<T>>
    decreases |dirs|
  {
    if |dirs| == 0 then []
    else (if dirs[0] in mwAt then [mwAt[dirs[0]]] else []) + Found(dirs[1..], mwAt)
  }

  function Reverse<T>(s: seq<T>): (r: seq<T>)
    ensures |r| == |s| && forall i :: 0 <= i < |s| ==> r[i] == s[|s| - 1 - i]
    decreases |s|
  {
    if |s| == 0 then [] else Reverse(s[1..]) + [s[0]]
  }

  /** The lists classified from the found modules, in order. */
  function Collect<T>(mods: seq<Exports<T>>): Lists<T>
    decreases |mods|
  {
    if |mods| == 0 then Lists([], [])
    else Add(Collect(mods[..|mods| - 1]), Classify(mods[|mods| - 1]))
  }

  function CollectLegacy<T>(mods: seq<Exports<T>>): seq<T>
    decreases |mods|
  {
    if |mods| == 0 then []
    else
      var l := CollectLegacy(mods[..|mods| - 1]);
      if ClassifyLegacy(mods[|mods| - 1]).Some? then l + [ClassifyLegacy(mods[|mods| - 1]).value] else l
  }

  /** The cache middleware list: one entry built from `{ ...global, ...route }` when the
      global cache is enabled and the route directory has a cache config. */
  function CacheList<T>(cacheConfig: Option<CacheConfig>, routeCacheConfig: Option<CacheConfig>, makeCache: CacheConfig -> T): seq<T>
  {
    if cacheConfig.Some? && On(cacheConfig.value.enabled) && routeCacheConfig.Some?
    then [makeCache(Merge(cacheConfig.value, routeCacheConfig.value))]
    else []
  }

  /** The upward walk of packages/core's `getMiddlewareForRoute`: from the route file's
      directory up to and including the routes root, each directory's `middleware.ts`
      classified into the two lists, in visiting order (leaf first). */
  method CollectWalk<T>(routeDir: seq<string>, root: seq<string>, mwAt: map<seq<string>, Exports<T>>)
    returns (per: Lists<T>)
    ensures per == Collect(Found(Walk(routeDir, root), mwAt))
  {
    var dir := routeDir;
    per := Lists([], []);
    ghost var visited: seq<seq<string>> := [];
    while StartsWith(Abs(dir), Abs(root))
      invariant visited + Walk(dir, root) == Walk(routeDir, root)
      invariant per == Collect(Found(visited, mwAt))
      decreases |dir|
    {
      if dir in mwAt {
        per := PushClassified(per, mwAt[dir]);
      }
      CollectSnoc(visited, dir, mwAt);
      WalkStep(dir, root);
      if Abs(dir) == Abs(root) {
        visited := visited + [dir];
        break;
      }
      ConcatAssoc(visited, [dir], Walk(dir[..|dir| - 1], root));
      visited := visited + [dir];
      dir := dir[..|dir| - 1];
    }
    assert visited == Walk(routeDir, root);
  }

  /** One directory's `middleware.ts`: its first present export goes to its list. */
  method PushClassified<T>(per: Lists<T>, mod: Exports<T>) returns (r: Lists<T>)
    ensures r == Add(per, Classify(mod))
  {
    r := per;
    if mod.onRequest.Some? {
      r := per.(onRequest := per.onRequest + [mod.onRequest.value]);
    } else if mod.onResponse.Some? {
      r := per.(onResponse := per.onResponse + [mod.onResponse.value]);
    } else if mod.defaultExport.Some? {
      r := per.(onRequest := per.onRequest + [mod.defaultExport.value]);
    } else if mod.middleware.Some? {
      r := per.(onRequest := per.onRequest + [mod.middleware.value]);
    }
  }

  /** One step of the walk: the root ends it, a directory below the root continues with
      its parent. */
  lemma WalkStep(dir: seq<string>, root: seq<string>)
    requires StartsWith(Abs(dir), Abs(root))
    ensures Abs(dir) == Abs(root) ==> Walk(dir, root) == [dir]
    ensures Abs(dir) != Abs(root) ==> |dir| > 0 && Walk(dir, root) == [dir] + Walk(dir[..|dir| - 1], root)
  {
  }

  /** `getMiddlewareForRoute` of packages/core: global middleware, then the walk's lists
      reversed (root first), then the cache middleware. */
  method GetMiddlewareForRoute<T>(routeDir: seq<string>, root: seq<string>, global: Lists<T>,
                                   mwAt: map<seq<string>, Exports<T>>, cacheConfig: Option<CacheConfig>,
                                   routeCacheConfig: Option<CacheConfig>, makeCache: CacheConfig -> T)
    returns (result: Lists<T>)
    ensures var per := Collect(Found(Walk(routeDir, root), mwAt));
            result == Lists(global.onRequest + Reverse(per.onRequest) + CacheList(cacheConfig, routeCacheConfig, makeCache),
                            global.onResponse + Reverse(per.onResponse))
  {
    var per := CollectWalk(routeDir, root, mwAt);
    var cache := [];
    if cacheConfig.Some? && cacheConfig.value.enabled.Some? && cacheConfig.value.enabled.value {
      if routeCacheConfig.Some? {
        var merged := Merge(cacheConfig.value, routeCacheConfig.value);
        cache := cache + [makeCache(merged)];
      }
    }
    result := Lists(global.onRequest + Reverse(per.onRequest) + cache, global.onResponse + Reverse(per.onResponse));
  }

  lemma FoundSnoc<T>(dirs: seq<seq<string>>, d: seq<string>, mwAt: map<seq<string>, Exports<T>>)
    ensures Found(dirs + [d], mwAt) == Found(dirs, mwAt) + (if d in mwAt then [mwAt[d]] else [])
    decreases |dirs|
  {
    if |dirs| > 0 {
      assert (dirs + [d])[1..] == dirs[1..] + [d];
      FoundSnoc(dirs[1..], d, mwAt);
    }
  }

  lemma CollectSnoc<T>(dirs: seq<seq<string>>, d: seq<string>, mwAt: map<seq<string>, Exports<T>>)
    ensures Collect(Found(dirs + [d], mwAt)) ==
              if d in mwAt then Add(Collect(Found(dirs, mwAt)), Classify(mwAt[d])) else Collect(Found(dirs, mwAt))
  {
    FoundSnoc(dirs, d, mwAt);
    var f := Found(dirs, mwAt);
    if d in mwAt {
      assert (f + [mwAt[d]])[..|f|] == f;
    } else {
      assert f + [] == f;
    }
  }

  /** The framework's `getMiddlewareForRoute`: global middleware, then the collected
      per-directory middleware reversed. */
  method GetLegacyMiddlewareForRoute<T>(routeDir: seq<string>, root: seq<string>, global: seq<T>,
                                         mwAt: map<seq<string>, Exports<T>>)
    returns (result: seq<T>)
    ensures result == global + Reverse(CollectLegacy(Found(Walk(routeDir, root), mwAt)))
  {
    var per := CollectLegacyWalk(routeDir, root, mwAt);
    result := global + Reverse(per);
  }

  /** The framework's upward walk, leaf first. */
  method CollectLegacyWalk<T>(routeDir: seq<string>, root: seq<string>, mwAt: map<seq<string>, Exports<T>>)
    returns (per: seq<T>)
    ensures per == CollectLegacy(Found(Walk(routeDir, root), mwAt))
  {
    var dir := routeDir;
    per := [];
    ghost var visited: seq<seq<string>> := [];
    while StartsWith(Abs(dir), Abs(root))
      invariant visited + Walk(dir, root) == Walk(routeDir, root)
      invariant per == CollectLegacy(Found(visited, mwAt))
      decreases |dir|
    {
      if dir in mwAt {
        per := PushLegacy(per, mwAt[dir]);
      }
      FoundSnocLegacy(visited, dir, mwAt);
      WalkStep(dir, root);
      if Abs(dir) == Abs(root) {
        visited := visited + [dir];
        break;
      }
      ConcatAssoc(visited, [dir], Walk(dir[..|dir| - 1], root));
      visited := visited + [dir];
      dir := dir[..|dir| - 1];
    }
    assert visited == Walk(routeDir, root);
  }

  /** The framework copy's step: `default`, else `middleware`, is pushed when present. */
  method PushLegacy<T>(per: seq<T>, mod: Exports<T>) returns (r: seq<T>)
    ensures r == if ClassifyLegacy(mod).Some? then per + [ClassifyLegacy(mod).value] else per
  {
    r := per;
    if mod.defaultExport.Some? {
      r := per + [mod.defaultExport.value];
    } else if mod.middleware.Some? {
      r := per + [mod.middleware.value];
    }
  }

  lemma FoundSnocLegacy<T>(dirs: seq<seq<string>>, d: seq<string>, mwAt: map<seq<string>, Exports<T>>)
    ensures CollectLegacy(Found(dirs + [d], mwAt)) ==
              if d in mwAt && ClassifyLegacy(mwAt[d]).Some? then CollectLegacy(Found(dirs, mwAt)) + [ClassifyLegacy(mwAt[d]).value]
              else CollectLegacy(Found(dirs, mwAt))
  {
    FoundSnoc(dirs, d, mwAt);
    var f := Found(dirs, mwAt);
    if d in mwAt {
      assert (f + [mwAt[d]])[..|f|] == f;
    } else {
      assert f + [] == f;
    }
  }

  // ---------------------------------------------------------------------------
  // Order: a parent directory's middleware runs before its child's

  /** The directories from the ancestor with `k` segments down to `dir` itself. */
  function Ancestors(dir: seq<string>, k: nat): (r: seq<seq<string>>)
    ensures |r| >= 1 && r[|r| - 1] == dir
    decreases |dir|
  {
    if |dir| <= k then [dir] else Ancestors(dir[..|dir| - 1], k) + [dir]
  }

  lemma {:induction false} AbsPrefix(dir: seq<string>, k: nat)
    requires k <= |dir|
    requires forall i :: 0 <= i < |dir| ==> dir[i] != ""
    ensures StartsWith(Abs(dir), Abs(dir[..k]))
    ensures k < |dir| ==> |Abs(dir[..k])| < |Abs(dir)|
    decreases |dir|
  {
    if k < |dir| {
      var parent := dir[..|dir| - 1];
      assert parent[..k] == dir[..k];
      AbsPrefix(parent, k);
      AbsParent(dir);
      StartsWithTrans(Abs(dir), Abs(parent), Abs(dir[..k]));
    } else {
      assert dir[..k] == dir;
    }
  }

  /** The parent's path is a shorter prefix of the path. */
  lemma AbsParent(dir: seq<string>)
    requires |dir| >= 1 && dir[|dir| - 1] != ""
    ensures StartsWith(Abs(dir), Abs(dir[..|dir| - 1]))
    ensures |Abs(dir[..|dir| - 1])| < |Abs(dir)|
  {
    var parent, name := dir[..|dir| - 1], dir[|dir| - 1];
    assert dir == parent + [name];
    if |parent| == 0 {
      assert Abs(parent) == "/";
      assert dir == [name];
      assert Abs(dir) == "/" + name;
    } else {
      Routes.JoinSnoc(parent, name);
      assert Abs(dir) == Abs(parent) + ("/" + name);
    }
  }

  lemma StartsWithTrans(a: string, b: string, c: string)
    requires StartsWith(a, b) && StartsWith(b, c)
    ensures StartsWith(a, c)
  {
    assert a[..|c|] == a[..|b|][..|c|];
  }

  /** Below the routes root, the walk visits the route directory and each ancestor up to
      the root, leaf first. */
  lemma {:induction false} WalkVisitsAncestors(dir: seq<string>, root: seq<string>)
    requires |root| <= |dir| && dir[..|root|] == root
    requires forall i :: 0 <= i < |dir| ==> dir[i] != ""
    ensures Walk(dir, root) == Reverse(Ancestors(dir, |root|))
    decreases |dir|
  {
    AbsPrefix(dir, |root|);
    if |dir| > |root| {
      var parent := dir[..|dir| - 1];
      assert parent[..|root|] == root;
      WalkVisitsAncestors(parent, root);
      ReverseSnoc(Ancestors(parent, |root|), dir);
    } else {
      assert dir == root;
    }
  }

  lemma ReverseSnoc<T>(s: seq<T>, x: T)
    ensures Reverse(s + [x]) == [x] + Reverse(s)
  {
    var l := Reverse(s + [x]);
    var r := [x] + Reverse(s);
    assert forall i :: 0 <= i < |l| ==> l[i] == r[i];
  }

  lemma ReverseAppend<T>(a: seq<T>, b: seq<T>)
    ensures Reverse(a + b) == Reverse(b) + Reverse(a)
  {
    var l := Reverse(a + b);
    var r := Reverse(b) + Reverse(a);
    assert forall i :: 0 <= i < |l| ==> l[i] == r[i];
  }

  lemma {:induction false} FoundAppend<T>(a: seq<seq<string>>, b: seq<seq<string>>, mwAt: map<seq<string>, Exports<T>>)
    ensures Found(a + b, mwAt) == Found(a, mwAt) + Found(b, mwAt)
    decreases |a|
  {
    if |a| > 0 {
      assert (a + b)[1..] == a[1..] + b;
      FoundAppend(a[1..], b, mwAt);
    } else {
      assert a + b == b;
    }
  }

  lemma {:induction false} CollectAppend<T>(a: seq<Exports<T>>, b: seq<Exports<T>>)
    ensures Collect(a + b).onRequest == Collect(a).onRequest + Collect(b).onRequest
    ensures Collect(a + b).onResponse == Collect(a).onResponse + Collect(b).onResponse
    decreases |b|
  {
    if |b| == 0 {
      assert a + b == a;
    } else {
      var b' := b[..|b| - 1];
      assert (a + b)[..|a + b| - 1] == a + b';
      CollectAppend(a, b');
    }
  }

  /** Reversing the directory order reverses both collected lists. */
  lemma {:induction false} CollectReversed<T>(dirs: seq<seq<string>>, mwAt: map<seq<string>, Exports<T>>)
    ensures Reverse(Collect(Found(Reverse(dirs), mwAt)).onRequest) == Collect(Found(dirs, mwAt)).onRequest
    ensures Reverse(Collect(Found(Reverse(dirs), mwAt)).onResponse) == Collect(Found(dirs, mwAt)).onResponse
    decreases |dirs|
  {
    if |dirs| > 0 {
      var p := dirs[..|dirs| - 1];
      var d := dirs[|dirs| - 1];
      assert dirs == p + [d];
      CollectReversed(p, mwAt);
      ReverseSnoc(p, d);
      FoundAppend([d], Reverse(p), mwAt);
      FoundAppend(p, [d], mwAt);
      var one := Found([d], mwAt);
      var rest := Found(Reverse(p), mwAt);
      CollectAppend(one, rest);
      CollectAppend(Found(p, mwAt), one);
      assert |Collect(one).onRequest| <= 1 && |Collect(one).onResponse| <= 1 by {
        assert |one| <= 1;
        if |one| == 1 {
          assert one[..0] == [];
        }
      }
      ReverseAppend(Collect(one).onRequest, Collect(rest).onRequest);
      ReverseAppend(Collect(one).onResponse, Collect(rest).onResponse);
    }
  }

  /** The middleware of a route below the routes root runs root first: the per-directory
      lists of `getMiddlewareForRoute` are the directories' middleware in the order root,
      ..., route directory. */
  lemma ParentsFirst<T>(routeDir: seq<string>, root: seq<string>, mwAt: map<seq<string>, Exports<T>>)
    requires |root| <= |routeDir| && routeDir[..|root|] == root
    requires forall i :: 0 <= i < |routeDir| ==> routeDir[i] != ""
    ensures var per := Collect(Found(Walk(routeDir, root), mwAt));
            var ordered := Collect(Found(Ancestors(routeDir, |root|), mwAt));
            Reverse(per.onRequest) == ordered.onRequest && Reverse(per.onResponse) == ordered.onResponse
  {
    WalkVisitsAncestors(routeDir, root);
    CollectReversed(Ancestors(routeDir, |root|), mwAt);
  }
}
