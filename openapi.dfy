/** The OpenAPI document generator (packages/core/core/openapi.ts): route paths in the
    path-templating form of the OpenAPI Specification 3.0.0 ("Path Templating" in its
    Definitions section), parameter and schema entries built from a validator's keys, and
    the `paths` object assembled from the http routes and their `METHOD_config` exports. */
module OpenApi {
  import opened Strings
  import opened Opt
  import opened Routes

  // ---------------------------------------------------------------------------
  // Path templating

  /** The first `]` at or after position `i`. */
  function CloseFrom(s: string, i: nat): (r: Option<nat>)
    requires i <= |s|
    ensures r.Some? ==> i <= r.value < |s| && s[r.value] == ']' && forall k :: i <= k < r.value ==> s[k] != ']'
    ensures r.None? ==> forall k :: i <= k < |s| ==> s[k] != ']'
    decreases |s| - i
  {
    if i == |s| then None
    else if s[i] == ']' then Some(i)
    else CloseFrom(s, i + 1)
  }

  /** `routePath.replace(/\[([^\]]+)\]/g, "{$1}")`: scanning left to right, a `[` followed
      by one or more characters other than `]` and then a `]` becomes the same characters
      between braces; every other character is kept. */
  function ToOpenApiPath(s: string): (r: string)
    ensures |r| == |s|
    ensures forall i {:trigger r[i]} :: 0 <= i < |s| && s[i] != '[' && s[i] != ']' ==> r[i] == s[i]
    ensures forall i {:trigger r[i]} :: 0 <= i < |s| && r[i] != s[i] ==> (s[i] == '[' && r[i] == '{') || (s[i] == ']' && r[i] == '}')
    decreases |s|
  {
    if |s| == 0 then ""
    else
      var close := if s[0] == '[' then CloseFrom(s, 1) else None;
      if close.Some? && close.value >= 2 then
        "{" + s[1..close.value] + "}" + ToOpenApiPath(s[close.value + 1..])
      else [s[0]] + ToOpenApiPath(s[1..])
  }

  /** A path without `[` is left unchanged. */
  lemma {:induction false} NoBracketUnchanged(s: string)
    requires '[' !in s
    ensures ToOpenApiPath(s) == s
    decreases |s|
  {
    if |s| > 0 {
      assert '[' !in s[1..];
      NoBracketUnchanged(s[1..]);
      assert s == [s[0]] + s[1..];
    }
  }

  /** A `[name]` after a bracket-free prefix becomes `{name}`, and the rest is transformed
      on its own. */
  lemma BracketBecomesBrace(a: string, name: string, b: string)
    requires '[' !in a
    requires |name| >= 1 && ']' !in name
    ensures ToOpenApiPath(a + "[" + name + "]" + b) == a + "{" + name + "}" + ToOpenApiPath(b)
  {
    var t := "[" + name + "]" + b;
    var u := "{" + name + "}";
    assert a + "[" + name + "]" + b == a + t;
    PrefixUnchanged(a, t);
    BracketAtStart(name, b);
    ConcatAssoc(a, u, ToOpenApiPath(b));
    assert a + u == a + "{" + name + "}";
  }

  lemma BracketAtStart(name: string, b: string)
    requires |name| >= 1 && ']' !in name
    ensures ToOpenApiPath("[" + name + "]" + b) == "{" + name + "}" + ToOpenApiPath(b)
  {
    var s := "[" + name + "]" + b;
    var j := |name| + 1;
    assert s[0] == '[';
    assert s[j] == ']';
    assert forall k :: 1 <= k < j ==> s[k] == name[k - 1];
    CloseFromFinds(s, 1, j);
    assert s[1..j] == name;
    assert s[j + 1..] == b;
  }

  /** `CloseFrom` finds the first `]`. */
  lemma {:induction false} CloseFromFinds(s: string, i: nat, j: nat)
    requires i <= j < |s| && s[j] == ']'
    requires forall k :: i <= k < j ==> s[k] != ']'
    ensures CloseFrom(s, i) == Some(j)
    decreases j - i
  {
    if i < j {
      CloseFromFinds(s, i + 1, j);
    }
  }

  /** The templated form of a route segment: `[name]` becomes `{name}`. */
  function TemplateSegment(seg: string): string
  {
    if |seg| >= 3 && seg[0] == '[' && seg[|seg| - 1] == ']' then "{" + seg[1..|seg| - 1] + "}" else seg
  }

  /** A route path made of plain segments and `[name]` segments is templated segment by
      segment. */
  lemma {:induction false} TemplatesSegments(segs: seq<string>)
    requires forall i :: 0 <= i < |segs| ==> WellFormedSegment(segs[i])
    ensures ToOpenApiPath("/" + Join(segs, "/")) == "/" + Join(Templated(segs), "/")
    decreases |segs|
  {
    if |segs| == 0 {
      NoBracketUnchanged("/");
    } else {
      var t := Templated(segs);
      JoinHeadTail(segs);
      JoinHeadTail(t);
      assert t[0] == TemplateSegment(segs[0]) && t[1..] == Templated(segs[1..]);
      var tail := Tail(segs);
      if |segs| > 1 {
        TemplatesSegments(segs[1..]);
      }
      assert ToOpenApiPath(tail) == Tail(t);
      SegmentThenTail(segs[0], tail);
    }
  }

  /** What follows the first segment of a slash-joined path. */
  function Tail(segs: seq<string>): string
    requires |segs| >= 1
  {
    if |segs| == 1 then "" else "/" + Join(segs[1..], "/")
  }

  lemma JoinHeadTail(segs: seq<string>)
    requires |segs| >= 1
    ensures "/" + Join(segs, "/") == "/" + segs[0] + Tail(segs)
  {
    if |segs| == 1 {
      assert Join(segs, "/") == segs[0];
    } else {
      var r := Join(segs[1..], "/");
      assert Join(segs, "/") == segs[0] + "/" + r;
      ConcatAssoc("/", segs[0] + "/", r);
      ConcatAssoc("/", segs[0], "/");
      ConcatAssoc("/" + segs[0], "/", r);
    }
  }

  /** A `[name]` segment with a bracket-free name, or a segment without brackets. */
  predicate WellFormedSegment(seg: string)
  {
    '/' !in seg &&
    (('[' !in seg && ']' !in seg) ||
     (|seg| >= 3 && seg[0] == '[' && seg[|seg| - 1] == ']' && '[' !in seg[1..|seg| - 1] && ']' !in seg[1..|seg| - 1]))
  }

  function Templated(segs: seq<string>): (r: seq<string>)
    ensures |r| == |segs|
  {
    if |segs| == 0 then [] else [TemplateSegment(segs[0])] + Templated(segs[1..])
  }

  lemma SegmentThenTail(seg: string, tail: string)
    requires WellFormedSegment(seg)
    ensures ToOpenApiPath("/" + seg + tail) == "/" + TemplateSegment(seg) + ToOpenApiPath(tail)
  {
    if '[' !in seg && ']' !in seg {
      NoBracketUnchanged("/" + seg);
      PrefixUnchanged("/" + seg, tail);
      assert "/" + seg + tail == ("/" + seg) + tail;
    } else {
      var name := seg[1..|seg| - 1];
      assert seg == "[" + name + "]";
      assert "/" + seg + tail == "/" + "[" + name + "]" + tail;
      BracketBecomesBrace("/", name, tail);
    }
  }

  /** A bracket-free prefix is copied and the rest is transformed on its own. */
  lemma {:induction false} PrefixUnchanged(a: string, b: string)
    requires '[' !in a
    ensures ToOpenApiPath(a + b) == a + ToOpenApiPath(b)
    decreases |a|
  {
    if |a| > 0 {
      assert (a + b)[0] == a[0];
      assert (a + b)[1..] == a[1..] + b;
      assert '[' !in a[1..];
      PrefixUnchanged(a[1..], b);
      assert a == [a[0]] + a[1..];
    } else {
      assert a + b == b;
    }
  }

  // ---------------------------------------------------------------------------
  // Parameters and schemas

  /** A validator object as far as the generator looks at it: the keys of its `shape`, in
      key order, or no shape at all. */
  datatype Validator = Validator(shape: Option<seq<string>>)

  datatype Location = PathParam | QueryParam

  /** One OpenAPI parameter object: `{ name, in, required: true, schema: { type: "string" } }`. */
  datatype Parameter = Parameter(name: string, location: Location, required: bool, schemaType: string)

  /** A JSON schema of type object: each property's type and the `required` list. */
  datatype ObjectSchema = ObjectSchema(properties: map<string, string>, required: seq<string>)

  /** `zodToOpenApiParams(v, location)`. */
  function ParamsOf(v: Option<Validator>, location: Location): (ps: seq<Parameter>)
    ensures v.None? || v.value.shape.None? ==> ps == []
    ensures v.Some? && v.value.shape.Some? ==>
            |ps| == |v.value.shape.value| &&
              forall i :: 0 <= i < |ps| ==> ps[i] == Parameter(v.value.shape.value[i], location, true, "string")
  {
    if v.None? || v.value.shape.None? then []
    else seq(|v.value.shape.value|, i requires 0 <= i < |v.value.shape.value| => Parameter(v.value.shape.value[i], location, true, "string"))
  }

  /** `zodToJsonSchema(v)` as a value: every key a string-typed property, all keys
      required. */
  function SchemaOf(v: Option<Validator>): Option<ObjectSchema>
  {
    if v.None? || v.value.shape.None? then None
    else Some(ObjectSchema(map k | k in v.value.shape.value :: "string", v.value.shape.value))
  }

  /** `zodToJsonSchema(v)`: the loop that fills `properties`, then `required` = the keys. */
  method JsonSchemaOf(v: Option<Validator>) returns (schema: Option<ObjectSchema>)
    ensures schema == SchemaOf(v)
  {
    if v.None? || v.value.shape.None? {
      return None;
    }
    var keys := v.value.shape.value;
    var properties: map<string, string> := map[];
    for i := 0 to |keys|
      invariant properties == map k | k in keys[..i] :: "string"
    {
      properties := properties[keys[i] := "string"];
      assert keys[..i + 1] == keys[..i] + [keys[i]];
    }
    assert keys[..|keys|] == keys;
    schema := Some(ObjectSchema(properties, keys));
  }

  /** No schema without a shape; otherwise every key is a string-typed property and the
      `required` list is the keys in order. */
  lemma SchemaOfSpec(v: Option<Validator>)
    ensures SchemaOf(v).Some? <==> v.Some? && v.value.shape.Some?
    ensures SchemaOf(v).Some? ==>
            SchemaOf(v).value.required == v.value.shape.value &&
            SchemaOf(v).value.properties.Keys == (set k | k in v.value.shape.value) &&
            forall k :: k in SchemaOf(v).value.properties ==> SchemaOf(v).value.properties[k] == "string"
  {
  }

  // ---------------------------------------------------------------------------
  // The document

  /** A `METHOD_config` export. */
  datatype RouteConfig = RouteConfig(summary: Option<string>, description: Option<string>,
                                     params: Option<Validator>, querys: Option<Validator>,
                                     response: Option<Validator>)

  /** The `"200"` response: `{ description: "Success", content: { "application/json": { schema } } }`. */
  datatype Success = Success(schema: Option<ObjectSchema>)

  /** One operation object; `responses` is empty (`None`) without a response validator. */
  datatype Operation = Operation(summary: Option<string>, description: Option<string>,
                                 parameters: seq<Parameter>, responses: Option<Success>)

  /** A route module's exports, by export name; a file missing from the module map is one
      whose import throws. */
  type Module = map<string, RouteConfig>

  type Paths = map<string, map<string, Operation>>

  /** The fixed method list and each method's export name (`method.toUpperCase() + '_config'`). */
  const Methods: seq<(string, string)> := [
    ("get", "GET_config"), ("post", "POST_config"), ("put", "PUT_config"), ("delete", "DELETE_config"),
    ("patch", "PATCH_config"), ("options", "OPTIONS_config"), ("head", "HEAD_config")]

  /** `s || undefined` for a string. */
  function NonEmptyOr(s: Option<string>): Option<string>
  {
    if s == Some("") then None else s
  }

  /** The operation a config produces. */
  function OperationOf(c: RouteConfig): Operation
  {
    Operation(NonEmptyOr(c.summary), NonEmptyOr(c.description),
              ParamsOf(c.params, PathParam) + ParamsOf(c.querys, QueryParam),
              if c.response.Some? then Some(Success(SchemaOf(c.response))) else None)
  }

  /** One method of one route entered into `paths`: the path object is created on first
      use and the method's operation is (over)written. */
  function AddOperation(paths: Paths, key: string, verb: string, op: Operation): (r: Paths)
    ensures r.Keys == paths.Keys + {key}
    ensures r[key].Keys == (if key in paths then paths[key].Keys else {}) + {verb} && r[key][verb] == op
    ensures forall v :: key in paths && v in paths[key] && v != verb ==> r[key][v] == paths[key][v]
    ensures forall k :: k in paths && k != key ==> r[k] == paths[k]
  {
    var ops := if key in paths then paths[key] else map[];
    paths[key := ops[verb := op]]
  }

  /** The methods `methods` of one route entered in order. */
  function AddMethods(paths: Paths, key: string, mod: Module, methods: seq<(string, string)>): Paths
    decreases |methods|
  {
    if |methods| == 0 then paths
    else
      var last := methods[|methods| - 1];
      var p := AddMethods(paths, key, mod, methods[..|methods| - 1]);
      if last.1 in mod then AddOperation(p, key, last.0, OperationOf(mod[last.1])) else p
  }

  /** What the route loop has built after `routes`. */
  function PathsOf(routes: seq<RouteFile>, modules: map<string, Module>): Paths
    decreases |routes|
  {
    if |routes| == 0 then map[]
    else
      var route := routes[|routes| - 1];
      var p := PathsOf(routes[..|routes| - 1], modules);
      if route.kind != HttpRoute || route.file !in modules then p
      else AddMethods(p, ToOpenApiPath(route.routePath), modules[route.file], Methods)
  }

  /** The `info` object and the `paths` built from the routes. */
  datatype Document = Document(openapi: string, title: string, version: string, paths: Paths)

  /** `generateOpenAPISpec` once the routes are scanned: the nested route and method loops
      writing into `paths`. */
  method GenerateSpec(routes: seq<RouteFile>, modules: map<string, Module>) returns (doc: Document)
    ensures doc == Document("3.0.0", "API Docs", "1.0.0", PathsOf(routes, modules))
  {
    var paths: Paths := map[];
    for i := 0 to |routes|
      invariant paths == PathsOf(routes[..i], modules)
    {
      var route := routes[i];
      assert routes[..i + 1][..i] == routes[..i];
      if route.kind != HttpRoute || route.file !in modules {
        continue;
      }
      var mod := modules[route.file];
      var key := ToOpenApiPath(route.routePath);
      ghost var before := paths;
      for j := 0 to |Methods|
        invariant paths == AddMethods(before, key, mod, Methods[..j])
      {
        assert Methods[..j + 1][..j] == Methods[..j];
        var verb := Methods[j];
        if verb.1 !in mod {
          continue;
        }
        var ops := if key in paths then paths[key] else map[];
        paths := paths[key := ops[verb.0 := OperationOf(mod[verb.1])]];
      }
      assert Methods[..|Methods|] == Methods;
    }
    assert routes[..|routes|] == routes;
    doc := Document("3.0.0", "API Docs", "1.0.0", paths);
  }

  // ---------------------------------------------------------------------------
  // Properties

  /** An entry of the built `paths`: a method's operation under some templated path. */
  predicate Documents(routes: seq<RouteFile>, modules: map<string, Module>, key: string, verb: string)
  {
    exists i, m :: 0 <= i < |routes| && 0 <= m < |Methods| &&
      routes[i].kind == HttpRoute && routes[i].file in modules &&
      Methods[m].0 == verb && Methods[m].1 in modules[routes[i].file] &&
      ToOpenApiPath(routes[i].routePath) == key
  }

  /** Every method entry comes from an http route whose module has that method's config,
      and every such route and method has an entry. */
  lemma {:induction false} PathsSpec(routes: seq<RouteFile>, modules: map<string, Module>, key: string, verb: string)
    ensures key in PathsOf(routes, modules) && verb in PathsOf(routes, modules)[key] <==> Documents(routes, modules, key, verb)
    decreases |routes|
  {
    if |routes| > 0 {
      var init := routes[..|routes| - 1];
      var route := routes[|routes| - 1];
      PathsSpec(init, modules, key, verb);
      var p := PathsOf(init, modules);
      if route.kind != HttpRoute || route.file !in modules {
        DocumentsSnocSkip(init, route, modules, key, verb);
      } else {
        var k := ToOpenApiPath(route.routePath);
        AddMethodsSpec(p, k, modules[route.file], Methods, key, verb);
        DocumentsSnocAdd(init, route, modules, key, verb);
      }
    }
  }

  lemma DocumentsSnocSkip(init: seq<RouteFile>, route: RouteFile, modules: map<string, Module>, key: string, verb: string)
    requires route.kind != HttpRoute || route.file !in modules
    ensures Documents(init + [route], modules, key, verb) <==> Documents(init, modules, key, verb)
  {
    var routes := init + [route];
    if Documents(routes, modules, key, verb) {
      var i, m :| 0 <= i < |routes| && 0 <= m < |Methods| &&
        routes[i].kind == HttpRoute && routes[i].file in modules &&
        Methods[m].0 == verb && Methods[m].1 in modules[routes[i].file] &&
        ToOpenApiPath(routes[i].routePath) == key;
      assert i < |init| && routes[i] == init[i];
    }
    if Documents(init, modules, key, verb) {
      var i, m :| 0 <= i < |init| && 0 <= m < |Methods| &&
        init[i].kind == HttpRoute && init[i].file in modules &&
        Methods[m].0 == verb && Methods[m].1 in modules[init[i].file] &&
        ToOpenApiPath(init[i].routePath) == key;
      assert routes[i] == init[i];
    }
  }

  /** The route just added documents `(key, verb)` iff it is an http route under `key` whose
      module has `verb`'s config. */
  predicate RouteDocuments(route: RouteFile, modules: map<string, Module>, key: string, verb: string)
  {
    route.kind == HttpRoute && route.file in modules && ToOpenApiPath(route.routePath) == key &&
    exists m :: 0 <= m < |Methods| && Methods[m].0 == verb && Methods[m].1 in modules[route.file]
  }

  lemma DocumentsSnocAdd(init: seq<RouteFile>, route: RouteFile, modules: map<string, Module>, key: string, verb: string)
    ensures Documents(init + [route], modules, key, verb) <==>
            Documents(init, modules, key, verb) || RouteDocuments(route, modules, key, verb)
  {
    var routes := init + [route];
    if Documents(routes, modules, key, verb) {
      var i, m :| 0 <= i < |routes| && 0 <= m < |Methods| &&
        routes[i].kind == HttpRoute && routes[i].file in modules &&
        Methods[m].0 == verb && Methods[m].1 in modules[routes[i].file] &&
        ToOpenApiPath(routes[i].routePath) == key;
      if i < |init| {
        assert routes[i] == init[i];
      }
    }
    if Documents(init, modules, key, verb) {
      var i, m :| 0 <= i < |init| && 0 <= m < |Methods| &&
        init[i].kind == HttpRoute && init[i].file in modules &&
        Methods[m].0 == verb && Methods[m].1 in modules[init[i].file] &&
        ToOpenApiPath(init[i].routePath) == key;
      assert routes[i] == init[i];
    }
    if RouteDocuments(route, modules, key, verb) {
      var m :| 0 <= m < |Methods| && Methods[m].0 == verb && Methods[m].1 in modules[route.file];
      assert routes[|init|] == route;
    }
  }

  /** Entering one route's methods adds exactly the methods it has a config for, under its
      key, and keeps every other entry. */
  lemma {:induction false} AddMethodsSpec(paths: Paths, k: string, mod: Module, methods: seq<(string, string)>, key: string, verb: string)
    ensures var r := AddMethods(paths, k, mod, methods);
            key in r && verb in r[key] <==>
              (key in paths && verb in paths[key]) ||
              (key == k && exists m :: 0 <= m < |methods| && methods[m].0 == verb && methods[m].1 in mod)
    decreases |methods|
  {
    if |methods| > 0 {
      var init := methods[..|methods| - 1];
      AddMethodsSpec(paths, k, mod, init, key, verb);
      assert forall m :: 0 <= m < |init| ==> init[m] == methods[m];
    }
  }

  /** Path parameters come before query parameters; the `"200"` response is present iff the
      config has a response validator. */
  lemma OperationShape(c: RouteConfig)
    ensures var op := OperationOf(c);
            var n := |ParamsOf(c.params, PathParam)|;
            (forall i :: 0 <= i < n ==> op.parameters[i].location == PathParam) &&
            (forall i :: n <= i < |op.parameters| ==> op.parameters[i].location == QueryParam) &&
            (op.responses.Some? <==> c.response.Some?) &&
            (op.summary.Some? <==> c.summary.Some? && c.summary.value != "")
  {
  }

  /** The `i`-th route documents `(key, verb)` through the `m`-th method. */
  predicate DocumentedBy(routes: seq<RouteFile>, modules: map<string, Module>, key: string, verb: string, i: int, m: int)
  {
    0 <= i < |routes| && 0 <= m < |Methods| &&
    routes[i].kind == HttpRoute && routes[i].file in modules &&
    Methods[m].0 == verb && Methods[m].1 in modules[routes[i].file] &&
    ToOpenApiPath(routes[i].routePath) == key
  }

  /** After entering one route's methods, an entry either is the operation of one of those
      methods under the route's key, or was there before and none of them wrote it. */
  lemma {:induction false} AddMethodsContent(paths: Paths, k: string, mod: Module, methods: seq<(string, string)>,
                                             key: string, verb: string)
    requires var r := AddMethods(paths, k, mod, methods); key in r && verb in r[key]
    ensures var r := AddMethods(paths, k, mod, methods);
            (key == k && exists m :: 0 <= m < |methods| && methods[m].0 == verb && methods[m].1 in mod &&
                                      r[key][verb] == OperationOf(mod[methods[m].1])) ||
            (key in paths && verb in paths[key] && r[key][verb] == paths[key][verb] &&
             !(key == k && exists m :: 0 <= m < |methods| && methods[m].0 == verb && methods[m].1 in mod))
    decreases |methods|
  {
    if |methods| > 0 {
      var init := methods[..|methods| - 1];
      var last := methods[|methods| - 1];
      var p := AddMethods(paths, k, mod, init);
      assert forall m :: 0 <= m < |init| ==> init[m] == methods[m];
      if last.1 in mod && key == k && verb == last.0 {
        assert methods[|methods| - 1].0 == verb;
      } else {
        AddMethodsContent(paths, k, mod, init, key, verb);
      }
    }
  }

  /** The `i`-th route documents `(key, verb)` through the `m`-th method, and no later
      route documents it. */
  predicate LastDocumenting(routes: seq<RouteFile>, modules: map<string, Module>, key: string, verb: string, i: int, m: int)
  {
    DocumentedBy(routes, modules, key, verb, i, m) &&
    forall j :: i < j < |routes| ==> !RouteDocuments(routes[j], modules, key, verb)
  }

  /** A route that does not document `(key, verb)` keeps the earlier last one. */
  lemma LastDocumentingSnoc(init: seq<RouteFile>, route: RouteFile, modules: map<string, Module>, key: string, verb: string,
                            i: int, m: int)
    requires LastDocumenting(init, modules, key, verb, i, m) && !RouteDocuments(route, modules, key, verb)
    ensures LastDocumenting(init + [route], modules, key, verb, i, m)
  {
    var routes := init + [route];
    assert routes[i] == init[i];
    forall j | i < j < |routes| ensures !RouteDocuments(routes[j], modules, key, verb) {
      if j < |init| {
        assert routes[j] == init[j];
      }
    }
  }

  /** The operation `paths` holds for a path and a method is the one of the last http
      route, in table order, whose templated path is that key and whose module has that
      method's config: a later route with the same template overwrites an earlier one. */
  lemma {:induction false} PathsContent(routes: seq<RouteFile>, modules: map<string, Module>, key: string, verb: string)
    requires key in PathsOf(routes, modules) && verb in PathsOf(routes, modules)[key]
    ensures exists i, m :: LastDocumenting(routes, modules, key, verb, i, m) &&
              PathsOf(routes, modules)[key][verb] == OperationOf(modules[routes[i].file][Methods[m].1])
    decreases |routes|
  {
    var init := routes[..|routes| - 1];
    var route := routes[|routes| - 1];
    assert routes == init + [route];
    var p := PathsOf(init, modules);
    if route.kind != HttpRoute || route.file !in modules {
      assert PathsOf(routes, modules) == p;
      PathsContent(init, modules, key, verb);
      var i, m :| LastDocumenting(init, modules, key, verb, i, m) &&
                  p[key][verb] == OperationOf(modules[init[i].file][Methods[m].1]);
      LastDocumentingSnoc(init, route, modules, key, verb, i, m);
      assert routes[i] == init[i];
    } else {
      var k := ToOpenApiPath(route.routePath);
      var mod := modules[route.file];
      assert PathsOf(routes, modules) == AddMethods(p, k, mod, Methods);
      AddMethodsContent(p, k, mod, Methods, key, verb);
      var r := AddMethods(p, k, mod, Methods);
      if key == k && exists m :: 0 <= m < |Methods| && Methods[m].0 == verb && Methods[m].1 in mod &&
                                 r[key][verb] == OperationOf(mod[Methods[m].1]) {
        var m :| 0 <= m < |Methods| && Methods[m].0 == verb && Methods[m].1 in mod &&
                 r[key][verb] == OperationOf(mod[Methods[m].1]);
        assert LastDocumenting(routes, modules, key, verb, |routes| - 1, m);
      } else {
        assert !RouteDocuments(route, modules, key, verb);
        PathsContent(init, modules, key, verb);
        var i, m :| LastDocumenting(init, modules, key, verb, i, m) &&
                    p[key][verb] == OperationOf(modules[init[i].file][Methods[m].1]);
        LastDocumentingSnoc(init, route, modules, key, verb, i, m);
        assert routes[i] == init[i];
      }
    }
  }
}
