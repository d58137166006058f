/** The built-in CORS middleware (framework/core/cors.ts): the response headers of the
    CORS protocol (section 3.2 of the WHATWG Fetch Standard) computed from the configured
    origin policy and the request's `Origin`, and the 204 answer to a preflight. */
module Cors {
  import opened Strings
  import opened Opt
  import opened Http

  /** The configured `origin`: `true` (reflect the request's origin), a list of allowed
      origins, or one origin sent verbatim. */
  datatype OriginPolicy = Reflect | AllowList(origins: seq<string>) | Fixed(origin: string)

  /** The options as given; `None` is an option left out. */
  datatype CorsOptions = CorsOptions(origin: Option<OriginPolicy>, methods: Option<seq<string>>,
                                     allowedHeaders: Option<seq<string>>, credentials: Option<bool>,
                                     exposedHeaders: Option<seq<string>>, maxAge: Option<int>)

  /** The options after the destructuring defaults. */
  datatype CorsSettings = CorsSettings(origin: OriginPolicy, methods: seq<string>, allowedHeaders: seq<string>,
                                       credentials: bool, exposedHeaders: seq<string>, maxAge: Option<int>)

  const DefaultMethods: seq<string> := ["GET", "POST", "PUT", "DELETE", "PATCH", "OPTIONS"]
  const DefaultAllowedHeaders: seq<string> := ["Content-Type", "Authorization"]

  // Header names as a `Headers` object stores them: in lower case, so `ctx.set` and
  // `headers.get` use them as written.
  const OriginHeader: string := "origin"
  const AllowOriginHeader: string := "access-control-allow-origin"
  const AllowCredentialsHeader: string := "access-control-allow-credentials"
  const AllowMethodsHeader: string := "access-control-allow-methods"
  const AllowHeadersHeader: string := "access-control-allow-headers"
  const ExposeHeadersHeader: string := "access-control-expose-headers"
  const MaxAgeHeader: string := "access-control-max-age"

  /** `cors(options)`'s destructuring: each left-out option takes its default; an absent
      `origin` becomes `'*'`. */
  function Settings(o: CorsOptions): (s: CorsSettings)
    ensures o.origin.None? ==> s.origin == Fixed("*")
    ensures o.credentials.None? ==> !s.credentials
    ensures o.exposedHeaders.None? ==> s.exposedHeaders == []
  {
    CorsSettings(o.origin.GetOr(Fixed("*")), o.methods.GetOr(DefaultMethods), o.allowedHeaders.GetOr(DefaultAllowedHeaders),
                 o.credentials.GetOr(false), o.exposedHeaders.GetOr([]), o.maxAge)
  }

  /** The `Access-Control-Allow-Origin` value for a request whose `Origin` header is
      `requestOrigin`. */
  function AllowedOrigin(policy: OriginPolicy, requestOrigin: Option<string>): (v: string)
    ensures policy.Reflect? ==> v != ""
    ensures policy.AllowList? ==> v == "" || (requestOrigin == Some(v) && v in policy.origins)
  {
    match policy
    case Reflect => if requestOrigin.Some? && requestOrigin.value != "" then requestOrigin.value else "*"
    case AllowList(origins) => if requestOrigin.Some? && requestOrigin.value in origins then requestOrigin.value else ""
    case Fixed(origin) => origin
  }

  /** `Access-Control-Allow-Credentials: true` is sent for a reflecting policy, and for the
      others iff `credentials` is set. */
  predicate SendsCredentials(s: CorsSettings)
  {
    s.origin.Reflect? || s.credentials
  }

  predicate TruthyNumber(n: Option<int>) { n.Some? && n.value != 0 }

  /** The context's response headers after the middleware's `ctx.set` calls, in order. */
  function CorsHeaders(s: CorsSettings, requestOrigin: Option<string>, h: Headers): Headers
  {
    var h2 := OriginHeaders(s, requestOrigin, h);
    var h3 := PutHeader(h2, AllowMethodsHeader, Join(s.methods, ","));
    var h4 := PutHeader(h3, AllowHeadersHeader, Join(s.allowedHeaders, ","));
    var h5 := if |s.exposedHeaders| > 0 then PutHeader(h4, ExposeHeadersHeader, Join(s.exposedHeaders, ",")) else h4;
    if TruthyNumber(s.maxAge) then PutHeader(h5, MaxAgeHeader, IntToString(s.maxAge.value)) else h5
  }

  /** The headers written by the branch on the origin policy. */
  function OriginHeaders(s: CorsSettings, requestOrigin: Option<string>, h: Headers): Headers
  {
    var h1 := PutHeader(h, AllowOriginHeader, AllowedOrigin(s.origin, requestOrigin));
    if SendsCredentials(s) then PutHeader(h1, AllowCredentialsHeader, "true") else h1
  }

  /** The branch on the origin policy: `Access-Control-Allow-Origin`, and
      `Access-Control-Allow-Credentials` when the policy sends it. */
  method WriteOriginHeaders(s: CorsSettings, requestOrigin: Option<string>, h: Headers) returns (headers: Headers)
    ensures headers == OriginHeaders(s, requestOrigin, h)
  {
    headers := h;
    var allowed: string;
    match s.origin {
      case Reflect =>
        allowed := if requestOrigin.Some? && requestOrigin.value != "" then requestOrigin.value else "*";
        headers := PutHeader(headers, AllowOriginHeader, allowed);
        headers := PutHeader(headers, AllowCredentialsHeader, "true");
      case AllowList(origins) =>
        allowed := if requestOrigin.Some? && requestOrigin.value in origins then requestOrigin.value else "";
        headers := PutHeader(headers, AllowOriginHeader, allowed);
        if s.credentials {
          headers := PutHeader(headers, AllowCredentialsHeader, "true");
        }
      case Fixed(origin) =>
        allowed := origin;
        headers := PutHeader(headers, AllowOriginHeader, allowed);
        if s.credentials {
          headers := PutHeader(headers, AllowCredentialsHeader, "true");
        }
    }
  }

  /** The middleware for one request: the CORS headers are written into the context's
      headers; a preflight (`OPTIONS`) is answered 204 with them and `next` is not called,
      any other method gets `next()`'s response. */
  method Cors(s: CorsSettings, req: Request, ctxHeaders: Headers, next: Response)
    returns (resp: Response, headers: Headers, calledNext: bool)
    ensures headers == CorsHeaders(s, HeaderValue(req.headers, OriginHeader), ctxHeaders)
    ensures calledNext <==> req.httpMethod != "OPTIONS"
    ensures resp == if calledNext then next else Response(204, "", headers, "")
  {
    headers := ctxHeaders;
    var requestOrigin := HeaderValue(req.headers, OriginHeader);
    headers := WriteOriginHeaders(s, requestOrigin, headers);
    headers := PutHeader(headers, AllowMethodsHeader, Join(s.methods, ","));
    headers := PutHeader(headers, AllowHeadersHeader, Join(s.allowedHeaders, ","));
    if |s.exposedHeaders| > 0 {
      headers := PutHeader(headers, ExposeHeadersHeader, Join(s.exposedHeaders, ","));
    }
    if s.maxAge.Some? && s.maxAge.value != 0 {
      headers := PutHeader(headers, MaxAgeHeader, IntToString(s.maxAge.value));
    }
    if req.httpMethod == "OPTIONS" {
      resp := Response(204, "", headers, "");
      calledNext := false;
    } else {
      resp := next;
      calledNext := true;
    }
  }

  // ---------------------------------------------------------------------------
  // Properties

  /** What the middleware leaves in the context: the allowed origin, credentials exactly
      when `SendsCredentials`, methods and headers joined with ',', exposed headers only
      when there are some, max-age only when non-zero; every other header is untouched. */
  lemma CorsHeadersSpec(s: CorsSettings, requestOrigin: Option<string>, h: Headers)
    ensures var r := CorsHeaders(s, requestOrigin, h);
            && AllowOriginHeader in r && r[AllowOriginHeader] == [AllowedOrigin(s.origin, requestOrigin)]
            && AllowMethodsHeader in r && r[AllowMethodsHeader] == [Join(s.methods, ",")]
            && AllowHeadersHeader in r && r[AllowHeadersHeader] == [Join(s.allowedHeaders, ",")]
            && (SendsCredentials(s) ==> AllowCredentialsHeader in r && r[AllowCredentialsHeader] == ["true"])
            && (!SendsCredentials(s) ==> (AllowCredentialsHeader in r <==> AllowCredentialsHeader in h))
            && (|s.exposedHeaders| > 0 ==> ExposeHeadersHeader in r && r[ExposeHeadersHeader] == [Join(s.exposedHeaders, ",")])
            && (|s.exposedHeaders| == 0 ==> (ExposeHeadersHeader in r <==> ExposeHeadersHeader in h))
            && (TruthyNumber(s.maxAge) ==> MaxAgeHeader in r && r[MaxAgeHeader] == [IntToString(s.maxAge.value)])
            && (!TruthyNumber(s.maxAge) ==> (MaxAgeHeader in r <==> MaxAgeHeader in h))
            && (forall n :: n in h && n !in CorsNames() ==> n in r && r[n] == h[n])
  {
  }

  function CorsNames(): set<string>
  {
    {AllowOriginHeader, AllowCredentialsHeader, AllowMethodsHeader, AllowHeadersHeader, ExposeHeadersHeader, MaxAgeHeader}
  }

  /** Without an `origin` option every origin is allowed with `*`, whatever the request's
      `Origin`. */
  lemma NoOriginAllowsAll(o: CorsOptions, requestOrigin: Option<string>)
    requires o.origin.None?
    ensures AllowedOrigin(Settings(o).origin, requestOrigin) == "*"
  {
  }

  /** A reflecting policy answers with the request's origin, or `*` without one. */
  lemma ReflectSpec(requestOrigin: Option<string>)
    ensures requestOrigin.Some? && requestOrigin.value != "" ==> AllowedOrigin(Reflect, requestOrigin) == requestOrigin.value
    ensures requestOrigin.None? || requestOrigin == Some("") ==> AllowedOrigin(Reflect, requestOrigin) == "*"
  {
  }

  /** A listed request origin is allowed as itself; an unlisted or missing one gets the
      empty value. */
  lemma AllowListSpec(origins: seq<string>, requestOrigin: Option<string>)
    ensures requestOrigin.Some? && requestOrigin.value in origins ==> AllowedOrigin(AllowList(origins), requestOrigin) == requestOrigin.value
    ensures requestOrigin.None? || requestOrigin.value !in origins ==> AllowedOrigin(AllowList(origins), requestOrigin) == ""
  {
  }

  /** A preflight from an origin the list rejects is still answered 204, with an empty
      `Access-Control-Allow-Origin`. */
  lemma RejectedPreflightAnswered(s: CorsSettings, req: Request, ctxHeaders: Headers)
    requires s.origin.AllowList? && req.httpMethod == "OPTIONS"
    requires HeaderValue(req.headers, OriginHeader).None? || HeaderValue(req.headers, OriginHeader).value !in s.origin.origins
    ensures CorsHeaders(s, HeaderValue(req.headers, OriginHeader), ctxHeaders)[AllowOriginHeader] == [""]
  {
    CorsHeadersSpec(s, HeaderValue(req.headers, OriginHeader), ctxHeaders);
  }
}
