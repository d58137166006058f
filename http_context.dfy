/** The request context handed to HTTP handlers (framework/core/context/api.ts): cookie
    parsing, request and response header access, `Set-Cookie` serialisation, building the
    final response, and the `res` helpers. */
module ApiContext {
  import opened Strings
  import opened Opt
  import opened Http

  // ---------------------------------------------------------------------------
  // Cookie header (section 4.2 of RFC 6265)

  /** One `;`-separated part of a Cookie header, trimmed and cut at its first '=': the
      name before it and everything after it, later '=' characters included. */
  function CookiePair(part: string): (string, string)
  {
    var pieces := Split(Trim(part), '=');
    (pieces[0], Join(pieces[1..], "="))
  }

  function CookiePairs(parts: seq<string>): (r: seq<(string, string)>)
    ensures |r| == |parts| && forall i :: 0 <= i < |parts| ==> r[i] == CookiePair(parts[i])
  {
    seq(|parts|, i requires 0 <= i < |parts| => CookiePair(parts[i]))
  }

  /** Some `;`-separated part of the header `h` carries the name `n`. */
  ghost predicate NamedByPart(h: string, n: string)
  {
    exists j :: 0 <= j < |Split(h, ';')| && CookiePair(Split(h, ';')[j]).0 == n
  }

  /** The cookies of a request whose `cookie` header is `header`: nothing when it is
      absent or empty, else the pairs of its `;`-separated parts, a later name winning. */
  function ParseCookies(header: Option<string>): (r: map<string, string>)
    ensures header.None? || header == Some("") ==> r == map[]
    ensures header.Some? ==> forall n {:trigger NamedByPart(header.value, n)} :: n in r ==> NamedByPart(header.value, n)
  {
    if header.Some? && header.value != "" then
      var parts := Split(header.value, ';');
      var cookies := FromEntries(CookiePairs(parts));
      assert forall n :: n in cookies ==> NamedByPart(header.value, n) by {
        forall n | n in cookies ensures NamedByPart(header.value, n) {
          var j :| 0 <= j < |CookiePairs(parts)| && CookiePairs(parts)[j].0 == n;
          assert CookiePair(parts[j]).0 == n;
        }
      }
      cookies
    else map[]
  }

  /** The loop that fills the cookie record, shared by the constructor and `getCookie`. */
  method ParseCookieHeader(header: Option<string>) returns (cookies: map<string, string>)
    ensures cookies == ParseCookies(header)
  {
    cookies := map[];
    if header.Some? && header.value != "" {
      var parts := Split(header.value, ';');
      ghost var pairs := CookiePairs(parts);
      for i := 0 to |parts|
        invariant cookies == FromEntries(pairs[..i])
      {
        assert pairs[..i + 1][..i] == pairs[..i];
        var pieces := Split(Trim(parts[i]), '=');
        cookies := cookies[pieces[0] := Join(pieces[1..], "=")];
      }
      assert pairs[..|parts|] == pairs;
    }
  }

  /** A part `k=v` with no '=' in `k` yields exactly the name `k` and the value `v`, however
      many '=' characters `v` holds. */
  lemma CookieValueKeepsEquals(part: string, k: string, v: string)
    requires Trim(part) == k + "=" + v && '=' !in k
    ensures CookiePair(part) == (k, v)
  {
    assert k + "=" + v == k + ['='] + v;
    SplitAfterSepFree(k, v, '=');
    JoinSplit(v, '=');
    assert Split(Trim(part), '=')[1..] == Split(v, '=');
  }

  /** A part without '=' is a name with the empty value. */
  lemma CookieWithoutValue(part: string)
    requires '=' !in Trim(part)
    ensures CookiePair(part) == (Trim(part), "")
  {
    SplitOfSepFree(Trim(part), '=');
  }

  /** A name is a cookie iff some part carries it, and its value is that of the last such
      part. */
  lemma CookieLastWins(h: string, i: nat)
    requires h != "" && i < |Split(h, ';')|
    requires forall j :: i < j < |Split(h, ';')| ==> CookiePair(Split(h, ';')[j]).0 != CookiePair(Split(h, ';')[i]).0
    ensures var c := ParseCookies(Some(h));
            CookiePair(Split(h, ';')[i]).0 in c && c[CookiePair(Split(h, ';')[i]).0] == CookiePair(Split(h, ';')[i]).1
  {
    FromEntriesLast(CookiePairs(Split(h, ';')), i);
  }

  lemma CookieNames(h: string, name: string)
    requires h != ""
    ensures name in ParseCookies(Some(h)) <==> exists j :: 0 <= j < |Split(h, ';')| && CookiePair(Split(h, ';')[j]).0 == name
  {
    var parts := Split(h, ';');
    var pairs := CookiePairs(parts);
    if name in ParseCookies(Some(h)) {
      var j :| 0 <= j < |pairs| && pairs[j].0 == name;
      assert CookiePair(parts[j]).0 == name;
    }
  }

  // ---------------------------------------------------------------------------
  // Set-Cookie (section 4.1 of RFC 6265)

  /** The options `setCookie` reads; an attribute is written only when its option is
      truthy (a non-empty string, `true`, a non-zero number). */
  datatype CookieOptions = CookieOptions(path: Option<string>, httpOnly: bool, secure: bool,
                                         sameSite: Option<string>, maxAge: Option<int>)

  predicate TruthyString(s: Option<string>) { s.Some? && s.value != "" }

  predicate TruthyNumber(n: Option<int>) { n.Some? && n.value != 0 }

  /** One attribute of the cookie, `text` beginning with "; ", when its option is set. */
  function Attr(set_: bool, text: string): string
  {
    if set_ then text else ""
  }

  function PathAttr(o: CookieOptions): string
  {
    Attr(TruthyString(o.path), "; Path=" + o.path.GetOr(""))
  }

  function SameSiteAttr(o: CookieOptions): string
  {
    Attr(TruthyString(o.sameSite), "; SameSite=" + o.sameSite.GetOr(""))
  }

  function MaxAgeAttr(o: CookieOptions): string
  {
    Attr(TruthyNumber(o.maxAge), "; Max-Age=" + IntToString(o.maxAge.GetOr(0)))
  }

  /** The `Set-Cookie` value for `name`, `value` and `o`: the pair, then `Path`,
      `HttpOnly`, `Secure`, `SameSite` and `Max-Age` in that order, each only when set. */
  function SerializeCookie(name: string, value: string, o: CookieOptions): (c: string)
    ensures |c| >= |name| + 1 + |value| && c[..|name| + 1 + |value|] == name + "=" + value
    ensures !TruthyString(o.path) && !o.httpOnly && !o.secure && !TruthyString(o.sameSite) && !TruthyNumber(o.maxAge) ==>
              c == name + "=" + value
  {
    name + "=" + value + PathAttr(o) + Attr(o.httpOnly, "; HttpOnly") + Attr(o.secure, "; Secure")
    + SameSiteAttr(o) + MaxAgeAttr(o)
  }

  lemma PrefixOfAppend(a: string, b: string)
    ensures StartsWith(a + b, a)
  {
    assert (a + b)[..|a|] == a;
  }

  lemma PrefixTrans(s: string, t: string, u: string)
    requires StartsWith(s, t) && StartsWith(t, u)
    ensures StartsWith(s, u)
  {
    assert s[..|u|] == t[..|u|];
  }

  /** The cookie starts with its pair, followed directly by `Path` when a path is set. */
  lemma CookieStartsWithPair(name: string, value: string, o: CookieOptions)
    ensures StartsWith(SerializeCookie(name, value, o), name + "=" + value)
    ensures TruthyString(o.path) ==> StartsWith(SerializeCookie(name, value, o), name + "=" + value + ("; Path=" + o.path.value))
  {
    var c0 := name + "=" + value;
    var c1 := c0 + PathAttr(o);
    var c2 := c1 + Attr(o.httpOnly, "; HttpOnly");
    var c3 := c2 + Attr(o.secure, "; Secure");
    var c4 := c3 + SameSiteAttr(o);
    var c5 := c4 + MaxAgeAttr(o);
    PrefixOfAppend(c0, PathAttr(o));
    PrefixOfAppend(c1, Attr(o.httpOnly, "; HttpOnly"));
    PrefixOfAppend(c2, Attr(o.secure, "; Secure"));
    PrefixOfAppend(c3, SameSiteAttr(o));
    PrefixOfAppend(c4, MaxAgeAttr(o));
    PrefixTrans(c5, c4, c3);
    PrefixTrans(c5, c3, c2);
    PrefixTrans(c5, c2, c1);
    PrefixTrans(c5, c1, c0);
  }

  /** `Max-Age` is the last attribute whenever it is written. */
  lemma CookieEndsWithMaxAge(name: string, value: string, o: CookieOptions)
    requires TruthyNumber(o.maxAge)
    ensures EndsWith(SerializeCookie(name, value, o), "; Max-Age=" + IntToString(o.maxAge.value))
  {
    var c := SerializeCookie(name, value, o);
    var m := "; Max-Age=" + IntToString(o.maxAge.value);
    var front := name + "=" + value + PathAttr(o) + Attr(o.httpOnly, "; HttpOnly") + Attr(o.secure, "; Secure") + SameSiteAttr(o);
    assert MaxAgeAttr(o) == m;
    assert c == front + m;
    assert c[|c| - |m|..] == m;
  }

  /** A `maxAge` of 0 writes no `Max-Age`, exactly as when it is absent. */
  lemma ZeroMaxAgeOmitted(name: string, value: string, o: CookieOptions)
    requires o.maxAge == Some(0)
    ensures SerializeCookie(name, value, o) == SerializeCookie(name, value, o.(maxAge := None))
  {
  }

  /** With no option set the cookie is the bare pair. */
  lemma BareCookie(name: string, value: string, o: CookieOptions)
    requires !TruthyString(o.path) && !o.httpOnly && !o.secure && !TruthyString(o.sameSite) && !TruthyNumber(o.maxAge)
    ensures SerializeCookie(name, value, o) == name + "=" + value
  {
    var pair := name + "=" + value;
    assert pair + "" + "" + "" + "" + "" == pair;
  }

  /** The string `setCookie` builds: the pair, then each set attribute appended in turn. */
  method BuildCookie(name: string, value: string, o: CookieOptions) returns (cookie: string)
    ensures cookie == SerializeCookie(name, value, o)
  {
    cookie := name + "=" + value;
    ghost var c0 := cookie;
    if TruthyString(o.path) {
      cookie := cookie + ("; Path=" + o.path.value);
    }
    assert cookie == c0 + PathAttr(o);
    ghost var c1 := cookie;
    if o.httpOnly {
      cookie := cookie + "; HttpOnly";
    }
    assert cookie == c1 + Attr(o.httpOnly, "; HttpOnly");
    ghost var c2 := cookie;
    if o.secure {
      cookie := cookie + "; Secure";
    }
    assert cookie == c2 + Attr(o.secure, "; Secure");
    ghost var c3 := cookie;
    if TruthyString(o.sameSite) {
      cookie := cookie + ("; SameSite=" + o.sameSite.value);
    }
    assert cookie == c3 + SameSiteAttr(o);
    ghost var c4 := cookie;
    if TruthyNumber(o.maxAge) {
      cookie := cookie + ("; Max-Age=" + IntToString(o.maxAge.value));
    }
    assert cookie == c4 + MaxAgeAttr(o);
  }

  // ---------------------------------------------------------------------------
  // Response headers

  /** Every name of a `Headers` object holds at least one value. */
  ghost predicate WellFormed(h: Headers)
  {
    forall n :: n in h ==> |h[n]| >= 1
  }

  /** `ctx.get(name)`: the request header when non-empty, else the response header when
      non-empty, else undefined. */
  function Prefer(request: Headers, response: Headers, name: string): (r: Option<string>)
    ensures r.Some? ==> r.value != ""
    ensures r.None? <==> TruthyHeader(request, name).None? && TruthyHeader(response, name).None?
  {
    if TruthyHeader(request, name).Some? then TruthyHeader(request, name) else TruthyHeader(response, name)
  }

  /** A header set on the response is what `get` reads back, unless the request carries a
      non-empty header of that name, which shadows it. */
  lemma SetThenGet(request: Headers, response: Headers, name: string, value: string)
    requires value != ""
    ensures TruthyHeader(request, name).None? ==> Prefer(request, SetHeader(response, name, value), name) == Some(value)
    ensures TruthyHeader(request, name).Some? ==> Prefer(request, SetHeader(response, name, value), name) == TruthyHeader(request, name)
  {
    assert Join([value], ", ") == value;
  }

  /** `init` headers overridden by the context's headers, as `buildResponse` writes them. */
  datatype ResponseInit = ResponseInit(status: Option<int>, statusText: Option<string>, headers: Headers)

  /** The headers of `over` restricted to the names not in `todo`. */
  function Without(over: Headers, todo: set<string>): Headers
  {
    map n | n in over && n !in todo :: over[n]
  }

  /** The request's `Cookie` header, by its stored name. */
  const CookieName: string := "cookie"

  /** `Set-Cookie` as a `Headers` object stores it. */
  const SetCookieName: string := "set-cookie"

  /** The key `res.json` and `res.text` give their default content type. */
  const ContentTypeKey: string := "Content-Type"

  /** The context of one HTTP request. */
  class HttpContext {
    const request: Request
    const params: map<string, Option<string>>
    /** The cookies parsed when the context is created. */
    var cookies: map<string, string>
    /** The cookies `getCookie` parses on its first call. */
    var parsedCookies: Option<map<string, string>>
    var setCookies: seq<string>
    var responseHeaders: Headers

    ghost predicate Valid()
      reads this
    {
      WellFormed(responseHeaders)
    }

    constructor(req: Request, params: map<string, Option<string>>)
      ensures request == req && this.params == params
      ensures cookies == ParseCookies(HeaderValue(req.headers, CookieName))
      ensures parsedCookies == None && setCookies == [] && responseHeaders == map[]
      ensures Valid()
    {
      request := req;
      this.params := params;
      var parsed := ParseCookieHeader(HeaderValue(req.headers, CookieName));
      cookies := parsed;
      parsedCookies := None;
      setCookies := [];
      responseHeaders := map[];
    }

    /** `getCookie(name)`: parses the Cookie header on the first call only. */
    method GetCookie(name: string) returns (r: Option<string>)
      modifies this
      ensures parsedCookies == Some(if old(parsedCookies).Some? then old(parsedCookies).value else ParseCookies(HeaderValue(request.headers, CookieName)))
      ensures r == if name in parsedCookies.value then Some(parsedCookies.value[name]) else None
      ensures cookies == old(cookies) && setCookies == old(setCookies) && responseHeaders == old(responseHeaders)
    {
      var m;
      if parsedCookies.None? {
        m := ParseCookieHeader(HeaderValue(request.headers, CookieName));
        parsedCookies := Some(m);
      } else {
        m := parsedCookies.value;
      }
      r := if name in m then Some(m[name]) else None;
    }

    /** `set(name, value)`: replaces the response header. */
    method Set(name: string, value: string)
      requires Valid()
      modifies this
      ensures responseHeaders == SetHeader(old(responseHeaders), name, value)
      ensures cookies == old(cookies) && parsedCookies == old(parsedCookies) && setCookies == old(setCookies)
      ensures Valid()
    {
      responseHeaders := SetHeader(responseHeaders, name, value);
    }

    function Get(name: string): Option<string>
      reads this
    {
      Prefer(request.headers, responseHeaders, name)
    }

    /** `setCookie(name, value, options)`: appends one more `Set-Cookie` value. */
    method SetCookie(name: string, value: string, o: CookieOptions)
      requires Valid()
      modifies this
      ensures setCookies == old(setCookies) + [SerializeCookie(name, value, o)]
      ensures responseHeaders == AppendValue(old(responseHeaders), SetCookieName, SerializeCookie(name, value, o))
      ensures cookies == old(cookies) && parsedCookies == old(parsedCookies)
      ensures Valid()
    {
      var cookie := BuildCookie(name, value, o);
      setCookies := setCookies + [cookie];
      responseHeaders := AppendValue(responseHeaders, SetCookieName, cookie);
    }

    /** `buildResponse(body, init)`: the `init` headers with every context header written
        over them by iterating the context's headers. */
    method BuildResponse(body: string, init: ResponseInit) returns (r: Response)
      requires Valid()
      ensures r == Response(init.status.GetOr(200), init.statusText.GetOr(""), SetAll(init.headers, responseHeaders), body)
    {
      var headers := init.headers;
      var todo := responseHeaders.Keys;
      while todo != {}
        invariant todo <= responseHeaders.Keys
        invariant headers == SetAll(init.headers, Without(responseHeaders, todo))
        decreases |todo|
      {
        var n :| n in todo;
        headers := WriteIterated(headers, n, responseHeaders[n]);
        SetAllStep(init.headers, responseHeaders, todo, n);
        todo := todo - {n};
      }
      assert Without(responseHeaders, {}) == responseHeaders;
      r := Response(init.status.GetOr(200), init.statusText.GetOr(""), headers, body);
    }
  }

  /** The writes of one name while iterating a `Headers` object: each `Set-Cookie` value
      in turn, any other name once with its values joined. */
  method WriteIterated(headers: Headers, n: string, values: seq<string>) returns (r: Headers)
    requires |values| >= 1
    ensures r == headers[n := IteratedValue(n, values)]
  {
    r := headers;
    if n == "set-cookie" {
      for j := 0 to |values|
        invariant r == if j == 0 then headers else headers[n := [values[j - 1]]]
      {
        r := r[n := [values[j]]];
      }
    } else {
      r := r[n := [Join(values, ", ")]];
    }
  }

  lemma SetAllStep(base: Headers, over: Headers, todo: set<string>, n: string)
    requires n in todo && n in over
    ensures SetAll(base, Without(over, todo - {n})) == SetAll(base, Without(over, todo))[n := IteratedValue(n, over[n])]
  {
    WithoutStep(over, todo, n);
    SetAllPut(base, Without(over, todo), n, over[n]);
  }

  lemma WithoutStep(over: Headers, todo: set<string>, n: string)
    requires n in todo && n in over
    ensures Without(over, todo - {n}) == Without(over, todo)[n := over[n]]
  {
    var l, r := Without(over, todo - {n}), Without(over, todo)[n := over[n]];
    assert l.Keys == r.Keys;
  }

  lemma SetAllPut(base: Headers, w: Headers, n: string, v: seq<string>)
    ensures SetAll(base, w[n := v]) == SetAll(base, w)[n := IteratedValue(n, v)]
  {
    var l, r := SetAll(base, w[n := v]), SetAll(base, w)[n := IteratedValue(n, v)];
    assert l.Keys == r.Keys;
    forall k | k in l ensures l[k] == r[k] {
    }
  }

  // ---------------------------------------------------------------------------
  // Losing cookies in buildResponse

  /** As written, a context that set two cookies builds a response that carries only the
      second. */
  lemma BuildResponseDropsEarlierCookies(base: Headers, over: Headers, a: string, b: string)
    requires "set-cookie" in over && over["set-cookie"] == [a, b]
    ensures "set-cookie" in SetAll(base, over) && SetAll(base, over)["set-cookie"] == [b]
  {
    assert IteratedValue("set-cookie", [a, b]) == [b];
  }

  /** What `buildResponse` evidently intends: the context's headers override those of
      `init`, every `Set-Cookie` value included. */
  function OverrideHeaders(base: Headers, over: Headers): (r: Headers)
    ensures r.Keys == base.Keys + over.Keys
    ensures forall n :: n in base && n !in over ==> r[n] == base[n]
  {
    map n | n in base.Keys + over.Keys :: if n in over then (if n == "set-cookie" then over[n] else [Join(over[n], ", ")]) else base[n]
  }

  /** Every cookie the context set reaches the response, in order, and every other header
      of the context replaces the one from `init`. */
  lemma OverrideKeepsCookies(base: Headers, over: Headers)
    ensures "set-cookie" in over ==> "set-cookie" in OverrideHeaders(base, over) && OverrideHeaders(base, over)["set-cookie"] == over["set-cookie"]
    ensures forall n :: n in over && n != "set-cookie" ==> OverrideHeaders(base, over)[n] == [Join(over[n], ", ")]
    ensures forall n :: n in over && n != "set-cookie" ==> OverrideHeaders(base, over)[n] == SetAll(base, over)[n]
  {
  }

  /** `buildResponse` with the cookies kept. */
  function BuildResponseKeepingCookies(ctxHeaders: Headers, body: string, init: ResponseInit): (r: Response)
    ensures "set-cookie" in ctxHeaders ==> "set-cookie" in r.headers && r.headers["set-cookie"] == ctxHeaders["set-cookie"]
    ensures r.status == init.status.GetOr(200)
  {
    OverrideKeepsCookies(init.headers, ctxHeaders);
    Response(init.status.GetOr(200), init.statusText.GetOr(""), OverrideHeaders(init.headers, ctxHeaders), body)
  }

  // ---------------------------------------------------------------------------
  // res helpers

  /** `res.json(data, status, headers)`, with `data` given as its JSON text. */
  function ResJson(json: string, status: Option<int>, headers: seq<(string, string)>): (r: Response)
    ensures r.body == json && r.status == status.GetOr(200)
    ensures (forall i :: 0 <= i < |headers| ==> ToLower(headers[i].0) != ToLower(ContentTypeKey)) ==>
              ToLower(ContentTypeKey) in r.headers && r.headers[ToLower(ContentTypeKey)] == ["application/json"]
  {
    assert (forall i :: 0 <= i < |headers| ==> ToLower(headers[i].0) != ToLower(ContentTypeKey)) ==>
             var h := HeadersOf(Spread([(ContentTypeKey, "application/json")], headers));
             ToLower(ContentTypeKey) in h && h[ToLower(ContentTypeKey)] == ["application/json"] by {
      if forall i :: 0 <= i < |headers| ==> ToLower(headers[i].0) != ToLower(ContentTypeKey) {
        DefaultHeader(ContentTypeKey, ToLower(ContentTypeKey), "application/json", headers);
      }
    }
    Response(status.GetOr(200), "", HeadersOf(Spread([(ContentTypeKey, "application/json")], headers)), json)
  }

  /** `res.text(data, status, headers)`. */
  function ResText(text: string, status: Option<int>, headers: seq<(string, string)>): (r: Response)
    ensures r.body == text && r.status == status.GetOr(200)
    ensures (forall i :: 0 <= i < |headers| ==> ToLower(headers[i].0) != ToLower(ContentTypeKey)) ==>
              ToLower(ContentTypeKey) in r.headers && r.headers[ToLower(ContentTypeKey)] == ["text/plain"]
  {
    assert (forall i :: 0 <= i < |headers| ==> ToLower(headers[i].0) != ToLower(ContentTypeKey)) ==>
             var h := HeadersOf(Spread([(ContentTypeKey, "text/plain")], headers));
             ToLower(ContentTypeKey) in h && h[ToLower(ContentTypeKey)] == ["text/plain"] by {
      if forall i :: 0 <= i < |headers| ==> ToLower(headers[i].0) != ToLower(ContentTypeKey) {
        DefaultHeader(ContentTypeKey, ToLower(ContentTypeKey), "text/plain", headers);
      }
    }
    Response(status.GetOr(200), "", HeadersOf(Spread([(ContentTypeKey, "text/plain")], headers)), text)
  }

  /** `{ [key]: ct, ...headers }` as headers, where `key` names the header `n`: when
      `headers` never names `n`, the result holds `ct` alone under `n`. */
  lemma DefaultHeader(key: string, n: string, ct: string, headers: seq<(string, string)>)
    requires ToLower(key) == n
    requires forall i :: 0 <= i < |headers| ==> ToLower(headers[i].0) != n
    ensures var h := HeadersOf(Spread([(key, ct)], headers));
            n in h && h[n] == [ct]
  {
    assert forall i :: 0 <= i < |headers| ==> headers[i].0 != key;
    SpreadCons((key, ct), [], headers);
    var rest := Spread([], headers);
    SpreadKeys([], headers, n);
    var record := Spread([(key, ct)], headers);
    assert [(key, ct)] + [] == [(key, ct)];
    assert record == [(key, ct)] + rest;
    forall j | 0 < j < |record|
      ensures ToLower(record[j].0) != n
    {
      assert record[j] == rest[j - 1];
    }
    HeadersOfFirst(record, n);
  }

  /** Without a status or a content-type header, `res.json` answers 200 with
      `application/json` and `res.text` with `text/plain`. */
  lemma ResDefaults(body: string, headers: seq<(string, string)>)
    requires forall i :: 0 <= i < |headers| ==> ToLower(headers[i].0) != ToLower(ContentTypeKey)
    ensures var j := ResJson(body, None, headers);
            j.status == 200 && ToLower(ContentTypeKey) in j.headers && j.headers[ToLower(ContentTypeKey)] == ["application/json"]
    ensures var t := ResText(body, None, headers);
            t.status == 200 && ToLower(ContentTypeKey) in t.headers && t.headers[ToLower(ContentTypeKey)] == ["text/plain"]
  {
    DefaultHeader(ContentTypeKey, ToLower(ContentTypeKey), "application/json", headers);
    DefaultHeader(ContentTypeKey, ToLower(ContentTypeKey), "text/plain", headers);
  }
}
