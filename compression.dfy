/** The response-compression middleware (packages/core/core/compression.ts): whether a
    response is compressed, with which encoding (section 12.5.3 of RFC 9110), and the
    headers of the compressed response. The zlib compressors are parameters; a body is
    taken as a string of bytes. */
module Compression {
  import opened Strings
  import opened Opt
  import opened Http

  datatype GzipOptions = GzipOptions(enabled: Option<bool>, level: Option<int>)

  datatype BrotliOptions = BrotliOptions(enabled: Option<bool>, level: Option<int>, mode: Option<string>,
                                         quality: Option<int>, lgwin: Option<int>, lgblock: Option<int>)

  datatype CompressionConfig = CompressionConfig(enabled: bool, level: Option<int>, threshold: Option<int>,
                                                 types: Option<seq<string>>, exclude: Option<seq<string>>,
                                                 windowBits: Option<int>, memLevel: Option<int>, strategy: Option<string>,
                                                 gzip: Option<GzipOptions>, brotli: Option<BrotliOptions>)

  /** The options handed to `gzipSync`. */
  datatype GzipParams = GzipParams(level: int, windowBits: int, memLevel: int, strategy: int)

  /** The parameters handed to `brotliCompressSync`. */
  datatype BrotliParams = BrotliParams(quality: int, lgwin: int, lgblock: int, mode: int)

  // Header names in the lower case a `Headers` object stores.
  const ContentTypeHeader: string := "content-type"
  const AcceptEncodingHeader: string := "accept-encoding"
  const ContentEncodingHeader: string := "content-encoding"
  const VaryHeader: string := "vary"
  const ContentLengthHeader: string := "content-length"

  /** `getGzipStrategy`: the zlib strategy code of a strategy name. */
  function GzipStrategy(strategy: string): (code: int)
    ensures 0 <= code <= 4
    ensures code == 0 <==> strategy !in {"filtered", "huffman", "rle", "fixed"}
  {
    match strategy
    case "filtered" => 1
    case "huffman" => 2
    case "rle" => 3
    case "fixed" => 4
    case _ => 0
  }

  /** The brotli mode: text 1, font 2, anything else generic 0. */
  function BrotliMode(mode: Option<string>): (m: int)
    ensures 0 <= m <= 2
    ensures m == 1 <==> mode == Some("text")
    ensures m == 2 <==> mode == Some("font")
  {
    if mode == Some("text") then 1 else if mode == Some("font") then 2 else 0
  }

  /** The parameters `compressGzip` uses: the gzip section's level (default 6), the
      top-level window bits (15), memory level (8) and strategy (`'default'`). */
  function GzipParamsOf(c: CompressionConfig): (p: GzipParams)
    ensures c.gzip.None? && c.windowBits.None? && c.memLevel.None? && c.strategy.None? ==> p == GzipParams(6, 15, 8, 0)
    ensures c.gzip.Some? && c.gzip.value.level.Some? ==> p.level == c.gzip.value.level.value
    ensures 0 <= p.strategy <= 4
  {
    var g := c.gzip.GetOr(GzipOptions(None, None));
    GzipParams(g.level.GetOr(6), c.windowBits.GetOr(15), c.memLevel.GetOr(8), GzipStrategy(c.strategy.GetOr("default")))
  }

  /** The parameters `compressBrotli` uses: quality 11, window 22 and block 0 by default. */
  function BrotliParamsOf(c: CompressionConfig): (p: BrotliParams)
    ensures c.brotli.None? ==> p == BrotliParams(11, 22, 0, 0)
    ensures c.brotli.Some? && c.brotli.value.quality.Some? ==> p.quality == c.brotli.value.quality.value
    ensures 0 <= p.mode <= 2
  {
    var b := c.brotli.GetOr(BrotliOptions(None, None, None, None, None, None));
    BrotliParams(b.quality.GetOr(11), b.lgwin.GetOr(22), b.lgblock.GetOr(0), BrotliMode(b.mode))
  }

  /** Some excluded prefix starts the pathname. */
  function Excluded(c: CompressionConfig, pathname: string): (b: bool)
    ensures b <==> c.exclude.Some? && exists i :: 0 <= i < |c.exclude.value| && StartsWith(pathname, c.exclude.value[i])
  {
    c.exclude.Some? && AnyPrefix(c.exclude.value, pathname)
  }

  function AnyPrefix(prefixes: seq<string>, s: string): (b: bool)
    ensures b <==> exists i :: 0 <= i < |prefixes| && StartsWith(s, prefixes[i])
  {
    if |prefixes| == 0 then false
    else StartsWith(s, prefixes[0]) || AnyPrefix(prefixes[1..], s)
  }

  /** `shouldCompress(response)`: a non-empty content type containing some configured
      type. */
  function ShouldCompress(c: CompressionConfig, response: Response): (b: bool)
    ensures b <==> var ct := HeaderValue(response.headers, ContentTypeHeader);
                   ct.Some? && ct.value != "" && c.types.Some?
                   && exists i :: 0 <= i < |c.types.value| && Contains(ct.value, c.types.value[i])
  {
    var ct := HeaderValue(response.headers, ContentTypeHeader);
    if ct.None? || ct.value == "" then false
    else c.types.Some? && AnyContained(c.types.value, ct.value)
  }

  function AnyContained(types: seq<string>, s: string): (b: bool)
    ensures b <==> exists i :: 0 <= i < |types| && Contains(s, types[i])
  {
    if |types| == 0 then false
    else Includes(s, types[0]) || AnyContained(types[1..], s)
  }

  /** The encoding chosen for an `Accept-Encoding` value: brotli when the client names `br`
      and brotli is enabled, else gzip when it names `gzip` and gzip is enabled. */
  function ChosenEncoding(c: CompressionConfig, acceptEncoding: string): (e: Option<string>)
    ensures e == Some("br") <==> Contains(acceptEncoding, "br") && c.brotli.Some? && c.brotli.value.enabled == Some(true)
    ensures e == Some("gzip") <==> !(Contains(acceptEncoding, "br") && c.brotli.Some? && c.brotli.value.enabled == Some(true))
                                    && Contains(acceptEncoding, "gzip") && c.gzip.Some? && c.gzip.value.enabled == Some(true)
    ensures e.None? || e == Some("br") || e == Some("gzip")
  {
    var br := Includes(acceptEncoding, "br") && c.brotli.Some? && c.brotli.value.enabled == Some(true);
    var gz := Includes(acceptEncoding, "gzip") && c.gzip.Some? && c.gzip.value.enabled == Some(true);
    if br then Some("br") else if gz then Some("gzip") else None
  }

  /** The headers of the compressed response: the original ones, then `Content-Encoding`,
      `Vary: Accept-Encoding` and `Content-Length` set (sections 8.4 and 12.5.5 of
      RFC 9110). */
  function CompressedHeaders(h: Headers, encoding: string, length: nat): (r: Headers)
    ensures r.Keys == h.Keys + {ContentEncodingHeader, VaryHeader, ContentLengthHeader}
    ensures HeaderValue(r, ContentEncodingHeader) == Some(encoding) && HeaderValue(r, VaryHeader) == Some("Accept-Encoding")
    ensures HeaderValue(r, ContentLengthHeader) == Some(NatToString(length))
    ensures forall n :: n in h && n !in {ContentEncodingHeader, VaryHeader, ContentLengthHeader} ==> r[n] == h[n]
  {
    PutHeader(PutHeader(PutHeader(h, ContentEncodingHeader, encoding), VaryHeader, "Accept-Encoding"), ContentLengthHeader, NatToString(length))
  }

  /** A response as the middleware hands it on, with whether its body stream has already
      been read: once `arrayBuffer()` has read it, the body cannot be read again by
      whoever sends the response. */
  datatype Outgoing = Outgoing(response: Response, bodyUsed: bool)

  function AcceptEncodingOf(req: Request): string
  {
    HeaderValue(req.headers, AcceptEncodingHeader).GetOr("")
  }

  /** The paths on which `handle` reads the body and then returns the response it read:
      below the threshold, or with no encoding both sides support. */
  predicate ReadThenReturned(c: CompressionConfig, req: Request, downstream: Response)
  {
    c.enabled && !Excluded(c, req.url.pathname) && ShouldCompress(c, downstream)
    && (|downstream.body| < c.threshold.GetOr(0) || ChosenEncoding(c, AcceptEncodingOf(req)).None?)
  }

  /** `handle(ctx, next)` once `next()` answered `downstream`, as written: on the two
      paths after `arrayBuffer()` the response whose body was read is returned. */
  method Handle(c: CompressionConfig, req: Request, downstream: Response,
                gzip: (string, GzipParams) -> string, brotli: (string, BrotliParams) -> string)
    returns (r: Outgoing)
    ensures !c.enabled || Excluded(c, req.url.pathname) || !ShouldCompress(c, downstream)
            ==> r == Outgoing(downstream, false)
    ensures ReadThenReturned(c, req, downstream) ==> r == Outgoing(downstream, true)
    ensures c.enabled && !Excluded(c, req.url.pathname) && ShouldCompress(c, downstream)
            && |downstream.body| >= c.threshold.GetOr(0)
            && ChosenEncoding(c, AcceptEncodingOf(req)).Some?
            ==> var enc := ChosenEncoding(c, AcceptEncodingOf(req)).value;
                var body := if enc == "br" then brotli(downstream.body, BrotliParamsOf(c)) else gzip(downstream.body, GzipParamsOf(c));
                r == Outgoing(Response(downstream.status, downstream.statusText, CompressedHeaders(downstream.headers, enc, |body|), body), false)
  {
    if !c.enabled {
      return Outgoing(downstream, false);
    }
    if c.exclude.Some? && AnyPrefix(c.exclude.value, req.url.pathname) {
      return Outgoing(downstream, false);
    }
    var response := downstream;
    if !ShouldCompress(c, response) {
      return Outgoing(response, false);
    }
    var body := response.body;
    var threshold := if c.threshold.Some? then c.threshold.value else 0;
    if |body| < threshold {
      return Outgoing(response, true);
    }
    var acceptEncoding := HeaderValue(req.headers, AcceptEncodingHeader).GetOr("");
    var supportsBrotli := Includes(acceptEncoding, "br") && c.brotli.Some? && c.brotli.value.enabled == Some(true);
    var supportsGzip := Includes(acceptEncoding, "gzip") && c.gzip.Some? && c.gzip.value.enabled == Some(true);
    if !supportsBrotli && !supportsGzip {
      return Outgoing(response, true);
    }
    var compressed: string;
    var encoding: string;
    if supportsBrotli {
      compressed := brotli(body, BrotliParamsOf(c));
      encoding := "br";
    } else {
      compressed := gzip(body, GzipParamsOf(c));
      encoding := "gzip";
    }
    var headers := response.headers;
    headers := PutHeader(headers, ContentEncodingHeader, encoding);
    headers := PutHeader(headers, VaryHeader, "Accept-Encoding");
    headers := PutHeader(headers, ContentLengthHeader, NatToString(|compressed|));
    r := Outgoing(Response(response.status, response.statusText, headers, compressed), false);
  }

  /** `handle` with the body that was read handed back in a new response with the same
      status, status text and headers, wherever the read response was returned. */
  method HandleRebuilt(c: CompressionConfig, req: Request, downstream: Response,
                       gzip: (string, GzipParams) -> string, brotli: (string, BrotliParams) -> string)
    returns (r: Outgoing)
    ensures !r.bodyUsed
    ensures !c.enabled || Excluded(c, req.url.pathname) || !ShouldCompress(c, downstream)
            || ReadThenReturned(c, req, downstream)
            ==> r.response == downstream
    ensures c.enabled && !Excluded(c, req.url.pathname) && ShouldCompress(c, downstream)
            && |downstream.body| >= c.threshold.GetOr(0)
            && ChosenEncoding(c, AcceptEncodingOf(req)).Some?
            ==> var enc := ChosenEncoding(c, AcceptEncodingOf(req)).value;
                var body := if enc == "br" then brotli(downstream.body, BrotliParamsOf(c)) else gzip(downstream.body, GzipParamsOf(c));
                r.response == Response(downstream.status, downstream.statusText, CompressedHeaders(downstream.headers, enc, |body|), body)
  {
    r := Handle(c, req, downstream, gzip, brotli);
    if r.bodyUsed {
      var read := r.response;
      r := Outgoing(Response(read.status, read.statusText, read.headers, read.body), false);
    }
  }

  // ---------------------------------------------------------------------------
  // Properties

  /** A compressed response carries its encoding, `Vary: Accept-Encoding` and the
      compressed length, and keeps every other header. */
  lemma CompressedHeadersSpec(h: Headers, encoding: string, length: nat)
    ensures var r := CompressedHeaders(h, encoding, length);
            && ContentEncodingHeader in r && r[ContentEncodingHeader] == [encoding]
            && VaryHeader in r && r[VaryHeader] == ["Accept-Encoding"]
            && ContentLengthHeader in r && r[ContentLengthHeader] == [NatToString(length)]
            && forall n :: n in h && n !in {ContentEncodingHeader, VaryHeader, ContentLengthHeader} ==> n in r && r[n] == h[n]
  {
  }

  /** Brotli wins over gzip whenever the client accepts both and both are enabled. */
  lemma BrotliPreferred(c: CompressionConfig, acceptEncoding: string)
    requires Contains(acceptEncoding, "br") && Contains(acceptEncoding, "gzip")
    requires c.brotli.Some? && c.brotli.value.enabled == Some(true) && c.gzip.Some? && c.gzip.value.enabled == Some(true)
    ensures ChosenEncoding(c, acceptEncoding) == Some("br")
  {
  }

  /** Without any `types` nothing is compressed. */
  lemma NoTypesNoCompression(c: CompressionConfig, response: Response)
    requires c.types.None? || c.types.value == []
    ensures !ShouldCompress(c, response)
  {
  }
}
