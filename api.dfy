/**
 * The HTTP sink (internal/pkg/storage/api/api.go): configuration checks, the
 * 6 MiB size and compression policy, header assembly and the order in which
 * `Write` reports its errors. gzip, building the request and the HTTP round trip
 * are parameters; header names are kept as given (no canonicalisation).
 */
module ApiStorage {
  import opened Wrappers
  import opened Text

  datatype ApiConfig = ApiConfig(apiKey: string, apiSignature: string, apiEndpoint: string, httpHeaders: seq<string>)

  /**
   * `NewApi`: key, then signature, then endpoint must be non-empty, and the first
   * one missing names the error; otherwise the writer holds the same configuration.
   * Go copies the header slice so the caller cannot change it later; Dafny
   * sequences are values, so the stored headers are the given ones for good.
   */
  function NewApi(cfg: ApiConfig): (r: Result<ApiConfig, Error>)
    ensures r.Success? <==> cfg.apiKey != "" && cfg.apiSignature != "" && cfg.apiEndpoint != ""
    ensures r.Success? ==> r.value == cfg
    ensures cfg.apiKey == "" ==> r == Failure(Error("missing Api Key"))
    ensures cfg.apiKey != "" && cfg.apiSignature == "" ==> r == Failure(Error("missing Api Signature"))
    ensures cfg.apiKey != "" && cfg.apiSignature != "" && cfg.apiEndpoint == "" ==>
      r == Failure(Error("missing Api Endpoint"))
  {
    if cfg.apiKey == "" then Failure(Error("missing Api Key"))
    else if cfg.apiSignature == "" then Failure(Error("missing Api Signature"))
    else if cfg.apiEndpoint == "" then Failure(Error("missing Api Endpoint"))
    else Success(ApiConfig(cfg.apiKey, cfg.apiSignature, cfg.apiEndpoint, cfg.httpHeaders))
  }

  // ---------------------------------------------------------------------------
  // Headers
  // ---------------------------------------------------------------------------

  /** Request headers: `Header.Set` keeps one value per name, the last one set. */
  type Headers = map<string, string>

  /** An extra header is usable when `strings.SplitN(h, ":", 2)` gives two parts. */
  predicate ValidHeader(h: string) {
    ':' in h
  }

  function HeaderName(h: string): string
    requires ValidHeader(h)
  {
    SplitFirst(h, ':').value.0
  }

  function HeaderValue(h: string): string
    requires ValidHeader(h)
  {
    SplitFirst(h, ':').value.1
  }

  /** The headers every request carries, plus `Content-Encoding` for a compressed body. */
  function FixedHeaders(api: ApiConfig, compressed: bool): (h: Headers)
    ensures h.Keys == {"x-api-key", "x-api-signature", "Content-Type"} + (if compressed then {"Content-Encoding"} else {})
    ensures h["x-api-key"] == api.apiKey && h["x-api-signature"] == api.apiSignature
    ensures h["Content-Type"] == "application/json"
    ensures compressed ==> h["Content-Encoding"] == "gzip"
  {
    var h := map["x-api-key" := api.apiKey, "x-api-signature" := api.apiSignature, "Content-Type" := "application/json"];
    if compressed then h["Content-Encoding" := "gzip"] else h
  }

  /**
   * The extra headers set one after another on `h`: each is split at its first
   * colon, so its value may hold further colons; the first one without a colon
   * stops the assembly with "invalid header format: <header>".
   */
  function WithHeaders(h: Headers, extra: seq<string>): (r: Result<Headers, Error>)
    ensures r.Success? <==> forall i :: 0 <= i < |extra| ==> ValidHeader(extra[i])
    ensures r.Failure? ==>
      exists i :: 0 <= i < |extra| && !ValidHeader(extra[i]) && (forall j :: 0 <= j < i ==> ValidHeader(extra[j]))
                  && r.error == Error("invalid header format: " + extra[i])
    decreases |extra|
  {
    if extra == [] then Success(h)
    else
      match SplitFirst(extra[0], ':')
      case None => Failure(Error("invalid header format: " + extra[0]))
      case Some((name, value)) =>
        var r := WithHeaders(h[name := value], extra[1..]);
        assert forall i :: 0 <= i < |extra[1..]| ==> extra[1..][i] == extra[i + 1];
        r
  }

  /** Header names set by the extra headers. */
  ghost function ExtraNames(extra: seq<string>): set<string>
    requires forall i :: 0 <= i < |extra| ==> ValidHeader(extra[i])
  {
    set i | 0 <= i < |extra| :: HeaderName(extra[i])
  }

  /** Setting all extra headers adds exactly their names. */
  lemma {:induction false} WithHeadersKeys(h: Headers, extra: seq<string>)
    requires forall i :: 0 <= i < |extra| ==> ValidHeader(extra[i])
    ensures WithHeaders(h, extra).value.Keys == h.Keys + ExtraNames(extra)
    decreases |extra|
  {
    if extra != [] {
      var name := HeaderName(extra[0]);
      var value := HeaderValue(extra[0]);
      var tail := extra[1..];
      WithHeadersKeys(h[name := value], tail);
      assert ExtraNames(extra) == {name} + ExtraNames(tail) by {
        forall n | n in ExtraNames(extra) ensures n in {name} + ExtraNames(tail) {
          var i :| 0 <= i < |extra| && HeaderName(extra[i]) == n;
          if i > 0 { assert tail[i - 1] == extra[i]; }
        }
        forall n | n in ExtraNames(tail) ensures n in ExtraNames(extra) {
          var i :| 0 <= i < |tail| && HeaderName(tail[i]) == n;
          assert extra[i + 1] == tail[i];
        }
      }
    }
  }

  /** The last extra header of a given name decides that header's value. */
  lemma {:induction false} WithHeadersLastWins(h: Headers, extra: seq<string>, i: int)
    requires forall j :: 0 <= j < |extra| ==> ValidHeader(extra[j])
    requires 0 <= i < |extra|
    requires forall j :: i < j < |extra| ==> HeaderName(extra[j]) != HeaderName(extra[i])
    ensures HeaderName(extra[i]) in WithHeaders(h, extra).value
    ensures WithHeaders(h, extra).value[HeaderName(extra[i])] == HeaderValue(extra[i])
    decreases |extra|
  {
    var name := HeaderName(extra[0]);
    var value := HeaderValue(extra[0]);
    var tail := extra[1..];
    if i == 0 {
      WithHeadersKeepsOthers(h[name := value], tail, name);
    } else {
      assert tail[i - 1] == extra[i];
      WithHeadersLastWins(h[name := value], tail, i - 1);
    }
  }

  /** A header no extra header names keeps its value. */
  lemma {:induction false} WithHeadersKeepsOthers(h: Headers, extra: seq<string>, k: string)
    requires forall j :: 0 <= j < |extra| ==> ValidHeader(extra[j])
    requires k in h
    requires forall j :: 0 <= j < |extra| ==> HeaderName(extra[j]) != k
    ensures k in WithHeaders(h, extra).value && WithHeaders(h, extra).value[k] == h[k]
    decreases |extra|
  {
    if extra != [] {
      var name := HeaderName(extra[0]);
      var value := HeaderValue(extra[0]);
      var tail := extra[1..];
      assert forall j :: 0 <= j < |tail| ==> tail[j] == extra[j + 1];
      WithHeadersKeepsOthers(h[name := value], tail, k);
    }
  }

  /** One extra header `name:value` with a colon-free name sets exactly that header. */
  lemma WithOneHeader(h: Headers, name: string, value: string)
    requires ':' !in name
    ensures WithHeaders(h, [name + ":" + value]) == Success(h[name := value])
  {
    SplitFirstAt(name, ':', value);
    assert name + ":" + value == name + [':'] + value;
  }

  /**
   * The header loop of `Write`: the extra headers are set in order on `h`; the
   * first malformed one ends the loop with its error.
   */
  method SetHeaders(h: Headers, extra: seq<string>) returns (r: Result<Headers, Error>)
    ensures r == WithHeaders(h, extra)
  {
    var headers := h;
    var i := 0;
    while i < |extra|
      invariant 0 <= i <= |extra|
      invariant WithHeaders(h, extra) == WithHeaders(headers, extra[i..])
    {
      assert extra[i..][1..] == extra[i + 1..];
      var parts := SplitFirst(extra[i], ':');
      if parts.None? {
        return Failure(Error("invalid header format: " + extra[i]));
      }
      headers := headers[parts.value.0 := parts.value.1];
      i := i + 1;
    }
    return Success(headers);
  }

  // ---------------------------------------------------------------------------
  // Write
  // ---------------------------------------------------------------------------

  /** The largest body the API accepts: 6 MiB. */
  const MaxContentSize: nat := 6 * 1024 * 1024

  /** `CompressJSONBytes`: the gzip stream of the bytes, or the error of the gzip writer. */
  type Compressor = Bytes -> Result<Bytes, Error>

  /** The error `http.NewRequest` gives for an endpoint, if any. */
  type RequestBuilder = string -> Option<Error>

  datatype Request = Request(httpMethod: string, endpoint: string, headers: Headers, body: Bytes)

  datatype Response = Response(statusCode: int, status: string)

  /** What the server, or the transport in front of it, answers to a request. */
  type Transport = Request -> Result<Response, Error>

  /** The outcome of `Write`: its two results and the request sent, if one was. */
  datatype WriteOutcome = WriteOutcome(n: int, err: Option<Error>, sent: Option<Request>)

  function StatusError(status: string): Error {
    Error("got a Status '" + status + "' instead of an '200 OK' response for API request")
  }

  /**
   * `ApiConfig.Write`, step by step: compress only above the limit; refuse a body
   * still above it; build the request; set the fixed and then the extra headers;
   * send it; accept only status 200. Every error returns 0; success returns the
   * length of the original, uncompressed content.
   */
  function WriteSpec(api: ApiConfig, content: Bytes, compress: Compressor, newRequest: RequestBuilder,
                     transport: Transport): (o: WriteOutcome)
    ensures o.err.Some? ==> o.n == 0
    ensures o.err.None? ==> o.n == |content|
    ensures o.err.None? <==>
      (o.sent.Some? && transport(o.sent.value).Success? && transport(o.sent.value).value.statusCode == 200)
    ensures o.sent.Some? ==>
      o.sent.value.httpMethod == "PUT" && o.sent.value.endpoint == api.apiEndpoint
      && |o.sent.value.body| <= MaxContentSize
      && (|content| > MaxContentSize ==> compress(content).Success?)
      && o.sent.value.body == (if |content| > MaxContentSize then compress(content).value else content)
      && WithHeaders(FixedHeaders(api, |content| > MaxContentSize), api.httpHeaders) == Success(o.sent.value.headers)
    ensures o.sent.Some? && transport(o.sent.value).Failure? ==> o.err == Some(transport(o.sent.value).error)
    ensures o.sent.Some? && transport(o.sent.value).Success? && transport(o.sent.value).value.statusCode != 200 ==>
      o.err == Some(StatusError(transport(o.sent.value).value.status))
  {
    var compressed := |content| > MaxContentSize;
    var payload := if compressed then compress(content) else Success(content);
    if payload.Failure? then WriteOutcome(0, Some(payload.error), None)
    else if |payload.value| > MaxContentSize then
      WriteOutcome(0, Some(Error("content size is too large (" + FormatInt(|payload.value|) + " bytes)")), None)
    else if newRequest(api.apiEndpoint).Some? then WriteOutcome(0, newRequest(api.apiEndpoint), None)
    else
      match WithHeaders(FixedHeaders(api, compressed), api.httpHeaders)
      case Failure(e) => WriteOutcome(0, Some(e), None)
      case Success(headers) =>
        var request := Request("PUT", api.apiEndpoint, headers, payload.value);
        match transport(request)
        case Failure(e) => WriteOutcome(0, Some(e), Some(request))
        case Success(res) =>
          if res.statusCode != 200 then WriteOutcome(0, Some(StatusError(res.status)), Some(request))
          else WriteOutcome(|content|, None, Some(request))
  }

  /** The HTTP client's view of the network: it records every request it sends. */
  class Client {
    var sent: seq<Request>
    const transport: Transport

    constructor (transport: Transport)
      ensures sent == [] && this.transport == transport
    {
      sent := [];
      this.transport := transport;
    }

    /** `client.Do`: one request goes out, the transport's answer comes back. */
    method Do(request: Request) returns (r: Result<Response, Error>)
      modifies this
      ensures sent == old(sent) + [request]
      ensures r == transport(request)
    {
      sent := sent + [request];
      r := transport(request);
    }
  }

  /** `ApiConfig.Write` on the client `client`: at most one request is sent. */
  method Write(api: ApiConfig, content: Bytes, compress: Compressor, newRequest: RequestBuilder, client: Client)
    returns (n: int, err: Option<Error>)
    modifies client
    ensures n == WriteSpec(api, content, compress, newRequest, client.transport).n
    ensures err == WriteSpec(api, content, compress, newRequest, client.transport).err
    ensures client.sent == old(client.sent) + OptionToSeq(WriteSpec(api, content, compress, newRequest, client.transport).sent)
  {
    var contentToSend := content;
    var contentSize := |content|;
    var addCompressHeader := false;
    if contentSize > MaxContentSize {
      var compressed := compress(content);
      if compressed.Failure? {
        return 0, Some(compressed.error);
      }
      addCompressHeader := true;
      contentSize := |compressed.value|;
      contentToSend := compressed.value;
    }
    if contentSize > MaxContentSize {
      return 0, Some(Error("content size is too large (" + FormatInt(contentSize) + " bytes)"));
    }
    var requestError := newRequest(api.apiEndpoint);
    if requestError.Some? {
      return 0, requestError;
    }
    var headers := map[];
    headers := headers["x-api-key" := api.apiKey];
    headers := headers["x-api-signature" := api.apiSignature];
    headers := headers["Content-Type" := "application/json"];
    if addCompressHeader {
      headers := headers["Content-Encoding" := "gzip"];
    }
    assert headers == FixedHeaders(api, addCompressHeader);
    var withExtra := SetHeaders(headers, api.httpHeaders);
    if withExtra.Failure? {
      return 0, Some(withExtra.error);
    }
    var request := Request("PUT", api.apiEndpoint, withExtra.value, contentToSend);
    var res := client.Do(request);
    if res.Failure? {
      return 0, Some(res.error);
    }
    if res.value.statusCode != 200 {
      return 0, Some(StatusError(res.value.status));
    }
    return |content|, None;
  }

  // ---------------------------------------------------------------------------
  // Properties of Write
  // ---------------------------------------------------------------------------

  /**
   * Up to and including 6 MiB the compressor plays no part: the content goes out
   * unchanged and no `Content-Encoding` is added.
   */
  lemma WriteUpToLimitIgnoresCompressor(api: ApiConfig, content: Bytes, c1: Compressor, c2: Compressor,
                                         newRequest: RequestBuilder, transport: Transport)
    requires |content| <= MaxContentSize
    ensures WriteSpec(api, content, c1, newRequest, transport) == WriteSpec(api, content, c2, newRequest, transport)
    ensures WriteSpec(api, content, c1, newRequest, transport).sent.Some? ==>
      WriteSpec(api, content, c1, newRequest, transport).sent.value.body == content
  {
  }

  /** Above the limit the compressed stream is sent, marked `Content-Encoding: gzip`. */
  lemma WriteAboveLimitSendsCompressed(api: ApiConfig, content: Bytes, compress: Compressor,
                                       newRequest: RequestBuilder, transport: Transport)
    requires |content| > MaxContentSize
    requires WriteSpec(api, content, compress, newRequest, transport).sent.Some?
    requires forall i :: 0 <= i < |api.httpHeaders| ==>
      (!ValidHeader(api.httpHeaders[i]) || HeaderName(api.httpHeaders[i]) != "Content-Encoding")
    ensures compress(content).Success?
    ensures WriteSpec(api, content, compress, newRequest, transport).sent.value.body == compress(content).value
    ensures "Content-Encoding" in WriteSpec(api, content, compress, newRequest, transport).sent.value.headers
    ensures WriteSpec(api, content, compress, newRequest, transport).sent.value.headers["Content-Encoding"] == "gzip"
  {
    WithHeadersKeepsOthers(FixedHeaders(api, true), api.httpHeaders, "Content-Encoding");
  }

  /**
   * A body still above the limit after compression is refused before anything
   * else is looked at, malformed extra headers included: nothing is sent.
   */
  lemma WriteTooLargeAfterCompression(api: ApiConfig, content: Bytes, compress: Compressor,
                                      newRequest: RequestBuilder, transport: Transport)
    requires |content| > MaxContentSize
    requires compress(content).Success? && |compress(content).value| > MaxContentSize
    ensures WriteSpec(api, content, compress, newRequest, transport)
         == WriteOutcome(0, Some(Error("content size is too large (" + FormatInt(|compress(content).value|) + " bytes)")), None)
  {
  }

  /** A compression failure is returned as it is, with 0 and nothing sent. */
  lemma WriteCompressionFailure(api: ApiConfig, content: Bytes, compress: Compressor,
                                newRequest: RequestBuilder, transport: Transport)
    requires |content| > MaxContentSize && compress(content).Failure?
    ensures WriteSpec(api, content, compress, newRequest, transport) == WriteOutcome(0, Some(compress(content).error), None)
  {
  }

  /** A malformed extra header is reported before the request is sent. */
  lemma WriteInvalidHeaderSendsNothing(api: ApiConfig, content: Bytes, compress: Compressor,
                                       newRequest: RequestBuilder, transport: Transport, i: int)
    requires 0 <= i < |api.httpHeaders| && !ValidHeader(api.httpHeaders[i])
    ensures WriteSpec(api, content, compress, newRequest, transport).sent.None?
    ensures WriteSpec(api, content, compress, newRequest, transport).err.Some?
  {
  }

  /**
   * A sent request carries key, signature and content type unless an extra header
   * of the same name replaces them, and each extra header's last value.
   */
  lemma {:induction false} WriteSentHeaders(api: ApiConfig, content: Bytes, compress: Compressor,
                                            newRequest: RequestBuilder, transport: Transport)
    requires WriteSpec(api, content, compress, newRequest, transport).sent.Some?
    ensures forall i :: 0 <= i < |api.httpHeaders| ==> ValidHeader(api.httpHeaders[i])
    ensures WriteSpec(api, content, compress, newRequest, transport).sent.value.headers.Keys
         == FixedHeaders(api, |content| > MaxContentSize).Keys + ExtraNames(api.httpHeaders)
    ensures "x-api-key" !in ExtraNames(api.httpHeaders) ==>
      WriteSpec(api, content, compress, newRequest, transport).sent.value.headers["x-api-key"] == api.apiKey
    ensures "x-api-signature" !in ExtraNames(api.httpHeaders) ==>
      WriteSpec(api, content, compress, newRequest, transport).sent.value.headers["x-api-signature"] == api.apiSignature
    ensures "Content-Type" !in ExtraNames(api.httpHeaders) ==>
      WriteSpec(api, content, compress, newRequest, transport).sent.value.headers["Content-Type"] == "application/json"
  {
    var fixed := FixedHeaders(api, |content| > MaxContentSize);
    var extra := api.httpHeaders;
    WithHeadersKeys(fixed, extra);
    forall k | k in {"x-api-key", "x-api-signature", "Content-Type"} && k !in ExtraNames(extra)
      ensures WithHeaders(fixed, extra).value[k] == fixed[k]
    {
      assert forall j :: 0 <= j < |extra| ==> HeaderName(extra[j]) in ExtraNames(extra);
      WithHeadersKeepsOthers(fixed, extra, k);
    }
  }
}
