/** The stream-based HTTP client: how `retrieveResponse` turns a method, a
    body and a header dictionary into the request it sends, how the stream
    options route that request through a proxy, and how the raw response is
    classified as a success or a `TokenResponseException`. */
module StreamClient {
  import opened Php
  import opened PhpArray
  import opened Exceptions
  import opened Uri

  /** The `$requestBody` argument: a raw string, a key/value array or null. */
  datatype Body =
    | RawBody(bytes: string)
    | FormBody(fields: Dict<string>)
    | NullBody

  /** PHP `empty($requestBody)`: "", "0", an empty array and null. */
  predicate EmptyBody(b: Body) {
    match b
    case RawBody(s) => EmptyString(s)
    case FormBody(f) => |f| == 0
    case NullBody => true
  }

  /** Header dictionary: header name => full header line ("Name: value"). */
  type Headers = Dict<string>

  /** What `retrieveResponse` hands to `getResponse`. */
  datatype Request = Request(verb: string, body: string, headers: Headers)

  /** Transport settings held by the client object. */
  datatype ClientConfig = ClientConfig(userAgent: string, maxRedirects: nat, timeout: nat)

  /** The 'http' options of the stream context. `proxy` is the proxy URI
      whose absolute form is passed on; `requestFulluri` is false when the
      option is absent. */
  datatype StreamOptions = StreamOptions(
    verb: string,
    header: string,
    content: string,
    protocolVersion: string,
    userAgent: string,
    maxRedirects: nat,
    timeout: nat,
    ignoreErrors: bool,
    proxy: Option<UriValue>,
    requestFulluri: bool)

  /** What the network returns: `$http_response_header` and the body. */
  datatype Reply = Reply(headerLines: seq<string>, body: string)

  const GetWithBodyMessage := "No body expected for \"GET\" request."
  const FormContentType := "Content-type: application/x-www-form-urlencoded"
  const CloseConnection := "Connection: close"
  const CrLf := "\r\n"

  /** The header names the client sets itself. */
  const ClientKeys: set<string> := {"Content-type", "Host", "Connection", "Content-length"}

  /** The "key=value" pieces of `http_build_query($fields, '', '&')`, with the
      key and the value passed through the given URL encoder. */
  function QueryFields(fields: Dict<string>, urlencode: string -> string): (r: seq<string>)
    ensures |r| == |fields|
    ensures forall i :: 0 <= i < |fields| ==> r[i] == urlencode(fields[i].0) + "=" + urlencode(fields[i].1)
  {
    if fields == [] then []
    else [urlencode(fields[0].0) + "=" + urlencode(fields[0].1)] + QueryFields(fields[1..], urlencode)
  }

  /** `http_build_query($fields, '', '&')`. */
  function BuildQuery(fields: Dict<string>, urlencode: string -> string): string {
    Implode("&", QueryFields(fields, urlencode))
  }

  /** As long as the encoder never emits '&' or '=', the body splits at '&'
      into one piece per field, in order, and each piece splits at '=' into
      the encoded key and the encoded value. */
  lemma BuildQueryRoundTrip(fields: Dict<string>, urlencode: string -> string)
    requires |fields| >= 1
    requires forall s :: '&' !in urlencode(s) && '=' !in urlencode(s)
    ensures SplitOn(BuildQuery(fields, urlencode), '&') == QueryFields(fields, urlencode)
    ensures forall i :: 0 <= i < |fields| ==>
      SplitOn(QueryFields(fields, urlencode)[i], '=') == [urlencode(fields[i].0), urlencode(fields[i].1)]
  {
    var pieces := QueryFields(fields, urlencode);
    forall i | 0 <= i < |pieces| ensures '&' !in pieces[i] {
      assert pieces[i] == urlencode(fields[i].0) + "=" + urlencode(fields[i].1);
      assert '&' !in urlencode(fields[i].0) && '&' !in urlencode(fields[i].1);
    }
    SplitImplode(pieces, '&');
    forall i | 0 <= i < |fields|
      ensures SplitOn(pieces[i], '=') == [urlencode(fields[i].0), urlencode(fields[i].1)]
    {
      var k, v := urlencode(fields[i].0), urlencode(fields[i].1);
      SplitOnConcat(k, '=', v);
      SplitOnFree(v, '=');
      assert pieces[i] == k + ['='] + v;
    }
  }

  /** The body string that is finally sent. */
  function FinalBody(b: Body, urlencode: string -> string): string {
    match b
    case RawBody(s) => s
    case FormBody(f) => BuildQuery(f, urlencode)
    case NullBody => ""
  }

  /** The `Host` header line for an endpoint. */
  function HostLine(endpoint: UriValue): string {
    "Host: " + endpoint.host + (if endpoint.explicitPort then ":" + NatToDecimal(endpoint.port) else "")
  }

  /** The port written into the `Host` line reads back as the endpoint's port. */
  lemma HostLinePort(endpoint: UriValue)
    requires endpoint.explicitPort
    ensures var line := HostLine(endpoint);
      var digits := line[|line| - |NatToDecimal(endpoint.port)|..];
      line == "Host: " + endpoint.host + ":" + digits
      && AllDigits(digits) && DecimalValue(digits) == endpoint.port
  {
    var line, digits := HostLine(endpoint), NatToDecimal(endpoint.port);
    assert line == "Host: " + endpoint.host + ":" + digits;
    assert line[|line| - |digits|..] == digits;
    DecimalRoundTrip(endpoint.port);
  }

  /** The header writes of lines 44-60 in the order the client makes them:
      the optional `Content-type` default, then `Host`, `Connection` and
      `Content-length`. */
  function ClientWrites(given: Headers, defaultType: bool, host: string, length: string): Headers {
    var typed := if defaultType then Put(given, "Content-type", FormContentType) else given;
    Put(Put(Put(typed, "Host", host), "Connection", CloseConnection), "Content-length", length)
  }

  /** The writes set `Host`, `Connection` and `Content-length` to the client's
      lines, set `Content-type` only when defaulting it, and leave every other
      key as it was. */
  lemma ClientWritesLookup(given: Headers, defaultType: bool, host: string, length: string)
    requires UniqueKeys(given)
    ensures var after := ClientWrites(given, defaultType, host, length);
      && Lookup(after, "Host") == Some(host)
      && Lookup(after, "Connection") == Some(CloseConnection)
      && Lookup(after, "Content-length") == Some(length)
      && Lookup(after, "Content-type") == (if defaultType then Some(FormContentType) else Lookup(given, "Content-type"))
      && (forall k :: k !in ClientKeys ==> Lookup(after, k) == Lookup(given, k))
  {
    var typed := if defaultType then Put(given, "Content-type", FormContentType) else given;
    PutFacts(given, "Content-type", FormContentType);
    var h1 := Put(typed, "Host", host);
    var h2 := Put(h1, "Connection", CloseConnection);
    PutLookup(typed, "Host", host, "Content-type");
    PutLookup(h1, "Connection", CloseConnection, "Content-type");
    PutLookup(h2, "Content-length", length, "Content-type");
    PutLookup(typed, "Host", host, "Host");
    PutLookup(h1, "Connection", CloseConnection, "Connection");
    PutLookup(h1, "Connection", CloseConnection, "Host");
    PutLookup(h2, "Content-length", length, "Host");
    PutLookup(h2, "Content-length", length, "Connection");
    PutLookup(h2, "Content-length", length, "Content-length");
    forall k | k !in ClientKeys
      ensures Lookup(ClientWrites(given, defaultType, host, length), k) == Lookup(given, k)
    {
      PutLookup(given, "Content-type", FormContentType, k);
      PutLookup(typed, "Host", host, k);
      PutLookup(h1, "Connection", CloseConnection, k);
      PutLookup(h2, "Content-length", length, k);
    }
  }

  /** The header names the client writes, in the order it writes them:
      `Content-type` only when defaulting it, then `Host`, `Connection` and
      `Content-length`. */
  function WrittenKeys(defaultType: bool): seq<string> {
    (if defaultType then ["Content-type"] else []) + ["Host", "Connection", "Content-length"]
  }

  /** The names of `ks` that are not among `existing`, in the order of `ks`. */
  function NewKeys(existing: seq<string>, ks: seq<string>): (r: seq<string>)
    ensures |r| <= |ks|
    ensures forall k :: k in r <==> k in ks && k !in existing
  {
    if ks == [] then []
    else (if ks[0] in existing then [] else [ks[0]]) + NewKeys(existing, ks[1..])
  }

  lemma {:induction false} NewKeysAppend(existing: seq<string>, a: seq<string>, b: seq<string>)
    ensures NewKeys(existing, a + b) == NewKeys(existing, a) + NewKeys(existing, b)
  {
    if a == [] {
      assert a + b == b;
    } else {
      assert (a + b)[0] == a[0] && (a + b)[1..] == a[1..] + b;
      NewKeysAppend(existing, a[1..], b);
    }
  }

  /** One more write of a key not written before: if the keys so far are
      those of `existing` followed by the new ones among `ks`, they are now
      followed by the new ones among `ks + [k]`. */
  lemma PutNewKey(a: Headers, k: string, v: string, existing: seq<string>, ks: seq<string>)
    requires Keys(a) == existing + NewKeys(existing, ks)
    requires k !in ks
    ensures Keys(Put(a, k, v)) == existing + NewKeys(existing, ks + [k])
  {
    PutKeys(a, k, v);
    assert k in Keys(a) <==> k in existing;
    NewKeysAppend(existing, ks, [k]);
  }

  /** The writes keep the keys unique, keep every existing key where it was
      and append the names they write that were not there yet, in the order
      they write them. */
  lemma ClientWritesKeys(given: Headers, defaultType: bool, host: string, length: string)
    requires UniqueKeys(given)
    ensures var after := ClientWrites(given, defaultType, host, length);
      && UniqueKeys(after)
      && Keys(after) == Keys(given) + NewKeys(Keys(given), WrittenKeys(defaultType))
      && |given| <= |after| <= |given| + 4
      && Keys(after)[..|given|] == Keys(given)
  {
    var k0 := Keys(given);
    var typeKeys: seq<string> := if defaultType then ["Content-type"] else [];
    var typed := if defaultType then Put(given, "Content-type", FormContentType) else given;
    PutUnique(given, "Content-type", FormContentType);
    if defaultType {
      PutNewKey(given, "Content-type", FormContentType, k0, []);
    }
    assert Keys(typed) == k0 + NewKeys(k0, typeKeys);
    var h1 := Put(typed, "Host", host);
    PutUnique(typed, "Host", host);
    PutNewKey(typed, "Host", host, k0, typeKeys);
    var h2 := Put(h1, "Connection", CloseConnection);
    PutUnique(h1, "Connection", CloseConnection);
    PutNewKey(h1, "Connection", CloseConnection, k0, typeKeys + ["Host"]);
    PutUnique(h2, "Content-length", length);
    PutNewKey(h2, "Content-length", length, k0, typeKeys + ["Host"] + ["Connection"]);
    assert WrittenKeys(defaultType) == typeKeys + ["Host"] + ["Connection"] + ["Content-length"];
  }

  /** Whether `retrieveResponse` defaults `Content-type`: a POST with an
      array body and no `Content-type` among the caller's headers. */
  predicate DefaultsContentType(given: Headers, verb: string, requestBody: Body) {
    Lookup(given, "Content-type").None? && verb == "POST" && requestBody.FormBody?
  }

  /** What lines 35-60 make of the inputs when they accept them: the
      upper-cased method, the final body, and the caller's headers with the
      client's lines written over them. */
  ghost predicate Prepared(req: Request, endpoint: UriValue, requestBody: Body, given: Headers,
                     requestMethod: string, urlencode: string -> string)
  {
    var defaultType := DefaultsContentType(given, req.verb, requestBody);
    && req.verb == StrToUpper(requestMethod)
    && req.body == FinalBody(requestBody, urlencode)
    && UniqueKeys(req.headers)
    && Lookup(req.headers, "Host") == Some(HostLine(endpoint))
    && Lookup(req.headers, "Connection") == Some(CloseConnection)
    && Lookup(req.headers, "Content-length") == Some("Content-length: " + NatToDecimal(|req.body|))
    && Lookup(req.headers, "Content-type") ==
       (if defaultType then Some(FormContentType) else Lookup(given, "Content-type"))
    && (forall k :: k !in ClientKeys ==> Lookup(req.headers, k) == Lookup(given, k))
    && Keys(req.headers) == Keys(given) + NewKeys(Keys(given), WrittenKeys(defaultType))
    && |given| <= |req.headers| <= |given| + 4
  }

  /** Lines 35-60 of `retrieveResponse`: everything up to the call of
      `getResponse`. `normalize` is `normalizeHeaders`, whose code is not
      part of this model; `urlencode` is the encoder `http_build_query` uses. */
  method PrepareRequest(
    endpoint: Uri,
    requestBody: Body,
    extraHeaders: Headers,
    requestMethod: string,
    normalize: Headers -> Headers,
    urlencode: string -> string)
    returns (r: Result<Request>)
    requires UniqueKeys(normalize(extraHeaders))
    ensures r.Err? <==> StrToUpper(requestMethod) == "GET" && !EmptyBody(requestBody)
    ensures r.Err? ==> r.error == InvalidArgument(GetWithBodyMessage)
    ensures r.Ok? ==> Prepared(r.value, endpoint.Value(), requestBody, normalize(extraHeaders), requestMethod, urlencode)
  {
    var m := StrToUpper(requestMethod);
    var headers := normalize(extraHeaders);
    ghost var given := headers;

    if m == "GET" && !EmptyBody(requestBody) {
      return Err(InvalidArgument(GetWithBodyMessage));
    }

    ghost var defaultType := DefaultsContentType(headers, m, requestBody);
    if Lookup(headers, "Content-type").None? && m == "POST" && requestBody.FormBody? {
      headers := Put(headers, "Content-type", FormContentType);
    }

    var host := "Host: " + endpoint.host;
    if endpoint.explicitPort {
      host := host + ":" + NatToDecimal(endpoint.port);
    }
    assert host == HostLine(endpoint.Value());

    headers := Put(headers, "Host", host);
    headers := Put(headers, "Connection", CloseConnection);

    var body: string;
    match requestBody {
      case FormBody(fields) => body := BuildQuery(fields, urlencode);
      case RawBody(s) => body := s;
      case NullBody => body := "";
    }

    var length := "Content-length: " + NatToDecimal(|body|);
    headers := Put(headers, "Content-length", length);

    assert headers == ClientWrites(given, defaultType, host, length);
    ClientWritesLookup(given, defaultType, host, length);
    ClientWritesKeys(given, defaultType, host, length);
    r := Ok(Request(m, body, headers));
  }

  /** A proxy scheme as the stream wrapper wants it: http becomes tcp,
      https becomes ssl, anything else stays. */
  function ProxyScheme(scheme: string): string {
    if scheme == "http" then "tcp" else if scheme == "https" then "ssl" else scheme
  }

  /** Lines 96-99 for a given value of the user-info expression: the
      `Proxy-Authorization` line is appended when the value is not empty in
      PHP's sense. */
  function AppendProxyAuth(header: string, rawUserInfo: Option<string>, base64: string -> string): string {
    if !EmptyOptString(rawUserInfo)
    then header + CrLf + "Proxy-Authorization: Basic " + base64(rawUserInfo.value)
    else header
  }

  /** What line 96 reads as written: `$proxyUri->getRawUserInfo`, without
      parentheses, is a read of a property the URI object does not have,
      which PHP evaluates to null. */
  function RawUserInfoAsWritten(proxy: UriValue): Option<string> {
    None
  }

  /** Lines 96-99 as written. */
  function ProxyAuthAsWritten(header: string, proxy: UriValue, base64: string -> string): string {
    AppendProxyAuth(header, RawUserInfoAsWritten(proxy), base64)
  }

  /** Lines 96-99 as intended: the proxy's raw user-info is read through
      `getRawUserInfo()`. */
  function ProxyAuth(header: string, proxy: UriValue, base64: string -> string): string {
    AppendProxyAuth(header, Some(proxy.userInfo), base64)
  }

  /** As written, a proxy with credentials never gets its
      `Proxy-Authorization` line: the header string is left as it was, and
      so differs from what the intended code sends. */
  lemma ProxyAuthDroppedAsWritten(header: string, proxy: UriValue, base64: string -> string)
    requires !EmptyString(proxy.userInfo)
    ensures ProxyAuthAsWritten(header, proxy, base64) == header
    ensures ProxyAuthAsWritten(header, proxy, base64) != ProxyAuth(header, proxy, base64)
  {
  }

  /** As intended, the caller's header lines are kept as a prefix, and one
      more line carrying the base64 of the raw user-info follows them exactly
      when the proxy has (non-empty) user-info. */
  lemma ProxyAuthAppends(header: string, proxy: UriValue, base64: string -> string)
    ensures var h := ProxyAuth(header, proxy, base64);
      && h[..|header|] == header
      && (!EmptyString(proxy.userInfo) <==> |h| > |header|)
      && (|h| > |header| ==> h[|header|..] == CrLf + "Proxy-Authorization: Basic " + base64(proxy.userInfo))
  {
  }

  /** The proxy URI after lines 101-108: the scheme rewritten for the
      stream wrapper and the user-info cleared. */
  function RewrittenProxy(proxy: UriValue): (r: UriValue)
    ensures r.userInfo == ""
    ensures r.host == proxy.host && r.port == proxy.port && r.explicitPort == proxy.explicitPort && r.rest == proxy.rest
  {
    proxy.(scheme := ProxyScheme(proxy.scheme), userInfo := "")
  }

  /** The 'http' options `generateStreamContext` builds for a method, a body
      and a header dictionary, given the proxy URI as it was before the
      rewrite (None when there is no proxy). The `Proxy-Authorization` line
      follows the corrected rule `ProxyAuth`. */
  predicate ContextOptions(opts: StreamOptions, verb: string, body: string, headers: Headers,
                           config: ClientConfig, proxy: Option<UriValue>, base64: string -> string)
  {
    var header := Implode(CrLf, Values(headers));
    && opts.verb == verb && opts.content == body && opts.protocolVersion == "1.1"
    && opts.userAgent == config.userAgent && opts.maxRedirects == config.maxRedirects
    && opts.timeout == config.timeout && opts.ignoreErrors
    && (proxy.None? ==> opts.header == header && opts.proxy == None && !opts.requestFulluri)
    && (proxy.Some? ==>
          && opts.header == ProxyAuth(header, proxy.value, base64)
          && opts.proxy == Some(RewrittenProxy(proxy.value))
          && opts.requestFulluri)
  }

  /** `generateStreamContext`, with the proxy found in the environment for
      the target's scheme given as `proxyUri` (null when there is none). The
      last ensures says where it departs from lines 96-99 as written: the
      header differs exactly when the proxy has credentials. */
  method GenerateStreamContext(
    body: string,
    headers: Headers,
    requestMethod: string,
    config: ClientConfig,
    proxyUri: Uri?,
    base64: string -> string)
    returns (opts: StreamOptions)
    modifies proxyUri
    ensures ContextOptions(opts, requestMethod, body, headers, config,
                           if proxyUri == null then None else Some(old(proxyUri.Value())), base64)
    ensures proxyUri != null ==> proxyUri.Value() == RewrittenProxy(old(proxyUri.Value()))
    ensures proxyUri != null ==>
      (opts.header == ProxyAuthAsWritten(Implode(CrLf, Values(headers)), old(proxyUri.Value()), base64)
       <==> EmptyString(old(proxyUri.userInfo)))
  {
    opts := StreamOptions(
      requestMethod, Implode(CrLf, Values(headers)), body, "1.1",
      config.userAgent, config.maxRedirects, config.timeout, true,
      None, false);

    if proxyUri == null {
      return;
    }

    ghost var before := proxyUri.Value();
    opts := opts.(header := ProxyAuth(opts.header, proxyUri.Value(), base64));
    ProxyAuthAppends(Implode(CrLf, Values(headers)), before, base64);

    if proxyUri.scheme == "http" {
      proxyUri.SetScheme("tcp");
    }
    if proxyUri.scheme == "https" {
      proxyUri.SetScheme("ssl");
    }

    proxyUri.SetUserInfo("");

    opts := opts.(proxy := Some(proxyUri.Value()), requestFulluri := true);
  }

  /** The pattern `/HTTP\/1\.[0|1|x] ([0-9]{3})/` matches at position `i`.
      The character class admits '0', '|', '1' and 'x'. */
  predicate StatusMatchAt(line: string, i: nat) {
    && i + 12 <= |line|
    && line[i..i + 7] == "HTTP/1."
    && line[i + 7] in "0|1x"
    && line[i + 8] == ' '
    && AllDigits(line[i + 9..i + 12])
  }

  /** The leftmost position at or after `from` where the pattern matches. */
  function FirstStatusMatch(line: string, from: nat): (r: Option<nat>)
    ensures r.Some? ==>
      && from <= r.value
      && StatusMatchAt(line, r.value)
      && forall j: nat :: from <= j < r.value ==> !StatusMatchAt(line, j)
    ensures r.None? ==> forall j: nat :: from <= j ==> !StatusMatchAt(line, j)
    decreases |line| - from
  {
    if from + 12 > |line| then None
    else if StatusMatchAt(line, from) then Some(from)
    else FirstStatusMatch(line, from + 1)
  }

  /** `getStatusCode`: the three digits of the leftmost match in the first
      response header line, or 0 when there is no line or no match. */
  function GetStatusCode(responseHeaders: seq<string>): (code: nat)
    ensures code < 1000
    ensures |responseHeaders| == 0 ==> code == 0
    ensures |responseHeaders| > 0 && (forall i: nat :: !StatusMatchAt(responseHeaders[0], i)) ==> code == 0
    ensures forall i: nat ::
      |responseHeaders| > 0 && StatusMatchAt(responseHeaders[0], i)
      && (forall j: nat :: j < i ==> !StatusMatchAt(responseHeaders[0], j))
      ==> code == DecimalValue(responseHeaders[0][i + 9..i + 12])
  {
    if |responseHeaders| == 0 then 0
    else
      var line := responseHeaders[0];
      match FirstStatusMatch(line, 0)
      case None => 0
      case Some(i) =>
        ThreeDigitValue(line[i + 9..i + 12]);
        DecimalValue(line[i + 9..i + 12])
  }

  /** `isSuccess`: 2xx and 304. */
  predicate IsSuccess(statusCode: int) {
    (statusCode >= 200 && statusCode < 300) || statusCode == 304
  }

  /** Success is exactly the 2xx range and 304: redirects, client errors,
      server errors and the 0 of an unreadable status line are failures. */
  lemma IsSuccessClassifies()
    ensures IsSuccess(200) && IsSuccess(201) && IsSuccess(204) && IsSuccess(299) && IsSuccess(304)
    ensures !IsSuccess(0) && !IsSuccess(199) && !IsSuccess(300) && !IsSuccess(301) && !IsSuccess(302)
    ensures !IsSuccess(303) && !IsSuccess(305) && !IsSuccess(404) && !IsSuccess(500)
  {
  }

  /** Lines 124-128 of `getResponse`: the body is returned verbatim on
      success and carried unchanged in a `TokenResponseException` otherwise. */
  function CheckResponse(reply: Reply): (r: Result<string>)
    ensures r.Ok? <==> IsSuccess(GetStatusCode(reply.headerLines))
    ensures r.Ok? ==> r.value == reply.body
    ensures r.Err? ==> r.error == TokenResponse(reply.body)
  {
    if IsSuccess(GetStatusCode(reply.headerLines)) then Ok(reply.body)
    else Err(TokenResponse(reply.body))
  }

  /** A status line that starts "HTTP/1.v ddd" yields the code ddd, whatever
      follows it and whatever header lines come after it. */
  lemma StatusLineCode(version: char, digits: string, reason: string, more: seq<string>)
    requires version in "0|1x" && |digits| == 3 && AllDigits(digits)
    ensures GetStatusCode(["HTTP/1." + [version] + " " + digits + reason] + more) == DecimalValue(digits)
  {
    var line := "HTTP/1." + [version] + " " + digits + reason;
    assert line[0..7] == "HTTP/1." && line[7] == version && line[8] == ' ';
    assert line[9..12] == digits;
    assert StatusMatchAt(line, 0);
    assert FirstStatusMatch(line, 0) == Some(0);
    assert (["HTTP/1." + [version] + " " + digits + reason] + more)[0] == line;
  }

  /** The status code sits anywhere in the line: the match is not anchored. */
  lemma StatusCodeUnanchored(prefix: string, digits: string)
    requires |digits| == 3 && AllDigits(digits)
    requires forall j :: 0 <= j < |prefix| ==> prefix[j] != 'H'
    ensures GetStatusCode([prefix + "HTTP/1.1 " + digits]) == DecimalValue(digits)
  {
    var line := prefix + "HTTP/1.1 " + digits;
    var p := |prefix|;
    assert line[p..p + 7] == "HTTP/1." && line[p + 7] == '1' && line[p + 8] == ' ';
    assert line[p + 9..p + 12] == digits;
    assert StatusMatchAt(line, p);
    forall j | 0 <= j < p ensures !StatusMatchAt(line, j) {
      assert line[j] == prefix[j];
      assert line[j..j + 7][0] == line[j];
    }
  }

  /** A response whose first header line starts "HTTP/1.v ddd" is returned
      verbatim when ddd is 2xx or 304, and otherwise fails carrying its body. */
  lemma StatusLineClassified(version: char, digits: string, reason: string, more: seq<string>, body: string)
    requires version in "0|1x" && |digits| == 3 && AllDigits(digits)
    ensures var r := CheckResponse(Reply(["HTTP/1." + [version] + " " + digits + reason] + more, body));
      r == if IsSuccess(DecimalValue(digits)) then Ok(body) else Err(TokenResponse(body))
  {
    StatusLineCode(version, digits, reason, more);
  }

  /** Statuses 200, 201, 204 and 304 succeed; 301, 302, 404 and 500 fail. */
  lemma StatusCodeExamples()
    ensures DecimalValue("200") == 200 && DecimalValue("201") == 201 && DecimalValue("204") == 204
    ensures DecimalValue("304") == 304 && DecimalValue("301") == 301 && DecimalValue("302") == 302
    ensures DecimalValue("404") == 404 && DecimalValue("500") == 500
  {
    ThreeDigitValue("200"); ThreeDigitValue("201"); ThreeDigitValue("204"); ThreeDigitValue("304");
    ThreeDigitValue("301"); ThreeDigitValue("302"); ThreeDigitValue("404"); ThreeDigitValue("500");
  }

  /** A status line the pattern cannot read, or none at all, reads as 0 and
      fails, carrying the body. */
  lemma UnreadableResponse(body: string)
    ensures CheckResponse(Reply(["HTTP/2 200"], body)) == Err(TokenResponse(body))
    ensures CheckResponse(Reply([], body)) == Err(TokenResponse(body))
  {
  }

  /** `retrieveResponse` as a whole, with `getResponse` inlined. The proxy
      is what the environment lookup returned (a fresh object, so not the
      endpoint); `fetch` stands for `file_get_contents` on the endpoint with
      the stream options. The ghost `request` is what lines 35-60 prepared
      and `sent` the options the request went out with, if it went out. */
  method RetrieveResponse(
    endpoint: Uri,
    requestBody: Body,
    extraHeaders: Headers,
    requestMethod: string,
    config: ClientConfig,
    proxyUri: Uri?,
    normalize: Headers -> Headers,
    urlencode: string -> string,
    base64: string -> string,
    fetch: (UriValue, StreamOptions) -> Reply)
    returns (r: Result<string>, ghost request: Option<Request>, ghost sent: Option<StreamOptions>)
    requires UniqueKeys(normalize(extraHeaders))
    requires proxyUri != endpoint
    modifies proxyUri
    ensures sent.None? <==> StrToUpper(requestMethod) == "GET" && !EmptyBody(requestBody)
    ensures sent.None? ==> r == Err(InvalidArgument(GetWithBodyMessage)) && (proxyUri != null ==> unchanged(proxyUri))
    ensures sent.Some? ==>
      && request.Some?
      && Prepared(request.value, endpoint.Value(), requestBody, normalize(extraHeaders), requestMethod, urlencode)
      && ContextOptions(sent.value, request.value.verb, request.value.body, request.value.headers, config,
                        if proxyUri == null then None else Some(old(proxyUri.Value())), base64)
      && (proxyUri != null ==> proxyUri.Value() == RewrittenProxy(old(proxyUri.Value())))
      && r == CheckResponse(fetch(endpoint.Value(), sent.value))
  {
    var prepared := PrepareRequest(endpoint, requestBody, extraHeaders, requestMethod, normalize, urlencode);
    if prepared.Err? {
      return Err(prepared.error), None, None;
    }
    var req := prepared.value;
    var opts := GenerateStreamContext(req.body, req.headers, req.verb, config, proxyUri, base64);
    var reply := fetch(endpoint.Value(), opts);
    r, request, sent := CheckResponse(reply), Some(req), Some(opts);
  }
}
