/**
 * src/lib/api-client.ts: the one function every page uses to talk to the
 * backend. A call is split into what is sent (`PrepareRequest`: URL with
 * query parameters, method, headers, JSON body) and what comes back
 * (`HandleResponse`: the parsed body, or the normalised error). The network
 * itself is a parameter: the `HttpOutcome` the server answered with.
 */
module ApiClient {
  import opened Wrappers
  import opened Json
  import JsStrings
  import Config

  const ContentTypeHeader: string := "Content-Type"
  const JsonMediaType: string := "application/json"

  /** The message of an `ApiError` whose response carried no usable `detail`. */
  const DefaultErrorMessage: string := "API request failed"

  datatype Method = GET | POST | PUT | DELETE

  /** `class ApiError extends Error`: the HTTP status and the message. */
  datatype ApiError = ApiError(status: int, message: string)

  /** One `[key, value]` pair, of `Object.entries` or of a `URLSearchParams` list. */
  type Entry = (string, string)

  /**
   * The options object of `apiFetch` (`verb` is its `method`). `None` is a
   * missing option; the search-parameter record is given by its entries in
   * enumeration order; missing caller headers are the empty map (spreading
   * `undefined` adds nothing).
   */
  datatype RequestOptions = RequestOptions(
    verb: Option<Method>,
    token: Option<string>,
    body: Option<Value>,
    searchParams: Option<seq<Entry>>,
    headers: map<string, string>)

  /** The URL: base, path, and the search-parameter list. */
  datatype Url = Url(base: string, path: string, query: seq<Entry>)

  /**
   * What `fetch` is called with (`verb` is the HTTP method); `body` is
   * `Some(v)` when the JSON text of `v` is sent.
   */
  datatype Request = Request(url: Url, verb: Method, headers: map<string, string>, body: Option<Value>)

  /** The body of a response as `res.json()` sees it. */
  datatype ResponseBody = NotJson | Parsed(value: Value)

  /** What the network delivered for one request. */
  datatype HttpOutcome =
    | NetworkError
    | Response(status: int, statusText: string, body: ResponseBody)

  /** Failures that are not an `ApiError`: `fetch` rejecting, `res.json()` rejecting, `null.detail`. */
  datatype OtherError = TransportError | SyntaxError | TypeError

  /** How the promise returned by `apiFetch` settles. */
  datatype FetchResult =
    | Ok(value: Value)
    | ApiFailure(error: ApiError)
    | OtherFailure(cause: OtherError)

  /** `res.ok`. */
  predicate IsOkStatus(status: int) {
    200 <= status <= 299
  }

  // ---------------------------------------------------------------------------
  // Search parameters: a `URLSearchParams` list updated by `set`.
  // ---------------------------------------------------------------------------

  /** `params.get(key)`: the value of the first pair named `key`. */
  function Lookup(q: seq<Entry>, key: string): Option<string> {
    if q == [] then None
    else if q[0].0 == key then Some(q[0].1)
    else Lookup(q[1..], key)
  }

  /** No two pairs share a name. */
  predicate UniqueKeys(q: seq<Entry>) {
    q == [] || (Lookup(q[1..], q[0].0) == None && UniqueKeys(q[1..]))
  }

  predicate NonEmptyValues(q: seq<Entry>) {
    forall i :: 0 <= i < |q| ==> q[i].1 != ""
  }

  /** `q` without any pair named `key`. */
  function Without(q: seq<Entry>, key: string): (r: seq<Entry>)
    ensures Lookup(r, key) == None
    ensures forall k :: k != key ==> Lookup(r, k) == Lookup(q, k)
    ensures UniqueKeys(q) ==> UniqueKeys(r)
    ensures NonEmptyValues(q) ==> NonEmptyValues(r)
  {
    if q == [] then []
    else if q[0].0 == key then Without(q[1..], key)
    else [q[0]] + Without(q[1..], key)
  }

  /**
   * `params.set(key, value)`: the first pair named `key` takes the new value
   * and the others go; with no such pair, one is appended.
   */
  function SetParam(q: seq<Entry>, key: string, value: string): (r: seq<Entry>)
    ensures Lookup(r, key) == Some(value)
    ensures forall k :: k != key ==> Lookup(r, k) == Lookup(q, k)
    ensures UniqueKeys(q) ==> UniqueKeys(r)
    ensures NonEmptyValues(q) && value != "" ==> NonEmptyValues(r)
  {
    if q == [] then [(key, value)]
    else if q[0].0 == key then [(key, value)] + Without(q[1..], key)
    else [q[0]] + SetParam(q[1..], key, value)
  }

  /** The value of the last entry named `key` whose value is not empty. */
  function LastNonEmpty(entries: seq<Entry>, key: string): Option<string> {
    if entries == [] then None
    else
      var e := entries[|entries| - 1];
      if e.0 == key && e.1 != "" then Some(e.1) else LastNonEmpty(entries[..|entries| - 1], key)
  }

  /**
   * The search parameters `buildUrl` leaves on the URL after its loop over
   * `entries`: every name at most once, no empty value, and each name
   * holding the last non-empty value given for it.
   */
  function BuildQuery(entries: seq<Entry>): (q: seq<Entry>)
    ensures UniqueKeys(q)
    ensures NonEmptyValues(q)
    ensures forall k :: Lookup(q, k) == LastNonEmpty(entries, k)
  {
    if entries == [] then []
    else
      var q := BuildQuery(entries[..|entries| - 1]);
      var e := entries[|entries| - 1];
      if e.1 != "" then SetParam(q, e.0, e.1) else q
  }

  /** The query of a URL built from an optional search-parameter record. */
  function QueryOf(searchParams: Option<seq<Entry>>): seq<Entry> {
    if searchParams.Some? then BuildQuery(searchParams.value) else []
  }

  /** A name is on the URL exactly when some entry gives it a non-empty value. */
  lemma {:induction false} QueryKeyPresent(entries: seq<Entry>, key: string)
    ensures Lookup(BuildQuery(entries), key).Some?
        <==> exists i :: 0 <= i < |entries| && entries[i].0 == key && entries[i].1 != ""
  {
    if entries != [] {
      var init := entries[..|entries| - 1];
      QueryKeyPresent(init, key);
      assert forall i :: 0 <= i < |init| ==> init[i] == entries[i];
      if LastNonEmpty(init, key).Some? {
        var i :| 0 <= i < |init| && init[i].0 == key && init[i].1 != "";
        assert entries[i] == init[i];
      }
    }
  }

  /** An entry with a non-empty value that no later entry overrides is the value on the URL. */
  lemma {:induction false} QueryValueIsLast(entries: seq<Entry>, i: nat)
    requires i < |entries| && entries[i].1 != ""
    requires forall j :: i < j < |entries| ==> entries[j].0 != entries[i].0 || entries[j].1 == ""
    ensures Lookup(BuildQuery(entries), entries[i].0) == Some(entries[i].1)
  {
    if i < |entries| - 1 {
      var init := entries[..|entries| - 1];
      assert init[i] == entries[i];
      QueryValueIsLast(init, i);
    }
  }

  /**
   * `buildUrl(path, searchParams)`: starting from a URL with no query, set
   * each entry whose value is non-empty, in order.
   */
  method BuildUrl(path: string, searchParams: Option<seq<Entry>>) returns (url: Url)
    ensures url == Url(Config.ApiBaseUrl, path, QueryOf(searchParams))
  {
    var query: seq<Entry> := [];
    if searchParams.Some? {
      var entries := searchParams.value;
      var i := 0;
      while i < |entries|
        invariant 0 <= i <= |entries|
        invariant query == BuildQuery(entries[..i])
      {
        var (key, value) := entries[i];
        if value != "" {
          query := SetParam(query, key, value);
        }
        assert entries[..i + 1][..i] == entries[..i];
        i := i + 1;
      }
      assert entries[..|entries|] == entries;
    }
    url := Url(Config.ApiBaseUrl, path, query);
  }

  // ---------------------------------------------------------------------------
  // Headers and body.
  // ---------------------------------------------------------------------------

  /**
   * The header object: `Content-Type` first, the token header when the token
   * is truthy, then the caller's headers, which override either.
   */
  function BuildHeaders(token: Option<string>, headers: map<string, string>): (h: map<string, string>)
    ensures h.Keys == {ContentTypeHeader} + headers.Keys
                      + (if JsStrings.TruthyString(token) then {Config.TokenHeader} else {})
    ensures forall k :: k in headers ==> h[k] == headers[k]
    ensures ContentTypeHeader !in headers ==> h[ContentTypeHeader] == JsonMediaType
    ensures JsStrings.TruthyString(token) && Config.TokenHeader !in headers ==> h[Config.TokenHeader] == token.value
  {
    var defaults := map[ContentTypeHeader := JsonMediaType];
    var authorised := if JsStrings.TruthyString(token) then defaults[Config.TokenHeader := token.value] else defaults;
    authorised + headers
  }

  /** `body ? JSON.stringify(body) : undefined`, whatever the method. */
  function EncodeBody(body: Option<Value>): (sent: Option<Value>)
    ensures sent.Some? <==> body.Some? && Truthy(body.value)
    ensures sent.Some? ==> sent.value == body.value
  {
    if body.Some? && Truthy(body.value) then body else None
  }

  /** Everything `apiFetch(path, options)` passes to `fetch`. */
  function PrepareRequest(path: string, options: RequestOptions): (r: Request)
    ensures r.url.base == Config.ApiBaseUrl && r.url.path == path
    ensures UniqueKeys(r.url.query) && NonEmptyValues(r.url.query)
    ensures options.verb.None? ==> r.verb == GET
    ensures options.verb.Some? ==> r.verb == options.verb.value
    ensures ContentTypeHeader in r.headers
    ensures Config.TokenHeader in r.headers <==> JsStrings.TruthyString(options.token) || Config.TokenHeader in options.headers
    ensures r.body.Some? <==> options.body.Some? && Truthy(options.body.value)
  {
    Request(
      Url(Config.ApiBaseUrl, path, QueryOf(options.searchParams)),
      options.verb.GetOr(GET),
      BuildHeaders(options.token, options.headers),
      EncodeBody(options.body))
  }

  /** What body is passed to `fetch` does not depend on the method. */
  lemma BodyIgnoresMethod(path: string, options: RequestOptions, m: Method)
    ensures PrepareRequest(path, options.(verb := Some(m))).body == PrepareRequest(path, options).body
    ensures options.body.Some? && Truthy(options.body.value) ==>
      PrepareRequest(path, options.(verb := Some(m))).body == options.body
  {
  }

  // ---------------------------------------------------------------------------
  // Response handling.
  // ---------------------------------------------------------------------------

  /** `await res.json().catch(() => ({ detail: res.statusText }))`. */
  function ErrorPayload(statusText: string, body: ResponseBody): Value {
    match body
    case NotJson => JObj(map["detail" := JStr(statusText)])
    case Parsed(v) => v
  }

  /**
   * `throw new ApiError(status, payload.detail ?? "API request failed")`:
   * reading `detail` of `null` throws, and so does the `String(…)` the
   * `Error` constructor applies to a `detail` that cannot be converted.
   */
  function RaiseApiError(status: int, payload: Value): FetchResult {
    match GetProperty(payload, "detail")
    case ThrowsTypeError => OtherFailure(TypeError)
    case Read(detail) =>
      if detail.None? || detail.value == JNull then ApiFailure(ApiError(status, DefaultErrorMessage))
      else
        match ToJsString(detail.value)
        case None => OtherFailure(TypeError)
        case Some(message) => ApiFailure(ApiError(status, message))
  }

  /** The parsed body is an object whose `detail` is present and not `null`. */
  predicate HasDetail(v: Value) {
    v.JObj? && "detail" in v.fields && v.fields["detail"] != JNull
  }

  /**
   * How `apiFetch` settles once the server has answered: the parsed body for
   * a 2xx status; otherwise an `ApiError` carrying the real status and the
   * first of `detail`, the status text (body not JSON) and the fixed
   * fallback. A JSON `null` error body makes `null.detail` throw instead,
   * and so does a `detail` that `String(…)` cannot convert.
   */
  function HandleResponse(outcome: HttpOutcome): (r: FetchResult)
    ensures outcome.NetworkError? ==> r == OtherFailure(TransportError)
    ensures r.Ok? <==> outcome.Response? && IsOkStatus(outcome.status) && outcome.body.Parsed?
    ensures r.Ok? ==> r.value == outcome.body.value
    ensures r == OtherFailure(SyntaxError)
        <==> outcome.Response? && IsOkStatus(outcome.status) && outcome.body.NotJson?
    ensures r.ApiFailure?
        <==> outcome.Response? && !IsOkStatus(outcome.status) && outcome.body != Parsed(JNull)
             && !(outcome.body.Parsed? && HasDetail(outcome.body.value)
                  && ToStringThrows(outcome.body.value.fields["detail"]))
    ensures outcome.Response? && !IsOkStatus(outcome.status) && !r.ApiFailure? ==> r == OtherFailure(TypeError)
    ensures r.ApiFailure? ==> r.error.status == outcome.status
    ensures r.ApiFailure? ==>
      r.error.message == (if outcome.body.NotJson? then outcome.statusText
                          else if HasDetail(outcome.body.value) then ToJsString(outcome.body.value.fields["detail"]).value
                          else DefaultErrorMessage)
  {
    match outcome
    case NetworkError => OtherFailure(TransportError)
    case Response(status, statusText, body) =>
      if !IsOkStatus(status) then RaiseApiError(status, ErrorPayload(statusText, body))
      else
        match body
        case NotJson => OtherFailure(SyntaxError)
        case Parsed(v) => Ok(v)
  }

  /** A `detail` object with its own `toString` key cannot become a message: the call rejects with a TypeError. */
  lemma DetailWithOwnToString(status: int, statusText: string, toString: Value)
    requires !IsOkStatus(status)
    ensures HandleResponse(Response(status, statusText,
      Parsed(JObj(map["detail" := JObj(map["toString" := toString])])))) == OtherFailure(TypeError)
  {
  }

  /**
   * The pages' `catch` clause: an `ApiError` shows its own message, any
   * other failure the page's generic text.
   */
  function CaughtMessage(result: FetchResult, generic: string): (m: string)
    ensures result.ApiFailure? ==> m == result.error.message
    ensures !result.ApiFailure? ==> m == generic
  {
    if result.ApiFailure? then result.error.message else generic
  }

  /** A code point a WebIDL `ByteString` can hold: at most U+00FF. */
  predicate IsByteChar(c: char) {
    c as int <= 0xFF
  }

  /** HTTP white space in the Fetch standard's sense: tab, line feed, carriage return, space. */
  predicate IsHttpWhiteSpace(c: char) {
    c == '\t' || c == '\n' || c == '\r' || c == ' '
  }

  /** A character of an HTTP `token`, the syntax of a header name. */
  predicate IsTokenChar(c: char) {
    ('0' <= c <= '9') || ('a' <= c <= 'z') || ('A' <= c <= 'Z') || c in "!#$%&'*+-.^_`|~"
  }

  /** A header name the `Headers` object accepts: a non-empty `token`. */
  predicate IsHeaderName(name: string) {
    |name| > 0 && forall i :: 0 <= i < |name| ==> IsTokenChar(name[i])
  }

  /** Only HTTP white space comes before position `i`. */
  predicate WhiteBefore(value: string, i: int)
    requires 0 <= i <= |value|
  {
    forall j :: 0 <= j < i ==> IsHttpWhiteSpace(value[j])
  }

  /** Only HTTP white space comes after position `i`. */
  predicate WhiteAfter(value: string, i: int)
    requires 0 <= i < |value|
  {
    forall j :: i < j < |value| ==> IsHttpWhiteSpace(value[j])
  }

  /**
   * The character at `i` is allowed in a header value: it fits in a byte
   * (the WebIDL `ByteString` conversion), is no NUL, and is a line feed or
   * carriage return only inside the leading or trailing HTTP white space
   * that normalization strips.
   */
  predicate ValueCharAllowed(value: string, i: int)
    requires 0 <= i < |value|
  {
    && IsByteChar(value[i])
    && value[i] as int != 0
    && ((value[i] == '\n' || value[i] == '\r') ==> WhiteBefore(value, i) || WhiteAfter(value, i))
  }

  /** A header value the `Headers` object accepts. */
  predicate IsHeaderValue(value: string) {
    forall i :: 0 <= i < |value| ==> ValueCharAllowed(value, i)
  }

  /** A header the `Headers` object accepts. */
  predicate HeaderAccepted(name: string, value: string) {
    IsHeaderName(name) && IsHeaderValue(value)
  }

  /** Every header of the record is one the `Headers` object accepts. */
  predicate HeadersAccepted(headers: map<string, string>) {
    forall name :: name in headers ==> HeaderAccepted(name, headers[name])
  }

  /** The two headers `apiFetch` always sets have valid names, and its `Content-Type` a valid value. */
  lemma DefaultHeadersValid()
    ensures IsHeaderName(ContentTypeHeader) && IsHeaderValue(JsonMediaType)
    ensures IsHeaderName(Config.TokenHeader)
  {
    assert forall i :: 0 <= i < |ContentTypeHeader| ==> IsTokenChar(ContentTypeHeader[i]);
    assert forall i :: 0 <= i < |JsonMediaType| ==> ValueCharAllowed(JsonMediaType, i);
    assert forall i :: 0 <= i < |Config.TokenHeader| ==> IsTokenChar(Config.TokenHeader[i]);
  }

  /**
   * The Fetch standard's `Request` constructor throws a TypeError, before
   * anything goes on the network, when a header name or value is not one
   * the `Headers` object accepts, or when a `GET` request is given a body.
   */
  predicate FetchRefuses(request: Request) {
    !HeadersAccepted(request.headers) || (request.verb == GET && request.body.Some?)
  }

  /** How the promise of `fetch(request)` and the rest of `apiFetch` settle. */
  function Settle(request: Request, outcome: HttpOutcome): FetchResult {
    if FetchRefuses(request) then OtherFailure(TypeError) else HandleResponse(outcome)
  }

  /** A `GET` (given, or by default) with a truthy body is refused. */
  predicate GetWithBody(options: RequestOptions) {
    (options.verb.None? || options.verb == Some(GET)) && options.body.Some? && Truthy(options.body.value)
  }

  /** A truthy token that the caller's headers do not override and that is no header value. */
  predicate BadToken(options: RequestOptions) {
    JsStrings.TruthyString(options.token) && Config.TokenHeader !in options.headers
    && !IsHeaderValue(options.token.value)
  }

  /**
   * `fetch` refuses exactly the calls that are a `GET` with a truthy body,
   * that carry a caller header it does not accept, or whose token is no
   * header value; every other request is sent, including a `DELETE` with a
   * body.
   */
  lemma FetchRefusesExactly(path: string, options: RequestOptions)
    ensures FetchRefuses(PrepareRequest(path, options))
      <==> || GetWithBody(options)
           || !HeadersAccepted(options.headers)
           || BadToken(options)
  {
    DefaultHeadersValid();
    var h := BuildHeaders(options.token, options.headers);
    if !HeadersAccepted(options.headers) {
      var name :| name in options.headers && !HeaderAccepted(name, options.headers[name]);
      assert name in h && h[name] == options.headers[name];
      assert !HeadersAccepted(h);
    }
    if BadToken(options) {
      assert Config.TokenHeader in h && h[Config.TokenHeader] == options.token.value;
      assert !HeadersAccepted(h);
    }
    if HeadersAccepted(options.headers) && !BadToken(options) {
      forall name | name in h
        ensures HeaderAccepted(name, h[name])
      {
        if name !in options.headers && name == Config.TokenHeader {
          assert h[name] == options.token.value;
        }
      }
    }
  }

  /** Such a call rejects with a TypeError whatever the server would have answered. */
  lemma GetWithBodyRejects(path: string, options: RequestOptions, outcome: HttpOutcome)
    requires GetWithBody(options)
    ensures Settle(PrepareRequest(path, options), outcome) == OtherFailure(TypeError)
  {
    FetchRefusesExactly(path, options);
  }

  /**
   * So does a call whose token is no header value: one with a code point
   * above U+00FF, a NUL, or a line break inside it.
   */
  lemma BadTokenRejects(path: string, options: RequestOptions, outcome: HttpOutcome)
    requires BadToken(options)
    ensures Settle(PrepareRequest(path, options), outcome) == OtherFailure(TypeError)
  {
    FetchRefusesExactly(path, options);
  }

  /** A token typed in Hangul is such a token: the `POST` never reaches the server. */
  lemma HangulTokenRejects(outcome: HttpOutcome)
    ensures Settle(PrepareRequest("/v1/passages",
      RequestOptions(Some(POST), Some("토큰"), Some(JObj(map[])), None, map[])), outcome) == OtherFailure(TypeError)
  {
    var options := RequestOptions(Some(POST), Some("토큰"), Some(JObj(map[])), None, map[]);
    assert !ValueCharAllowed(options.token.value, 0);
    BadTokenRejects("/v1/passages", options, outcome);
  }

  /**
   * The pages pass no headers of their own: their calls settle as the
   * server answers unless they are a `GET` with a body or the token is no
   * header value.
   */
  lemma SettleWithoutCallerHeaders(path: string, options: RequestOptions, outcome: HttpOutcome)
    requires options.headers == map[]
    ensures Settle(PrepareRequest(path, options), outcome)
      == if GetWithBody(options) || BadToken(options) then OtherFailure(TypeError) else HandleResponse(outcome)
  {
    FetchRefusesExactly(path, options);
  }

  /**
   * `apiFetch(path, options)` against a server that answers with `outcome`:
   * what is passed to `fetch`, and how the call settles.
   */
  method ApiFetch(path: string, options: RequestOptions, outcome: HttpOutcome)
    returns (sent: Request, result: FetchResult)
    ensures sent == PrepareRequest(path, options)
    ensures result == Settle(sent, outcome)
    ensures !FetchRefuses(sent) ==> result == HandleResponse(outcome)
  {
    var url := BuildUrl(path, options.searchParams);
    sent := Request(url, options.verb.GetOr(GET), BuildHeaders(options.token, options.headers), EncodeBody(options.body));
    if !HeadersAccepted(sent.headers) || (sent.verb == GET && sent.body.Some?) {
      result := OtherFailure(TypeError);
    } else {
      result := HandleResponse(outcome);
    }
  }
}
