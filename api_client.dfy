/** The HTTP client every endpoint goes through: it builds the URL and the
    request configuration, hands them to the transport, and turns whatever
    comes back (a response, a rejected fetch, an unreadable body) into either
    a value or an `ApiError`. The transport is a parameter. */
module ApiClient {
  import opened Wrappers
  import opened Text
  import opened JsValues

  /** The base address used when the environment gives none (or an empty one). */
  const DefaultBaseUrl: string := "https://api.sukker.no"

  const JsonMediaType: string := "application/json"

  const NetworkErrorMessage: string := "Network error or request failed"

  const FailurePrefix: string := "Request failed with status "

  /** `VITE_API_BASE_URL || default`: the configured base when it is a
      non-empty string, the fixed default otherwise. */
  function BaseUrl(env: Option<string>): (r: string)
    ensures r != ""
    ensures env.Some? && env.value != "" ==> r == env.value
    ensures env.None? || env.value == "" ==> r == DefaultBaseUrl
  {
    if env.Some? && env.value != "" then env.value else DefaultBaseUrl
  }

  /** The subset of `RequestInit` the client reads or writes. Headers are a
      plain string map; `None` stands for an absent member. */
  datatype RequestInit = RequestInit(
    httpMethod: Option<string>,
    body: Option<JsonText>,
    credentials: Option<string>,
    headers: Option<map<string, string>>)

  /** One call of `fetch(url, config)`. */
  datatype FetchCall = FetchCall(url: string, init: RequestInit)

  /** A status code carried by a response the Fetch standard lets through. */
  type HttpStatus = s: int | 200 <= s <= 599 witness 200

  /** What `fetch` and `response.json()` give back: a rejected fetch, or a
      response with its status, its `content-type` header and the outcome of
      parsing its body (`None` when the body is not JSON). */
  datatype RawOutcome =
    | NetworkFailure
    | Response(status: HttpStatus, contentType: Option<string>, body: Option<Json>)

  /** The network, abstracted. */
  type Transport = FetchCall -> RawOutcome

  /** The error value the client throws. */
  datatype ApiError = ApiError(status: int, data: Option<Json>, message: Option<string>)

  /** The error thrown for everything that is not a non-ok response. */
  const NetworkError: ApiError := ApiError(0, None, Some(NetworkErrorMessage))

  /** `response.ok`. */
  predicate IsOk(status: int) {
    200 <= status <= 299
  }

  /** The caller's headers, `{}` when absent. */
  function CallerHeaders(options: RequestInit): map<string, string> {
    options.headers.GetOr(map[])
  }

  /** The configuration passed to `fetch`: the caller's options, with cookies
      always included and a JSON content type unless the caller set one. */
  function Config(options: RequestInit): (r: RequestInit)
    ensures r.httpMethod == options.httpMethod && r.body == options.body
    ensures r.credentials == Some("include")
    ensures r.headers.Some?
    ensures r.headers.value.Keys == CallerHeaders(options).Keys + {"Content-Type"}
    ensures forall k :: k in CallerHeaders(options) ==> r.headers.value[k] == CallerHeaders(options)[k]
    ensures "Content-Type" !in CallerHeaders(options) ==> r.headers.value["Content-Type"] == JsonMediaType
  {
    RequestInit(
      options.httpMethod,
      options.body,
      Some("include"),
      Some(map["Content-Type" := JsonMediaType] + CallerHeaders(options)))
  }

  /** The URL and configuration `fetch` receives for an endpoint. */
  function Prepare(env: Option<string>, endpoint: string, options: RequestInit): (r: FetchCall)
    ensures |r.url| == |BaseUrl(env)| + |endpoint|
    ensures r.url[..|BaseUrl(env)|] == BaseUrl(env) && r.url[|BaseUrl(env)|..] == endpoint
    ensures r.init == Config(options)
  {
    FetchCall(BaseUrl(env) + endpoint, Config(options))
  }

  /** `Request failed with status N`. */
  function FailureMessage(status: nat): (m: string)
    ensures |m| > |FailurePrefix| && m[..|FailurePrefix|] == FailurePrefix
    ensures var digits := m[|FailurePrefix|..];
            (forall i :: 0 <= i < |digits| ==> IsDigit(digits[i])) && ParseDecimal(digits) == status
    ensures |m| > |FailurePrefix| + 1 ==> m[|FailurePrefix|] != '0'
  {
    var m := FailurePrefix + Decimal(status);
    assert m[|FailurePrefix|..] == Decimal(status);
    DecimalRoundTrip(status);
    m
  }

  /** `contentType && contentType.includes('application/json')`. */
  predicate IsJsonContentType(contentType: Option<string>) {
    contentType.Some? && contentType.value != "" && Includes(contentType.value, JsonMediaType)
  }

  /** What the `try` block can throw: the error it builds for a non-ok
      response, the rejection of `fetch`, or the parse error of
      `response.json()` on an ok response. */
  datatype Thrown = Raised(error: ApiError) | FetchRejected | BodyNotJson

  /** `'status' in error`: only the client's own error carries a status. */
  predicate CarriesStatus(t: Thrown) {
    t.Raised?
  }

  /** The `try` block: the value returned, or what is thrown. */
  function TryBlock(outcome: RawOutcome): Result<Json, Thrown> {
    match outcome
    case NetworkFailure => Err(FetchRejected)
    case Response(status, contentType, body) =>
      if !IsOk(status) then
        Err(Raised(ApiError(status, Some(body.GetOr(EmptyObject)), Some(FailureMessage(status)))))
      else if IsJsonContentType(contentType) then
        (if body.Some? then Ok(body.value) else Err(BodyNotJson))
      else
        Ok(EmptyObject)
  }

  /** The `catch` block: a thrown value with a status is rethrown unchanged,
      anything else becomes the status-0 network error. */
  function CatchBlock(t: Thrown): (e: ApiError)
    ensures CarriesStatus(t) ==> e == t.error
    ensures !CarriesStatus(t) ==> e == NetworkError
  {
    if CarriesStatus(t) then t.error else NetworkError
  }

  /** The client's verdict on one transport outcome. */
  function Classify(outcome: RawOutcome): (r: Result<Json, ApiError>)
    // a rejected fetch is the network error
    ensures outcome.NetworkFailure? ==> r == Err(NetworkError)
    // a non-ok status is an error with that status, the parsed body or `{}`, and the status in the message
    ensures outcome.Response? && !IsOk(outcome.status) ==>
              r.Err? && r.error.status == outcome.status
              && r.error.data == Some(if outcome.body.Some? then outcome.body.value else EmptyObject)
              && r.error.message == Some(FailureMessage(outcome.status))
    // an ok JSON response yields its parsed body; an unparseable one the network error
    ensures outcome.Response? && IsOk(outcome.status) && IsJsonContentType(outcome.contentType) ==>
              r == (if outcome.body.Some? then Ok(outcome.body.value) else Err(NetworkError))
    // an ok response without a JSON content type yields `{}`
    ensures outcome.Response? && IsOk(outcome.status) && !IsJsonContentType(outcome.contentType) ==>
              r == Ok(EmptyObject)
    // status 0 is reserved for failures that are not a non-ok HTTP status
    ensures r.Err? ==> (r.error.status == 0 <==> r.error == NetworkError)
    ensures r.Err? && r.error.status != 0 ==> outcome.Response? && r.error.status == outcome.status && !IsOk(outcome.status)
    ensures r.Ok? ==> outcome.Response? && IsOk(outcome.status)
  {
    match TryBlock(outcome)
    case Ok(v) => Ok(v)
    case Err(t) => Err(CatchBlock(t))
  }

  /** `apiClient(endpoint, options)`: one fetch of the prepared URL and
      configuration through `send`, its outcome classified. A value comes only
      from an ok response; an error is the network error or carries the
      response's non-ok status. */
  function Call(env: Option<string>, endpoint: string, options: RequestInit, send: Transport): (r: Result<Json, ApiError>)
    ensures r == Classify(send(Prepare(env, endpoint, options)))
    ensures var outcome := send(Prepare(env, endpoint, options));
            r.Ok? ==> outcome.Response? && IsOk(outcome.status)
    ensures var outcome := send(Prepare(env, endpoint, options));
            r.Err? ==> r.error == NetworkError || (outcome.Response? && !IsOk(outcome.status) && r.error.status == outcome.status)
  {
    Classify(send(Prepare(env, endpoint, options)))
  }
}
