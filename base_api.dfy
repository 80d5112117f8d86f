/** The query function the endpoint definitions share: it fills in the HTTP
    method, serialises the body, calls the client and reshapes its result or
    error into `{data}` / `{error}`. */
module BaseApi {
  import opened Wrappers
  import opened JsValues
  import opened ApiClient

  /** The arguments an endpoint's `query` returns. */
  datatype BaseQueryArgs = BaseQueryArgs(url: string, httpMethod: Option<string>, body: Option<Json>)

  /** The error half of a query result. */
  datatype SerializedError = SerializedError(status: int, data: Option<Json>)

  /** `{data}` or `{error}`: exactly one of the two. */
  datatype QueryResult = Data(value: Json) | Error(error: SerializedError)

  /** `{message: 'Unknown error'}`. */
  const UnknownErrorData: Json := JObject(map["message" := JString("Unknown error")])

  /** The error reported for anything the query does not recognise. */
  const UnknownError: SerializedError := SerializedError(500, Some(UnknownErrorData))

  /** The options handed to the client: the method defaults to `GET`, and the
      body is serialised only when it is truthy. */
  function ClientOptions(args: BaseQueryArgs): (r: RequestInit)
    ensures r.httpMethod == Some(if args.httpMethod.Some? then args.httpMethod.value else "GET")
    ensures r.body.Some? <==> args.body.Some? && Truthy(args.body.value)
    ensures r.body.Some? ==> r.body.value.value == args.body.value
    ensures r.credentials.None? && r.headers.None?
  {
    var body := if args.body.Some? && Truthy(args.body.value) then Some(Stringified(args.body.value)) else None;
    RequestInit(Some(args.httpMethod.GetOr("GET")), body, None, None)
  }

  /** The `catch` block: a recognised `ApiError` keeps its status and data and
      loses its message; anything else is the 500 unknown error. The test
      `error instanceof ApiError` is the parameter `recognise`. */
  function MapError(e: ApiError, recognise: ApiError -> bool): (r: SerializedError)
    ensures recognise(e) ==> r.status == e.status && r.data == e.data
    ensures !recognise(e) ==> r == UnknownError
  {
    if recognise(e) then SerializedError(e.status, e.data) else UnknownError
  }

  /** The request `baseQuery` makes for `args`. */
  function FetchFor(args: BaseQueryArgs, env: Option<string>): FetchCall {
    Prepare(env, args.url, ClientOptions(args))
  }

  /** `baseQuery(args)`: never throws, and answers with exactly one of
      `{data}` / `{error}`: the client's value as `{data}`, the client's error
      mapped by `MapError` as `{error}`. Data comes only from an ok response;
      an error is the unknown error, the status-0 network error, or carries
      the response's non-ok status. */
  function BaseQuery(args: BaseQueryArgs, env: Option<string>, send: Transport, recognise: ApiError -> bool): (r: QueryResult)
    ensures var c := Classify(send(FetchFor(args, env)));
            && (r.Data? <==> c.Ok?)
            && (r.Data? ==> r.value == c.value)
            && (r.Error? ==> r.error == MapError(c.error, recognise))
    ensures var outcome := send(FetchFor(args, env));
            r.Data? ==> outcome.Response? && IsOk(outcome.status)
    ensures var outcome := send(FetchFor(args, env));
            r.Error? ==> || r.error == UnknownError
                         || r.error == SerializedError(0, None)
                         || (outcome.Response? && !IsOk(outcome.status) && r.error.status == outcome.status)
  {
    match Call(env, args.url, ClientOptions(args), send)
    case Ok(v) => Data(v)
    case Err(e) => Error(MapError(e, recognise))
  }

  /** The keys of the object literal the client throws for `e`. */
  function ThrownKeys(e: ApiError): set<string> {
    {"status"} + (if e.data.Some? then {"data"} else {}) + (if e.message.Some? then {"message"} else {})
  }

  /** `error instanceof ApiError`, read as a test that answers. `ApiError` is
      declared as an interface and every value the client throws is a plain
      object literal, so no thrown value is an instance of a class of that
      name: the test answers false for every error. As written the test has
      no class to refer to at all: TypeScript rejects it, and without that
      check the import of `ApiError` names an export that does not exist.
      Only the answer is modelled. */
  function InstanceOfApiError(e: ApiError): (r: bool)
    ensures !r
  {
    false
  }

  /** The intended test, `'status' in error` (the one the client's own
      `catch` applies): every object the client throws carries `status`. */
  function HasStatusField(e: ApiError): (r: bool)
    ensures r
  {
    "status" in ThrownKeys(e)
  }

  /** When the test answers false, a rejection by the server (401) reaches
      the caller as the 500 unknown error, its status and body lost, whatever
      the response's content type and body. */
  lemma AsWrittenRejectionBecomes500(args: BaseQueryArgs, env: Option<string>, send: Transport)
    requires send(FetchFor(args, env)).Response? && send(FetchFor(args, env)).status == 401
    ensures BaseQuery(args, env, send, InstanceOfApiError) == Error(UnknownError)
    ensures BaseQuery(args, env, send, InstanceOfApiError).error.status == 500
  {
  }

  /** With the intended test, the rejection keeps its 401 status and the
      body the server sent (or `{}` when it did not parse), whatever the
      content type. */
  lemma CorrectedRejectionKeeps401(args: BaseQueryArgs, env: Option<string>, send: Transport)
    requires send(FetchFor(args, env)).Response? && send(FetchFor(args, env)).status == 401
    ensures BaseQuery(args, env, send, HasStatusField)
            == Error(SerializedError(401, Some(send(FetchFor(args, env)).body.GetOr(EmptyObject))))
  {
  }
}
