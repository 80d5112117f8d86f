/** The decisions the login page takes around a submission: which field gets
    focus after validation, which user is stored, where to go next, and which
    message to show when the attempt fails. Rendering is not modelled; the
    page's effects are the store update and the returned outcome. */
module LoginPage {
  import opened Wrappers
  import opened JsValues
  import opened AuthTypes
  import opened ApiClient
  import opened BaseApi
  import opened AuthApi
  import opened AuthSlice

  const InvalidCredentialsMessage: string := "E-post/brukernavn eller passord er feil. Vennligst prøv igjen."
  const GenericFailureMessage: string := "Noe gikk galt ved innlogging. Vennligst prøv igjen senere."

  /** The validated form. */
  datatype LoginFormData = LoginFormData(identifier: string, password: string)

  datatype FormField = IdentifierField | PasswordField

  /** Which fields failed validation. */
  datatype FieldErrors = FieldErrors(identifier: bool, password: bool)

  /** The field focused after a failed validation: the first field in form
      order that has an error, or none. */
  function FocusAfterValidation(errors: FieldErrors): (f: Option<FormField>)
    ensures f == Some(IdentifierField) <==> errors.identifier
    ensures f == Some(PasswordField) <==> !errors.identifier && errors.password
    ensures f.None? <==> !errors.identifier && !errors.password
  {
    if errors.identifier then Some(IdentifierField)
    else if errors.password then Some(PasswordField)
    else None
  }

  /** A value caught by `onSubmit`: a value thrown by `unwrap()`, or the
      `TypeError` of reading a property of `null`. */
  datatype Caught = Thrown(value: Json) | TypeErrorThrown

  /** The object `unwrap()` throws for a query error. */
  function ErrorObject(e: SerializedError): (v: Json)
    ensures v.JObject? && "status" in v.fields && v.fields["status"] == JNumber(e.status)
    ensures e.data.Some? <==> "data" in v.fields
    ensures e.data.Some? ==> v.fields["data"] == e.data.value
    ensures v.fields.Keys <= {"status", "data"}
  {
    JObject(map["status" := JNumber(e.status)] + (if e.data.Some? then map["data" := e.data.value] else map[]))
  }

  /** `login(...).unwrap()`: the data, or the error thrown as an object. */
  function Unwrap(q: QueryResult): Result<Json, Caught> {
    match q
    case Data(v) => Ok(v)
    case Error(e) => Err(Thrown(ErrorObject(e)))
  }

  /** The user stored when the response names none. */
  function FallbackUser(identifier: string): (u: AuthUser)
    ensures HasAuthUserShape(u)
    ensures u.JObject? && u.fields.Keys == {"id", "username"}
    ensures u.fields["id"] == JString("unknown") && u.fields["username"] == JString(identifier)
  {
    JObject(map["id" := JString("unknown"), "username" := JString(identifier)])
  }

  /** The response names a user: an object whose `user` is neither missing nor `null`. */
  predicate NamesUser(result: Json) {
    result.JObject? && "user" in result.fields && !result.fields["user"].JNull?
  }

  /** `result.user ?? {id: 'unknown', username: identifier}`. Reading `user`
      from a `null` body throws. */
  function ResolveUser(result: Json, identifier: string): (r: Result<AuthUser, Caught>)
    ensures r.Err? <==> result.JNull?
    ensures r.Err? ==> r.error == TypeErrorThrown && !HasStatus(r.error)
    ensures NamesUser(result) ==> r == Ok(result.fields["user"])
    ensures !NamesUser(result) && !result.JNull? ==> r == Ok(FallbackUser(identifier))
  {
    if result.JNull? then Err(TypeErrorThrown)
    else if NamesUser(result) then Ok(result.fields["user"])
    else Ok(FallbackUser(identifier))
  }

  /** `searchParams.get('returnTo') || '/'`. */
  function ReturnTarget(returnTo: Option<string>): (target: string)
    ensures target != ""
    ensures returnTo.Some? && returnTo.value != "" ==> target == returnTo.value
    ensures returnTo.None? || returnTo.value == "" ==> target == "/"
  {
    if returnTo.Some? && returnTo.value != "" then returnTo.value else "/"
  }

  /** The caught value is an object with a `status` that is not `null`. */
  predicate HasStatus(error: Caught) {
    error.Thrown? && error.value.JObject? && "status" in error.value.fields && !error.value.fields["status"].JNull?
  }

  /** The status read from a caught value: its `status` when it has one,
      `0` otherwise. */
  function ExtractStatus(error: Caught): (status: Json)
    ensures !status.JNull?
    ensures HasStatus(error) ==> status == error.value.fields["status"]
    ensures !HasStatus(error) ==> status == JNumber(0)
  {
    if HasStatus(error) then error.value.fields["status"] else JNumber(0)
  }

  /** Whatever a query error throws, the page reads back its status. */
  lemma ExtractsQueryStatus(e: SerializedError)
    ensures ExtractStatus(Thrown(ErrorObject(e))) == JNumber(e.status)
  {
  }

  /** `status === 401`: the credential-specific message, every other status
      (0 and 500 included) the generic one. */
  function MessageFor(status: Json): (m: string)
    ensures m == InvalidCredentialsMessage <==> status == JNumber(401)
    ensures m == GenericFailureMessage <==> status != JNumber(401)
  {
    if status == JNumber(401) then InvalidCredentialsMessage else GenericFailureMessage
  }

  /** The error recorded on the form's `root`. */
  datatype RootError = RootError(errorType: string, message: string)

  /** `setError('root', {type: 'server', message})` for a caught value. */
  function ServerError(error: Caught): (r: RootError)
    ensures r.errorType == "server"
    ensures r.message == InvalidCredentialsMessage <==> ExtractStatus(error) == JNumber(401)
    ensures r.message == InvalidCredentialsMessage || r.message == GenericFailureMessage
  {
    RootError("server", MessageFor(ExtractStatus(error)))
  }

  /** What one submission ends in: signed in as a user and sent on to a
      target (replacing the history entry), or a root error on the form. */
  datatype SubmitOutcome = SignedIn(user: AuthUser, redirectTo: string) | Failed(rootError: RootError)

  /** The login request built from the form: both fields copied unchanged. */
  function RequestFor(data: LoginFormData): (req: LoginRequest)
    ensures req.identifier == data.identifier && req.password == data.password
  {
    LoginRequest(data.identifier, data.password)
  }

  /** The query result of the login mutation for a form. */
  function LoginResult(data: LoginFormData, env: Option<string>, send: Transport, recognise: ApiError -> bool): QueryResult {
    BaseQuery(LoginQuery(RequestFor(data)), env, send, recognise)
  }

  /** The fetch the login mutation performs for a form. */
  function LoginFetch(data: LoginFormData, env: Option<string>): FetchCall {
    FetchFor(LoginQuery(RequestFor(data)), env)
  }

  /** `onSubmit`, as a value: the outcome of one submission. */
  function Attempt(data: LoginFormData, returnTo: Option<string>, env: Option<string>, send: Transport, recognise: ApiError -> bool): (r: SubmitOutcome)
    ensures r.SignedIn? ==> r.redirectTo == ReturnTarget(returnTo)
    ensures r.Failed? ==> r.rootError.errorType == "server"
    // signed in exactly when the client returned a value other than `null`,
    // as the user that value names or else the fallback user
    ensures var c := Classify(send(LoginFetch(data, env)));
            r.SignedIn? <==> c.Ok? && !c.value.JNull?
    ensures var c := Classify(send(LoginFetch(data, env)));
            r.SignedIn? ==> r.user == (if NamesUser(c.value) then c.value.fields["user"] else FallbackUser(data.identifier))
    ensures r.Failed? ==> r.rootError.message == InvalidCredentialsMessage || r.rootError.message == GenericFailureMessage
  {
    match Unwrap(LoginResult(data, env, send, recognise))
    case Ok(result) =>
      (match ResolveUser(result, data.identifier)
       case Ok(user) => SignedIn(user, ReturnTarget(returnTo))
       case Err(c) => Failed(ServerError(c)))
    case Err(c) => Failed(ServerError(c))
  }

  /** `onSubmit`: log in, store the user and pick the redirect on success;
      record the failure message on the form otherwise. */
  method OnSubmit(store: AuthStore, data: LoginFormData, returnTo: Option<string>, env: Option<string>,
                  send: Transport, recognise: ApiError -> bool)
    returns (outcome: SubmitOutcome)
    modifies store
    ensures outcome == Attempt(data, returnTo, env, send, recognise)
    ensures outcome.SignedIn? ==> store.State() == Reduce(old(store.State()), SetUser(outcome.user))
    ensures outcome.Failed? ==> store.State() == old(store.State())
    ensures outcome.SignedIn? ==> store.Valid()
    ensures old(store.Valid()) ==> store.Valid()
  {
    var result := Unwrap(LoginResult(data, env, send, recognise));
    if result.Ok? {
      var user := ResolveUser(result.value, data.identifier);
      if user.Ok? {
        store.SetUser(user.value);
        outcome := SignedIn(user.value, ReturnTarget(returnTo));
      } else {
        outcome := Failed(ServerError(user.error));
      }
    } else {
      outcome := Failed(ServerError(result.error));
    }
  }

  /** The request sent for a form: a POST with cookies and a JSON content
      type to the login path under the base URL, carrying the identifier and
      password unchanged. */
  lemma LoginSendsForm(data: LoginFormData, env: Option<string>)
    ensures var call := LoginFetch(data, env);
            && call.url == BaseUrl(env) + LoginPath
            && call.init.httpMethod == Some("POST")
            && call.init.credentials == Some("include")
            && call.init.headers == Some(map["Content-Type" := JsonMediaType])
            && call.init.body == Some(Stringified(MapIdentifierToPayload(LoginRequest(data.identifier, data.password)).ToJson()))
  {
    var call := LoginFetch(data, env);
    assert call.init.headers.value == map["Content-Type" := JsonMediaType];
    assert call.url[..|BaseUrl(env)|] == BaseUrl(env) && call.url[|BaseUrl(env)|..] == LoginPath;
    assert call.url == call.url[..|BaseUrl(env)|] + call.url[|BaseUrl(env)|..];
  }

  /** The credential-specific message is shown exactly when the server
      answered 401 and the query recognised the client's error; every other
      failure shows the generic message. */
  lemma CredentialMessageExactlyFor401(data: LoginFormData, returnTo: Option<string>, env: Option<string>,
                                       send: Transport, recognise: ApiError -> bool)
    ensures var outcome := send(LoginFetch(data, env));
            (Attempt(data, returnTo, env, send, recognise) == Failed(RootError("server", InvalidCredentialsMessage)))
            <==> (outcome.Response? && outcome.status == 401 && recognise(Classify(outcome).error))
  {
  }

  /** When the recognition test answers false, a 401 from the server never
      shows the credential message: the query reports 500, and the page the
      generic message, whatever the content type and body. */
  lemma AsWrittenRejectionShowsGenericMessage(data: LoginFormData, returnTo: Option<string>, env: Option<string>,
                                              send: Transport)
    requires send(LoginFetch(data, env)).Response? && send(LoginFetch(data, env)).status == 401
    ensures Attempt(data, returnTo, env, send, InstanceOfApiError) == Failed(RootError("server", GenericFailureMessage))
  {
  }

  /** With the structural test, a 401 shows the credential message, whatever
      the content type and body. */
  lemma CorrectedRejectionShowsCredentialMessage(data: LoginFormData, returnTo: Option<string>, env: Option<string>,
                                                 send: Transport)
    requires send(LoginFetch(data, env)).Response? && send(LoginFetch(data, env)).status == 401
    ensures Attempt(data, returnTo, env, send, HasStatusField) == Failed(RootError("server", InvalidCredentialsMessage))
  {
  }

  /** A transport failure shows the generic message, whatever the recognition test. */
  lemma NetworkFailureShowsGenericMessage(data: LoginFormData, returnTo: Option<string>, env: Option<string>,
                                          send: Transport, recognise: ApiError -> bool)
    requires send(LoginFetch(data, env)) == NetworkFailure
    ensures Attempt(data, returnTo, env, send, recognise) == Failed(RootError("server", GenericFailureMessage))
  {
  }

  /** An ok response with a JSON content type whose body does not parse fails
      the attempt with the generic message; it is not treated as an empty
      success. */
  lemma UnparsableSuccessShowsGenericMessage(data: LoginFormData, returnTo: Option<string>, env: Option<string>,
                                             send: Transport, recognise: ApiError -> bool)
    requires var outcome := send(LoginFetch(data, env));
             outcome.Response? && IsOk(outcome.status) && IsJsonContentType(outcome.contentType) && outcome.body.None?
    ensures Attempt(data, returnTo, env, send, recognise) == Failed(RootError("server", GenericFailureMessage))
  {
  }

  /** An ok response with a JSON content type whose body is `null` fails
      while reading `user`, and shows the generic message. */
  lemma NullBodyShowsGenericMessage(data: LoginFormData, returnTo: Option<string>, env: Option<string>,
                                    send: Transport, recognise: ApiError -> bool)
    requires var outcome := send(LoginFetch(data, env));
             outcome.Response? && IsOk(outcome.status) && IsJsonContentType(outcome.contentType) && outcome.body == Some(JNull)
    ensures Attempt(data, returnTo, env, send, recognise) == Failed(RootError("server", GenericFailureMessage))
  {
  }

  /** Every ok response whose value is not `null` signs in: the user a JSON
      body names, the fallback user when the body names none or the content
      type is not JSON; always redirecting to the `returnTo` target. */
  lemma SuccessSignsIn(data: LoginFormData, returnTo: Option<string>, env: Option<string>,
                       send: Transport, recognise: ApiError -> bool)
    requires send(LoginFetch(data, env)).Response? && IsOk(send(LoginFetch(data, env)).status)
    ensures var outcome := send(LoginFetch(data, env));
            IsJsonContentType(outcome.contentType) && outcome.body.Some? && NamesUser(outcome.body.value) ==>
              Attempt(data, returnTo, env, send, recognise) == SignedIn(outcome.body.value.fields["user"], ReturnTarget(returnTo))
    ensures var outcome := send(LoginFetch(data, env));
            IsJsonContentType(outcome.contentType) && outcome.body.Some? && !outcome.body.value.JNull? && !NamesUser(outcome.body.value) ==>
              Attempt(data, returnTo, env, send, recognise) == SignedIn(FallbackUser(data.identifier), ReturnTarget(returnTo))
    ensures !IsJsonContentType(send(LoginFetch(data, env)).contentType) ==>
              Attempt(data, returnTo, env, send, recognise) == SignedIn(FallbackUser(data.identifier), ReturnTarget(returnTo))
  {
  }
}
