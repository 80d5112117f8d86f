/** The login endpoint: how a form credential becomes the request body, and
    where the request goes. */
module AuthApi {
  import opened Wrappers
  import opened Text
  import opened JsValues
  import opened AuthTypes
  import opened BaseApi

  const LoginPath: string := "/user/login"

  /** `mapIdentifierToPayload`: an identifier containing `@` anywhere is sent
      as `email`, any other (the empty one included) as `username`; both the
      identifier and the password travel unchanged. Total: no input fails. */
  function MapIdentifierToPayload(credentials: LoginRequest): (p: LoginPayload)
    ensures p.EmailPayload? <==> '@' in credentials.identifier
    ensures p.Identifier() == credentials.identifier
    ensures p.password == credentials.password
  {
    var isEmail := Includes(credentials.identifier, "@");
    IncludesChar(credentials.identifier, '@');
    if isEmail
    then EmailPayload(credentials.identifier, credentials.password)
    else UsernamePayload(credentials.identifier, credentials.password)
  }

  /** The `login` mutation's query: always a POST to `/user/login` whose body
      is the mapped payload. */
  function LoginQuery(credentials: LoginRequest): (args: BaseQueryArgs)
    ensures args.url == LoginPath && args.httpMethod == Some("POST")
    ensures args.body.Some? && args.body.value.JObject?
    ensures var fields := args.body.value.fields;
            && fields.Keys == {if '@' in credentials.identifier then "email" else "username", "password"}
            && fields["password"] == JString(credentials.password)
            && ("email" in fields ==> fields["email"] == JString(credentials.identifier))
            && ("username" in fields ==> fields["username"] == JString(credentials.identifier))
  {
    BaseQueryArgs(LoginPath, Some("POST"), Some(MapIdentifierToPayload(credentials).ToJson()))
  }
}
