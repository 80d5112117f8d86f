/** The shapes exchanged by the login flow: the form's credential, the body
    sent to the backend and the user record the session keeps. */
module AuthTypes {
  import opened JsValues

  /** What the login form submits. */
  datatype LoginRequest = LoginRequest(identifier: string, password: string)

  /** The backend body: the identifier goes in exactly one of `username` or
      `email`, next to the password. */
  datatype LoginPayload =
    | UsernamePayload(username: string, password: string)
    | EmailPayload(email: string, password: string)
  {
    /** The field name that carries the identifier. */
    function IdentifierKey(): string {
      if EmailPayload? then "email" else "username"
    }

    /** The identifier, whichever field carries it. */
    function Identifier(): string {
      if EmailPayload? then email else username
    }

    /** The object literal this payload is on the wire. */
    function ToJson(): (r: Json)
      ensures r.JObject?
      ensures r.fields.Keys == {IdentifierKey(), "password"}
      ensures r.fields[IdentifierKey()] == JString(Identifier())
      ensures r.fields["password"] == JString(password)
      ensures "email" in r.fields <==> "username" !in r.fields
    {
      JObject(map[IdentifierKey() := JString(Identifier()), "password" := JString(password)])
    }
  }

  /** A user record. Its declared type is an open record of optional string
      fields, but nothing checks it at run time: any non-null value that
      arrives in a response's `user` field is stored as it is. */
  type AuthUser = v: Json | !v.JNull? witness EmptyObject

  /** The declared shape of a user: an object whose `id`, `email`, `username`
      and `displayName`, when present, are strings; other keys are free. */
  ghost predicate HasAuthUserShape(u: AuthUser) {
    && u.JObject?
    && forall k :: k in u.fields && k in {"id", "email", "username", "displayName"} ==> u.fields[k].JString?
  }
}
