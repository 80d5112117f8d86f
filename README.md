# Login pipeline of the React web scaffolding, modelled in Dafny

This project models the sign-in path of a React single-page client. The
login form's identifier and password become a backend payload
(`mapIdentifierToPayload`). That payload goes out as a POST to `/user/login`
through a shared query function (`baseQuery`). The query function calls an
HTTP client (`apiClient`). The client turns the network's answer into a value
or an `ApiError`. The page then either stores the user in the auth slice and
redirects, or shows one of two error messages on the form.

The network is a parameter: a `Transport` maps the `fetch` call (URL and
configuration) to a `RawOutcome`. A `RawOutcome` is a rejected fetch, or a
response with its status, its content type and the result of parsing its
body. The `instanceof ApiError` test in `baseQuery` is a parameter as well
(`recognise`), so the model can state what happens both as written and as
intended.

Modules, leaf first:

- `Wrappers`: `Option` and `Result`.
- `Text`: `String.prototype.includes`, and the decimal text of a number.
- `JsValues`: parsed JSON, JavaScript truthiness and serialised bodies.
- `AuthTypes`: login request, login payload and user record.
- `ApiClient`: base URL, request configuration, and the classification of
  one transport outcome.
- `BaseApi`: method default, body guard, and the result/error mapping.
- `AuthApi`: identifier mapping and the login query.
- `AuthSlice`: the session record. It has a pure reducer and a store class
  whose methods update the three fields in place.
- `LoginPage`: the decisions `onSubmit` takes, and the focus choice after
  validation.

Facts about the code that the model keeps:

- When an ok response has a JSON content type and its body does not parse, `response.json()` throws inside the `try`. The `catch` turns that error into the status-0 network error. The result is not `{}`.
- When the response names no user, the user stored is `{id: 'unknown', username: identifier}`.
- The session is a three-field record: `user`, `isAuthenticated` and `isLoading`. A failed attempt changes none of them. The failure is recorded as the form's `root` error.
- `auth-slice.ts` imports a `User` type that the types file does not declare. The model uses `AuthUser`.

## Model

| member | source | states |
|---|---|---|
| `Text.Includes` | src/services/api-client.ts:46 | `includes` is true exactly when the searched text occurs as a contiguous slice at some index |
| `Text.IncludesChar` | src/services/api/auth-api.ts:27 | searching for the one-character string `@` is the same as `@` being a character of the identifier |
| `Text.DecimalRoundTrip` | src/services/api-client.ts:38 | the status written into the failure message reads back as the same number |
| `AuthTypes.LoginPayload.ToJson` | src/services/api/auth-api.ts:28-30 | the wire object has exactly two keys: `password`, plus one of `email` or `username` holding the identifier |
| `AuthApi.MapIdentifierToPayload` | src/services/api/auth-api.ts:24-31 | the `email` variant exactly when the identifier contains `@` anywhere (so `""` gives `username`); identifier and password copied unchanged; total |
| `AuthApi.LoginQuery` | src/services/api/auth-api.ts:10-17 | always `POST` to `/user/login`, with a body holding the identifier under `email` iff it contains `@`, otherwise under `username`, plus the password |
| `ApiClient.BaseUrl` | src/services/api-client.ts:1 | the configured base when it is non-empty, otherwise `https://api.sukker.no`; never empty |
| `ApiClient.Config` | src/services/api-client.ts:15-22 | `credentials` is always `include`; method and body are passed through; the headers are the caller's plus `Content-Type`, a caller header wins over the default, and `application/json` applies when the caller sets none |
| `ApiClient.Prepare` | src/services/api-client.ts:13 | the URL is the base URL followed by the endpoint, with nothing added or lost |
| `ApiClient.FailureMessage` | src/services/api-client.ts:38 | the message is `Request failed with status ` followed by the canonical decimal of the status: digits only, no leading zero, reading back as the status |
| `ApiClient.CatchBlock` | src/services/api-client.ts:51-60 | a thrown value carrying `status` is rethrown unchanged; anything else becomes the status-0 network error |
| `ApiClient.Classify` | src/services/api-client.ts:24-61 | a rejected fetch gives the network error. A non-ok status gives an error with that status, the parsed body or `{}`, and the status message. An ok JSON response gives its body, or the network error when the body does not parse. An ok response without a JSON type gives `{}`. Status 0 occurs only as the network error. A value comes only from an ok status |
| `ApiClient.Call` | src/services/api-client.ts:9-62 | `apiClient` gives the classification of the transport's answer to the prepared URL and configuration. A value comes only from an ok response. An error is the network error or carries the response's non-ok status |
| `BaseApi.ClientOptions` | src/services/api/base-api.ts:19-23 | the method defaults to `GET`; the body is serialised exactly when it is present and truthy, otherwise it is absent |
| `BaseApi.MapError` | src/services/api/base-api.ts:25-41 | a recognised error keeps its status and data and drops its message; an unrecognised one is `{status: 500, data: {message: 'Unknown error'}}` |
| `BaseApi.InstanceOfApiError` | src/services/api/base-api.ts:26 | `instanceof ApiError` read as an answering test: `ApiError` is only an interface (api-client.ts:3) and every thrown error is an object literal, so it answers false for every error |
| `BaseApi.HasStatusField` | src/services/api-client.ts:52 | the intended test, `'status' in error`: every object the client throws carries `status`, so it accepts every client error |
| `BaseApi.BaseQuery` | src/services/api/base-api.ts:17-43 | total, and exactly one of `{data}`/`{error}`. `{data}` holds the client's value exactly when the client returned one. `{error}` is the client's error mapped by `MapError` |
| `BaseApi.AsWrittenRejectionBecomes500` | src/services/api/base-api.ts:26 | when the `instanceof` test answers false, a 401 from the server comes back as the 500 unknown error, whatever the content type and body |
| `BaseApi.CorrectedRejectionKeeps401` | src/services/api/base-api.ts:26-33 | with a test that recognises the client's errors, a 401 keeps its status and the server's parsed body (or `{}`), whatever the content type |
| `AuthSlice.Reduce` | src/features/auth/redux/auth-slice.ts:21-33 | `setUser` stores the user and sets the flag. `clearAuth` empties both. `setLoading` changes only `isLoading`. Every action keeps "authenticated iff a user is stored", and the first two establish it |
| `AuthSlice.RunKeepsConsistent` | src/features/auth/redux/auth-slice.ts:12-32 | any sequence of actions from a consistent state ends in a consistent state |
| `AuthSlice.ReachableConsistent` | src/features/auth/redux/auth-slice.ts:12-16 | the initial state is consistent, so every reachable state is |
| `AuthSlice.LoadingOnlyTouchesLoading` | src/features/auth/redux/auth-slice.ts:30-32 | any number of `setLoading` actions leaves `user` and `isAuthenticated` as they were |
| `AuthSlice.ClearAuthIdempotent` | src/features/auth/redux/auth-slice.ts:26-29 | clearing twice equals clearing once |
| `AuthSlice.SetUserThenClear` | src/features/auth/redux/auth-slice.ts:22-29 | `setUser` then `clearAuth` restores the initial `user` and `isAuthenticated` and keeps `isLoading` |
| `AuthSlice.SelectUser` | src/features/auth/redux/auth-slice.ts:38 | the selected user is exactly the stored user, and on a consistent state it is present exactly when the state is authenticated |
| `AuthSlice.SelectIsAuthenticated` | src/features/auth/redux/auth-slice.ts:39-40 | exactly the stored `isAuthenticated` flag, for every state; on a consistent state it says whether `selectUser` yields a user |
| `AuthSlice.AuthStore.constructor` | src/features/auth/redux/auth-slice.ts:12-16 | the store starts with no user, not authenticated, not loading |
| `AuthSlice.AuthStore.SetUser` | src/features/auth/redux/auth-slice.ts:22-25 | in place: user stored, authenticated, loading unchanged, invariant established |
| `AuthSlice.AuthStore.ClearAuth` | src/features/auth/redux/auth-slice.ts:26-29 | in place: user cleared, not authenticated, loading unchanged, invariant established |
| `AuthSlice.AuthStore.SetLoading` | src/features/auth/redux/auth-slice.ts:30-32 | in place: only `isLoading` changes, and the invariant is kept |
| `LoginPage.FocusAfterValidation` | src/features/auth/pages/login-page.tsx:36-42 | focus goes to the identifier iff it has an error, to the password iff only the password has one, nowhere iff neither has |
| `LoginPage.RequestFor` | src/features/auth/pages/login-page.tsx:46-49 | the login call receives the form's identifier and password unchanged |
| `LoginPage.LoginSendsForm` | src/features/auth/pages/login-page.tsx:46-49 | the fetch for a submission is a POST with cookies and a JSON content type to base URL + `/user/login`, whose body is the mapped payload of the unchanged form fields |
| `LoginPage.FallbackUser` | src/features/auth/pages/login-page.tsx:53 | the fallback user is exactly `{id: 'unknown', username: identifier}` and has the declared user shape |
| `LoginPage.ResolveUser` | src/features/auth/pages/login-page.tsx:53 | the response's `user` when present and not null; otherwise the fallback user. It fails exactly when the response body is `null`, and the failure is a `TypeError` that carries no `status` |
| `LoginPage.ReturnTarget` | src/features/auth/pages/login-page.tsx:57 | the `returnTo` value when non-empty, otherwise `/`; never empty |
| `LoginPage.ExtractStatus` | src/features/auth/pages/login-page.tsx:60-63 | the caught value's `status` when it is an object with a non-null `status`, `0` in every other case; never null |
| `LoginPage.ErrorObject` | src/services/api/base-api.ts:11-14 | the object `unwrap()` throws for a query error: an object with `status` holding the error's status, `data` present exactly when the error has data and then holding it, and no other key |
| `LoginPage.ExtractsQueryStatus` | src/features/auth/pages/login-page.tsx:60-63 | for every error a query throws, the page reads back exactly its status |
| `LoginPage.MessageFor` | src/features/auth/pages/login-page.tsx:65-68 | the credential message iff the status is the number 401; the generic message for every other status, 0 and 500 included |
| `LoginPage.ServerError` | src/features/auth/pages/login-page.tsx:70-73 | the root error has type `server` and one of the two messages, the credential one iff the extracted status is 401 |
| `LoginPage.Attempt` | src/features/auth/pages/login-page.tsx:44-76 | signed in exactly when the client returned a value other than `null`. The user is the one that value names, otherwise the fallback user. The redirect is the `returnTo` target. A failure records a `server` error with one of the two messages |
| `LoginPage.OnSubmit` | src/features/auth/pages/login-page.tsx:44-76 | on success the store is updated by `setUser` with the resolved user; on failure the store is untouched; the slice invariant is kept |
| `LoginPage.CredentialMessageExactlyFor401` | src/features/auth/pages/login-page.tsx:65-68 | the credential message appears exactly when the server answered 401 and the query recognised the client's error, for every input; so, for example, a 403 shows the generic message |
| `LoginPage.AsWrittenRejectionShowsGenericMessage` | src/services/api/base-api.ts:26-41 | when the `instanceof` test answers false, any 401 from the server ends with the generic message on the form |
| `LoginPage.CorrectedRejectionShowsCredentialMessage` | src/features/auth/pages/login-page.tsx:65-68 | with the corrected recognition, any 401 ends with the credential message |
| `LoginPage.NetworkFailureShowsGenericMessage` | src/services/api-client.ts:57-60 | a rejected fetch ends with the generic message, whatever the recognition test |
| `LoginPage.UnparsableSuccessShowsGenericMessage` | src/services/api-client.ts:47 | any ok response with a JSON content type whose body does not parse fails the attempt with the generic message |
| `LoginPage.NullBodyShowsGenericMessage` | src/features/auth/pages/login-page.tsx:53 | any ok response with a JSON content type whose body is `null` fails while reading `user` and shows the generic message |
| `LoginPage.SuccessSignsIn` | src/features/auth/pages/login-page.tsx:52-58 | every ok response whose value is not `null` signs in. The user is the one a JSON body names, or else the fallback user (no `user` key, or a content type that is not JSON). All of them redirect to the `returnTo` target |

## Left out

- Rendering is not modelled: the JSX, the Flowbite components, the links, the disabled button and the focus moves through refs and `setFocus`. The focus on mount (login-page.tsx:31-33) is left out for the same reason. The choice of which field to focus after validation is modelled.
- `fetch`, `response.json()` and `response.headers.get` are not modelled; a `RawOutcome` stands in for them. Response statuses are limited to 200-599, the range of a `Response` status in the Fetch standard.
- `JSON.stringify` is kept only as the value it serialises (`Stringified`), not as characters.
- JSON numbers are integers. Fractions and `NaN` do not occur in the statuses and bodies the pipeline inspects.
- Only four `RequestInit` members are modelled: method, body, credentials and headers. Other members that the spread passes through are not. Headers are a plain string map. `Headers` objects, array forms and case-insensitive header names are not modelled.
- `import.meta.env` is not read: the environment value is a parameter of `BaseUrl`.
- RTK Query and Redux are not modelled: `createApi`, `injectEndpoints`, the mutation hook, the action plumbing of `createSlice`, `dispatch` and `navigate`. `unwrap()` is the function `Unwrap`. Dispatching `setUser` is a call of the store method. Navigation is the returned `SignedIn` outcome, whose redirect always replaces the history entry.
- The `isLoading` in-flight tracking is not modelled; it lives in RTK Query. The shown code has no rule allowing only one attempt at a time, apart from the submit button: it is disabled while the request is in flight (login-page.tsx:135). That is rendering and is left out.
- The zod `loginSchema` is not part of this model. Its output is taken as the validated `LoginFormData`.
- `RootState` and the store setup are not part of this model. The selectors take the `auth` slice's state directly.
- `BaseApi.BaseQuery` models the `instanceof ApiError` test as the parameter `recognise`. Two things are not modelled: TypeScript rejecting the test, and a missing export failing to link. The model states the outcome of both answers to the test.

## Findings

| source | as written | input that shows it | evidently intended | confidence | as-written member | corrected member |
|---|---|---|---|---|---|---|
| src/services/api/base-api.ts:26 | `error instanceof ApiError` tests against `ApiError`, which is only an interface (api-client.ts:3). Every error the client throws is a plain object literal, so nothing can be recognised. The program as written does not run this test at all: TypeScript rejects `instanceof` against an interface, and a build that only strips types imports an export that api-client.ts does not have, so the module fails to link. If the binding were `undefined`, `instanceof` would throw inside the `catch`, and the query would reject instead of returning. | The server answers 401 to `POST /user/login`. When the test answers false, `baseQuery` returns `{status: 500, data: {message: 'Unknown error'}}`. In every reading that runs (a false test, or a query that rejects without a `status`), the page shows the generic message and never the wrong-credentials one. | Recognise the client's errors (they all carry `status`). Pass 401 through so the page shows the credential-specific message. | high; not executed | `BaseApi.AsWrittenRejectionBecomes500` | `BaseApi.CorrectedRejectionKeeps401` |
