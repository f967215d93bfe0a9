# Route guard, request composable and error normaliser of a Vue client

This project models the three pieces of logic in a small Vue client that
have behaviour worth stating, and proves what each promises:

- **Router** (`router.dfy`): the constant route table, `isAuthenticated`
  (the `token` cookie counts only when it is a non-empty string) and the
  `beforeEach` guard as a pure three-way decision: redirect to `Login`,
  redirect to `Dashboard`, or allow. Named redirects are resolved against
  the table, which lets the model prove that the guard never redirects in
  a loop.
- **Fetch** (`fetch.dfy`): the `useFetch` composable as a class
  `FetchState` with the fields `data`, `error` and `loading`. `request` is
  split where the async function first suspends: `Begin` (raise `loading`,
  clear `error`, build the default headers in place and merge the caller's
  headers over them) and `Resume` (settle the fields once the transport and
  the JSON decoder have answered). `Request` runs the two around one call
  of the transport, which is a function parameter returning
  `NetworkFailure | ParseFailure | Response(ok, body)`. The pure functions
  `DefaultHeaders`, `Outgoing`, `ApiFailure` and `Settle` specify what the
  methods do; the class invariant `Valid` says that no error is shown while
  a request is in flight and that any stored thrown value is truthy.
- **ErrorHandler** (`error_handler.dfy`): `parseApiError` as a total
  function over a datatype of thrown values, with its priority order
  (`err_message`, `err_message_en`, an `Error`'s `message`, the default
  `"Terjadi kesalahan server"`) proved equal to a first-truthy-candidate
  reading.
- **JsValues** (`js_values.dfy`): `undefined`-or-value, decoded JSON and
  JavaScript truthiness, shared by the three.

Behaviour as written, which the model follows:

- On success `request` stores and returns the whole decoded body, not its
  `data` field.
- On any failure `data` keeps its previous value; it is never cleared.
- The body is decoded before `ok` is looked at, so a non-JSON error page
  fails as a parse error.
- For a non-ok response the thrown value is `result.message` when truthy
  (any truthy JSON value, not only a string), else `"Terjadi kesalahan"`;
  a body that decodes to `null` makes `result.message` itself throw a
  TypeError, and that is what lands in `error`.
- A successful response whose body is `null` returns `null`, the same
  value a failure returns.

## Model

| member | source | states |
|---|---|---|
| Router.IsAuthenticated | src/router/index.ts:38-41 | signed in exactly when the token is present and non-empty; an empty string counts as signed out |
| Router.Decide | src/router/index.ts:43-53 | Login redirect iff requiresAuth and signed out; Dashboard redirect iff requiresGuest and signed in; allow otherwise, in particular for a target with neither flag; requiresAuth is tested first |
| Router.Find | src/router/index.ts:7-31 | resolving a name or path against the table returns the first matching route, or none exactly when no route matches |
| Router.RouteTableWellFormed | src/router/index.ts:7-31 | names and paths are unique, every route other than `/` has exactly one flag, `/` is an unflagged redirect to `/auth/login`, the Login route's path |
| Router.RedirectTargetIsAllowed | src/router/index.ts:43-53 | every redirect names a route of the table that the guard allows under the same authentication state, so there is no redirect loop |
| Fetch.DefaultHeaders | src/composable/useFetch.ts:14-22 | Authorization is `Bearer <token>` exactly when the token is truthy; Content-Type is `application/json` exactly when the body is not form data; no other header |
| Fetch.Outgoing | src/composable/useFetch.ts:24-30 | the transport gets the caller's options unchanged except the headers, which are the defaults overlaid with the caller's; the caller wins on a shared name and a default survives otherwise |
| Fetch.MessageOf | src/composable/useFetch.ts:35 | `result.message` is an object's own field and undefined for every other non-null value |
| Fetch.ApiFailure | src/composable/useFetch.ts:34-36 | a non-ok response throws the body's truthy message, else the default message; a `null` body gives a TypeError; the thrown value is always truthy |
| Fetch.Settle | src/composable/useFetch.ts:24-42 | the request succeeds exactly on an ok response and then yields the whole body; transport and decoding failures are caught as such |
| Fetch.FetchState.constructor | src/composable/useFetch.ts:4-7 | initially `data` is null, `error` is null and `loading` is false |
| Fetch.FetchState.Begin | src/composable/useFetch.ts:9-30 | before the first await `loading` is true, `error` is null, `data` is unchanged, and the options sent are those of Outgoing |
| Fetch.FetchState.Resume | src/composable/useFetch.ts:32-45 | `loading` is false on every exit; success stores and returns the body; failure stores what was caught, returns null and keeps `data` |
| Fetch.FetchState.Request | src/composable/useFetch.ts:9-46 | one call of the transport with the Outgoing options; afterwards not loading, and success leaves no error while failure leaves `data` as it was |
| ErrorHandler.ParseApiError | src/utils/ErrorHandler.ts:7-17 | truthy `err_message` first, then truthy `err_message_en`, then an Error's `message`, else the server default; strings and null get the default; the result is empty only for an Error's own empty message |
| ErrorHandler.Candidates | src/utils/ErrorHandler.ts:8-14 | only objects offer message candidates: `err_message`, then `err_message_en`, then an Error's `message` (nothing in that place for a plain object) |
| ErrorHandler.FirstPresentIsFirst | src/utils/ErrorHandler.ts:10-11 | the candidate chosen is the earliest truthy one: every candidate before it is falsy |
| ErrorHandler.ParseApiErrorIsFirstPresent | src/utils/ErrorHandler.ts:7-17 | the result is the first truthy candidate; with none, an Error's empty message or the default |

## Left out

- The `token` cookie (js-cookie) is read by the caller and passed in as `Option<string>`.
- `fetch` and `res.json()` are one function parameter returning an abstract outcome; status codes beyond `ok`, response headers and streaming are not modelled.
- Vue `ref` reactivity is plain fields; what a template renders is not modelled.
- Two overlapping `request` calls on one instance interleave on the event loop; the model only covers one call at a time.
- Headers are a string-to-string map with exact names, as the object spread builds them; `Headers` objects, array-form headers and the transport's case-insensitive merging of names are not modelled.
- JSON numbers are integers; fractions and NaN are not modelled.
- ErrorHandler.ParseApiError: `err_message` and `err_message_en` are taken to be strings, as the `ApiError` type declares; a non-string truthy value in them would be returned as is at run time.
- `createRouter`, `createWebHistory`, the view components and vue-router's own redirect handling are library code; only the table lookup that resolves a named redirect is modelled.
- The default `options = {}` of `request` is the caller passing `RequestInit(None, NoBody, map[], map[])`.
- A variant of the composable that fetches on mount is not part of this model: it is not among the source files.
- src/main.ts (app bootstrap), src/utils/ToastUtils.ts (pass-throughs to a toast library) and the type-only files under src/types/ carry no logic to model.
