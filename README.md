# Auth0 session service and bearer-token interceptor, in Dafny

This project models the authentication core of a small Angular front-end that signs users in
with Auth0. It covers two pieces.

- **`AuthService`** (`src/app/auth/auth.service.ts`) is a small state machine. Its state is:
  - the latest token data (`accessToken`, `expiresAt`) and the latest user profile;
  - the persisted `isLoggedIn` flag in the browser's key/value store;
  - the URL hash;
  - where the router was sent.

  `handleLoginCallback`, `_streamSession`, `renewAuth` and `logout` change this state.
  The `authenticated` getter reads the flag back.
- **`InterceptorService.intercept`** (`src/app/auth/token.interceptor.ts`) handles each value of
  the token stream. For a truthy token it forwards a clone of the request that carries
  `Authorization: Bearer <token>`. For a falsy token the callback returns `undefined`. The
  model follows current rxjs here: `mergeMap` rejects that value, so the intercepted stream
  fails at that token. The code does not fix an rxjs version.

Files:

- `wrappers.dfy` (module `Wrappers`): `Option` and JavaScript truthiness of an optional string.
- `auth_session.dfy` (module `AuthSession`): the session state as a value, and one transition
  function per operation. Each function's contract states its effects. The file also has the
  invariants kept over any sequence of calls, proved by induction over the sequence.
- `auth_service.dfy` (module `Auth`): class `AuthService`. Its fields are the session state.
  Its methods update the fields in place. Each method's `ensures` says the new state is the
  matching `AuthSession` transition applied to the old state.
- `token_interceptor.dfy` (module `TokenInterceptor`): the decoration decision for one token
  value, and the outcome for a whole stream of token values: the requests handed on and whether
  the stream fails.

The service's collaborators are made explicit:

- The answer of auth0-js `parseHash` / `checkSession` is a `Reply` parameter:
  `Failed(err)`, or `Answered(result)` with a result that may be missing.
- `Date.now()` is a `now: nat` parameter.
- `localStorage` is the field `store: map<string, string>`.
- `window.location.hash` is the field `hash`.
- Each `router.navigate` call appends its target URL to `navigations`.
- Each `console.error` call from `_handleError` appends the provider error to `errorLog`.

The observables around the provider calls filter replies the same way (`AuthSession.Observe`).
An error is passed to the subscriber's error callback. A result is emitted only when its
`accessToken` is truthy. In every other case the stream completes and nothing else happens.
Each provider call is treated as one synchronous step.

Facts about the code that the model keeps:

- The code has no renewal timer and no stored post-login redirect.
- A failed login callback only logs the error. It does not navigate.
- With no token, the interceptor forwards no request, neither changed nor unchanged. Under
  current rxjs the stream then fails.

## Model

| member | source | states |
|---|---|---|
| `AuthSession.Initial` | src/app/auth/auth.service.ts:24-25 | at start both token fields are null and there is no profile; with no stored flag `authenticated` is false and the callback guard reduces to "hash non-empty"; the state is valid when the stored flag is well formed, and signed-in-consistent when the stored flag is not `"true"` (after a reload with `"true"` stored, `authenticated` holds while no token is held) |
| `AuthSession.Observe` | src/app/auth/auth.service.ts:32-54 | an error reply becomes the error notification; a reply is emitted exactly when it carries a result with a truthy access token (both directions); anything else is completion alone |
| `AuthSession.StreamSession` | src/app/auth/auth.service.ts:75-84 | token set to the result's token with `expiresAt = expiresIn * 1000 + now`; profile set to `idTokenPayload`; `"true"` stored under `isLoggedIn`, so `authenticated` holds; other store keys, hash, navigation and error log unchanged; both token fields written together |
| `AuthSession.HandleLoginCallback` | src/app/auth/auth.service.ts:62-73 | no change with an empty hash or when already authenticated; a parse error only appends to the error log; a result without a token changes nothing; a token signs in, clears the hash and navigates once to `onAuthSuccessUrl`; keeps token consistency, flag well-formedness and signed-in consistency |
| `AuthSession.RenewAuth` | src/app/auth/auth.service.ts:86-96 | no change when not authenticated or when the result has no token; success makes the same token, profile and flag update as login, but leaves hash and navigation alone; failure removes `isLoggedIn`, so `authenticated` is false, navigates to `onAuthFailureUrl`, and keeps the token data and profile |
| `AuthSession.Logout` | src/app/auth/auth.service.ts:98-107 | `"false"` is stored under `isLoggedIn`, so `authenticated` is false whatever the prior state; nothing else changes |
| `AuthSession.Step` | src/app/auth/auth.service.ts:62-111 | every operation keeps token consistency, flag well-formedness and "authenticated implies a truthy token"; once cleared, the hash stays cleared; once truthy, the token stays truthy |
| `AuthSession.RunPreservesValid` | src/app/auth/auth.service.ts:77-83 | over any sequence of calls, the token data stays both-null or both-set, and the flag holds only `"true"` or `"false"` |
| `AuthSession.RunKeepsTokenConsistent` | src/app/auth/auth.service.ts:77-80 | over any sequence of calls, the token data stays both-null or both-set, whatever else the store holds |
| `AuthSession.RunPreservesSignedIn` | src/app/auth/auth.service.ts:83-99 | over any sequence of calls, whenever `authenticated` is true a truthy access token is held |
| `AuthSession.FreshServiceSignedIn` | src/app/auth/auth.service.ts:24-111 | a service started without a stored `"true"` holds a truthy token and an expiry whenever it reports `authenticated`, after any sequence of calls |
| `AuthSession.RunKeepsHashCleared` | src/app/auth/auth.service.ts:67 | once the hash is empty, no sequence of calls sets it again |
| `AuthSession.RunNeverClearsToken` | src/app/auth/auth.service.ts:86-99 | no sequence of calls removes a truthy access token; renewal failure and logout leave it in place |
| `Auth.AuthService.constructor` | src/app/auth/auth.service.ts:22-29 | the fields are the initial session over the browser's store and hash |
| `Auth.AuthService.Authenticated` | src/app/auth/auth.service.ts:109-111 | the getter reads `isLoggedIn` from the store and is true exactly when it holds `"true"` |
| `Auth.AuthService.StreamSession` | src/app/auth/auth.service.ts:75-84 | called, as in the source, only with a result whose access token is truthy; the fields change as `AuthSession.StreamSession` says; the object invariant is kept |
| `Auth.AuthService.HandleLoginCallback` | src/app/auth/auth.service.ts:62-73 | the fields change as `AuthSession.HandleLoginCallback` says; the object invariant is kept |
| `Auth.AuthService.RenewAuth` | src/app/auth/auth.service.ts:86-96 | the fields change as `AuthSession.RenewAuth` says; the object invariant is kept |
| `Auth.AuthService.Logout` | src/app/auth/auth.service.ts:98-107 | the fields change as `AuthSession.Logout` says; afterwards `authenticated` is false |
| `TokenInterceptor.BearerValue` | src/app/auth/token.interceptor.ts:20 | the header value starts with `"Bearer "`, and everything after the prefix is exactly the token |
| `TokenInterceptor.WithHeader` | src/app/auth/token.interceptor.ts:19-21 | the clone has the same verb, URL and body; its header names are the old ones plus the new one; the new header has the given value; every other header keeps its value |
| `TokenInterceptor.Intercept` | src/app/auth/token.interceptor.ts:17-24 | a request is forwarded exactly when the token is truthy (both directions); it carries `Authorization` = `"Bearer " + token`; apart from that header it equals the incoming request |
| `TokenInterceptor.InterceptStream` | src/app/auth/token.interceptor.ts:15-25 | over a stream of token values, one decorated request is handed on per token before the first falsy one, in order; the stream fails exactly when some token is falsy |
| `TokenInterceptor.LeadingTokensAt` | src/app/auth/token.interceptor.ts:17-24 | the tokens that get a request are the stream's first tokens, all truthy, taken position by position; the stream ends or turns falsy right after them |
| `TokenInterceptor.ForwardedCarryStreamTokens` | src/app/auth/token.interceptor.ts:17-22 | the k-th forwarded request's `Authorization` value is `"Bearer "` followed by exactly the k-th token of the stream, which is truthy; apart from its headers the request equals the incoming one |
| `TokenInterceptor.AllTokensPresent` | src/app/auth/token.interceptor.ts:17-22 | a stream of truthy tokens only hands on exactly one request per token, in order, each with `"Bearer " + token`, and does not fail |
| `TokenInterceptor.FalsyTokenEndsStream` | src/app/auth/token.interceptor.ts:18-24 | a falsy token at position k fails the stream, and no request is handed on for it or for any later token |

## Left out

- `login` (`_Auth0.authorize()`) and the `WebAuth` configuration are left out. These are
  calls into the auth0-js SDK, which leave the app.
- The redirect that `logout` makes through `_Auth0.logout` is left out. It is an SDK call that
  leaves the app. Only the flag update before it is modelled.
- The real behaviour of `parseHash` and `checkSession` is left out. Their outcome is an input.
- rxjs is left out: `BehaviorSubject` replay to subscribers, subscriptions and asynchronous
  callback timing. Each provider answer is applied as one step.
- `JSON.parse` of stored strings other than `"true"`, `"false"` or a missing key is left out.
  `authenticated` is true exactly for `"true"`.
- `Auth.AuthService.constructor`: it guarantees the object invariant only when the browser's
  store already holds a well-formed flag, because other stored strings are not modelled.
- The message text that `_handleError` prints is left out. The model records only which error
  was logged.
- `expiresIn` is an integer number of seconds and `now` a natural number of milliseconds.
  JavaScript floating point, and the `NaN` from a missing `expiresIn`, are not modelled.
- The interceptor reads `this.auth.token$`, which `AuthService` does not define. The token
  stream is therefore an abstract sequence of optional strings and is not tied to `tokenData$`.
- TokenInterceptor.InterceptStream: follows current rxjs, where an `undefined` callback result
  fails the stream. Older rxjs releases may throw the error back to whatever emitted the token,
  and that behaviour is not modelled.
- TokenInterceptor.InterceptStream: a request handed on before the stream fails counts as
  forwarded. Whether the failure then cancels that request while it is in flight is not modelled.
- Angular treats HTTP header names case-insensitively. The model keys headers by exact name.
- `src/app/api.service.ts` (an HTTP GET plus error-to-string mapping) and
  `src/app/pages/home/home.component.ts` (UI lifecycle) are outside the modelled core.
- A renewal timer and a stored post-login redirect do not exist in the code, so they are not
  modelled.
