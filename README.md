# Forum client HTTP pipeline, in Dafny

A model of the HTTP client layer of a browser-side forum client, and proofs about it.
Every backend call passes through this layer. The model has three parts.

- **The request pipeline** (`lib/api.ts`, module `Api`). A `Pipeline` object holds four things.
  - The dedup map `requestMap` from request key to token source.
  - The set of cancelled token sources, and a counter that makes fresh ones.
  - The current view path, and a count of redirects to `/login`.
  - A reference to the shared `localStorage`.

  `OnRequest` is the request interceptor. It attaches `Bearer <token>`. For a GET, it
  cancels and replaces any outstanding identical GET. `OnSuccess` and `OnError` are the
  response interceptors:
  - They release a GET's key.
  - They turn a cancellation into the `Request cancelled` error with `isCancel` set.
  - On a 401/403 outside a public post read, they erase both tokens and redirect to
    `/login` unless the view is the login or register view.
  - They choose the rejected error's message.

  `Complete` plays the transport. A request whose token source was cancelled settles as a
  cancellation. Any other request goes to the matching interceptor.

  `Valid()` is the pipeline's invariant, kept by every method:
  - every stored handle is live (not cancelled);
  - no handle is stored under two keys;
  - every handle is older than the counter.
- **The request tracker** (`lib/requestTracker.ts`, module `RequestTracker`).
  - `createRequestKey` builds `method:url:params`. Its inverse `ParseRequestKey` gives a
    round trip and injectivity for colon-free methods and urls.
  - The registry of abort controllers is given twice. Functions on `TrackerState` specify
    it. A `Tracker` class updates it in place, and each of its methods is proved equal to
    the matching function.
  - Lemmas over arbitrary sequences of calls show two things. The aborted controllers are
    exactly the ones displaced by set or cancel. Keys not named by a call keep their
    controller.
- **The auth slice** (`lib/slices/authSlice.ts`, module `AuthSlice`).
  - The state and the two reducers are functions. The `Auth` class updates its fields and
    the shared storage in place.
  - Lemmas over arbitrary sequences of `setCredentials`/`logout` show two things. The
    tokens and `isAuthenticated` are set or cleared together. After at least one action,
    storage holds exactly the in-memory tokens.

Module `Scenarios` proves what callers observe end to end:
- the same GET issued twice;
- a 401/403 on a public post read;
- a 401 on `PATCH /api/post/{id}` after a login.

The last of these shows a gap between the files. The pipeline clears the stored tokens but
does not tell the auth slice, so the slice still reports `isAuthenticated`. The page
reload after the redirect hides this, except on the login and register views, where
no redirect happens.

Three behaviours of the code that the model keeps:
- A cancelled request returns at lib/api.ts:79-84, before the release at lines 87-94.
  By then the newer request owns the key, so nothing is released.
- The only errors are `Request cancelled` with `isCancel` set, or a plain
  `Error(message)`.
- The params part of a key is `JSON.stringify` output, so it depends on the order of
  the parameters' keys.

Request keys are injective only for methods and urls without a colon. A colon in the
url can stand where the params begin: `GET` with `/a:b` and no params has the same key
as `GET` with `/a` and params `b:` (`RequestTracker.KeyCollidesAcrossColon`).

Helper modules: `Wrappers` (Option), `Strings` (`String.prototype.includes`),
`BrowserStorage` (`localStorage` as a string map, and the two token key names).

## Model

| member | source | states |
|---|---|---|
| Strings.Includes | lib/api.ts:99 | `includes` holds exactly when the needle occurs at some index of the string |
| RequestTracker.CreateRequestKey | lib/requestTracker.ts:5-8 | the key is the method, a colon, the url, a colon and the serialised params (absent params give ""), each part at its position |
| RequestTracker.ParseCreateRoundTrip | lib/requestTracker.ts:5-8 | for a colon-free method and url, the key splits back into method, url and serialised params (absent params give "") |
| RequestTracker.KeyInjective | lib/requestTracker.ts:5-8 | for colon-free methods and urls, two keys are equal iff method, url and serialised params are all equal |
| RequestTracker.KeyCollidesAcrossColon | lib/requestTracker.ts:5-8 | with a colon in the url, two different requests share a key: keys are not injective outside the colon-free domain |
| RequestTracker.GetAbortController | lib/requestTracker.ts:10-12 | the stored controller when the key is present, none otherwise |
| RequestTracker.SetAbortController | lib/requestTracker.ts:14-21 | afterwards the key holds the new controller, other keys are unchanged, and the displaced controller (if any) is aborted; nothing else is aborted |
| RequestTracker.RemoveAbortController | lib/requestTracker.ts:23-25 | afterwards the key is absent, other keys are unchanged, and nothing is aborted |
| RequestTracker.CancelRequest | lib/requestTracker.ts:27-33 | afterwards the key is absent, its former controller is aborted, other keys are unchanged; no change at all when the key was absent |
| RequestTracker.RemoveIdempotent | lib/requestTracker.ts:23-25 | removing a key twice is the same as removing it once |
| RequestTracker.CancelIdempotent | lib/requestTracker.ts:27-33 | cancelling a key twice is the same as cancelling it once |
| RequestTracker.RunAbortsExactlyDisplaced | lib/requestTracker.ts:14-33 | after any sequence of set/remove/cancel, the aborted set is the old one plus exactly the controllers displaced by set or cancel |
| RequestTracker.RunLeavesOtherKeys | lib/requestTracker.ts:14-33 | a key that no call in a sequence names keeps its controller, or stays absent |
| RequestTracker.Tracker.constructor | lib/requestTracker.ts:3 | the registry starts empty with nothing aborted |
| RequestTracker.Tracker.Get | lib/requestTracker.ts:10-12 | returns the stored controller or none, changing nothing |
| RequestTracker.Tracker.Set | lib/requestTracker.ts:14-21 | the in-place update equals SetAbortController on the old state |
| RequestTracker.Tracker.Remove | lib/requestTracker.ts:23-25 | the in-place update equals RemoveAbortController on the old state |
| RequestTracker.Tracker.Cancel | lib/requestTracker.ts:27-33 | the in-place update equals CancelRequest on the old state |
| AuthSlice.UsernameFromToken | lib/jwt.ts:2-3 | an empty token has no username; any other token gives what decoding its payload gives |
| AuthSlice.AfterSetCredentials | lib/slices/authSlice.ts:19-23 | both tokens are the payload's, `isAuthenticated` is true, `username` comes from the access token, and the state is consistent |
| AuthSlice.StoredCredentials | lib/slices/authSlice.ts:24-27 | storage holds the payload's tokens under `accessToken`/`refreshToken`; every other key is unchanged |
| AuthSlice.AfterLogout | lib/slices/authSlice.ts:29-33 | all four fields are null/false |
| AuthSlice.ClearedCredentials | lib/slices/authSlice.ts:34-37 | both token keys are absent from storage; every other key is unchanged |
| AuthSlice.InitialStateConsistent | lib/slices/authSlice.ts:8-13 | the initial state is consistent, and storage without token keys mirrors it |
| AuthSlice.Reduce | lib/slices/authSlice.ts:19-38 | either reducer, from any session, leaves a consistent state that storage mirrors, and changes no storage key other than the two token keys |
| AuthSlice.LogoutIdempotent | lib/slices/authSlice.ts:29-38 | logging out twice equals logging out once, for the state and for storage |
| AuthSlice.RunStaysConsistent | lib/slices/authSlice.ts:19-38 | from a consistent state, after any sequence of actions: `isAuthenticated` iff an access token iff a refresh token |
| AuthSlice.RunMirrors | lib/slices/authSlice.ts:19-38 | after any non-empty sequence of actions, storage holds exactly the in-memory tokens, even if it held stale ones before |
| AuthSlice.RunKeepsOtherKeys | lib/slices/authSlice.ts:24-37 | no sequence of actions changes a storage key other than the two token keys |
| AuthSlice.Auth.constructor | lib/slices/authSlice.ts:8-13 | the slice starts in the initial state |
| AuthSlice.Auth.SetCredentials | lib/slices/authSlice.ts:19-28 | the fields become AfterSetCredentials of the payload, and storage becomes StoredCredentials of the old storage |
| AuthSlice.Auth.Logout | lib/slices/authSlice.ts:29-38 | the fields become AfterLogout, and storage becomes ClearedCredentials of the old storage |
| Api.BearerHeader | lib/api.ts:30-33 | a header exists iff a non-empty token is stored, and it is `Bearer ` followed by that token |
| Api.BearerRoundTrip | lib/api.ts:32 | the header carries exactly the stored token: stripping `Bearer ` gives it back |
| Api.SameGetKey | lib/api.ts:36-41 | two GETs to colon-free urls share a dedup key iff they have the same url and serialised params |
| Api.GetKey | lib/api.ts:37-41 | a GET's dedup key is the `GET` key of its url and params; for a colon-free url it splits back into `GET`, the url and the serialised params |
| Api.Released | lib/api.ts:67-94 | after a GET settles (not by cancellation) its key is gone and every other key keeps its handle; a non-GET leaves the map as it was |
| Api.IsPublicPostRead | lib/api.ts:98-99 | true exactly for a GET whose url contains `/api/post` at some index |
| Api.Invalidates | lib/api.ts:96-101 | a cancellation, a status other than 401/403, or a public post read never invalidates; any other 401/403 does |
| Api.ShouldRedirect | lib/api.ts:107-110 | true exactly when the path contains neither `/login` nor `/register` at any index |
| Api.PublicPostReadNeverInvalidates | lib/api.ts:96-101 | a 401/403 on a GET whose url contains `/api/post` anywhere never invalidates the session |
| Api.OtherFailuresNeverInvalidate | lib/api.ts:96 | a failure with no response, or a status other than 401/403, never invalidates the session |
| Api.WritesInvalidate | lib/api.ts:96-105 | a non-cancelled 401/403 on any non-GET request invalidates the session, whatever the url |
| Api.BackendMessage | lib/api.ts:118 | the backend's message is the response's `message` when there is a response, and none otherwise |
| Api.ErrorMessage | lib/api.ts:117-121 | the message is the backend's if non-empty, else the transport's if non-empty, else the fixed fallback; it is never empty |
| Api.Pipeline.constructor | lib/api.ts:18 | the dedup map starts empty, nothing is cancelled, no redirect has happened |
| Api.Pipeline.Supersede | lib/api.ts:43-53 | the GET's key now holds a fresh handle that was never cancelled or stored; the handle previously under the key, if any, is cancelled; other keys are unchanged |
| Api.Pipeline.Release | lib/api.ts:67-74 | the dedup map becomes Released of the old one: a GET's key is deleted by key, a non-GET changes nothing |
| Api.Pipeline.OnRequest | lib/api.ts:28-57 | attaches `Bearer <token>` when a non-empty token is stored and leaves the header alone otherwise; a GET's key now holds a fresh handle on the sent request, and the handle previously there is cancelled; other keys are unchanged; a non-GET changes no pipeline state |
| Api.Pipeline.OnSuccess | lib/api.ts:65-76 | returns the response unmodified; a GET's key is removed (by key), and a non-GET changes nothing |
| Api.Pipeline.OnError | lib/api.ts:77-122 | a cancellation rejects with `Request cancelled`/`isCancel` and changes nothing; otherwise a GET's key is removed, a 401/403 outside public post reads removes both tokens and adds one redirect unless the view contains `/login` or `/register`, and the message is ErrorMessage's |
| Api.Pipeline.Complete | lib/api.ts:63-123 | a request whose handle was cancelled settles as the cancellation and changes nothing; any other settles through the success or error interceptor with their effects |
| Scenarios.DuplicateGet | lib/api.ts:43-84 | of two identical GETs issued back to back, the first settles as cancelled, the second delivers its payload, and no key stays outstanding |
| Scenarios.PublicPostReadRejected | lib/api.ts:96-101 | with no stored tokens, a 401/403 on `GET /api/post/{id}` leaves storage empty, does not redirect, and rejects with the chosen message |
| Scenarios.UnauthorizedUpdate | lib/api.ts:96-113 | after a login, a 401 on `PATCH /api/post/{id}` was sent with the bearer token, rejects with the transport's message, erases both tokens, redirects once unless on the login/register view, and leaves the auth slice reporting authenticated |

## Left out

- Transport: axios, `baseURL`, the default `Content-Type` header and the shape of
  `CancelTokenSource` are not modelled (lib/api.ts:1, 15, 20-25, 51). A token source is
  a number. Cancelling it adds it to the `cancelled` set. Transport results are inputs
  to `Complete`.
- Api.Pipeline.Complete: it assumes cancellation wins. A request that has already
  settled when its source is cancelled would still reach the success or error
  interceptor. Those delete by key, so they would release the newer request's entry.
  `OnSuccess` and `OnError` themselves state this key-based removal, but `Complete`
  does not produce that interleaving.
- The request interceptor's error handler (lib/api.ts:58-60) only passes a rejection
  through. It is not modelled.
- Browser globals: `localStorage` is the `LocalStorage` object, and the view path is a
  field. The `typeof window` checks are taken as true, so the server-side path (no
  token, no storage writes, no redirect) is not modelled.
- Navigation: assigning `window.location.href` is modelled as counting one redirect.
  The page reload that follows is not modelled.
- Params serialisation: `JSON.stringify` is not modelled. The serialised params are an
  opaque string, so key equality up to parameter order is not a property of the code.
- JWT decoding: lib/jwt.ts:5-19 (base64 and JSON parsing) is the `decode` function
  given to the `Auth` constructor. Only the empty-token case is modelled.
- The facades `authAPI` and `postAPI` (lib/api.ts:125-169) only unwrap `response.data`.
  They appear only as the request shapes in `Scenarios`.
- Redux itself (store, immer drafts, action creators) is not modelled. The rehydration
  in components/Providers.tsx, which dispatches `setCredentials` only when both tokens
  are stored, is not part of this model. The React components and pages are not part
  of this model either.
- lib/errorHandler.ts and the UI-level matching of error messages are not part of this
  model.
