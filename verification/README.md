# Session store and navigation guard of the encryption-front web client

This project models the client-side session of a Vue single-page front end.
That front end signs users up and in against a backend over cookie-carried credentials.

The model has two parts:

- **The auth session store.** Its state is four fields: `user`, `isAuthenticated`, `isLoading` and `error`. It has five operations: `login`, `signup`, `logout`, `checkAuth` and `refreshToken`.
- **The router's `beforeEach` guard.** It reads the store before every navigation.

Each operation is a pure transition. It takes the current `Session` and the outcome of every backend call it may make. Each outcome is `Ok(payload)` or `Err(ApiError(serverMessage, transportMessage))`. The operation returns a `Step`, which holds:

- the new session;
- what it returned or threw;
- the path it pushed to the router;
- the backend calls it made, in order.

The guard returns the session after any `checkAuth` it ran, the argument it passed to `next`, and its calls.

Files:

- `auth_types.dfy` (`AuthTypes`): the DTO, the rejection shape, outcomes, and JavaScript truthiness and `||` on optional strings.
- `auth_api.dfy` (`AuthApi`): the backend endpoints. Call traces list them, and each one's HTTP method and path are given, so a trace can be read as requests.
- `auth_store.dfy` (`AuthStore`): the session, its invariant `isAuthenticated <==> user != null`, and the five operations.
- `router.dfy` (`Router`): the route table with its `guest` / `requiresAuth` flags, and the guard.
- `session_runs.dfy` (`SessionRuns`): arbitrary sequences of operations and navigations, and the facts that span them.

Points about the code that shape the model:

- The HTTP client module only configures its base URL, credentials, headers and timeout. The only refresh-and-retry path is the one inside `checkAuth`.
- `refreshToken` does not set `isLoading`. The other four operations do.
- `checkAuth` and `refreshToken` rethrow the backend's rejection as it came. Only `login` and `signup` turn it into a message string.
- The guard checks `!meta.guest`, not `requiresAuth`. So a path outside the route table is guarded like home.

## Model

| member | source | states |
|---|---|---|
| AuthTypes.Or | src/stores/auth.ts:46 | JavaScript `a \|\| b` on optional strings: the result is truthy iff either side is; it is `a` whenever `a` is truthy, and `b` otherwise. |
| AuthStore.ErrorMessage | src/stores/auth.ts:44-46 | Picks the server's message if non-empty. Otherwise picks the transport's message if non-empty. Otherwise picks the fallback. With a non-empty fallback the result is never empty. |
| AuthStore.RedirectPath | src/stores/auth.ts:39 | The post-login target is the `redirect` query value when it is non-empty, otherwise `/`. It is never empty. |
| AuthStore.Login | src/stores/auth.ts:29-51 | Makes exactly one login call and always ends with `isLoading = false`. It keeps the invariant. On success: it holds the DTO, is authenticated, has `error = null`, returns the DTO and pushes the redirect target. On failure: `error` is set to the selected non-empty message, which is also thrown; `user` and `isAuthenticated` are unchanged; nothing is pushed. |
| AuthStore.Signup | src/stores/auth.ts:56-77 | The same as login, with the signup fallback text. A success always pushes `/`. |
| AuthStore.Logout | src/stores/auth.ts:82-98 | Makes one logout call and never throws. Ends with `user = null`, `isAuthenticated = false` and `isLoading = false`, so the invariant holds. `error` is untouched. Always pushes `/login`. |
| AuthStore.LogoutIgnoresOutcome | src/stores/auth.ts:85-97 | Whether the logout call succeeds or fails makes no difference to the result. |
| AuthStore.RefreshToken | src/stores/auth.ts:132-141 | Makes one refresh call and never pushes a route or touches `isLoading` or `error`. On success: returns `true` and the state is unchanged. On failure: clears `user` and `isAuthenticated` and rethrows the rejection. |
| AuthStore.CheckAuth | src/stores/auth.ts:103-127 | Makes at most two `/user/me` calls and at most one refresh call, and nothing else. The first call is `/user/me`. The refresh happens iff that first call failed. The second `/user/me` happens iff the first failed and the refresh succeeded. Returns iff some `/user/me` call succeeded, and then is authenticated with that DTO. Otherwise it clears the session and rethrows the error of whichever call failed last. Always ends with `isLoading = false`, `error` untouched and the invariant true, whatever the initial state. |
| AuthStore.CheckAuthEndpoints | src/stores/auth.ts:107-115 | Every request `checkAuth` sends is `GET /user/me` or `POST /auth/web/refresh`. |
| AuthStore.CheckAuthIgnoresUnmadeCalls | src/stores/auth.ts:106-123 | Outcomes of calls that `checkAuth` never makes cannot change its result. |
| Router.MetaOf | src/router/index.ts:11-30 | `/login` and `/signup` are guest routes. `/` requires auth and is not a guest route. Any other path has no flags. |
| Router.BeforeEach | src/router/index.ts:34-53 | Runs `checkAuth` iff the session is unauthenticated and the target is not a guest route. Then it proceeds if the check returned, and otherwise redirects to `login` with `redirect = fullPath`. If authenticated and the target is a guest route, it redirects to `home` without calls. Otherwise it proceeds and the session is unchanged. It keeps the invariant. |
| Router.VerdictMatchesSession | src/router/index.ts:38-52 | The verdict is determined by the session the guard leaves behind plus the target's guest flag. Signed in: guest routes go home and others proceed. Signed out: guest routes proceed and others go to login carrying the target. |
| Router.IgnoresRequiresAuth | src/router/index.ts:38 | Changing a target's `requiresAuth` flag never changes the guard's result. |
| Router.GuestRoutesNeverCheck | src/router/index.ts:19-38 | A navigation to `/login` or `/signup` never calls the backend and never changes the session. |
| Router.UnknownRoutesAreGuarded | src/router/index.ts:38 | From any session, a visit to a path outside the route table is treated exactly like a visit to `/`. |
| Router.NoRedirectLoop | src/router/index.ts:43-49 | The route a redirect names exists. The guard's run on it proceeds without a backend call. |
| SessionRuns.Apply | src/stores/auth.ts:143-153 | Each exposed operation, and each guarded navigation, keeps the session invariant. |
| SessionRuns.RunPreservesInv | src/stores/auth.ts:20-23 | Start from any state that satisfies `isAuthenticated <==> user != null`, such as a fresh or rehydrated store. Every sequence of operations and navigations keeps that invariant. |
| SessionRuns.RunFromInitialKeepsInv | src/stores/auth.ts:20-23 | The fresh store (no user, not authenticated, not loading, no error) satisfies the invariant, so every sequence started from it keeps it. |
| SessionRuns.PushedRoutesNeedNoCheck | src/stores/auth.ts:39-96 | The guard run on the route pushed by a successful login (line 40) or signup (line 65), or by logout (line 96), makes no backend call and leaves the session as the operation left it. After signup and logout it proceeds. So leaving pushed navigations out of a sequence loses nothing. |
| SessionRuns.EndsSignedOutAfterLogout | src/stores/auth.ts:89-93 | Whatever came before, a sequence that ends with logout leaves no user, no authentication and no loading flag. |
| SessionRuns.RedirectedLoginResumes | src/router/index.ts:43-45 | Suppose the guard sends a visit to login. Then a successful login whose current query carries that redirect (src/stores/auth.ts:39-40) pushes exactly the path first asked for, and the session is authenticated. |

## Left out

- HTTP transport configuration (base URL, credentials flag, headers, timeout) is library set-up with no decision logic. A timeout surfaces in the model as an ordinary `Err` outcome.
- The change-password endpoint is listed in `AuthApi` for completeness. No store operation calls it.
- The request payloads (`LoginRequest`, `SignupRequest`) are dropped. The store only forwards them to the backend, which is represented by the outcome passed in.
- Persistence of the store to local storage is left out. A rehydrated store is an arbitrary initial `Session`, and the lemmas that need it assume the invariant of that state.
- Concurrency is left out. Operations are atomic, so races between overlapping store calls on the browser's event loop are not modelled. The intermediate `isLoading = true` is therefore never observed, and only the final value is stated.
- The `console.error` logging in `logout` has no effect on state and is omitted.
- Vue reactivity and the router's real navigation machinery are left out. A navigation is an output value: the pushed path, or the guard's `next` argument.
- Route matching uses exact path equality over the three declared routes. The router's case-insensitive and trailing-slash-tolerant matching is not modelled.
- The `redirect` query value is modelled as an optional string. An array-valued query parameter is not modelled.
- URL-encoding of the `redirect` query value inside the login page's full path is not modelled.
- A rejection that is not an object, or a resolved response whose `data` is empty, is not modelled. The model assumes rejections carry the two optional message fields and successes carry a DTO.
