# Sign-in coordination of the dashboard, modelled in Dafny

The dashboard signs its user in with Microsoft's identity provider (MSAL) and then shows
protected report tiles. This project models the two parts of it that hold logic:

- **The auth coordinator** (`context/AuthContext.jsx`). It holds the observable state `user`,
  `loading`, `initializing` and `authError`. The provider side is the SDK's active-account slot,
  the cached accounts, the provider's authenticated flag and the settled one-shot
  initialisation. Its operations are bootstrap, reconciliation, login and logout (popup and
  redirect), token acquisition (silent first, then exactly one popup), `callApi`, and the
  derived `isAuthenticated` and `hasAccounts`.
- **The route guard** (`components/auth/ProtectedRoute.jsx`). It reads a snapshot of the
  coordinator, chooses what to render (spinner, error panel, "redirecting" notice or the
  children), and drives the redirect to the identity provider through a one-shot flag.

Every SDK call is replaced by its settled outcome, `Ok(value)` or `Err(error)`, passed in as a
parameter. The interactive SDK calls (popup and redirect login and logout), the two token
requests and `fetch` are appended to a call log (`calls`), so "one popup" and "one redirect" are
statements about that log. `initialize` and `handleRedirectPromise` enter only as outcome
parameters, the account reads and `setActiveAccount` as the session's provider-side fields, and
`response.text()` not at all; none of these is logged. The response of `fetch` is an input.

Files and modules:

- `msal_boundary.dfy` (`MsalBoundary`): the boundary types. These are accounts, error values,
  outcomes, requests, the logged external calls, and `Coalesce`, the JavaScript `a ?? b ?? c`
  chain.
- `auth_context.dfy` (`AuthContext`): `FormatMsalError`, the `Session` state, one function per
  operation from the old session to the new one (`AfterBootstrap`, `AfterReconcile`, ...), and
  the class `Coordinator`. Its fields are the session's slots. Each method performs the
  operation step by step and is proved to produce exactly what the function says.
- `auth_context_props.dfy` (`AuthContextProps`): lemmas across operations. They cover account
  priority, idempotent reconciliation, no unauthenticated flash after login, an invariant kept
  by every sequence of operations, and what the `callApi` failure message carries.
- `protected_route.dfy` (`ProtectedRoute`): the guard's predicates, the render choice, the
  pure guard transitions and their trace lemmas, and the class `Guard`. `Guard` holds the flag
  and the coordinator whose `loginRedirect` it calls.
- `sign_in_scenarios.dfy` (`SignInScenarios`): end-to-end flows. These are a fresh load, a
  cached session, a redirect return, a silent token failure, and a bootstrap error followed by
  a retry.

Behaviour of the code worth knowing:

- The guard renders the children whenever `isAuthenticated && user` holds and the spinner is
  off, even if `authError` is set. The error panel appears only when the session is not
  authenticated (`ScreenFor`, `ContentRequiresSession`).
- Bootstrap ranks redirect response, then active account, then first cached account.
  Reconciliation ranks active account, then hydrated account, then first cached account.
- A silent-token failure is written to `authError`, which the guard treats like any other
  error. For example, it resets the redirect flag.
- `handleRetry` resets the flag first and only then clears the error.

## Model

| member | source | states |
|---|---|---|
| MsalBoundary.Coalesce | context/AuthContext.jsx:79-82 | the `??` chain: the result is absent iff every option is absent, else it is the first present option |
| AuthContext.FormatMsalError | context/AuthContext.jsx:26-36 | absent or falsy error gives "Unknown authentication error"; a string gives itself; otherwise `errorMessage` before `message`, then the serialisation, then "Authentication error" if serialising throws; the result is never empty |
| AuthContext.UserOf | context/AuthContext.jsx:116-121 | the user record has id `localAccountId`, name `name`, email `username` and the account itself, the same record as after a popup login (lines 143-148) |
| AuthContext.ViewOf | context/AuthContext.jsx:266-283 | `isAuthenticated` iff the provider is authenticated and a user is present; `hasAccounts` iff the active slot is occupied or the cache is non-empty; the other fields are passed through |
| AuthContext.AfterClearAuthError | context/AuthContext.jsx:70 | clears `authError` and nothing else |
| AuthContext.AfterInitialize | context/AuthContext.jsx:39-46 | after initialisation the first cached account becomes active only if the slot was empty and the cache is non-empty |
| AuthContext.AfterBootstrap | context/AuthContext.jsx:72-102 | never fails: an initialisation or redirect failure becomes `authError = FormatMsalError(e)`; `initializing` is false afterwards unless cancelled; the initialisation outcome is settled once and reused; user, loading, cache and call log are unchanged |
| AuthContext.AfterReconcile | context/AuthContext.jsx:104-127 | no change while initializing; otherwise resolves active, hydrated, then first cached account; fills the active slot only if it was empty; a hit sets the user and clears the error, a miss clears the user; `loading` ends false |
| AuthContext.AfterLogin | context/AuthContext.jsx:137-156 | one popup login call; success sets the active slot and user from the response and clears the error; failure records the error and keeps user and slot; `loading` ends false |
| AuthContext.AfterLoginRedirect | context/AuthContext.jsx:158-168 | one redirect login call; the error is cleared, or set on failure; `loading` stays true exactly on success |
| AuthContext.AfterLogout | context/AuthContext.jsx:170-182 | one popup logout call; the user is cleared only on success; failure records the error; `loading` ends false |
| AuthContext.PostLogoutUri | context/AuthContext.jsx:189-192 | the post-logout URI is the window origin when a window exists, else the configured URI |
| AuthContext.AfterLogoutRedirect | context/AuthContext.jsx:184-200 | one redirect logout call to the window origin, or to the configured URI without a window; success clears the user and keeps `loading`; failure records the error and resets `loading` |
| AuthContext.AfterAcquireToken | context/AuthContext.jsx:202-230 | no active account: null and no call; silent success: its token and only the silent call; silent failure: silent error recorded, then exactly one popup call; the popup's token on success, or null with the popup error recorded |
| AuthContext.AccessTokenRequest | context/AuthContext.jsx:232-234 | `getAccessToken` requests the given scopes, or the login scopes when none are given, and never the login prompt |
| AuthContext.RequestHeaders | context/AuthContext.jsx:248-252 | the caller's headers are kept and win; `Authorization: Bearer <token>` and `Content-Type: application/json` apply where the caller gives none; no other keys |
| AuthContext.Decimal | context/AuthContext.jsx:258 | the status printed in the error message is a non-empty string of decimal digits, "0" for zero and without a leading zero otherwise |
| AuthContext.ApiErrorMessage | context/AuthContext.jsx:243-258 | the errors `callApi` throws itself: "Unable to acquire API token" without a token, and "API call failed: " followed by the decimal digits of the status (`Decimal`) for a non-ok response |
| AuthContext.AfterCallApi | context/AuthContext.jsx:239-264 | no token or an empty token fails with "unable to acquire" and makes no fetch; otherwise one fetch with the merged headers; a non-ok response fails with its status; an ok one yields the body or its parse error |
| AuthContext.Coordinator.constructor | context/AuthContext.jsx:60-69 | initial state: no user, loading and initializing, no error, the provider side as stored |
| AuthContext.Coordinator.ProviderChanged | context/AuthContext.jsx:61-62 | the SDK hooks report a new active slot, cache and authenticated flag; nothing else changes |
| AuthContext.Coordinator.ClearAuthError | context/AuthContext.jsx:70 | the new state is `AfterClearAuthError` of the old |
| AuthContext.Coordinator.Bootstrap | context/AuthContext.jsx:72-102 | the new state is `AfterBootstrap` of the old one and the SDK outcomes |
| AuthContext.Coordinator.Reconcile | context/AuthContext.jsx:104-135 | the new state is `AfterReconcile` of the old one and the hydrated account |
| AuthContext.Coordinator.Login | context/AuthContext.jsx:137-156 | the new state is `AfterLogin` of the old one and the popup outcome |
| AuthContext.Coordinator.LoginRedirect | context/AuthContext.jsx:158-168 | the new state is `AfterLoginRedirect` of the old one |
| AuthContext.Coordinator.Logout | context/AuthContext.jsx:170-182 | the new state is `AfterLogout` of the old one |
| AuthContext.Coordinator.LogoutRedirect | context/AuthContext.jsx:184-200 | the new state is `AfterLogoutRedirect` of the old one, the configuration and the window origin |
| AuthContext.Coordinator.AcquireToken | context/AuthContext.jsx:202-230 | the returned token and the new state are `AfterAcquireToken` of the old state and the SDK outcomes |
| AuthContext.Coordinator.GetAccessToken | context/AuthContext.jsx:232-235 | token acquisition for the given scopes, the login scopes when omitted, without a prompt |
| AuthContext.Coordinator.GetApiToken | context/AuthContext.jsx:237 | token acquisition with the API request `<client id>/.default` |
| AuthContext.Coordinator.CallApi | context/AuthContext.jsx:239-264 | the result and the new state are `AfterCallApi` of the old state, the inputs and the response |
| AuthContextProps.BootstrapAccountPriority | context/AuthContext.jsx:79-86 | on success the slot becomes the redirect account, else keeps the active one, else the first cached one; with none of them it stays empty |
| AuthContextProps.BootstrapFailureKeepsSlot | context/AuthContext.jsx:87-94 | a failed bootstrap records an error and leaves the slot as the initialisation callback left it |
| AuthContextProps.ReconcilePriority | context/AuthContext.jsx:109-125 | reconciliation picks the active, then hydrated, then first cached account for both user and slot, and clears the user when there is none |
| AuthContextProps.ReconcileIdempotent | context/AuthContext.jsx:104-127 | a second pass over the same inputs changes nothing |
| AuthContextProps.LoginThenReconcileKeepsUser | context/AuthContext.jsx:142-149 | after a successful login the next reconciliation keeps that user, whatever the hydrated account or the cache: no unauthenticated flash |
| AuthContextProps.AuthenticatedHasUser | context/AuthContext.jsx:269 | `isAuthenticated` implies a user is present |
| AuthContextProps.ApplyKeepsCoherent | context/AuthContext.jsx:72-264 | each operation keeps "a displayed user has an active account", never empties an occupied slot, and never restarts initialisation |
| AuthContextProps.RunKeepsCoherent | context/AuthContext.jsx:72-264 | every sequence of operations keeps that invariant and a finished bootstrap stays finished |
| AuthContextProps.DisplayedUserReachesSilentCall | context/AuthContext.jsx:202-212 | from the first render, after any sequence of operations, a displayed user means a token request makes the silent SDK call for the active account |
| AuthContextProps.DecimalRoundTrip | context/AuthContext.jsx:258 | the printed status reads back as the status |
| AuthContextProps.ApiFailureNamesStatus | context/AuthContext.jsx:255-259 | the failure message is "API call failed: " followed by digits, without a leading zero, that read back as the status |
| AuthContextProps.ApiFailureMessagesDistinct | context/AuthContext.jsx:258 | distinct statuses give distinct messages |
| AuthContextProps.NonOkIgnoresBody | context/AuthContext.jsx:255-261 | for a non-ok response the outcome does not depend on the body: it is never parsed |
| AuthContextProps.NoAccountNoCalls | context/AuthContext.jsx:241-244 | without an active account `callApi` fails with the token error and the state is unchanged: no SDK call, no fetch |
| ProtectedRoute.LoginInProgress | components/auth/ProtectedRoute.jsx:24-25 | an interaction is in progress exactly when `inProgress` is defined and not "none" |
| ProtectedRoute.NeedsAuth | components/auth/ProtectedRoute.jsx:43 | a session with no user and no account never shows the children: once settled it shows the error panel if an error is set, else the redirecting notice |
| ProtectedRoute.ShowLoading | components/auth/ProtectedRoute.jsx:76-78 | a recorded error never shows the spinner; without one, initializing, loading, or a known account not yet authenticated with a user each show it, and nothing else does |
| ProtectedRoute.ScreenFor | components/auth/ProtectedRoute.jsx:80-112 | spinner iff `showLoading`; children iff no spinner and authenticated with a user; error panel with the recorded message iff an error is set and the session is not authenticated with a user; the redirecting notice otherwise |
| ProtectedRoute.Started | components/auth/ProtectedRoute.jsx:27-31 | `startRedirect` is a no-op when the flag is set; otherwise it sets the flag and issues one redirect |
| ProtectedRoute.AfterRedirectEffect | components/auth/ProtectedRoute.jsx:33-46 | a set flag or a snapshot that does not call for a redirect leaves the guard unchanged; a firing effect leaves the flag set |
| ProtectedRoute.AfterResetEffect | components/auth/ProtectedRoute.jsx:58-62 | the reset effect never issues a redirect; it clears the flag when an error is set or the user is signed in, and otherwise changes nothing |
| ProtectedRoute.AfterRender | components/auth/ProtectedRoute.jsx:33-62 | one render issues at most one redirect; a firing redirect is not undone by the reset effect of the same render; a resetting snapshot only clears the flag; with the flag already set and no reset, or with neither effect called for, nothing changes |
| ProtectedRoute.AfterRetry | components/auth/ProtectedRoute.jsx:70-74 | a retry always issues exactly one redirect and leaves the flag set, whatever the flag was |
| ProtectedRoute.RedirectEffectFiresIff | components/auth/ProtectedRoute.jsx:33-46 | the redirect effect issues a redirect iff nothing is initializing, loading, in progress or in error, `needsAuth` holds and the flag is clear; otherwise nothing changes |
| ProtectedRoute.ResetEffectIff | components/auth/ProtectedRoute.jsx:58-62 | the flag is cleared iff an error is set or the session is authenticated with a user; otherwise it is unchanged |
| ProtectedRoute.RedirectOnlyWhenIdle | components/auth/ProtectedRoute.jsx:24-25 | a redirect fires only when `inProgress` is undefined or "none" |
| ProtectedRoute.StepBound | components/auth/ProtectedRoute.jsx:33-62 | one render or retry issues at most one redirect more than the re-arming it brings |
| ProtectedRoute.RedirectsBoundedByRearms | components/auth/ProtectedRoute.jsx:27-74 | over any sequence of renders and retries, redirects issued are at most 1 (0 if the flag starts set) plus the number of resets and retries |
| ProtectedRoute.AtMostOneRedirectPerEpisode | components/auth/ProtectedRoute.jsx:27-31 | with no reset and no retry at most one redirect is issued, none if the flag was already set |
| ProtectedRoute.RedirectingIsQuiet | components/auth/ProtectedRoute.jsx:27-46 | while the flag is set and nothing re-arms it, renders change nothing |
| ProtectedRoute.RedirectAndResetExclusive | components/auth/ProtectedRoute.jsx:33-62 | no snapshot both fires the redirect and resets the flag |
| ProtectedRoute.RedirectShowsNotice | components/auth/ProtectedRoute.jsx:33-106 | whenever the redirect fires, the guard shows the "redirecting" notice |
| ProtectedRoute.ContentRequiresSession | components/auth/ProtectedRoute.jsx:76-112 | children are shown only for a provider-authenticated session with a user, and with no error only once loading and initialisation are over |
| ProtectedRoute.Guard.constructor | components/auth/ProtectedRoute.jsx:22 | the guard starts with the flag clear, bound to its coordinator |
| ProtectedRoute.Guard.StartRedirect | components/auth/ProtectedRoute.jsx:27-31 | flag and the coordinator's redirect count follow `Started`; the coordinator runs `loginRedirect` only when the flag was clear |
| ProtectedRoute.Guard.RedirectEffect | components/auth/ProtectedRoute.jsx:33-56 | flag and redirect count follow `AfterRedirectEffect` for the render's snapshot; the coordinator runs `loginRedirect` only when it fires |
| ProtectedRoute.Guard.ResetEffect | components/auth/ProtectedRoute.jsx:58-62 | the flag follows `AfterResetEffect` for the render's snapshot |
| ProtectedRoute.Guard.OnRender | components/auth/ProtectedRoute.jsx:76-112 | renders `ScreenFor` of the coordinator's snapshot, then runs both effects on that snapshot |
| ProtectedRoute.Guard.HandleRetry | components/auth/ProtectedRoute.jsx:70-74 | flag and redirect count follow `AfterRetry`; the coordinator's error is cleared, then `loginRedirect` runs |
| SignInScenarios.FreshLoadRedirectsOnce | components/auth/ProtectedRoute.jsx:33-46 | fresh load with nothing cached: after bootstrap and reconciliation exactly one redirect, with the notice shown; afterwards a spinner and no second redirect |
| SignInScenarios.CachedSessionRendersContent | components/auth/ProtectedRoute.jsx:76-112 | cached account and an authenticated provider: spinner until reconciled, then the children with that user, never a redirect |
| SignInScenarios.RedirectResponseWins | context/AuthContext.jsx:78-86 | a redirect response's account becomes active during bootstrap, and the next reconciliation shows it as the authenticated user |
| SignInScenarios.SilentFailureKeepsContent | context/AuthContext.jsx:213-221 | silent failure then popup success: the popup token is returned, the silent error is recorded, and the children stay shown |
| SignInScenarios.BootstrapErrorThenRetry | components/auth/ProtectedRoute.jsx:70-106 | a bootstrap error shows the error panel with no redirect; a retry issues one redirect and shows the spinner |

## Left out

- MSAL SDK internals. `initialize`, `handleRedirectPromise`, `loginPopup`, `loginRedirect`,
  `logoutPopup`, `logoutRedirect`, `acquireTokenSilent` and `acquireTokenPopup` are outcome
  parameters. How they work, including tokens and cryptography, is not modelled.
- The SDK changing its own cache, active slot or authenticated flag (for example, clearing the
  slot on logout) enters only through `Coordinator.ProviderChanged`. `Coherent` holds for the
  coordinator's own operations, not across such external changes.
- `useAccount` is not modelled. Its result is the `hydrated` parameter of reconciliation.
  `inProgress` is a parameter of each guard render.
- React scheduling is not modelled: re-render order, effect dependency arrays, memoisation and
  async interleaving. Each effect is a step invoked explicitly, and a state setter takes effect
  at once. Each action runs to completion in one step. In the source, `startRedirect` does not
  await `loginRedirect`, so its failure branch runs later. The guard runs both effects on every
  render; the source skips them when their dependencies are unchanged, which gives the same
  result here.
- The `value` memo is recomputed from the current state. In the source, `hasAccounts` reads the
  active slot at memo time, and the slot is not a memo dependency.
- `AuthContext.FormatMsalError`: `JSON.stringify` is an abstract serialisation that may throw.
  A value whose serialisation is `undefined` (so the recorded error would be falsy) is not
  modelled. `errorMessage` and `message` are strings; other truthy non-string values are not
  modelled.
- `AuthContext.AfterLogin` assumes the popup response carries an account. A response without
  one, which would throw a `TypeError` inside the success branch, is not modelled.
- A rejected `fetch` (a network failure, which makes `callApi` reject at
  context/AuthContext.jsx:246) is not modelled: `HttpResponse` always resolves.
- `fetch` and `response.json()` are inputs (status, ok flag and how the JSON parse settles).
  `response.text()` and the logging of it are left out. Header names are compared exactly; the
  case-insensitive merging of `fetch`'s `Headers` is not modelled. Fetch options other than
  `headers` are an opaque map, copied unchanged.
- The `cancelled` flag of bootstrap is a parameter saying whether teardown came first. The
  teardown itself is not modelled.
- `useAuth`'s check for a missing provider (context/AuthContext.jsx:307-313) and the
  `MsalProvider` wrapping (lines 54-58) are React context plumbing and are not modelled.
- `console` logging, `router.prefetch("/")` (a pure optimisation) and all markup and styling
  are left out.
- lib/msalConfig.js is not modelled beyond `loginRequest`, `apiRequest` and the configured
  post-logout URI (`Config`). This excludes environment variables, the browser heuristics and
  the redirect-URI fallback.
- The presentational components (components/dashboard/DashboardShell.jsx,
  components/dashboard/ReportViewer.jsx, app/layout.js, app/page.js) are not part of this model.
