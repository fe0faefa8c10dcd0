/** The route guard of components/auth/ProtectedRoute.jsx. It reads a snapshot of the
    coordinator (`AuthView`) and the SDK's `inProgress` status, chooses what to render, and
    drives the redirect to the identity provider through a one-shot flag (`redirectingRef`). */
module ProtectedRoute {
  import opened MsalBoundary
  import opened AuthContext

  /** MSAL's `InteractionStatus`; `NoInteraction` is `InteractionStatus.None` (the string "none"). */
  datatype InteractionStatus = Startup | Login | Logout | AcquireToken | SsoSilent | HandleRedirect | NoInteraction

  /** `loginInProgress`: the SDK reports some interaction other than "none" (`None` stands for an
      undefined `inProgress`; every status string is non-empty, hence truthy). */
  function LoginInProgress(inProgress: Option<InteractionStatus>): (r: bool)
    ensures inProgress.None? ==> !r
    ensures inProgress == Some(NoInteraction) ==> !r
    ensures inProgress.Some? && inProgress.value != NoInteraction ==> r
  {
    inProgress.Some? && inProgress.value != NoInteraction
  }

  /** The early return of the redirect effect: some transient or error condition holds. */
  predicate Unsettled(v: AuthView, inProgress: Option<InteractionStatus>) {
    v.initializing || v.loading || LoginInProgress(inProgress) || v.authError.Some?
  }

  /** `needsAuth`: nobody is signed in and the SDK knows no account. Once settled and free of
      errors such a session renders the "redirecting" notice, never the spinner. */
  function NeedsAuth(v: AuthView): (r: bool)
    ensures r && v.authError.None? && !v.initializing && !v.loading ==> ScreenFor(v) == RedirectingNotice
    ensures r && v.authError.Some? ==> ScreenFor(v) == SignInError(v.authError.value)
    ensures r ==> ScreenFor(v) != ProtectedContent
  {
    !v.isAuthenticated && v.user.None? && !v.hasAccounts
  }

  /** The redirect effect calls `startRedirect` exactly when this holds. */
  predicate ShouldRedirect(v: AuthView, inProgress: Option<InteractionStatus>) {
    !Unsettled(v, inProgress) && NeedsAuth(v)
  }

  /** The reset effect clears the flag exactly when this holds. */
  predicate ShouldReset(v: AuthView) {
    v.authError.Some? || (v.isAuthenticated && v.user.Some?)
  }

  function ShowLoading(v: AuthView): (r: bool)
    ensures v.authError.Some? ==> !r
    ensures v.authError.None? && (v.initializing || v.loading) ==> r
    ensures v.authError.None? && v.hasAccounts && !(v.isAuthenticated && v.user.Some?) ==> r
    ensures r ==> v.initializing || v.loading || (v.hasAccounts && !(v.isAuthenticated && v.user.Some?))
  {
    v.authError.None? &&
    (v.initializing || v.loading || (v.hasAccounts && (!v.isAuthenticated || v.user.None?)))
  }

  /** The four things the guard can render. */
  datatype Screen = Spinner | SignInError(message: Message) | RedirectingNotice | ProtectedContent

  /** The render-branch selection of the guard. */
  function ScreenFor(v: AuthView): (r: Screen)
    ensures r == Spinner <==> ShowLoading(v)
    ensures r == ProtectedContent <==> !ShowLoading(v) && v.isAuthenticated && v.user.Some?
    ensures r.SignInError? <==> v.authError.Some? && !(v.isAuthenticated && v.user.Some?)
    ensures r.SignInError? ==> r.message == v.authError.value
    ensures r == RedirectingNotice <==>
              !ShowLoading(v) && v.authError.None? && !(v.isAuthenticated && v.user.Some?)
  {
    if ShowLoading(v) then Spinner
    else if !v.isAuthenticated || v.user.None? then
      match v.authError
      case Some(message) => SignInError(message)
      case None => RedirectingNotice
    else ProtectedContent
  }

  /** The guard's own state: the one-shot flag and how many redirects it has issued. */
  datatype GuardState = GuardState(redirecting: bool, redirects: nat)

  /** `startRedirect`. */
  function Started(g: GuardState): (h: GuardState)
    ensures h.redirecting
    ensures g.redirecting ==> h == g
    ensures !g.redirecting ==> h.redirects == g.redirects + 1
  {
    if g.redirecting then g else GuardState(true, g.redirects + 1)
  }

  /** The redirect effect: `startRedirect` when the snapshot calls for it. */
  function AfterRedirectEffect(g: GuardState, v: AuthView, inProgress: Option<InteractionStatus>): (h: GuardState)
    ensures g.redirecting ==> h == g
    ensures !ShouldRedirect(v, inProgress) ==> h == g
    ensures ShouldRedirect(v, inProgress) ==> h.redirecting
  {
    if ShouldRedirect(v, inProgress) then Started(g) else g
  }

  /** The reset effect: clear the flag once an error is shown or the user is signed in. */
  function AfterResetEffect(g: GuardState, v: AuthView): (h: GuardState)
    ensures h.redirects == g.redirects
    ensures ShouldReset(v) ==> !h.redirecting
    ensures !ShouldReset(v) ==> h == g
  {
    if ShouldReset(v) then g.(redirecting := false) else g
  }

  /** One committed render: the redirect effect, then the reset effect, both reading the
      snapshot the render was computed from. */
  function AfterRender(g: GuardState, v: AuthView, inProgress: Option<InteractionStatus>): (h: GuardState)
    ensures h.redirects <= g.redirects + 1
    ensures ShouldRedirect(v, inProgress) && !g.redirecting ==> h == GuardState(true, g.redirects + 1)
    ensures ShouldReset(v) ==> h == g.(redirecting := false)
    ensures !ShouldRedirect(v, inProgress) && !ShouldReset(v) ==> h == g
    ensures g.redirecting && !ShouldReset(v) ==> h == g
  {
    AfterResetEffect(AfterRedirectEffect(g, v, inProgress), v)
  }

  /** `handleRetry`: reset the flag, then `startRedirect`. */
  function AfterRetry(g: GuardState): (h: GuardState)
    ensures h.redirecting
    ensures h.redirects == g.redirects + 1
  {
    Started(g.(redirecting := false))
  }

  datatype GuardEvent = Rendered(view: AuthView, inProgress: Option<InteractionStatus>) | RetryClicked

  function Step(g: GuardState, e: GuardEvent): GuardState {
    match e
    case Rendered(v, p) => AfterRender(g, v, p)
    case RetryClicked => AfterRetry(g)
  }

  function Run(g: GuardState, es: seq<GuardEvent>): GuardState
    decreases |es|
  {
    if es == [] then g else Run(Step(g, es[0]), es[1..])
  }

  /** Whether an event re-arms the flag: a render whose snapshot resets it, or a retry. */
  predicate Rearms(e: GuardEvent) {
    match e
    case Rendered(v, _) => ShouldReset(v)
    case RetryClicked => true
  }

  function RearmCount(es: seq<GuardEvent>): nat
    decreases |es|
  {
    if es == [] then 0 else (if Rearms(es[0]) then 1 else 0) + RearmCount(es[1..])
  }

  function Armed(g: GuardState): nat {
    if g.redirecting then 0 else 1
  }

  /** One step never issues more redirects than the arming it consumes plus the arming it adds. */
  lemma StepBound(g: GuardState, e: GuardEvent)
    ensures Step(g, e).redirects + Armed(Step(g, e)) <= g.redirects + Armed(g) + (if Rearms(e) then 1 else 0)
    ensures !Rearms(e) ==> Step(g, e).redirects + Armed(Step(g, e)) == g.redirects + Armed(g)
  {
    match e
    case Rendered(v, p) =>
      RedirectAndResetExclusive(v, p);
    case RetryClicked =>
  }

  /** Over any sequence of renders and retries, every redirect after the first is paid for by a
      re-arming event: redirects issued <= (flag initially clear ? 1 : 0) + re-arming events. */
  lemma {:induction false} RedirectsBoundedByRearms(g: GuardState, es: seq<GuardEvent>)
    ensures Run(g, es).redirects + Armed(Run(g, es)) <= g.redirects + Armed(g) + RearmCount(es)
    decreases |es|
  {
    if es != [] {
      StepBound(g, es[0]);
      RedirectsBoundedByRearms(Step(g, es[0]), es[1..]);
    }
  }

  /** Within one unauthenticated episode (no reset, no retry) at most one redirect is issued. */
  lemma AtMostOneRedirectPerEpisode(g: GuardState, es: seq<GuardEvent>)
    requires RearmCount(es) == 0
    ensures Run(g, es).redirects <= g.redirects + 1
    ensures g.redirecting ==> Run(g, es).redirects == g.redirects
  {
    RedirectsBoundedByRearms(g, es);
  }

  /** While the flag is set and nothing re-arms it, the guard does nothing at all. */
  lemma {:induction false} RedirectingIsQuiet(g: GuardState, es: seq<GuardEvent>)
    requires g.redirecting && RearmCount(es) == 0
    ensures Run(g, es) == g
    decreases |es|
  {
    if es != [] {
      assert !Rearms(es[0]);
      RedirectingIsQuiet(Step(g, es[0]), es[1..]);
    }
  }

  /** The redirect effect issues a redirect exactly when the snapshot calls for one and the flag
      is clear; otherwise it changes nothing. */
  lemma RedirectEffectFiresIff(g: GuardState, v: AuthView, inProgress: Option<InteractionStatus>)
    ensures var h := AfterRedirectEffect(g, v, inProgress);
            (h.redirects == g.redirects + 1 <==> ShouldRedirect(v, inProgress) && !g.redirecting) &&
            (h != g <==> ShouldRedirect(v, inProgress) && !g.redirecting) &&
            h.redirects <= g.redirects + 1
  {
  }

  /** The reset effect clears the flag exactly when an error is recorded or the session is
      authenticated with a user, and leaves it as it was otherwise. */
  lemma ResetEffectIff(g: GuardState, v: AuthView)
    ensures AfterResetEffect(g, v).redirecting <==> g.redirecting && !ShouldReset(v)
    ensures AfterResetEffect(g, v).redirects == g.redirects
  {
  }

  /** A redirect fires only when the SDK reports no interaction in progress. */
  lemma RedirectOnlyWhenIdle(v: AuthView, inProgress: Option<InteractionStatus>)
    ensures ShouldRedirect(v, inProgress) ==> inProgress.None? || inProgress == Some(NoInteraction)
    ensures inProgress.Some? && inProgress.value != NoInteraction ==> !ShouldRedirect(v, inProgress)
  {
  }

  /** No snapshot both fires the redirect and resets the flag. */
  lemma RedirectAndResetExclusive(v: AuthView, inProgress: Option<InteractionStatus>)
    ensures !(ShouldRedirect(v, inProgress) && ShouldReset(v))
  {
  }

  /** Whenever the redirect fires, the guard is showing the "redirecting" notice. */
  lemma RedirectShowsNotice(v: AuthView, inProgress: Option<InteractionStatus>)
    requires ShouldRedirect(v, inProgress)
    ensures ScreenFor(v) == RedirectingNotice
  {
  }

  /** The protected children appear only for a provider-authenticated session with a user; a
      recorded error (a failed silent token acquisition, say) does not hide them, and without
      one they also wait for loading and initialisation to finish. */
  lemma ContentRequiresSession(s: Session)
    requires ScreenFor(ViewOf(s)) == ProtectedContent
    ensures s.msalAuthenticated && s.user.Some?
    ensures s.authError.None? ==> !s.loading && !s.initializing
  {
  }

  /** How many full-page login redirects a call log holds. */
  function RedirectCount(calls: seq<ExternalCall>): nat
    decreases |calls|
  {
    if calls == [] then 0
    else RedirectCount(calls[..|calls| - 1]) + (if calls[|calls| - 1].RedirectLogin? then 1 else 0)
  }

  lemma RedirectCountAppend(calls: seq<ExternalCall>, c: ExternalCall)
    ensures RedirectCount(calls + [c]) == RedirectCount(calls) + (if c.RedirectLogin? then 1 else 0)
  {
    assert (calls + [c])[..|calls|] == calls;
  }

  /** The guard component instance, bound to the coordinator whose `loginRedirect` it calls. */
  class Guard {
    const auth: Coordinator
    var redirecting: bool

    /** The flag together with the number of login redirects the coordinator has issued. */
    function Flag(): GuardState
      reads this, auth
    {
      GuardState(redirecting, RedirectCount(auth.calls))
    }

    constructor (auth: Coordinator)
      ensures this.auth == auth && !redirecting
    {
      this.auth := auth;
      redirecting := false;
    }

    method StartRedirect(outcome: Outcome<()>)
      modifies this, auth
      ensures Flag() == Started(old(Flag()))
      ensures auth.State() == if old(redirecting) then old(auth.State()) else AfterLoginRedirect(old(auth.State()), outcome)
    {
      if redirecting {
        return;
      }
      redirecting := true;
      auth.LoginRedirect(outcome);
      RedirectCountAppend(old(auth.calls), RedirectLogin(LoginRequest));
    }

    /** The redirect effect, for the snapshot `v` of the render it follows. */
    method RedirectEffect(v: AuthView, inProgress: Option<InteractionStatus>, outcome: Outcome<()>)
      modifies this, auth
      ensures Flag() == AfterRedirectEffect(old(Flag()), v, inProgress)
      ensures auth.State() ==
                if ShouldRedirect(v, inProgress) && !old(redirecting)
                then AfterLoginRedirect(old(auth.State()), outcome) else old(auth.State())
    {
      if v.initializing || v.loading || LoginInProgress(inProgress) || v.authError.Some? {
        return;
      }
      var needsAuth := !v.isAuthenticated && v.user.None? && !v.hasAccounts;
      if !needsAuth {
        return;
      }
      StartRedirect(outcome);
    }

    /** The flag-reset effect, for the snapshot `v` of the render it follows. */
    method ResetEffect(v: AuthView)
      modifies this
      ensures Flag() == AfterResetEffect(old(Flag()), v)
    {
      if v.authError.Some? || (v.isAuthenticated && v.user.Some?) {
        redirecting := false;
      }
    }

    /** One render of the guard: the screen chosen from the coordinator's current snapshot,
        then the two effects on that same snapshot. */
    method OnRender(inProgress: Option<InteractionStatus>, outcome: Outcome<()>) returns (screen: Screen)
      modifies this, auth
      ensures screen == ScreenFor(old(auth.View()))
      ensures Flag() == AfterRender(old(Flag()), old(auth.View()), inProgress)
      ensures auth.State() ==
                if ShouldRedirect(old(auth.View()), inProgress) && !old(redirecting)
                then AfterLoginRedirect(old(auth.State()), outcome) else old(auth.State())
    {
      var v := auth.View();
      screen := ScreenFor(v);
      RedirectEffect(v, inProgress, outcome);
      ResetEffect(v);
    }

    /** The retry button of the error panel. */
    method HandleRetry(outcome: Outcome<()>)
      modifies this, auth
      ensures Flag() == AfterRetry(old(Flag()))
      ensures auth.State() == AfterLoginRedirect(AfterClearAuthError(old(auth.State())), outcome)
    {
      redirecting := false;
      auth.ClearAuthError();
      StartRedirect(outcome);
    }
  }
}
