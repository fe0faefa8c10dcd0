/** End-to-end sign-in flows: the coordinator's state after bootstrap and reconciliation, read
    by the route guard, decides what is rendered and whether the one redirect is issued. */
module SignInScenarios {
  import opened MsalBoundary
  import opened AuthContext
  import opened ProtectedRoute

  /** Fresh load, nothing cached: bootstrap finds no account, reconciliation clears the user, and
      the first settled render issues exactly one redirect while showing the "redirecting"
      notice. The redirect sets `loading`, so the next render shows the spinner and issues none. */
  lemma FreshLoadRedirectsOnce(inProgress: Option<InteractionStatus>, next: Option<InteractionStatus>)
    requires !LoginInProgress(inProgress)
    ensures var s := AfterReconcile(AfterBootstrap(Initial(None, [], false), Ok(()), Ok(None), false), None);
            var v := ViewOf(s);
            ShouldRedirect(v, inProgress) &&
            ScreenFor(v) == RedirectingNotice &&
            AfterRender(GuardState(false, 0), v, inProgress) == GuardState(true, 1) &&
            var w := ViewOf(AfterLoginRedirect(s, Ok(())));
            ScreenFor(w) == Spinner && AfterRender(GuardState(true, 1), w, next) == GuardState(true, 1)
  {
    var s0 := Initial(None, [], false);
    var s1 := AfterBootstrap(s0, Ok(()), Ok(None), false);
    assert BootstrapAccount(s0.(initSettled := Some(Ok(()))), None) == None;
    assert ReconcileAccount(s1, None) == None;
  }

  /** Load with a cached account and the provider reporting a session: the first render and the
      one after bootstrap show the spinner, and once reconciled the children are rendered with
      that account's user; no render issues a redirect. */
  lemma CachedSessionRendersContent(a: Account, hydrated: Option<Account>, inProgress: Option<InteractionStatus>)
    ensures var s0 := Initial(None, [a], true);
            var s1 := AfterBootstrap(s0, Ok(()), Ok(None), false);
            var s2 := AfterReconcile(s1, hydrated);
            ScreenFor(ViewOf(s0)) == Spinner && !ShouldRedirect(ViewOf(s0), inProgress) &&
            ScreenFor(ViewOf(s1)) == Spinner && !ShouldRedirect(ViewOf(s1), inProgress) &&
            s2.user == Some(UserOf(a)) &&
            ScreenFor(ViewOf(s2)) == ProtectedContent && !ShouldRedirect(ViewOf(s2), inProgress)
  {
    var s0 := Initial(None, [a], true);
    var s1 := AfterBootstrap(s0, Ok(()), Ok(None), false);
    assert s1.active == Some(a);
    assert ReconcileAccount(s1, hydrated) == Some(a);
  }

  /** Returning from the provider with an account: bootstrap makes it the active account before
      any reconciliation, and the next reconciliation shows that user as authenticated,
      whatever had been active or cached before. */
  lemma RedirectResponseWins(active: Option<Account>, accounts: seq<Account>, a: Account, hydrated: Option<Account>)
    ensures var s1 := AfterBootstrap(Initial(active, accounts, true), Ok(()), Ok(Some(a)), false);
            var s2 := AfterReconcile(s1, hydrated);
            s1.active == Some(a) && s2.user == Some(UserOf(a)) && ViewOf(s2).isAuthenticated &&
            ScreenFor(ViewOf(s2)) == ProtectedContent
  {
    var s0 := Initial(active, accounts, true);
    var s1 := AfterBootstrap(s0, Ok(()), Ok(Some(a)), false);
    var sInit := AfterInitialize(s0).(initSettled := Some(Ok(())));
    assert BootstrapAccount(sInit, Some(a)) == Some(a);
    assert ReconcileAccount(s1, hydrated) == Some(a);
  }

  /** Silent acquisition fails and the popup succeeds while the children are shown: the popup's
      token is returned, the silent failure is recorded, and the children stay rendered. */
  lemma SilentFailureKeepsContent(s: Session, request: TokenRequest, e: ErrorValue, token: string)
    requires ScreenFor(ViewOf(s)) == ProtectedContent && s.active.Some?
    ensures var r := AfterAcquireToken(s, request, Err(e), Ok(token));
            r.token == Some(token) &&
            r.session.authError == Some(FormatMsalError(e)) &&
            ScreenFor(ViewOf(r.session)) == ProtectedContent
  {
  }

  /** A failed redirect consumption: the error panel shows the formatted error and no redirect is
      issued; retrying clears the error, re-arms the flag and issues one redirect, and while it is
      in flight the spinner is shown. */
  lemma BootstrapErrorThenRetry(e: ErrorValue, g: GuardState, inProgress: Option<InteractionStatus>)
    ensures var s := AfterReconcile(AfterBootstrap(Initial(None, [], false), Ok(()), Err(e), false), None);
            var v := ViewOf(s);
            ScreenFor(v) == SignInError(FormatMsalError(e)) &&
            !ShouldRedirect(v, inProgress) && ShouldReset(v) &&
            AfterRetry(AfterRender(g, v, inProgress)).redirects == g.redirects + 1 &&
            ScreenFor(ViewOf(AfterLoginRedirect(AfterClearAuthError(s), Ok(())))) == Spinner
  {
    var s1 := AfterBootstrap(Initial(None, [], false), Ok(()), Err(e), false);
    assert ReconcileAccount(s1, None) == None;
  }
}
