/** Properties of the sign-in coordinator that relate its operations to each other: the
    account priority of bootstrap and reconciliation, idempotence of reconciliation, the
    absence of an unauthenticated flash after login, an invariant kept by every operation, and
    what the failure message of `callApi` carries. */
module AuthContextProps {
  import opened MsalBoundary
  import opened AuthContext

  /** Bootstrap adopts the redirect-response account, else the active one, else the first cached
      one; when there is none the slot stays empty. */
  lemma BootstrapAccountPriority(s: Session, init: Outcome<()>, response: Option<Account>, cancelled: bool)
    requires (if s.initSettled.Some? then s.initSettled.value else init).Ok?
    ensures var t := AfterBootstrap(s, init, Ok(response), cancelled);
            (response.Some? ==> t.active == response) &&
            (response.None? && s.active.Some? ==> t.active == s.active) &&
            (response.None? && s.active.None? && |s.accounts| > 0 ==> t.active == Some(s.accounts[0])) &&
            (response.None? && s.active.None? && |s.accounts| == 0 ==> t.active.None?)
  {
    var settled := if s.initSettled.Some? then s.initSettled.value else init;
    var s1 := if s.initSettled.None? && settled.Ok? then AfterInitialize(s) else s;
    var s2 := s1.(initSettled := Some(settled));
    var options := [response, s2.active, First(s2.accounts)];
    assert BootstrapAccount(s2, response) == Coalesce(options);
    if response.None? {
      assert options[0].None?;
      if s.active.None? && |s.accounts| > 0 {
        assert options[2] == Some(s.accounts[0]);
        assert options[1] == Some(s.accounts[0]) || options[1].None?;
      }
    }
  }

  /** A failed bootstrap leaves the active slot as the initialisation callback left it. */
  lemma BootstrapFailureKeepsSlot(s: Session, init: Outcome<()>, redirect: Outcome<Option<Account>>, cancelled: bool)
    requires (if s.initSettled.Some? then s.initSettled.value else init).Err? || redirect.Err?
    ensures var t := AfterBootstrap(s, init, redirect, cancelled);
            t.active == (if s.initSettled.None? && init.Ok? then AfterInitialize(s).active else s.active) &&
            t.authError.Some?
  {
  }

  /** Reconciliation adopts the active account, else the hydrated one, else the first cached one. */
  lemma ReconcilePriority(s: Session, hydrated: Option<Account>)
    requires !s.initializing
    ensures var t := AfterReconcile(s, hydrated);
            (s.active.Some? ==> t.user == Some(UserOf(s.active.value)) && t.active == s.active) &&
            (s.active.None? && hydrated.Some? ==> t.user == Some(UserOf(hydrated.value)) && t.active == hydrated) &&
            (s.active.None? && hydrated.None? && |s.accounts| > 0 ==>
               t.user == Some(UserOf(s.accounts[0])) && t.active == Some(s.accounts[0])) &&
            (s.active.None? && hydrated.None? && |s.accounts| == 0 ==> t.user.None? && t.active.None?)
  {
    var options := [s.active, hydrated, First(s.accounts)];
    assert ReconcileAccount(s, hydrated) == Coalesce(options);
    assert s.active.None? ==> options[0].None?;
    assert s.active.None? && hydrated.None? ==> options[1].None?;
    assert |s.accounts| > 0 ==> options[2] == Some(s.accounts[0]);
  }

  /** A second reconciliation over the same inputs changes nothing. */
  lemma ReconcileIdempotent(s: Session, hydrated: Option<Account>)
    ensures AfterReconcile(AfterReconcile(s, hydrated), hydrated) == AfterReconcile(s, hydrated)
  {
    var t := AfterReconcile(s, hydrated);
    if !s.initializing && ReconcileAccount(s, hydrated).Some? {
      assert t.active.Some?;
      assert ReconcileAccount(t, hydrated) == t.active;
    }
  }

  /** After a successful popup login, the next reconciliation keeps the user the login set,
      whatever the hydrated account and the cache say: no unauthenticated flash. */
  lemma LoginThenReconcileKeepsUser(s: Session, account: Account, hydrated: Option<Account>)
    ensures AfterReconcile(AfterLogin(s, Ok(account)), hydrated).user == Some(UserOf(account))
    ensures AfterReconcile(AfterLogin(s, Ok(account)), hydrated).authError.None?
  {
    var t := AfterLogin(s, Ok(account));
    assert ReconcileAccount(t, hydrated) == Some(account);
  }

  /** `isAuthenticated` implies that a user is present. */
  lemma AuthenticatedHasUser(s: Session)
    ensures ViewOf(s).isAuthenticated ==> ViewOf(s).user.Some?
  {
  }

  /** The coordinator's own operations, as a caller can sequence them. */
  datatype AuthEvent =
    | Bootstrapped(init: Outcome<()>, redirect: Outcome<Option<Account>>, cancelled: bool)
    | Reconciled(hydrated: Option<Account>)
    | LoggedIn(login: Outcome<Account>)
    | LoginRedirected(outcome: Outcome<()>)
    | LoggedOut(outcome: Outcome<()>)
    | LogoutRedirected(origin: Option<string>, outcome: Outcome<()>)
    | TokenRequested(request: TokenRequest, silent: Outcome<string>, popup: Outcome<string>)
    | ApiCalled(url: string, options: FetchOptions, silent: Outcome<string>, popup: Outcome<string>, response: HttpResponse)
    | ErrorCleared

  function Apply(s: Session, config: Config, e: AuthEvent): Session {
    match e
    case Bootstrapped(init, redirect, cancelled) => AfterBootstrap(s, init, redirect, cancelled)
    case Reconciled(hydrated) => AfterReconcile(s, hydrated)
    case LoggedIn(response) => AfterLogin(s, response)
    case LoginRedirected(outcome) => AfterLoginRedirect(s, outcome)
    case LoggedOut(outcome) => AfterLogout(s, outcome)
    case LogoutRedirected(origin, outcome) => AfterLogoutRedirect(s, config, origin, outcome)
    case TokenRequested(request, silent, popup) => AfterAcquireToken(s, request, silent, popup).session
    case ApiCalled(url, options, silent, popup, response) =>
      AfterCallApi(s, config, url, options, silent, popup, response).session
    case ErrorCleared => AfterClearAuthError(s)
  }

  function RunAll(s: Session, config: Config, es: seq<AuthEvent>): Session
    decreases |es|
  {
    if es == [] then s else RunAll(Apply(s, config, es[0]), config, es[1..])
  }

  /** A displayed user is always backed by an account in the provider's active slot, the slot
      token acquisition reads. */
  predicate Coherent(s: Session) {
    s.user.Some? ==> s.active.Some?
  }

  lemma ApplyKeepsCoherent(s: Session, config: Config, e: AuthEvent)
    requires Coherent(s)
    ensures Coherent(Apply(s, config, e))
    ensures s.active.Some? ==> Apply(s, config, e).active.Some?
    ensures !s.initializing ==> !Apply(s, config, e).initializing
  {
    match e
    case Bootstrapped(init, redirect, cancelled) =>
      var settled := if s.initSettled.Some? then s.initSettled.value else init;
      var s1 := if s.initSettled.None? && settled.Ok? then AfterInitialize(s) else s;
      assert s.active.Some? ==> s1.active.Some?;
    case Reconciled(hydrated) =>
    case LoggedIn(response) =>
    case LoginRedirected(outcome) =>
    case LoggedOut(outcome) =>
    case LogoutRedirected(origin, outcome) =>
    case TokenRequested(request, silent, popup) =>
    case ApiCalled(url, options, silent, popup, response) =>
      var t := AfterAcquireToken(s, ApiRequest(config.apiClientId), silent, popup);
      assert t.session.user == s.user && t.session.active == s.active;
    case ErrorCleared =>
  }

  /** Every sequence of the coordinator's operations keeps `Coherent`, and a finished bootstrap
      is never undone (`initializing` never becomes true again). */
  lemma {:induction false} RunKeepsCoherent(s: Session, config: Config, es: seq<AuthEvent>)
    requires Coherent(s)
    ensures Coherent(RunAll(s, config, es))
    ensures !s.initializing ==> !RunAll(s, config, es).initializing
    decreases |es|
  {
    if es != [] {
      ApplyKeepsCoherent(s, config, es[0]);
      RunKeepsCoherent(Apply(s, config, es[0]), config, es[1..]);
    }
  }

  /** Consequence: whenever a user is displayed, a token request reaches the SDK's silent call. */
  lemma DisplayedUserReachesSilentCall(active: Option<Account>, accounts: seq<Account>, authenticated: bool,
                                       config: Config, es: seq<AuthEvent>,
                                       request: TokenRequest, silent: Outcome<string>, popup: Outcome<string>)
    requires RunAll(Initial(active, accounts, authenticated), config, es).user.Some?
    ensures var s := RunAll(Initial(active, accounts, authenticated), config, es);
            s.active.Some? &&
            AfterAcquireToken(s, request, silent, popup).session.calls[|s.calls|] == SilentToken(request, s.active.value)
  {
    RunKeepsCoherent(Initial(active, accounts, authenticated), config, es);
  }

  /** The value of a string of decimal digits. */
  function DecimalValue(s: string): nat
    requires forall i :: 0 <= i < |s| ==> '0' <= s[i] <= '9'
    decreases |s|
  {
    if s == [] then 0 else 10 * DecimalValue(s[..|s| - 1]) + ((s[|s| - 1] as int) - ('0' as int))
  }

  lemma {:induction false} DecimalRoundTrip(n: nat)
    ensures DecimalValue(Decimal(n)) == n
    decreases n
  {
    if n >= 10 {
      DecimalRoundTrip(n / 10);
      var d := Decimal(n / 10);
      assert (d + [DigitChar(n % 10)])[..|d|] == d;
    }
  }

  /** The error `callApi` throws for a failed response names the status, which can be read back. */
  lemma ApiFailureNamesStatus(status: nat)
    ensures var m := ApiErrorMessage(HttpFailure(status));
            |m| > |ApiFailurePrefix| && m[..|ApiFailurePrefix|] == ApiFailurePrefix &&
            (forall i :: |ApiFailurePrefix| <= i < |m| ==> '0' <= m[i] <= '9') &&
            (status > 0 ==> m[|ApiFailurePrefix|] != '0') &&
            DecimalValue(m[|ApiFailurePrefix|..]) == status
  {
    var m := ApiErrorMessage(HttpFailure(status));
    assert m[|ApiFailurePrefix|..] == Decimal(status);
    DecimalRoundTrip(status);
  }

  /** Distinct statuses produce distinct failure messages. */
  lemma ApiFailureMessagesDistinct(a: nat, b: nat)
    requires a != b
    ensures ApiErrorMessage(HttpFailure(a)) != ApiErrorMessage(HttpFailure(b))
  {
    ApiFailureNamesStatus(a);
    ApiFailureNamesStatus(b);
  }

  /** For a non-ok response the body is never parsed: the outcome does not depend on it. */
  lemma NonOkIgnoresBody(s: Session, config: Config, url: string, options: FetchOptions,
                         silent: Outcome<string>, popup: Outcome<string>,
                         status: nat, body1: Outcome<JsonValue>, body2: Outcome<JsonValue>)
    ensures AfterCallApi(s, config, url, options, silent, popup, HttpResponse(status, false, body1)) ==
            AfterCallApi(s, config, url, options, silent, popup, HttpResponse(status, false, body2))
  {
  }

  /** Without an active account `callApi` fails before any SDK or network call. */
  lemma NoAccountNoCalls(s: Session, config: Config, url: string, options: FetchOptions,
                         silent: Outcome<string>, popup: Outcome<string>, response: HttpResponse)
    requires s.active.None?
    ensures AfterCallApi(s, config, url, options, silent, popup, response) == ApiAttempt(s, Failed(TokenUnavailable))
  {
  }
}
