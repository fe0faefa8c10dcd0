/** The sign-in coordinator of context/AuthContext.jsx. The observable state (`user`, `loading`,
    `initializing`, `authError`) and the provider side (the active-account slot, the cached
    accounts, the provider's authenticated flag, the settled one-shot initialisation) form a
    `Session`. Each operation is specified by a function from the old session and the SDK's
    outcomes to the new session, and carried out step by step by a method of `Coordinator`. */
module AuthContext {
  import opened MsalBoundary

  const UnknownAuthError: Message := "Unknown authentication error"
  const GenericAuthError: Message := "Authentication error"
  const TokenUnavailableMessage: Message := "Unable to acquire API token"
  const ApiFailurePrefix: string := "API call failed: "

  /** The human-readable text recorded for a failure: the error's own text in the order string,
      `errorMessage`, `message`, serialisation, and a fixed text when there is none. */
  function FormatMsalError(e: ErrorValue): (r: Message)
    ensures e.Missing? ==> r == UnknownAuthError
    ensures e.Text? ==> r == if e.text == "" then UnknownAuthError else e.text
    ensures e.Thrown? && e.errorMessage != "" ==> r == e.errorMessage
    ensures e.Thrown? && e.errorMessage == "" && e.message != "" ==> r == e.message
    ensures e.Thrown? && e.errorMessage == "" && e.message == "" ==>
              r == if e.serialized.Some? then e.serialized.value else GenericAuthError
  {
    match e
    case Missing => UnknownAuthError
    case Text(text) => if text == "" then UnknownAuthError else text
    case Thrown(errorMessage, message, serialized) =>
      if errorMessage != "" then errorMessage
      else if message != "" then message
      else match serialized
        case Some(json) => json
        case None => GenericAuthError
  }

  /** The `user` object built from an account. */
  datatype User = User(id: string, name: string, email: string, account: Account)

  /** The user record built from an account, the same at reconciliation and after a popup login;
      it carries the account, so the account is recovered from the displayed user. */
  function UserOf(a: Account): (u: User)
    ensures u.account == a
    ensures u.id == a.localAccountId && u.name == a.name && u.email == a.username
  {
    User(a.localAccountId, a.name, a.username, a)
  }

  datatype Session = Session(
    user: Option<User>,
    loading: bool,
    initializing: bool,
    authError: Option<Message>,
    active: Option<Account>,
    accounts: seq<Account>,
    msalAuthenticated: bool,
    initSettled: Option<Outcome<()>>,
    calls: seq<ExternalCall>)

  /** The state on first render: `user` null, `loading` and `initializing` true, no error; the
      provider side is whatever the session storage already held. */
  function Initial(active: Option<Account>, accounts: seq<Account>, msalAuthenticated: bool): Session {
    Session(None, true, true, None, active, accounts, msalAuthenticated, None, [])
  }

  function IsAuthenticated(s: Session): bool {
    s.msalAuthenticated && s.user.Some?
  }

  function HasAccounts(s: Session): bool {
    s.active.Some? || |s.accounts| > 0
  }

  /** The part of the context `value` the route guard reads. */
  datatype AuthView = AuthView(
    user: Option<User>,
    isAuthenticated: bool,
    loading: bool,
    initializing: bool,
    hasAccounts: bool,
    authError: Option<Message>)

  function ViewOf(s: Session): (v: AuthView)
    ensures v.isAuthenticated <==> s.msalAuthenticated && s.user.Some?
    ensures v.hasAccounts <==> s.active.Some? || |s.accounts| > 0
    ensures v.user == s.user && v.loading == s.loading && v.initializing == s.initializing
    ensures v.authError == s.authError
  {
    AuthView(s.user, IsAuthenticated(s), s.loading, s.initializing, HasAccounts(s), s.authError)
  }

  function AfterClearAuthError(s: Session): (t: Session)
    ensures t.authError.None?
    ensures t == s.(authError := None)
  {
    s.(authError := None)
  }

  /** The callback of the module-level initialisation promise: adopt the first cached account
      when the active slot is empty. */
  function AfterInitialize(s: Session): (t: Session)
    ensures |s.accounts| > 0 && s.active.None? ==> t.active == Some(s.accounts[0])
    ensures !(|s.accounts| > 0 && s.active.None?) ==> t.active == s.active
    ensures t == s.(active := t.active)
  {
    if |s.accounts| > 0 && s.active.None? then s.(active := Some(s.accounts[0])) else s
  }

  /** The account bootstrap adopts: the redirect response's, else the active one, else the first
      cached one. */
  function BootstrapAccount(s: Session, response: Option<Account>): Option<Account> {
    Coalesce([response, s.active, First(s.accounts)])
  }

  /** The bootstrap effect. `init` is how the one-shot initialisation settles the first time it is
      awaited (later bootstraps see the memoised outcome, `s.initSettled`), `redirect` is the
      account of the redirect response (`None` for a null response or account), `cancelled` says
      whether the effect was torn down before it finished. */
  function AfterBootstrap(s: Session, init: Outcome<()>, redirect: Outcome<Option<Account>>, cancelled: bool): (t: Session)
    ensures t.initializing == (s.initializing && cancelled)
    ensures t.initSettled == Some(if s.initSettled.Some? then s.initSettled.value else init)
    ensures t.initSettled.value.Err? ==> t.authError == Some(FormatMsalError(t.initSettled.value.error))
    ensures t.initSettled.value.Ok? && redirect.Err? ==> t.authError == Some(FormatMsalError(redirect.error))
    ensures t.initSettled.value.Ok? && redirect.Ok? ==> t.authError == s.authError
    ensures t.user == s.user && t.loading == s.loading && t.accounts == s.accounts
    ensures t.msalAuthenticated == s.msalAuthenticated && t.calls == s.calls
  {
    var settled := if s.initSettled.Some? then s.initSettled.value else init;
    var s1 := if s.initSettled.None? && settled.Ok? then AfterInitialize(s) else s;
    var s2 := s1.(initSettled := Some(settled));
    var s3 :=
      if settled.Err? then s2.(authError := Some(FormatMsalError(settled.error)))
      else match redirect
        case Err(e) => s2.(authError := Some(FormatMsalError(e)))
        case Ok(response) =>
          var chosen := BootstrapAccount(s2, response);
          if chosen.Some? then s2.(active := chosen) else s2;
    if cancelled then s3 else s3.(initializing := false)
  }

  /** The account reconciliation adopts: the active one, else the hydrated one, else the first
      cached one. */
  function ReconcileAccount(s: Session, hydrated: Option<Account>): Option<Account> {
    Coalesce([s.active, hydrated, First(s.accounts)])
  }

  /** The reconciliation effect, given the `useAccount` value of the render it runs after. */
  function AfterReconcile(s: Session, hydrated: Option<Account>): (t: Session)
    ensures s.initializing ==> t == s
    ensures !s.initializing ==> !t.loading
    ensures !s.initializing && ReconcileAccount(s, hydrated).Some? ==>
              t.user == Some(UserOf(ReconcileAccount(s, hydrated).value)) && t.authError.None? &&
              t.active == (if s.active.Some? then s.active else ReconcileAccount(s, hydrated))
    ensures !s.initializing && ReconcileAccount(s, hydrated).None? ==>
              t.user.None? && t.authError == s.authError && t.active == s.active
    ensures t.initializing == s.initializing && t.accounts == s.accounts && t.msalAuthenticated == s.msalAuthenticated
    ensures t.initSettled == s.initSettled && t.calls == s.calls
  {
    if s.initializing then s
    else
      var s1 := s.(loading := true);
      var chosen := ReconcileAccount(s1, hydrated);
      var s2 :=
        if chosen.Some? then
          var s3 := if s1.active.None? then s1.(active := chosen) else s1;
          s3.(user := Some(UserOf(chosen.value)), authError := None)
        else s1.(user := None);
      s2.(loading := false)
  }

  /** Common prologue of the four actions: `setLoading(true)`, `clearAuthError()`, then the SDK call. */
  function Begin(s: Session, call: ExternalCall): Session {
    s.(loading := true, authError := None, calls := s.calls + [call])
  }

  /** `login`: a popup login with the fixed login request. */
  function AfterLogin(s: Session, response: Outcome<Account>): (t: Session)
    ensures !t.loading
    ensures t.calls == s.calls + [PopupLogin(LoginRequest)]
    ensures response.Ok? ==>
              t.active == Some(response.value) && t.user == Some(UserOf(response.value)) && t.authError.None?
    ensures response.Err? ==>
              t.active == s.active && t.user == s.user && t.authError == Some(FormatMsalError(response.error))
    ensures t.initializing == s.initializing && t.accounts == s.accounts && t.msalAuthenticated == s.msalAuthenticated
    ensures t.initSettled == s.initSettled
  {
    var s1 := Begin(s, PopupLogin(LoginRequest));
    var s2 :=
      match response
      case Ok(a) => s1.(active := Some(a), user := Some(UserOf(a)), authError := None)
      case Err(e) => s1.(authError := Some(FormatMsalError(e)));
    s2.(loading := false)
  }

  /** `loginRedirect`: success navigates away, so only a failure is handled in place. */
  function AfterLoginRedirect(s: Session, outcome: Outcome<()>): (t: Session)
    ensures t.loading <==> outcome.Ok?
    ensures t.calls == s.calls + [RedirectLogin(LoginRequest)]
    ensures t.authError == if outcome.Ok? then None else Some(FormatMsalError(outcome.error))
    ensures t.user == s.user && t.active == s.active && t.initializing == s.initializing
    ensures t.accounts == s.accounts && t.msalAuthenticated == s.msalAuthenticated && t.initSettled == s.initSettled
  {
    var s1 := Begin(s, RedirectLogin(LoginRequest));
    match outcome
    case Ok(_) => s1
    case Err(e) => s1.(authError := Some(FormatMsalError(e)), loading := false)
  }

  /** `logout`: a popup logout. */
  function AfterLogout(s: Session, outcome: Outcome<()>): (t: Session)
    ensures !t.loading
    ensures t.calls == s.calls + [PopupLogout]
    ensures outcome.Ok? ==> t.user.None? && t.authError.None?
    ensures outcome.Err? ==> t.user == s.user && t.authError == Some(FormatMsalError(outcome.error))
    ensures t.active == s.active && t.initializing == s.initializing
    ensures t.accounts == s.accounts && t.msalAuthenticated == s.msalAuthenticated && t.initSettled == s.initSettled
  {
    var s1 := Begin(s, PopupLogout);
    var s2 :=
      match outcome
      case Ok(_) => s1.(user := None)
      case Err(e) => s1.(authError := Some(FormatMsalError(e)));
    s2.(loading := false)
  }

  /** Where a redirect logout returns: the window origin in a browser, the configured URI otherwise. */
  function PostLogoutUri(config: Config, origin: Option<string>): (u: string)
    ensures origin.Some? ==> u == origin.value
    ensures origin.None? ==> u == config.postLogoutRedirectUri
  {
    if origin.Some? then origin.value else config.postLogoutRedirectUri
  }

  /** `logoutRedirect`: on success `user` is cleared and the page navigates away (`loading` stays
      true); on failure the error is recorded and `loading` reset. */
  function AfterLogoutRedirect(s: Session, config: Config, origin: Option<string>, outcome: Outcome<()>): (t: Session)
    ensures t.calls == s.calls + [RedirectLogout(PostLogoutUri(config, origin))]
    ensures t.loading <==> outcome.Ok?
    ensures outcome.Ok? ==> t.user.None? && t.authError.None?
    ensures outcome.Err? ==> t.user == s.user && t.authError == Some(FormatMsalError(outcome.error))
    ensures t.active == s.active && t.initializing == s.initializing
    ensures t.accounts == s.accounts && t.msalAuthenticated == s.msalAuthenticated && t.initSettled == s.initSettled
  {
    var s1 := Begin(s, RedirectLogout(PostLogoutUri(config, origin)));
    match outcome
    case Ok(_) => s1.(user := None)
    case Err(e) => s1.(authError := Some(FormatMsalError(e)), loading := false)
  }

  datatype TokenAttempt = TokenAttempt(session: Session, token: Option<string>)

  /** `acquireToken`: silent acquisition for the active account, then one popup acquisition if
      the silent one fails. `silent` and `popup` are how those two SDK calls would settle. */
  function AfterAcquireToken(s: Session, request: TokenRequest, silent: Outcome<string>, popup: Outcome<string>): (r: TokenAttempt)
    ensures s.active.None? ==> r == TokenAttempt(s, None)
    ensures s.active.Some? && silent.Ok? ==>
              r == TokenAttempt(s.(calls := s.calls + [SilentToken(request, s.active.value)]), Some(silent.value))
    ensures s.active.Some? && silent.Err? ==>
              r.session.calls == s.calls + [SilentToken(request, s.active.value), PopupToken(request, s.active.value)]
    ensures s.active.Some? && silent.Err? && popup.Ok? ==>
              r.token == Some(popup.value) && r.session.authError == Some(FormatMsalError(silent.error))
    ensures s.active.Some? && silent.Err? && popup.Err? ==>
              r.token.None? && r.session.authError == Some(FormatMsalError(popup.error))
    ensures r.session == s.(authError := r.session.authError, calls := r.session.calls)
  {
    match s.active
    case None => TokenAttempt(s, None)
    case Some(account) =>
      var s1 := s.(calls := s.calls + [SilentToken(request, account)]);
      match silent
      case Ok(token) => TokenAttempt(s1, Some(token))
      case Err(e) =>
        var s2 := s1.(authError := Some(FormatMsalError(e)), calls := s1.calls + [PopupToken(request, account)]);
        match popup
        case Ok(token) => TokenAttempt(s2, Some(token))
        case Err(pe) => TokenAttempt(s2.(authError := Some(FormatMsalError(pe))), None)
  }

  /** The request of `getAccessToken`: only the scopes, so the login prompt is not carried over. */
  function AccessTokenRequest(scopes: Option<seq<string>>): (r: TokenRequest)
    ensures r.prompt.None?
    ensures scopes.Some? ==> r.scopes == scopes.value
    ensures scopes.None? ==> r.scopes == LoginRequest.scopes
  {
    TokenRequest(if scopes.Some? then scopes.value else LoginScopes, None)
  }

  /** The headers `callApi` sends: the bearer token and JSON content type, overridden by the
      caller's own headers. */
  function RequestHeaders(token: string, caller: Option<map<string, string>>): (h: map<string, string>)
    ensures caller.Some? ==> forall k :: k in caller.value ==> k in h && h[k] == caller.value[k]
    ensures "Authorization" in h && "Content-Type" in h
    ensures caller.None? || "Authorization" !in caller.value ==> h["Authorization"] == "Bearer " + token
    ensures caller.None? || "Content-Type" !in caller.value ==> h["Content-Type"] == "application/json"
    ensures forall k :: k in h ==> k == "Authorization" || k == "Content-Type" || (caller.Some? && k in caller.value)
  {
    var defaults := map["Authorization" := "Bearer " + token, "Content-Type" := "application/json"];
    if caller.Some? then defaults + caller.value else defaults
  }

  datatype ApiError = TokenUnavailable | HttpFailure(status: nat) | BodyError(error: ErrorValue)

  datatype ApiResult = Data(value: JsonValue) | Failed(error: ApiError)

  datatype ApiAttempt = ApiAttempt(session: Session, result: ApiResult)

  /** The decimal digits of `n`, as a template literal prints a non-negative integer. */
  function Decimal(n: nat): (r: string)
    ensures |r| > 0
    ensures n == 0 ==> r == "0"
    ensures n > 0 ==> r[0] != '0'
    ensures forall i :: 0 <= i < |r| ==> '0' <= r[i] <= '9'
  {
    if n < 10 then [DigitChar(n)] else Decimal(n / 10) + [DigitChar(n % 10)]
  }

  function DigitChar(d: nat): (c: char)
    requires d < 10
    ensures '0' <= c <= '9'
  {
    (('0' as int) + d) as char
  }

  /** The message of an `Error` that `callApi` creates itself. The body of a failed response is
      read as text (for logging) and never as JSON. A rejected JSON parse (`BodyError`) is passed
      to the caller unchanged, so it has no message of `callApi`'s own. */
  function ApiErrorMessage(e: ApiError): (m: string)
    requires !e.BodyError?
    ensures |m| > 0
    ensures e.TokenUnavailable? ==> m == TokenUnavailableMessage
    ensures e.HttpFailure? ==> |m| > |ApiFailurePrefix| && m[..|ApiFailurePrefix|] == ApiFailurePrefix
    ensures e.HttpFailure? ==> m[|ApiFailurePrefix|..] == Decimal(e.status)
  {
    match e
    case TokenUnavailable => TokenUnavailableMessage
    case HttpFailure(status) => ApiFailurePrefix + Decimal(status)
  }

  /** `callApi(url, options)`: an API token, then `fetch`, then the status check, then the body. */
  function AfterCallApi(s: Session, config: Config, url: string, options: FetchOptions,
                   silent: Outcome<string>, popup: Outcome<string>, response: HttpResponse): (r: ApiAttempt)
    ensures var t := AfterAcquireToken(s, ApiRequest(config.apiClientId), silent, popup);
            if t.token.None? || t.token.value == "" then
              r == ApiAttempt(t.session, Failed(TokenUnavailable))
            else
              r.session == t.session.(calls := t.session.calls +
                                         [Fetch(url, FetchInit(options.rest, RequestHeaders(t.token.value, options.headers)))]) &&
              (!response.ok ==> r.result == Failed(HttpFailure(response.status))) &&
              (response.ok && response.body.Ok? ==> r.result == Data(response.body.value)) &&
              (response.ok && response.body.Err? ==> r.result == Failed(BodyError(response.body.error)))
  {
    var t := AfterAcquireToken(s, ApiRequest(config.apiClientId), silent, popup);
    match t.token
    case None => ApiAttempt(t.session, Failed(TokenUnavailable))
    case Some(token) =>
      if token == "" then ApiAttempt(t.session, Failed(TokenUnavailable))
      else
        var init := FetchInit(options.rest, RequestHeaders(token, options.headers));
        var s1 := t.session.(calls := t.session.calls + [Fetch(url, init)]);
        if !response.ok then ApiAttempt(s1, Failed(HttpFailure(response.status)))
        else match response.body
          case Ok(json) => ApiAttempt(s1, Data(json))
          case Err(e) => ApiAttempt(s1, Failed(BodyError(e)))
  }

  /** The coordinator instance: one object whose fields are the slots of a `Session`. */
  class Coordinator {
    const config: Config
    var user: Option<User>
    var loading: bool
    var initializing: bool
    var authError: Option<Message>
    var active: Option<Account>
    var accounts: seq<Account>
    var msalAuthenticated: bool
    var initSettled: Option<Outcome<()>>
    var calls: seq<ExternalCall>

    function State(): Session
      reads this
    {
      Session(user, loading, initializing, authError, active, accounts, msalAuthenticated, initSettled, calls)
    }

    function View(): AuthView
      reads this
    {
      ViewOf(State())
    }

    constructor (config: Config, active: Option<Account>, accounts: seq<Account>, msalAuthenticated: bool)
      ensures this.config == config
      ensures State() == Initial(active, accounts, msalAuthenticated)
    {
      this.config := config;
      user := None;
      loading := true;
      initializing := true;
      authError := None;
      this.active := active;
      this.accounts := accounts;
      this.msalAuthenticated := msalAuthenticated;
      initSettled := None;
      calls := [];
    }

    /** The SDK itself changed its cache, active slot or authenticated flag (a sign-in completed
        in another tab, a logout cleared the cache); the hooks report the new values. */
    method ProviderChanged(newActive: Option<Account>, newAccounts: seq<Account>, authenticated: bool)
      modifies this
      ensures State() == old(State()).(active := newActive, accounts := newAccounts, msalAuthenticated := authenticated)
    {
      active := newActive;
      accounts := newAccounts;
      msalAuthenticated := authenticated;
    }

    method ClearAuthError()
      modifies this
      ensures State() == AfterClearAuthError(old(State()))
    {
      authError := None;
    }

    method Bootstrap(init: Outcome<()>, redirect: Outcome<Option<Account>>, cancelled: bool)
      modifies this
      ensures State() == AfterBootstrap(old(State()), init, redirect, cancelled)
    {
      var settled: Outcome<()>;
      if initSettled.Some? {
        settled := initSettled.value;
      } else {
        settled := init;
        if settled.Ok? && |accounts| > 0 && active.None? {
          active := Some(accounts[0]);
        }
        initSettled := Some(settled);
      }
      match settled {
        case Err(e) =>
          authError := Some(FormatMsalError(e));
        case Ok(_) =>
          match redirect {
            case Err(e) =>
              authError := Some(FormatMsalError(e));
            case Ok(response) =>
              var chosen := Coalesce([response, active, First(accounts)]);
              if chosen.Some? {
                active := chosen;
              }
          }
      }
      if !cancelled {
        initializing := false;
      }
    }

    method Reconcile(hydrated: Option<Account>)
      modifies this
      ensures State() == AfterReconcile(old(State()), hydrated)
    {
      if initializing {
        return;
      }
      loading := true;
      var chosen := Coalesce([active, hydrated, First(accounts)]);
      if chosen.Some? {
        if active.None? {
          active := chosen;
        }
        user := Some(UserOf(chosen.value));
        authError := None;
      } else {
        user := None;
      }
      loading := false;
    }

    method Login(response: Outcome<Account>)
      modifies this
      ensures State() == AfterLogin(old(State()), response)
    {
      loading := true;
      authError := None;
      calls := calls + [PopupLogin(LoginRequest)];
      match response {
        case Ok(account) =>
          active := Some(account);
          user := Some(UserOf(account));
          authError := None;
        case Err(e) =>
          authError := Some(FormatMsalError(e));
      }
      loading := false;
    }

    method LoginRedirect(outcome: Outcome<()>)
      modifies this
      ensures State() == AfterLoginRedirect(old(State()), outcome)
    {
      loading := true;
      authError := None;
      calls := calls + [RedirectLogin(LoginRequest)];
      if outcome.Err? {
        authError := Some(FormatMsalError(outcome.error));
        loading := false;
      }
    }

    method Logout(outcome: Outcome<()>)
      modifies this
      ensures State() == AfterLogout(old(State()), outcome)
    {
      loading := true;
      authError := None;
      calls := calls + [PopupLogout];
      match outcome {
        case Ok(_) =>
          user := None;
        case Err(e) =>
          authError := Some(FormatMsalError(e));
      }
      loading := false;
    }

    method LogoutRedirect(origin: Option<string>, outcome: Outcome<()>)
      modifies this
      ensures State() == AfterLogoutRedirect(old(State()), config, origin, outcome)
    {
      loading := true;
      authError := None;
      var uri := if origin.Some? then origin.value else config.postLogoutRedirectUri;
      calls := calls + [RedirectLogout(uri)];
      if outcome.Ok? {
        user := None;
      } else {
        authError := Some(FormatMsalError(outcome.error));
        loading := false;
      }
    }

    method AcquireToken(request: TokenRequest, silent: Outcome<string>, popup: Outcome<string>)
      returns (token: Option<string>)
      modifies this
      ensures TokenAttempt(State(), token) == AfterAcquireToken(old(State()), request, silent, popup)
    {
      if active.None? {
        return None;
      }
      var account := active.value;
      calls := calls + [SilentToken(request, account)];
      if silent.Ok? {
        return Some(silent.value);
      }
      authError := Some(FormatMsalError(silent.error));
      calls := calls + [PopupToken(request, account)];
      if popup.Ok? {
        return Some(popup.value);
      }
      authError := Some(FormatMsalError(popup.error));
      return None;
    }

    method GetAccessToken(scopes: Option<seq<string>>, silent: Outcome<string>, popup: Outcome<string>)
      returns (token: Option<string>)
      modifies this
      ensures TokenAttempt(State(), token) == AfterAcquireToken(old(State()), AccessTokenRequest(scopes), silent, popup)
    {
      token := AcquireToken(AccessTokenRequest(scopes), silent, popup);
    }

    method GetApiToken(silent: Outcome<string>, popup: Outcome<string>) returns (token: Option<string>)
      modifies this
      ensures TokenAttempt(State(), token) == AfterAcquireToken(old(State()), ApiRequest(config.apiClientId), silent, popup)
    {
      token := AcquireToken(ApiRequest(config.apiClientId), silent, popup);
    }

    method CallApi(url: string, options: FetchOptions, silent: Outcome<string>, popup: Outcome<string>,
                   response: HttpResponse) returns (result: ApiResult)
      modifies this
      ensures ApiAttempt(State(), result) == AfterCallApi(old(State()), config, url, options, silent, popup, response)
    {
      var token := GetApiToken(silent, popup);
      if token.None? || token.value == "" {
        return Failed(TokenUnavailable);
      }
      calls := calls + [Fetch(url, FetchInit(options.rest, RequestHeaders(token.value, options.headers)))];
      if !response.ok {
        return Failed(HttpFailure(response.status));
      }
      match response.body {
        case Ok(json) => result := Data(json);
        case Err(e) => result := Failed(BodyError(e));
      }
    }
  }
}
