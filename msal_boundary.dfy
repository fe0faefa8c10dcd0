/** Values that cross the boundary between the sign-in coordinator and its collaborators: the
    identity-provider SDK, the browser and the network. Every call into the SDK is replaced by
    its settled outcome, passed to the operation as a parameter; the interactive SDK calls, the
    token requests and `fetch` are also recorded, in order, as `ExternalCall`s. */
module MsalBoundary {

  datatype Option<+T> = None | Some(value: T)

  /** The first present value of the JavaScript chain `o[0] ?? o[1] ?? ... ?? null`. */
  function Coalesce<T>(options: seq<Option<T>>): (r: Option<T>)
    ensures r.None? <==> forall i :: 0 <= i < |options| ==> options[i].None?
    ensures forall i :: 0 <= i < |options| && options[i].Some? && (forall j :: 0 <= j < i ==> options[j].None?) ==>
              r == options[i]
  {
    if |options| == 0 then None
    else if options[0].Some? then options[0]
    else
      var rest := Coalesce(options[1..]);
      assert forall i :: 1 <= i < |options| ==> options[i] == options[1..][i - 1];
      rest
  }

  /** `s[0]` in JavaScript: undefined on an empty array. */
  function First<T>(s: seq<T>): Option<T> {
    if |s| > 0 then Some(s[0]) else None
  }

  /** A non-empty string; in JavaScript it is always truthy. */
  type Message = s: string | |s| > 0 witness "?"

  /** What a rejected SDK promise can carry. Any falsy value (`null`, `undefined`, `""`, `0`,
      `false`) is `Missing`; a thrown string is `Text`; any other value is `Thrown`, whose
      `errorMessage` and `message` properties are `""` when absent or falsy and whose
      serialisation is `None` when `JSON.stringify` throws on it. */
  datatype ErrorValue =
    | Missing
    | Text(text: string)
    | Thrown(errorMessage: string, message: string, serialized: Option<Message>)

  /** How an awaited SDK call settled. */
  datatype Outcome<+T> = Ok(value: T) | Err(error: ErrorValue)

  /** The provider's record of a signed-in principal (MSAL's `AccountInfo`). */
  datatype Account = Account(homeAccountId: string, localAccountId: string, name: string, username: string)

  /** A token or login request: scopes and an optional `prompt`. */
  datatype TokenRequest = TokenRequest(scopes: seq<string>, prompt: Option<string>)

  const LoginScopes: seq<string> := ["User.Read", "openid", "profile"]

  /** `loginRequest` of lib/msalConfig.js. */
  const LoginRequest: TokenRequest := TokenRequest(LoginScopes, Some("select_account"))

  /** `apiRequest` of lib/msalConfig.js, for the client id read from the environment ("" when unset). */
  function ApiRequest(clientId: string): TokenRequest {
    TokenRequest([clientId + "/.default"], None)
  }

  /** The configuration the coordinator reads: the raw client id used for API scopes and the
      configured post-logout redirect URI (used when there is no browser window). */
  datatype Config = Config(apiClientId: string, postLogoutRedirectUri: string)

  /** The options argument of `callApi`: its `headers` (absent when not given) and every other
      property, which is copied unchanged into the `fetch` options. */
  datatype FetchOptions = FetchOptions(headers: Option<map<string, string>>, rest: map<string, string>)

  /** The options actually handed to `fetch`. */
  datatype FetchInit = FetchInit(rest: map<string, string>, headers: map<string, string>)

  /** The decoded JSON value of a response body, kept opaque. */
  type JsonValue = string

  /** What `fetch` answered: the status, the `ok` flag, and how `response.json()` would settle. */
  datatype HttpResponse = HttpResponse(status: nat, ok: bool, body: Outcome<JsonValue>)

  /** The logged calls into the SDK and the network: interactive login and logout, token
      requests and `fetch`. Initialisation, redirect handling and the account reads and writes
      are not logged. */
  datatype ExternalCall =
    | PopupLogin(request: TokenRequest)
    | RedirectLogin(request: TokenRequest)
    | PopupLogout
    | RedirectLogout(postLogoutRedirectUri: string)
    | SilentToken(request: TokenRequest, account: Account)
    | PopupToken(request: TokenRequest, account: Account)
    | Fetch(url: string, init: FetchInit)
}
