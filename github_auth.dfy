/** The client half of the GitHub OAuth flow (hooks/useGithubAuth.tsx): `login`
    clears the session, stores a fresh `state` and builds the authorize URL;
    `handleGithubAuth` trades a code for a token through the server route, fetches
    the profile and only then writes the session, clearing everything on any
    failure; `logout` clears the session. Network replies are inputs; the
    requests made are returned as `calls`. */
module GithubAuth {
  import opened Common
  import opened Storage
  import TokenRoute

  /** A request the hook sends: the POST to the server's token route, or the
      profile request to `https://api.github.com/user` with the bearer token. */
  datatype Call = TokenExchange(code: string, state: Option<string>) | ProfileRequest(accessToken: Option<string>)

  /** The reply to the token POST: a thrown `fetch`/`json()` error, or the route's reply. */
  datatype TokenReply = TokenTransportError(message: string) | TokenResponse(response: TokenRoute.RouteResponse)

  /** The reply to the profile request. */
  datatype ProfileReply = ProfileTransportError(message: string) | ProfileResponse(ok: bool, user: GitHubUser)

  /** The outcome of one `handleGithubAuth` run: the user or the thrown message,
      the requests made in order, and localStorage afterwards. */
  datatype Run = Run(result: Result<GitHubUser, string>, calls: seq<Call>, items: LocalStore)

  const TOKEN_FAILED := "Failed to exchange code for token"
  const PROFILE_FAILED := "Failed to fetch user data"

  /** `Response.ok`. */
  predicate IsOk(status: int) {
    200 <= status <= 299
  }

  /** `tokenData.error` as the client reads the route's JSON body. */
  function ReplyError(response: TokenRoute.RouteResponse): Option<string> {
    match response.body
    case ErrorMessage(e) => Some(e)
    case Passthrough(data) => data.error
  }

  /** `tokenData.access_token`. */
  function ReplyToken(response: TokenRoute.RouteResponse): Option<string> {
    match response.body
    case ErrorMessage(_) => None
    case Passthrough(data) => data.accessToken
  }

  /** `handleGithubAuth(code)` run against `items` at time `now`. */
  function Authenticate(items: LocalStore, now: int, code: string, token: TokenReply, profile: ProfileReply): (run: Run)
    // A valid stored session is returned as it is, with no request and no write.
    ensures IsAuthenticatedIn(items, true, now) ==>
      run == Run(Ok(ReadAuthState(items, true).user.value), [], items)
    // Otherwise the token exchange comes first, is made once, and the profile request at most once after it.
    ensures !IsAuthenticatedIn(items, true, now) ==>
      1 <= |run.calls| <= 2 && run.calls[0] == TokenExchange(code, SavedOAuthState(items))
    ensures |run.calls| == 2 ==> token.TokenResponse? && run.calls[1] == ProfileRequest(ReplyToken(token.response))
    // A failed token exchange is reported with the server's message and stops the flow.
    ensures !IsAuthenticatedIn(items, true, now) && token.TokenTransportError? ==>
      run.result == Err(token.message) && |run.calls| == 1
    ensures (!IsAuthenticatedIn(items, true, now) && token.TokenResponse?
             && (!IsOk(token.response.status) || Truthy(ReplyError(token.response)))) ==>
      |run.calls| == 1
      && run.result == Err(if Truthy(ReplyError(token.response)) then ReplyError(token.response).value else TOKEN_FAILED)
    ensures |run.calls| == 2 && profile.ProfileResponse? && !profile.ok ==> run.result == Err(PROFILE_FAILED)
    ensures |run.calls| == 2 && profile.ProfileTransportError? ==> run.result == Err(profile.message)
    // An accepted token reply followed by an ok profile signs the user in.
    ensures (!IsAuthenticatedIn(items, true, now) && token.TokenResponse?
             && IsOk(token.response.status) && !Truthy(ReplyError(token.response))) ==>
      |run.calls| == 2
    ensures (!IsAuthenticatedIn(items, true, now) && token.TokenResponse?
             && IsOk(token.response.status) && !Truthy(ReplyError(token.response))
             && profile.ProfileResponse? && profile.ok) ==>
      run.result == Ok(profile.user)
    // Any failure clears the session and the pending OAuth state.
    ensures run.result.Err? ==> run.items == Cleared(items, true)
    // The session is written only once both the token and the profile are in hand, and holds exactly them.
    ensures run.result.Ok? && !IsAuthenticatedIn(items, true, now) ==>
      |run.calls| == 2 && profile == ProfileResponse(true, run.result.value)
      && run.items == WithAuthState(items, true, AuthState(Some(run.result.value), run.calls[1].accessToken, None), now)
  {
    if IsAuthenticatedIn(items, true, now) then
      Run(Ok(ReadAuthState(items, true).user.value), [], items)
    else
      var exchange := TokenExchange(code, SavedOAuthState(items));
      match token
      case TokenTransportError(message) => Run(Err(message), [exchange], Cleared(items, true))
      case TokenResponse(response) =>
        var error := ReplyError(response);
        if !IsOk(response.status) || Truthy(error) then
          Run(Err(if Truthy(error) then error.value else TOKEN_FAILED), [exchange], Cleared(items, true))
        else
          var accessToken := ReplyToken(response);
          var calls := [exchange, ProfileRequest(accessToken)];
          match profile
          case ProfileTransportError(message) => Run(Err(message), calls, Cleared(items, true))
          case ProfileResponse(ok, user) =>
            if !ok then Run(Err(PROFILE_FAILED), calls, Cleared(items, true))
            else Run(Ok(user), calls, WithAuthState(items, true, AuthState(Some(user), accessToken, None), now))
  }

  /** The values imported from the GitHub configuration module. */
  datatype OAuthConfig = OAuthConfig(clientId: string, redirectUri: string)

  /** The authorize endpoint and its query parameters, in order. */
  datatype AuthorizeUrl = AuthorizeUrl(endpoint: string, query: seq<(string, string)>)

  const AUTHORIZE_ENDPOINT := "https://github.com/login/oauth/authorize"
  const SCOPE := "read:user user:email"

  /** `URLSearchParams.get(name)`: the first value under `name`. */
  function QueryParam(query: seq<(string, string)>, name: string): Option<string> {
    if query == [] then None
    else if query[0].0 == name then Some(query[0].1)
    else QueryParam(query[1..], name)
  }

  /** The redirect built by `login`, which `AuthProvider.login` builds the same way. */
  function AuthorizeRedirect(config: OAuthConfig, state: string): (url: AuthorizeUrl)
    ensures url.endpoint == AUTHORIZE_ENDPOINT
    ensures QueryParam(url.query, "client_id") == Some(config.clientId)
    ensures QueryParam(url.query, "redirect_uri") == Some(config.redirectUri)
    ensures QueryParam(url.query, "scope") == Some("read:user user:email")
    ensures QueryParam(url.query, "state") == Some(state)
    ensures |url.query| == 4
  {
    var query := [("client_id", config.clientId), ("redirect_uri", config.redirectUri), ("scope", SCOPE), ("state", state)];
    assert query[1..][1..] == [("scope", SCOPE), ("state", state)];
    assert query[1..][1..][1..] == [("state", state)];
    assert QueryParam(query[1..][1..], "scope") == Some(SCOPE);
    assert QueryParam(query[1..][1..], "state") == QueryParam([("state", state)], "state") == Some(state);
    AuthorizeUrl(AUTHORIZE_ENDPOINT, query)
  }

  /** localStorage after `login`: the session cleared, then the new `state` stored. */
  function AfterLogin(items: LocalStore, state: string): (r: LocalStore)
    ensures SavedOAuthState(r) == Some(state)
    ensures AUTH_KEY !in r
    ensures forall k :: k != AUTH_KEY && k != OAUTH_STATE_KEY ==> (k in r <==> k in items)
    ensures forall k :: k in items && k != AUTH_KEY && k != OAUTH_STATE_KEY ==> r[k] == items[k]
  {
    Cleared(items, true)[OAUTH_STATE_KEY := Text(state)]
  }

  /** After login no session is valid, so the coming callback cannot short-circuit. */
  lemma SignedOutAfterLogin(items: LocalStore, state: string, now: int)
    ensures !IsAuthenticatedIn(AfterLogin(items, state), true, now)
  {
  }

  /** A successful exchange with a non-empty token leaves a session that is valid
      for the next seven days. */
  lemma {:induction false} SignedInAfterSuccess(items: LocalStore, now: int, later: int, code: string, token: TokenReply, profile: ProfileReply)
    requires !IsAuthenticatedIn(items, true, now)
    requires 0 <= now <= later < now + SESSION_TTL_MS
    requires Authenticate(items, now, code, token, profile).result.Ok?
    requires Truthy(ReplyToken(token.response))
    ensures IsAuthenticatedIn(Authenticate(items, now, code, token, profile).items, true, later)
    ensures ReadAuthState(Authenticate(items, now, code, token, profile).items, true).user
         == Some(Authenticate(items, now, code, token, profile).result.value)
  {
    var run := Authenticate(items, now, code, token, profile);
    var state := AuthState(Some(run.result.value), ReplyToken(token.response), None);
    assert run.items == WithAuthState(items, true, state, now);
    ValidForSevenDaysAfterWrite(items, state, now, later);
    ReadAfterWrite(items, state, now);
  }

  /** The expired-code reply of the server route fails the flow with the route's
      message, and no profile request follows. */
  lemma ExpiredCodeStopsFlow(items: LocalStore, now: int, code: string, state: Option<string>,
                             env: TokenRoute.ServerEnv, data: TokenRoute.TokenBody, profile: ProfileReply)
    requires !IsAuthenticatedIn(items, true, now)
    requires code != "" && data.error == Some("bad_verification_code")
    ensures var reply := TokenResponse(TokenRoute.Post(TokenRoute.RequestBody(Some(code), state), env, TokenRoute.Body(data)).response);
      var run := Authenticate(items, now, code, reply, profile);
      run.result == Err("The authorization code has expired. Please try logging in again.")
      && run.calls == [TokenExchange(code, SavedOAuthState(items))]
      && run.items == Cleared(items, true)
  {
  }

  /** The state of `useGithubAuth` over the page's storage. */
  class GithubAuthHook {
    var user: Option<GitHubUser>
    /** `authMutation.error`: the message of the last failed mutation. */
    var error: Option<string>
    const store: BrowserStorage
    const config: OAuthConfig

    /** Mounting runs the effect that restores a valid stored user. */
    constructor (store: BrowserStorage, config: OAuthConfig, now: int)
      requires store.windowed
      ensures this.store == store && this.config == config && error == None
      ensures user == if IsAuthenticatedIn(store.items, true, now) then ReadAuthState(store.items, true).user else None
    {
      this.store := store;
      this.config := config;
      user := None;
      error := None;
      new;
      if IsAuthenticatedIn(store.items, store.windowed, now) {
        user := ReadAuthState(store.items, store.windowed).user;
      }
    }

    method HandleGithubAuth(code: string, token: TokenReply, profile: ProfileReply, now: int)
      returns (result: Result<GitHubUser, string>, calls: seq<Call>)
      requires store.windowed
      modifies this, store
      ensures var run := Authenticate(old(store.items), now, code, token, profile);
        result == run.result && calls == run.calls && store.items == run.items
      ensures user == if result.Ok? && !IsAuthenticatedIn(old(store.items), true, now) then Some(result.value) else old(user)
      ensures error == old(error)
    {
      if IsAuthenticatedIn(store.items, store.windowed, now) {
        result := Ok(ReadAuthState(store.items, store.windowed).user.value);
        calls := [];
        return;
      }
      calls := [TokenExchange(code, SavedOAuthState(store.items))];
      var response: TokenRoute.RouteResponse;
      match token {
        case TokenTransportError(message) =>
          store.ClearAuthState();
          result := Err(message);
          return;
        case TokenResponse(r) =>
          response := r;
      }
      var error := ReplyError(response);
      if !IsOk(response.status) || Truthy(error) {
        store.ClearAuthState();
        result := Err(if Truthy(error) then error.value else TOKEN_FAILED);
        return;
      }
      var accessToken := ReplyToken(response);
      calls := calls + [ProfileRequest(accessToken)];
      match profile {
        case ProfileTransportError(message) =>
          store.ClearAuthState();
          result := Err(message);
        case ProfileResponse(ok, userData) =>
          if !ok {
            store.ClearAuthState();
            result := Err(PROFILE_FAILED);
          } else {
            store.SetAuthState(AuthState(Some(userData), accessToken, None), now);
            user := Some(userData);
            result := Ok(userData);
          }
      }
    }

    /** The mutation is configured with `retry: false`: one run of `HandleGithubAuth`,
        whose outcome becomes the mutation's `error`. */
    method AuthenticateWithCode(code: string, token: TokenReply, profile: ProfileReply, now: int)
      returns (result: Result<GitHubUser, string>, calls: seq<Call>)
      requires store.windowed
      modifies this, store
      ensures var run := Authenticate(old(store.items), now, code, token, profile);
        result == run.result && calls == run.calls && store.items == run.items
      ensures error == if result.Err? then Some(result.error) else None
      ensures |calls| <= 2 && (|calls| > 0 ==> calls[0].TokenExchange?)
      ensures forall i :: 1 <= i < |calls| ==> !calls[i].TokenExchange?
    {
      result, calls := HandleGithubAuth(code, token, profile, now);
      error := if result.Err? then Some(result.error) else None;
    }

    /** The hook's `isAuthenticated`, read from storage on render. */
    predicate IsAuthenticated(now: int)
      reads this, store
    {
      IsAuthenticatedIn(store.items, store.windowed, now)
    }

    method Login(state: string) returns (url: AuthorizeUrl)
      requires store.windowed
      modifies store
      ensures store.items == AfterLogin(old(store.items), state)
      ensures url == AuthorizeRedirect(config, state)
    {
      store.ClearAuthState();
      store.SetItem(OAUTH_STATE_KEY, state);
      url := AuthorizeRedirect(config, state);
    }

    method Logout()
      requires store.windowed
      modifies this, store
      ensures store.items == Cleared(old(store.items), true)
      ensures user == None
    {
      store.ClearAuthState();
      user := None;
    }
  }
}
