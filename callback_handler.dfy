/** The OAuth callback page (components/auth/GithubCallbackHandler.tsx): its effect
    reads `code`, `error` and `state` from the query string, checks them in a fixed
    order against the `state` saved at login, and either redirects or starts the
    code exchange of the auth hook. */
module CallbackHandler {
  import opened Common
  import opened Storage
  import GithubAuth

  /** `searchParams.get` of the three parameters. */
  datatype Query = Query(code: Option<string>, error: Option<string>, state: Option<string>)

  /** What one run of the effect does: redirect, start the exchange, or nothing
      while an exchange is pending. */
  datatype Action = Navigate(path: string) | StartExchange(code: string) | Wait

  /** The login page with an `error` parameter; the code follows. */
  const LOGIN_ERROR_PATH := "/login?error="
  const INVALID_STATE_PATH := LOGIN_ERROR_PATH + "invalid_state"
  const NO_CODE_PATH := LOGIN_ERROR_PATH + "no_code"
  const FAILED_PATH := LOGIN_ERROR_PATH + "authentication_failed"
  const DASHBOARD_PATH := "/dashboard"

  /** The effect's guards against localStorage `items` at time `now`. */
  function Decide(q: Query, items: LocalStore, now: int, isLoading: bool): (a: Action)
    // A provider error wins over everything and is forwarded to the login page verbatim.
    ensures Truthy(q.error) ==> a == Navigate(LOGIN_ERROR_PATH + q.error.value)
    // The state check comes before the code check and before the session check.
    ensures !Truthy(q.error) && (!Truthy(q.state) || q.state != SavedOAuthState(items)) ==>
      a == Navigate(INVALID_STATE_PATH)
    ensures !Truthy(q.error) && Truthy(q.state) && q.state == SavedOAuthState(items) && !Truthy(q.code) ==>
      a == Navigate(NO_CODE_PATH)
    // The exchange starts exactly when every check passes, no session is valid and none is pending.
    ensures a.StartExchange? <==>
      !Truthy(q.error) && Truthy(q.state) && q.state == SavedOAuthState(items) && Truthy(q.code)
      && !IsAuthenticatedIn(items, true, now) && !isLoading
    ensures a.StartExchange? ==> a.code == q.code.value
    // With every check passed, a valid session goes to the dashboard, and a pending
    // exchange is waited for.
    ensures (!Truthy(q.error) && Truthy(q.state) && q.state == SavedOAuthState(items) && Truthy(q.code)
             && IsAuthenticatedIn(items, true, now)) ==> a == Navigate(DASHBOARD_PATH)
    ensures (!Truthy(q.error) && Truthy(q.state) && q.state == SavedOAuthState(items) && Truthy(q.code)
             && !IsAuthenticatedIn(items, true, now) && isLoading) ==> a == Wait
    ensures a == Wait ==> isLoading
    ensures a.Navigate? && a.path == DASHBOARD_PATH ==> IsAuthenticatedIn(items, true, now)
  {
    if Truthy(q.error) then Navigate(LOGIN_ERROR_PATH + q.error.value)
    else if !Truthy(q.state) || q.state != SavedOAuthState(items) then Navigate(INVALID_STATE_PATH)
    else if !Truthy(q.code) then Navigate(NO_CODE_PATH)
    else if IsAuthenticatedIn(items, true, now) then Navigate(DASHBOARD_PATH)
    else if !isLoading then StartExchange(q.code.value)
    else Wait
  }

  /** The `onSuccess` / `onError` callbacks given to `authenticateWithCode`. */
  function AfterExchange(result: Result<GitHubUser, string>): (path: string)
    ensures path == DASHBOARD_PATH <==> result.Ok?
    ensures result.Err? ==> path == FAILED_PATH
  {
    if result.Ok? then DASHBOARD_PATH else FAILED_PATH
  }

  /** The redirect one effect run ends in, if any, with the exchange's replies as inputs. */
  function Outcome(q: Query, items: LocalStore, now: int, isLoading: bool,
                   token: GithubAuth.TokenReply, profile: GithubAuth.ProfileReply): (r: (Option<string>, LocalStore))
    ensures Decide(q, items, now, isLoading) == Wait ==> r == (None, items)
    ensures Decide(q, items, now, isLoading).Navigate? ==> r == (Some(Decide(q, items, now, isLoading).path), items)
    ensures Decide(q, items, now, isLoading).StartExchange? ==>
      var run := GithubAuth.Authenticate(items, now, q.code.value, token, profile);
      r == (Some(AfterExchange(run.result)), run.items)
  {
    match Decide(q, items, now, isLoading)
    case Navigate(path) => (Some(path), items)
    case Wait => (None, items)
    case StartExchange(code) =>
      var run := GithubAuth.Authenticate(items, now, code, token, profile);
      (Some(AfterExchange(run.result)), run.items)
  }

  /** The page's own render: the mutation error screen, or a progress heading. */
  datatype Screen = Failed(message: string) | Progress(heading: string)

  function Render(error: Option<string>, isLoading: bool): (s: Screen)
    ensures error.Some? <==> s.Failed?
    ensures s.Failed? ==> s.message == error.value
    ensures s.Progress? ==> (s.heading == "Authenticating..." <==> isLoading)
  {
    if error.Some? then Failed(error.value)
    else Progress(if isLoading then "Authenticating..." else "Preparing authentication...")
  }

  /** One run of the effect against the hook it mounted. */
  method RunEffect(hook: GithubAuth.GithubAuthHook, q: Query, isLoading: bool,
                   token: GithubAuth.TokenReply, profile: GithubAuth.ProfileReply, now: int)
    returns (navigation: Option<string>)
    requires hook.store.windowed
    modifies hook, hook.store
    ensures (navigation, hook.store.items) == Outcome(q, old(hook.store.items), now, isLoading, token, profile)
  {
    var action := Decide(q, hook.store.items, now, isLoading);
    match action {
      case Navigate(path) =>
        navigation := Some(path);
      case Wait =>
        navigation := None;
      case StartExchange(code) =>
        var result, _ := hook.AuthenticateWithCode(code, token, profile, now);
        navigation := Some(AfterExchange(result));
    }
  }

  // ---------------------------------------------------------------------------
  // Properties of the callback

  /** Without a saved state (a callback that did not start from this browser's
      login) no exchange ever starts. */
  lemma NoSavedStateNoExchange(q: Query, items: LocalStore, now: int, isLoading: bool)
    requires SavedOAuthState(items) == None
    ensures !Decide(q, items, now, isLoading).StartExchange?
    ensures !Truthy(q.error) ==> Decide(q, items, now, isLoading) == Navigate(INVALID_STATE_PATH)
  {
  }

  /** A callback carrying the state stored by `login` and a code starts the exchange
      with that code, whatever was in storage before login. */
  lemma LoginThenCallbackExchanges(items: LocalStore, config: GithubAuth.OAuthConfig, state: string, code: string, now: int)
    requires state != "" && code != ""
    ensures var redirect := GithubAuth.AuthorizeRedirect(config, state);
      Decide(Query(Some(code), None, GithubAuth.QueryParam(redirect.query, "state")),
             GithubAuth.AfterLogin(items, state), now, false) == StartExchange(code)
  {
    GithubAuth.SignedOutAfterLogin(items, state, now);
  }

  /** A failed exchange clears the saved state, so replaying the same callback URL is
      rejected as an invalid state instead of reusing the code. */
  lemma {:induction false} ReplayAfterFailureRejected(q: Query, items: LocalStore, now: int, later: int, isLoading: bool,
                                                      token: GithubAuth.TokenReply, profile: GithubAuth.ProfileReply)
    requires Decide(q, items, now, false).StartExchange?
    requires GithubAuth.Authenticate(items, now, q.code.value, token, profile).result.Err?
    ensures Decide(q, GithubAuth.Authenticate(items, now, q.code.value, token, profile).items, later, isLoading)
         == Navigate(INVALID_STATE_PATH)
  {
    var after := GithubAuth.Authenticate(items, now, q.code.value, token, profile).items;
    ClearedIsSignedOut(items, later);
    assert SavedOAuthState(after) == None;
  }

  /** A successful exchange keeps the saved state next to the new session, so
      replaying the callback within the session goes to the dashboard without a
      second exchange. */
  lemma {:induction false} ReplayAfterSuccessGoesToDashboard(q: Query, items: LocalStore, now: int, later: int, isLoading: bool,
                                                             token: GithubAuth.TokenReply, profile: GithubAuth.ProfileReply)
    requires 0 <= now <= later < now + SESSION_TTL_MS
    requires Decide(q, items, now, false).StartExchange?
    requires GithubAuth.Authenticate(items, now, q.code.value, token, profile).result.Ok?
    requires Truthy(GithubAuth.ReplyToken(token.response))
    ensures Decide(q, GithubAuth.Authenticate(items, now, q.code.value, token, profile).items, later, isLoading)
         == Navigate(DASHBOARD_PATH)
  {
    var run := GithubAuth.Authenticate(items, now, q.code.value, token, profile);
    var state := AuthState(Some(run.result.value), GithubAuth.ReplyToken(token.response), None);
    WriteKeepsOAuthState(items, true, state, now);
    GithubAuth.SignedInAfterSuccess(items, now, later, q.code.value, token, profile);
  }
}
