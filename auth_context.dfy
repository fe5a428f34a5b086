/** The application-wide auth context (contexts/AuthContext.tsx): a user and a
    loading flag held in React state, filled once from storage on mount, with
    `login`, `logout` and `updateUser`. Its `isAuthenticated` is `!!user`, not a
    fresh look at storage. */
module AuthContext {
  import opened Common
  import opened Storage
  import GithubAuth

  /** The user the mount effect loads: the stored user when the session is valid. */
  function InitialUser(items: LocalStore, now: int): (u: Option<GitHubUser>)
    ensures u.Some? <==> IsAuthenticatedIn(items, true, now)
    ensures u.Some? ==> AUTH_KEY in items && items[AUTH_KEY] == Json(ReadAuthState(items, true)) && u == ReadAuthState(items, true).user
  {
    if IsAuthenticatedIn(items, true, now) then ReadAuthState(items, true).user else None
  }

  /** The context's `isAuthenticated: !!user`. */
  predicate IsSignedIn(user: Option<GitHubUser>) {
    user.Some?
  }

  class AuthProvider {
    var user: Option<GitHubUser>
    var isLoading: bool
    const store: BrowserStorage
    const config: GithubAuth.OAuthConfig

    /** The first render: no user yet and still loading. */
    constructor (store: BrowserStorage, config: GithubAuth.OAuthConfig)
      ensures this.store == store && this.config == config
      ensures user == None && isLoading
    {
      this.store := store;
      this.config := config;
      user := None;
      isLoading := true;
    }

    /** The mount effect `initAuth`; `finally` clears the loading flag on every path. */
    method InitAuth(now: int)
      requires store.windowed
      modifies this
      ensures !isLoading
      ensures user == if IsAuthenticatedIn(store.items, true, now) then InitialUser(store.items, now) else old(user)
      // On the first render the context's flag then agrees with storage.
      ensures old(user) == None ==> (IsSignedIn(user) <==> IsAuthenticatedIn(store.items, true, now))
    {
      if IsAuthenticatedIn(store.items, store.windowed, now) {
        user := ReadAuthState(store.items, store.windowed).user;
      }
      isLoading := false;
    }

    /** Clears the session, saves a fresh `state` and returns the authorize redirect,
        the same steps as the auth hook's `login`. */
    method Login(state: string) returns (url: GithubAuth.AuthorizeUrl)
      requires store.windowed
      modifies store
      ensures store.items == GithubAuth.AfterLogin(old(store.items), state)
      ensures url == GithubAuth.AuthorizeRedirect(config, state)
    {
      store.ClearAuthState();
      store.SetItem(OAUTH_STATE_KEY, state);
      url := GithubAuth.AuthorizeRedirect(config, state);
    }

    method Logout()
      requires store.windowed
      modifies this, store
      ensures store.items == Cleared(old(store.items), true)
      ensures user == None && isLoading == old(isLoading)
    {
      store.ClearAuthState();
      user := None;
    }

    /** Replaces the user in React state only; storage is not written. */
    method UpdateUser(newUser: GitHubUser)
      modifies this
      ensures user == Some(newUser) && isLoading == old(isLoading)
    {
      user := Some(newUser);
    }
  }

  /** The context's flag is computed once: a session that expires after mount is
      still reported as signed in by the context while storage reports it signed out. */
  lemma StaleAfterExpiry(items: LocalStore, now: int, later: int)
    requires IsAuthenticatedIn(items, true, now)
    requires later >= ReadAuthState(items, true).expiresAt.value
    ensures IsSignedIn(InitialUser(items, now))
    ensures !IsAuthenticatedIn(items, true, later)
  {
  }

  /** At mount the context agrees with storage, and after logout both say signed out. */
  lemma {:induction false} AgreesAtMountAndLogout(items: LocalStore, now: int, later: int)
    ensures IsSignedIn(InitialUser(items, now)) == IsAuthenticatedIn(items, true, now)
    ensures !IsAuthenticatedIn(Cleared(items, true), true, later)
    ensures !IsSignedIn(InitialUser(Cleared(items, true), later))
  {
    ClearedIsSignedOut(items, later);
  }
}
