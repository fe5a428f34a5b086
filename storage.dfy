/** The browser session store (utils/storage.ts): the signed-in GitHub user and
    access token kept under one localStorage key, stamped with a fixed seven-day
    expiry on every write, read back as an empty session when missing or
    unreadable, and cleared together with the pending OAuth `state`. */
module Storage {
  import opened Common

  /** The profile returned by GitHub's `/user` endpoint. */
  datatype GitHubUser = GitHubUser(
    id: int,
    login: string,
    name: Option<string>,
    email: Option<string>,
    avatarUrl: string,
    bio: Option<string>)

  /** The persisted session record; `expiresAt` is a millisecond timestamp. */
  datatype AuthState = AuthState(user: Option<GitHubUser>, accessToken: Option<string>, expiresAt: Option<int>)

  const EmptyState := AuthState(None, None, None)

  /** What localStorage holds under one key. JSON is abstract here: `Json(st)` is
      text that `JSON.parse` turns into the record `st`; `JsonValue(isNull)` is text
      it accepts that is not an object (`null` when `isNull`, otherwise a number, a
      string, a boolean or an array); `Text(raw)` is any other string (a plain value
      such as the OAuth state, or text `JSON.parse` rejects). */
  datatype Item = Text(raw: string) | Json(state: AuthState) | JsonValue(isNull: bool)

  type LocalStore = map<string, Item>

  const AUTH_KEY := "github_auth_state"
  const OAUTH_STATE_KEY := "github_oauth_state"

  /** Seven days in milliseconds. */
  const SESSION_TTL_MS := 7 * 24 * 60 * 60 * 1000

  /** `storage.getAuthState()`; `windowed` is `typeof window !== 'undefined'`. */
  function ReadAuthState(items: LocalStore, windowed: bool): (st: AuthState)
    ensures st == EmptyState || (windowed && AUTH_KEY in items && items[AUTH_KEY] == Json(st))
  {
    if !windowed || AUTH_KEY !in items then EmptyState
    else match items[AUTH_KEY]
      // the empty string is falsy; any other text makes JSON.parse throw, which is caught
      case Text(_) => EmptyState
      case Json(st) => st
      // a value that is not an object has no `user`, `accessToken` or `expiresAt`
      // (for `null`, reading them throws inside `isAuthenticated`, which is caught)
      case JsonValue(_) => EmptyState
  }

  /** The store after `storage.setAuthState(state)` at time `now`: the record is
      written with `expiresAt` replaced by `now` plus seven days. */
  function WithAuthState(items: LocalStore, windowed: bool, state: AuthState, now: int): (r: LocalStore)
    ensures forall k :: k != AUTH_KEY ==> (k in r <==> k in items)
    ensures forall k :: k != AUTH_KEY && k in items ==> r[k] == items[k]
    ensures windowed ==> AUTH_KEY in r
  {
    if !windowed then items
    else items[AUTH_KEY := Json(state.(expiresAt := Some(now + SESSION_TTL_MS)))]
  }

  /** The store after `storage.clearAuthState()`. */
  function Cleared(items: LocalStore, windowed: bool): (r: LocalStore)
    ensures windowed ==> r.Keys == items.Keys - {AUTH_KEY, OAUTH_STATE_KEY}
    ensures forall k :: k in r ==> k in items && r[k] == items[k]
    ensures windowed ==> ReadAuthState(r, windowed) == EmptyState
  {
    if !windowed then items else items - {AUTH_KEY, OAUTH_STATE_KEY}
  }

  /** The truthiness tests and the strict expiry comparison of `storage.isAuthenticated()`. */
  predicate SessionValid(st: AuthState, now: int) {
    && st.user.Some?
    && Truthy(st.accessToken)
    && st.expiresAt.Some? && st.expiresAt.value != 0
    && st.expiresAt.value > now
  }

  /** `storage.isAuthenticated()` evaluated when `Date.now()` is `now`. */
  predicate IsAuthenticatedIn(items: LocalStore, windowed: bool, now: int)
    ensures IsAuthenticatedIn(items, windowed, now) ==>
      var st := ReadAuthState(items, windowed);
      windowed && st.user.Some? && Truthy(st.accessToken) && st.expiresAt.Some? && st.expiresAt.value > now
  {
    windowed && SessionValid(ReadAuthState(items, windowed), now)
  }

  /** `localStorage.getItem('github_oauth_state')`. Only login writes this key, always
      with plain text; a session record found there is read as no saved state. */
  function SavedOAuthState(items: LocalStore): Option<string>
  {
    if OAUTH_STATE_KEY in items && items[OAUTH_STATE_KEY].Text? then Some(items[OAUTH_STATE_KEY].raw) else None
  }

  /** The model of the `storage` object over the page's localStorage. */
  class BrowserStorage {
    var items: LocalStore
    const windowed: bool

    constructor (windowed: bool, items: LocalStore)
      ensures this.windowed == windowed && this.items == items
    {
      this.windowed := windowed;
      this.items := items;
    }

    method SetAuthState(state: AuthState, now: int)
      modifies this
      ensures items == WithAuthState(old(items), windowed, state, now)
    {
      if !windowed {
        return;
      }
      var stamped := state.(expiresAt := Some(now + SESSION_TTL_MS));
      items := items[AUTH_KEY := Json(stamped)];
    }

    method ClearAuthState()
      modifies this
      ensures items == Cleared(old(items), windowed)
    {
      if !windowed {
        return;
      }
      items := items - {AUTH_KEY};
      items := items - {OAUTH_STATE_KEY};
    }

    /** `localStorage.setItem(key, value)`. */
    method SetItem(key: string, value: string)
      modifies this
      ensures items == old(items)[key := Text(value)]
    {
      items := items[key := Text(value)];
    }

    /** `localStorage.removeItem(key)`. */
    method RemoveItem(key: string)
      modifies this
      ensures items == old(items) - {key}
    {
      items := items - {key};
    }
  }

  // ---------------------------------------------------------------------------
  // Properties of the store

  /** Writing then reading gives back the user and token; the expiry is always the
      write time plus seven days, whatever expiry the caller passed. */
  lemma ReadAfterWrite(items: LocalStore, state: AuthState, now: int)
    ensures ReadAuthState(WithAuthState(items, true, state, now), true)
         == AuthState(state.user, state.accessToken, Some(now + 604800000))
  {
  }

  /** A missing key, an empty string, unparsable text or a JSON value that is not an
      object all read as the empty session. */
  lemma ReadMissingOrCorrupt(items: LocalStore, windowed: bool)
    requires AUTH_KEY !in items || !items[AUTH_KEY].Json?
    ensures ReadAuthState(items, windowed) == AuthState(None, None, None)
    ensures !IsAuthenticatedIn(items, windowed, 0)
  {
  }

  /** Writing the session leaves a pending OAuth state where it was. */
  lemma WriteKeepsOAuthState(items: LocalStore, windowed: bool, state: AuthState, now: int)
    ensures SavedOAuthState(WithAuthState(items, windowed, state, now)) == SavedOAuthState(items)
  {
  }

  /** With a complete record stored, validity is exactly the strict comparison
      `expiresAt > now`; in particular an expiry equal to `now` is not valid. */
  lemma AuthenticatedIffNotExpired(items: LocalStore, now: int)
    requires AUTH_KEY in items && items[AUTH_KEY].Json?
    requires var st := items[AUTH_KEY].state;
      st.user.Some? && Truthy(st.accessToken) && st.expiresAt.Some? && st.expiresAt.value != 0
    ensures IsAuthenticatedIn(items, true, now) <==> items[AUTH_KEY].state.expiresAt.value > now
    ensures items[AUTH_KEY].state.expiresAt.value == now ==> !IsAuthenticatedIn(items, true, now)
  {
  }

  /** A session written with a user and a non-empty token is valid for the next
      seven days and invalid from then on. */
  lemma ValidForSevenDaysAfterWrite(items: LocalStore, state: AuthState, written: int, now: int)
    requires state.user.Some? && Truthy(state.accessToken)
    requires 0 <= written
    ensures written <= now < written + SESSION_TTL_MS ==>
      IsAuthenticatedIn(WithAuthState(items, true, state, written), true, now)
    ensures now >= written + SESSION_TTL_MS ==>
      !IsAuthenticatedIn(WithAuthState(items, true, state, written), true, now)
  {
  }

  /** After clearing, no session is valid and no OAuth state is pending. */
  lemma ClearedIsSignedOut(items: LocalStore, now: int)
    ensures !IsAuthenticatedIn(Cleared(items, true), true, now)
    ensures SavedOAuthState(Cleared(items, true)) == None
  {
  }

  /** Without a browser window reads give the empty session and writes change nothing. */
  lemma NoWindowIsInert(items: LocalStore, state: AuthState, now: int)
    ensures ReadAuthState(items, false) == EmptyState
    ensures !IsAuthenticatedIn(items, false, now)
    ensures WithAuthState(items, false, state, now) == items
    ensures Cleared(items, false) == items
  {
  }
}
