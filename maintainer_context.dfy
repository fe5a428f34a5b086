/** The maintainer dashboard's data (contexts/MaintainerContext.tsx): repositories
    and grants with their summary statistics, the storage guards in front of the
    fetch and the two mutations, and the records those mutations build. */
module MaintainerContext {
  import opened Common
  import opened Storage

  datatype Repository = Repository(
    id: int,
    name: string,
    description: string,
    stars: int,
    forks: int,
    openIssues: int,
    activeGrants: int,
    totalFunding: int)

  datatype GrantStatus = Active | Completed | PendingAllocation

  /** A grant; `id` is a JavaScript number (created grants draw it from
      `Math.random()`), `deadline` the millisecond timestamp behind its ISO text. */
  datatype Grant = Grant(
    id: real,
    title: string,
    description: string,
    amount: int,
    repository: string,
    issueCount: int,
    contributorCount: int,
    deadline: int,
    status: GrantStatus,
    progress: int)

  // ---------------------------------------------------------------------------
  // Statistics

  datatype MaintainerStats = MaintainerStats(
    totalRepositories: nat,
    activeGrants: nat,
    totalContributors: int,
    totalFunding: int)

  predicate IsActive(g: Grant) {
    g.status == Active
  }

  predicate IsNotActive(g: Grant) {
    g.status != Active
  }

  function GrantAmount(g: Grant): int {
    g.amount
  }

  function Contributors(g: Grant): int {
    g.contributorCount
  }

  /** The `stats` object. */
  function Stats(repositories: seq<Repository>, grants: seq<Grant>): (st: MaintainerStats)
    ensures st.totalRepositories == |repositories|
    ensures st.activeGrants == |Filter(grants, IsActive)| <= |grants|
    ensures st.totalContributors == SumOf(grants, Contributors)
    ensures st.totalFunding == SumOf(grants, GrantAmount)
  {
    FilterMembership(grants, IsActive);
    MaintainerStats(|repositories|, |Filter(grants, IsActive)|, SumOf(grants, Contributors), SumOf(grants, GrantAmount))
  }

  /** Funding and contributors are summed over every grant, active or not: the
      non-active (completed and pending-allocation) grants contribute too. */
  lemma {:induction false} TotalsIncludeInactiveGrants(repositories: seq<Repository>, grants: seq<Grant>)
    ensures Stats(repositories, grants).totalFunding
         == SumOf(Filter(grants, IsActive), GrantAmount) + SumOf(Filter(grants, IsNotActive), GrantAmount)
    ensures Stats(repositories, grants).totalContributors
         == SumOf(Filter(grants, IsActive), Contributors) + SumOf(Filter(grants, IsNotActive), Contributors)
  {
    SumOfSplit(grants, IsActive, IsNotActive, GrantAmount);
    SumOfSplit(grants, IsActive, IsNotActive, Contributors);
  }

  // ---------------------------------------------------------------------------
  // Storage guards

  const NOT_AUTHENTICATED := "Not authenticated"
  const AUTH_REQUIRED := "GitHub authentication required"

  /** Why a mutation stops: a thrown message, or an error raised while reading the
      stored session (the `SyntaxError` of `JSON.parse` on unparsable text, or the
      `TypeError` of reading `accessToken` of a stored `null`). */
  datatype Failure = Thrown(message: string) | UnreadableSession

  /** `fetchRepositories`' guard: only a missing or empty session entry is refused. */
  function FetchRepositoriesGuard(items: LocalStore): (r: Option<string>)
    ensures r.Some? <==> AUTH_KEY !in items || items[AUTH_KEY] == Text("")
    ensures r.Some? ==> r.value == "Not authenticated"
  {
    if AUTH_KEY !in items || items[AUTH_KEY] == Text("") then Some(NOT_AUTHENTICATED) else None
  }

  /** `JSON.parse(localStorage.getItem(key) || '{}').accessToken`, checked for truthiness. */
  function StoredToken(items: LocalStore): (r: Result<string, Failure>)
    ensures r.Ok? <==> AUTH_KEY in items && items[AUTH_KEY].Json? && Truthy(items[AUTH_KEY].state.accessToken)
    ensures r.Ok? ==> r.value == items[AUTH_KEY].state.accessToken.value && r.value != ""
    ensures r == Err(UnreadableSession) <==>
      AUTH_KEY in items && ((items[AUTH_KEY].Text? && items[AUTH_KEY].raw != "") || items[AUTH_KEY] == JsonValue(true))
    // A stored number, string, boolean or array has no `accessToken`, so it is refused
    // with the message.
    ensures AUTH_KEY in items && items[AUTH_KEY] == JsonValue(false) ==> r == Err(Thrown(AUTH_REQUIRED))
    ensures r.Err? && r.error.Thrown? ==> r.error.message == "GitHub authentication required"
  {
    if AUTH_KEY !in items then Err(Thrown(AUTH_REQUIRED))
    else match items[AUTH_KEY]
      case Text(raw) => if raw == "" then Err(Thrown(AUTH_REQUIRED)) else Err(UnreadableSession)
      case Json(st) => if Truthy(st.accessToken) then Ok(st.accessToken.value) else Err(Thrown(AUTH_REQUIRED))
      case JsonValue(isNull) => if isNull then Err(UnreadableSession) else Err(Thrown(AUTH_REQUIRED))
  }

  /** A valid session passes both guards. */
  lemma {:induction false} ValidSessionPassesGuards(items: LocalStore, now: int)
    requires IsAuthenticatedIn(items, true, now)
    ensures FetchRepositoriesGuard(items).None?
    ensures StoredToken(items) == Ok(ReadAuthState(items, true).accessToken.value)
  {
    assert items[AUTH_KEY] == Json(ReadAuthState(items, true));
  }

  /** The guards do not look at the expiry: an expired session with a token passes
      them although `isAuthenticated` is false. */
  lemma ExpiredSessionPassesGuards(items: LocalStore, st: AuthState, now: int)
    requires AUTH_KEY in items && items[AUTH_KEY] == Json(st)
    requires Truthy(st.accessToken) && st.expiresAt.Some? && st.expiresAt.value <= now
    ensures FetchRepositoriesGuard(items).None? && StoredToken(items) == Ok(st.accessToken.value)
    ensures !IsAuthenticatedIn(items, true, now)
  {
  }

  // ---------------------------------------------------------------------------
  // importRepository

  /** The fields of GitHub's repository reply that are read. */
  datatype RepoJson = RepoJson(
    id: int,
    name: string,
    description: Option<string>,
    stargazersCount: int,
    forksCount: int,
    openIssuesCount: int)

  datatype RepoReply = RepoTransportError(message: string) | RepoResponse(ok: bool, body: RepoJson)

  /** The repository request: its URL and bearer token. */
  datatype RepoRequest = RepoRequest(url: string, bearer: string)

  datatype Import = Import(result: Result<Repository, Failure>, sent: Option<RepoRequest>)

  const FETCH_REPO_FAILED := "Failed to fetch repository"

  /** The `newRepo` record. */
  function NewRepository(json: RepoJson): (r: Repository)
    ensures r.id == json.id && r.name == json.name
    ensures r.stars == json.stargazersCount && r.forks == json.forksCount && r.openIssues == json.openIssuesCount
    ensures r.description == (if Truthy(json.description) then json.description.value else "")
    ensures r.activeGrants == 0 && r.totalFunding == 0
  {
    Repository(json.id, json.name, if Truthy(json.description) then json.description.value else "",
      json.stargazersCount, json.forksCount, json.openIssuesCount, 0, 0)
  }

  /** `importRepositoryMutation`'s function. */
  function ImportRepository(items: LocalStore, owner: string, repo: string, reply: RepoReply): (x: Import)
    // No token, no request.
    ensures StoredToken(items).Err? ==> x == Import(Err(StoredToken(items).error), None)
    ensures StoredToken(items).Ok? ==>
      x.sent == Some(RepoRequest("https://api.github.com/repos/" + owner + "/" + repo, StoredToken(items).value))
    ensures x.result.Ok? <==> StoredToken(items).Ok? && reply.RepoResponse? && reply.ok
    ensures x.result.Ok? ==> x.result.value == NewRepository(reply.body)
    ensures StoredToken(items).Ok? && reply.RepoResponse? && !reply.ok ==>
      x.result == Err(Thrown("Failed to fetch repository"))
  {
    match StoredToken(items)
    case Err(e) => Import(Err(e), None)
    case Ok(token) =>
      var sent := Some(RepoRequest("https://api.github.com/repos/" + owner + "/" + repo, token));
      match reply
      case RepoTransportError(message) => Import(Err(Thrown(message)), sent)
      case RepoResponse(ok, body) =>
        if !ok then Import(Err(Thrown(FETCH_REPO_FAILED)), sent) else Import(Ok(NewRepository(body)), sent)
  }

  // ---------------------------------------------------------------------------
  // createGrant

  const THIRTY_DAYS_MS := 30 * 24 * 60 * 60 * 1000

  /** The `newGrant` record, built from validated form data; `id` is the
      `Math.random()` draw and `now` is `Date.now()`. */
  function NewGrant(repository: string, issueNumber: string, amount: string, id: real, now: int): (g: Grant)
    requires IsDigitString(amount)
    ensures g.title == "Grant for Issue #" + issueNumber && g.description == "New grant created"
    ensures g.amount == DigitsValue(amount) && g.repository == repository
    ensures g.issueCount == 1 && g.contributorCount == 0 && g.progress == 0
    ensures g.status == PendingAllocation
    ensures g.deadline == now + 2592000000 && g.id == id
  {
    Grant(id, "Grant for Issue #" + issueNumber, "New grant created", DigitsValue(amount), repository,
      1, 0, now + THIRTY_DAYS_MS, PendingAllocation, 0)
  }

  /** `createGrantMutation`'s function: the token guard, then the record. */
  function CreateGrant(items: LocalStore, repository: string, issueNumber: string, amount: string, id: real, now: int)
    : (r: Result<Grant, Failure>)
    requires IsDigitString(amount)
    ensures r.Err? <==> StoredToken(items).Err?
    ensures r.Err? ==> r.error == StoredToken(items).error
    ensures r.Ok? ==> r.value == NewGrant(repository, issueNumber, amount, id, now)
  {
    match StoredToken(items)
    case Err(e) => Err(e)
    case Ok(_) => Ok(NewGrant(repository, issueNumber, amount, id, now))
  }

  /** A new grant is not active: added to the list it raises funding by its amount
      and leaves the active count and the contributor total where they were. */
  lemma {:induction false} NewGrantIsNotActive(repositories: seq<Repository>, grants: seq<Grant>,
                                               repository: string, issueNumber: string, amount: string, id: real, now: int)
    requires IsDigitString(amount)
    ensures var g := NewGrant(repository, issueNumber, amount, id, now);
      var before := Stats(repositories, grants);
      var after := Stats(repositories, grants + [g]);
      after.activeGrants == before.activeGrants
      && after.totalContributors == before.totalContributors
      && after.totalFunding == before.totalFunding + DigitsValue(amount)
  {
    var g := NewGrant(repository, issueNumber, amount, id, now);
    FilterAppend(grants, [g], IsActive);
    SumOfAppend(grants, [g], Contributors);
    SumOfAppend(grants, [g], GrantAmount);
  }
}
