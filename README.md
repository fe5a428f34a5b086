# GitGrant core, modelled in Dafny

GitGrant is a Next.js dashboard. Maintainers import GitHub repositories and fund
issues with grants. Contributors claim pull requests and follow their earnings.
This project models the logic behind the screens and proves properties of it.

- **Session store and login.** The browser session store keeps the signed-in user
  and token in localStorage with a fixed seven-day expiry (`Storage`).
- **Token exchange.** A server route trades an OAuth authorization code for a token
  and sorts the outcome into 200, 400 or 500 replies (`TokenRoute`).
- **Client OAuth flow.** The auth hook fetches the token, then the profile, then
  writes the session, and clears everything on any failure (`GithubAuth`).
- **Callback guards.** The callback page checks, in a fixed order: provider error,
  `state`, code, existing session, then exchange (`CallbackHandler`).
- **Auth context, login card and user menu.** `AuthContext`, `LoginForm` and
  `NavUser`, which has the second logout path.
- **Pull-request parsing and contributor stats.** The pull-request URL parser, the
  contributor statistics and the claim mutation (`ContributorContext`).
- **Maintainer data.** The maintainer statistics, the storage guards and the records
  that importing a repository and creating a grant build (`MaintainerContext`).
- **Form dialogs.** The three dialogs' schemas (`ClaimPRDialog`, `CreateGrantDialog`,
  `ImportRepositoryDialog`) and their shared submit sequence (`FormDialog`).
- **Dashboard pages.** The search and status filters and the summary sums of the
  grants, repositories and earnings pages (`GrantsPage`, `RepositoriesPage`,
  `EarningsPage`).
- **Cards and sidebar.** The status formatting, badges and buttons of the two cards
  (`GrantCard`, `ContributionCard`) and the sidebar's open-section list (`NavMain`).

`Common` holds the shared vocabulary:

- JavaScript truthiness;
- ASCII case mapping;
- the case-insensitive `includes` search;
- `filter` and `reduce`-sum over sequences, with their lemmas.

## How the model is set up

- **localStorage** is a `map<string, Item>`. JSON is abstract:
  - `Json(st)` is text that `JSON.parse` turns into the record `st`;
  - `JsonValue(isNull)` is text `JSON.parse` accepts that is not an object: `null`, or a number, string, boolean or array;
  - `Text(raw)` is any other string, either a plain value or text the parser rejects.
- **Environment values are parameters:**
  - `now` stands for `Date.now()`;
  - `state` stands for `crypto.randomUUID()`;
  - `id` stands for `Math.random()`;
  - `windowed` stands for the `typeof window` test.
- **Network replies are input datatypes.** Each operation returns the requests it
  sends, so "no request is made" can be stated and proved.
- **Mutable objects are classes:**
  - the storage object;
  - the auth hook;
  - the auth provider;
  - the user menu;
  - the form dialog;
  - the sidebar menu.

  Their methods are proved against the pure functions that the lemmas talk about.
- **Browser-only methods.** Methods of the hook and the context require a browser
  window (`store.windowed`). Those components only run in the browser.

## Model

A row for a lemma also covers the functions its contract names when those functions have no row of their own. Examples: `GrantCard.FormatStatus`, `GrantCard.BadgeFor`, `ContributionCard.StatusColor`, `ContributionCard.StatusIcon`, `ContributionCard.Label`, `GrantsPage.Cards`, `EarningsPage.TotalEarnings`, `NavMain.IsSubItemActive`, `NavMain.IsMainItemActive` and `AuthContext.IsSignedIn`.

| member | source | states |
|---|---|---|
| Common.EmptyQueryMatches | app/dashboard/maintainer/grants/page.tsx:42-43 | An empty search matches every text. |
| Storage.ReadAuthState | utils/storage.ts:19-29 | The read returns either the empty session or exactly the record stored under `github_auth_state`. The stored record only counts in a browser. |
| Storage.WithAuthState | utils/storage.ts:31-43 | A write touches only `github_auth_state`; every other key keeps its value. |
| Storage.Cleared | utils/storage.ts:45-54 | Clearing removes exactly `github_auth_state` and `github_oauth_state`. The other entries are unchanged, and a later read gives the empty session. |
| Storage.IsAuthenticatedIn | utils/storage.ts:56-67 | Authenticated implies a user, a non-empty token and an expiry later than `now`. |
| Storage.BrowserStorage.SetAuthState | utils/storage.ts:31-43 | The new store is `WithAuthState` of the old one: the record is stamped `now` plus seven days, and nothing is written without a window. |
| Storage.BrowserStorage.ClearAuthState | utils/storage.ts:45-54 | The new store is `Cleared` of the old one: the two keys are removed in turn. |
| Storage.BrowserStorage.SetItem | hooks/useGithubAuth.tsx:84 | `localStorage.setItem` stores the text under the key and changes nothing else. |
| Storage.BrowserStorage.RemoveItem | components/nav-user.tsx:58-59 | `localStorage.removeItem` drops exactly the key. |
| Storage.ReadAfterWrite | utils/storage.ts:31-39 | Reading after a write gives back the user and token, with expiry equal to the write time plus 604800000 ms, whatever expiry was passed. |
| Storage.ReadMissingOrCorrupt | utils/storage.ts:19-28 | A missing key, an empty string, unparsable text or a JSON value that is not an object reads as `{null, null, null}` and is not authenticated. |
| Storage.WriteKeepsOAuthState | utils/storage.ts:31-43 | Writing the session leaves a pending OAuth `state` untouched. |
| Storage.AuthenticatedIffNotExpired | utils/storage.ts:56-67 | For a complete record, the session is valid iff `expiresAt > now`. It is not valid when `expiresAt == now`. |
| Storage.ValidForSevenDaysAfterWrite | utils/storage.ts:31-67 | A session written with a user and a token is valid from the write time up to, but not including, seven days later. It is invalid from then on. |
| Storage.ClearedIsSignedOut | utils/storage.ts:45-67 | After clearing, no session is valid and no OAuth state is pending. |
| Storage.NoWindowIsInert | utils/storage.ts:19-67 | Without a window, reads give the empty session or false, and writes and clears change nothing. |
| TokenRoute.Post | app/api/auth/github/token/route.ts:3-53 | An upstream request is made iff the body is readable and has a non-empty code, and it carries exactly the client id, the secret and the code. No code gives 400 "Authorization code is required". Any exception gives 500 "Failed to exchange code for token". `bad_verification_code` gives 400 with the expired message. Status 200 happens iff the upstream body has no `error`, and that body passes through unchanged. Every status is 200, 400 or 500. Error bodies hold a fixed message or the provider's own `error` / `error_description`. |
| TokenRoute.ProviderErrorMessage | app/api/auth/github/token/route.ts:32-43 | Any other provider error is a 400 carrying `error_description` when it is non-empty, and `error` otherwise. |
| TokenRoute.StateIsIgnored | app/api/auth/github/token/route.ts:3-26 | The `state` field of the request changes nothing in the reply or in the upstream request. |
| TokenRoute.NoRequestNoDependence | app/api/auth/github/token/route.ts:5-12 | When no upstream request is made, the reply does not depend on the upstream. |
| GithubAuth.Authenticate | hooks/useGithubAuth.tsx:22-73 | A valid stored session returns the stored user, with no request and no write. Otherwise the token exchange (code plus saved state) is made once and comes first, and the profile request comes at most once after it, with the received token. A transport error fails with its message. A non-ok or `error` reply fails with the server's message or "Failed to exchange code for token", with no profile request. An accepted token reply (ok status, no `error`) always leads to the profile request. An ok profile then returns its user, a non-ok profile fails with "Failed to fetch user data", and a profile transport error fails with its message. Any failure clears the session and the OAuth state. Success writes exactly `{user, accessToken}`, and only after both replies. |
| GithubAuth.AuthorizeRedirect | hooks/useGithubAuth.tsx:86-93 | The URL is the GitHub authorize endpoint with exactly four parameters: `client_id`, `redirect_uri`, `scope = read:user user:email` and the given `state`. |
| GithubAuth.AfterLogin | hooks/useGithubAuth.tsx:80-84 | After login the session key is gone, the saved OAuth state is the fresh one, and all other keys are unchanged. |
| GithubAuth.SignedOutAfterLogin | hooks/useGithubAuth.tsx:80-84 | After login no session is valid. |
| GithubAuth.SignedInAfterSuccess | hooks/useGithubAuth.tsx:59-66 | A successful exchange with a non-empty token leaves a session for the returned user that is valid for the next seven days. |
| GithubAuth.ExpiredCodeStopsFlow | hooks/useGithubAuth.tsx:40-44 | The route's expired-code reply fails the flow with the route's message. Only the token request is made, and storage is cleared. |
| GithubAuth.GithubAuthHook.constructor | hooks/useGithubAuth.tsx:15-20 | On mount, `user` is the stored user iff the session is valid, and `null` otherwise. |
| GithubAuth.GithubAuthHook.HandleGithubAuth | hooks/useGithubAuth.tsx:22-73 | Result, requests and new storage are those of `Authenticate`. `user` is set only on a fresh success. |
| GithubAuth.GithubAuthHook.AuthenticateWithCode | hooks/useGithubAuth.tsx:75-78 | There is one run with no retry: at most two requests and a single token exchange, which comes first. The mutation `error` is the failure message. |
| GithubAuth.GithubAuthHook.Login | hooks/useGithubAuth.tsx:80-94 | Storage becomes `AfterLogin`, and the returned redirect carries the stored state. |
| GithubAuth.GithubAuthHook.Logout | hooks/useGithubAuth.tsx:96-99 | Storage is cleared and `user` is `null`. |
| CallbackHandler.Decide | components/auth/GithubCallbackHandler.tsx:15-53 | A provider error goes to `/login?error=<value>` first. A missing or mismatched state goes to `invalid_state`, and this check comes before the code check. A missing code goes to `no_code`. Once every guard passes, a valid session goes to `/dashboard`. Without one, the exchange starts if none is loading, and the effect waits otherwise. The exchange starts only in that case, and `/dashboard` happens only with a valid session. |
| CallbackHandler.AfterExchange | components/auth/GithubCallbackHandler.tsx:41-52 | Success goes to `/dashboard` and failure to `/login?error=authentication_failed`. |
| CallbackHandler.Outcome | components/auth/GithubCallbackHandler.tsx:15-53 | One effect run composes the guards with the hook's flow: the redirect and the storage that result. |
| CallbackHandler.Render | components/auth/GithubCallbackHandler.tsx:55-83 | The error screen shows iff there is an error, with its message. Otherwise "Authenticating..." shows iff loading. |
| CallbackHandler.RunEffect | components/auth/GithubCallbackHandler.tsx:15-53 | The effect run on the mounted hook ends in `Outcome`'s navigation and storage. |
| CallbackHandler.NoSavedStateNoExchange | components/auth/GithubCallbackHandler.tsx:19-29 | With no saved state no exchange ever starts, and every callback without a provider error is `invalid_state`. |
| CallbackHandler.LoginThenCallbackExchanges | components/auth/GithubCallbackHandler.tsx:19-45 | A callback that carries the state login stored, plus a code, starts the exchange with that code. |
| CallbackHandler.ReplayAfterFailureRejected | components/auth/GithubCallbackHandler.tsx:26-29 | After a failed exchange the saved state is gone, so replaying the callback is `invalid_state`. |
| CallbackHandler.ReplayAfterSuccessGoesToDashboard | components/auth/GithubCallbackHandler.tsx:36-39 | After a success, replaying the callback within seven days goes to `/dashboard` with no second exchange. |
| AuthContext.InitialUser | contexts/AuthContext.tsx:21-33 | The user loaded on mount is present iff storage says authenticated, and it is the stored user. |
| AuthContext.AuthProvider.constructor | contexts/AuthContext.tsx:17-19 | The first render has no user and is loading. |
| AuthContext.AuthProvider.InitAuth | contexts/AuthContext.tsx:21-33 | Loading is false afterwards. The user is the stored one only when the session is valid, and otherwise stays as it was. |
| AuthContext.AuthProvider.Login | contexts/AuthContext.tsx:35-48 | Clears the session before storing the fresh state. The redirect's `state` is the stored one. |
| AuthContext.AuthProvider.Logout | contexts/AuthContext.tsx:50-53 | Storage is cleared and the user is `null`. |
| AuthContext.AuthProvider.UpdateUser | contexts/AuthContext.tsx:55-57 | Replaces the user. The class modifies only itself, so storage is untouched. |
| AuthContext.StaleAfterExpiry | contexts/AuthContext.tsx:63 | `isAuthenticated` is `!!user` (`AuthContext.IsSignedIn`), computed once. A session that expires after mount is still reported as signed in while storage says it is not. |
| AuthContext.AgreesAtMountAndLogout | contexts/AuthContext.tsx:21-53 | The context agrees with storage at mount, and after logout both report signed out. |
| LoginForm.DescriptionAsWritten | components/login-form.tsx:17-37 | Models the lookup as written. The three codes get their messages. An unknown name that is not an inherited member gets the fallback. An inherited `Object.prototype` name yields that member, never the fallback. |
| LoginForm.Describe | components/login-form.tsx:17-37 | The corrected lookup: the three codes get their messages, and every other code gets "An unexpected error occurred". |
| LoginForm.InheritedNameSkipsFallback | components/login-form.tsx:37 | `?error=toString` yields the inherited member in the code as written, where the fallback was intended. |
| LoginForm.DescribeAgreesOffPrototype | components/login-form.tsx:37 | The corrected lookup agrees with the code as written on every code that is not an inherited member name. |
| LoginForm.ErrorToast | components/login-form.tsx:31-40 | A toast appears iff `error` is non-empty. It is destructive and titled "Authentication Error". Its description is the corrected lookup `Describe`, which equals the code as written on every name that is not an inherited `Object.prototype` member. |
| LoginForm.LoginButton | components/login-form.tsx:53-71 | The button is disabled iff loading, with the caption "Connecting..." and otherwise "Login with Github". |
| LoginForm.CallbackCodesHaveMessages | components/login-form.tsx:17-21 | Each redirect the callback page issues on its own has a specific message, never the fallback. |
| NavUser.LogoutResult | components/nav-user.tsx:50-72 | When storage is accessible, both keys are removed, the success toast shows and navigation goes to `/`. When it is not, nothing is removed, the destructive toast shows and there is no navigation. |
| NavUser.LogoutSignsOut | components/nav-user.tsx:58-59 | The two removed keys are exactly the ones `clearAuthState` removes, so afterwards no session is valid and no state is pending. |
| NavUser.NavUserMenu.constructor | components/nav-user.tsx:47 | The wallet dialog starts closed. |
| NavUser.NavUserMenu.HandleLogout | components/nav-user.tsx:50-72 | The two removals happen in source order, then the toast and the navigation, all as in `LogoutResult`. |
| NavUser.NavUserMenu.SetWalletDialogOpen | components/nav-user.tsx:139-141 | The wallet dialog's open flag becomes the given value. |
| ContributorContext.RunEndIsLongest | contexts/ContributorContext.tsx:75 | A regex character-class run is maximal: every character it spans is in the class, and the character after it is not. |
| ContributorContext.MatchAtGroups | contexts/ContributorContext.tsx:75 | A match at `i` has non-empty owner and repository names of the class, and an all-digit number. |
| ContributorContext.Find | contexts/ContributorContext.tsx:75-76 | The unanchored search fails iff no position matches. Otherwise it returns the match at a position before which no position matches, i.e. the leftmost match. |
| ContributorContext.FirstMatchFound | contexts/ContributorContext.tsx:75-76 | A match at `k` with none before it is what the search returns. |
| ContributorContext.MatchCovers | contexts/ContributorContext.tsx:75 | A match spells out `github.com/<owner>/<repo>/pull/<digits>` at its position, and the digit run is maximal. |
| ContributorContext.ParseGitHubPRUrl | contexts/ContributorContext.tsx:73-88 | On success, owner and repo are non-empty and slash-free, the number is a digit string, and the segment occurs in the URL. Failure happens iff no position matches, and always with "Invalid GitHub PR URL format". |
| ContributorContext.ParseRoundTrip | contexts/ContributorContext.tsx:73-83 | Any prefix without `g`, then `github.com/o/r/pull/n`, then a suffix that does not start with a digit, parses back to `(o, r, n)`. |
| ContributorContext.PlainUrlRoundTrip | contexts/ContributorContext.tsx:73-83 | `github.com/o/r/pull/n` parses back to `(o, r, n)`. |
| ContributorContext.SegmentFailsOnForeignChar | contexts/ContributorContext.tsx:75 | A segment whose owner or repository holds a character outside the class does not match there. |
| ContributorContext.Stats | contexts/ContributorContext.tsx:124-128 | Earnings sum every amount. The contribution count is the list length. Active counts the pending ones and is at most the total. |
| ContributorContext.StatsCoverEveryStatus | contexts/ContributorContext.tsx:124-128 | Earnings are the pending sum plus the sum of the rest, rejected included. Active plus non-pending is the total. |
| ContributorContext.MockStats | contexts/ContributorContext.tsx:36-71 | The mock list's statistics are 1000, 3 and 1. |
| ContributorContext.ClaimPR | contexts/ContributorContext.tsx:99-122 | The URL is parsed before any fetch, so an invalid URL fails with the format message and makes no request. The fetched URL is the API URL of the parsed parts. Success happens iff the URL parses and the reply is ok, and returns the parts. A non-ok reply fails with "Pull request not found or inaccessible", and a failed fetch fails with its own message. |
| MaintainerContext.Stats | contexts/MaintainerContext.tsx:275-280 | `totalRepositories` is the repository count. `activeGrants` counts the active grants and is at most the grant count. Contributors and funding sum over all grants. |
| MaintainerContext.TotalsIncludeInactiveGrants | contexts/MaintainerContext.tsx:278-279 | Funding and contributors are the active sum plus the completed and pending-allocation sum. |
| MaintainerContext.FetchRepositoriesGuard | contexts/MaintainerContext.tsx:59-61 | "Not authenticated" happens iff the session key is absent or empty. |
| MaintainerContext.StoredToken | contexts/MaintainerContext.tsx:207-212 | A token is found iff a session record with a non-empty token is stored. Unparsable text and a stored `null` are a read failure: the parser's `SyntaxError`, or the `TypeError` of reading `accessToken` of `null`. Every other case is "GitHub authentication required". That includes a stored number, string, boolean or array such as `42`. |
| MaintainerContext.ValidSessionPassesGuards | contexts/MaintainerContext.tsx:207-212 | A valid session passes both guards with its token. |
| MaintainerContext.ExpiredSessionPassesGuards | contexts/MaintainerContext.tsx:246-251 | The guards ignore expiry: an expired session with a token passes them although it is not authenticated. |
| MaintainerContext.NewRepository | contexts/MaintainerContext.tsx:226-235 | Copies id, name, stars, forks and open issues. A falsy description becomes `''`, and activeGrants and totalFunding start at 0. |
| MaintainerContext.ImportRepository | contexts/MaintainerContext.tsx:205-242 | With no token the request is never sent. Otherwise `https://api.github.com/repos/<owner>/<repo>` is fetched with the stored bearer token. Success happens iff the reply is ok, and yields `NewRepository`. A non-ok reply fails with "Failed to fetch repository". |
| MaintainerContext.NewGrant | contexts/MaintainerContext.tsx:254-265 | Title "Grant for Issue #" + number and description "New grant created". The amount is the digits' value. `issueCount` is 1, `contributorCount` 0 and `progress` 0. Status is pending allocation. The deadline is `now` plus 30 days. |
| MaintainerContext.CreateGrant | contexts/MaintainerContext.tsx:244-273 | Fails iff the token guard fails, with the guard's failure. Otherwise returns `NewGrant`. |
| MaintainerContext.NewGrantIsNotActive | contexts/MaintainerContext.tsx:275-280 | Adding a created grant leaves the active count and the contributors unchanged, and raises funding by its amount. |
| FormDialog.AfterSubmit | components/dialogs/ClaimPRDialog.tsx:56-68 | Invalid data changes nothing. After valid data, loading is false. Success resets and closes. Failure keeps the values and the open state. |
| FormDialog.Dialog.constructor | components/dialogs/ClaimPRDialog.tsx:47-54 | A mounted dialog holds the default values and is not loading. |
| FormDialog.Dialog.Edit | components/dialogs/ClaimPRDialog.tsx:82-97 | Typing replaces the values only. |
| FormDialog.Dialog.SetOpen | components/dialogs/ClaimPRDialog.tsx:71 | `onOpenChange` sets only the open flag. |
| FormDialog.Dialog.Submit | components/dialogs/CreateGrantDialog.tsx:69-80 | The handler receives the values iff they are valid, and loading is true while it runs. The new state is `AfterSubmit`. |
| ClaimPRDialog.NewClaimDialog | components/dialogs/ClaimPRDialog.tsx:27-54 | The dialog validates with the claim schema and starts from an empty URL. |
| ClaimPRDialog.NarrowMatchIsParserMatch | components/dialogs/ClaimPRDialog.tsx:31 | A `[\w-]` match is also a `[^/]` match with the same groups. |
| ClaimPRDialog.AcceptedUrlParses | components/dialogs/ClaimPRDialog.tsx:27-34 | Every URL the form accepts is parsed by `parseGitHubPRUrl`. |
| ClaimPRDialog.AcceptedUrlShape | components/dialogs/ClaimPRDialog.tsx:28-33 | An accepted URL contains `github.com/A/B/pull/<digits>`, with A and B non-empty over `[A-Za-z0-9_-]`. |
| ClaimPRDialog.ForeignNameRejected | components/dialogs/ClaimPRDialog.tsx:31 | When the only segment has a character outside `[\w-]` in the owner or repository, the form rejects the URL and the parser accepts it. |
| ClaimPRDialog.DottedRepositoryExample | components/dialogs/ClaimPRDialog.tsx:31 | `https://github.com/vercel/next.js/pull/1` is rejected by the form and parsed by the context. |
| ClaimPRDialog.DefaultsRejected | components/dialogs/ClaimPRDialog.tsx:49-54 | The untouched form is rejected. |
| CreateGrantDialog.ComplexityLabel | components/dialogs/CreateGrantDialog.tsx:174-180 | Complexity 1 to 5 shows Very Easy, Easy, Medium, Hard and Very Hard. Any other value shows nothing. |
| CreateGrantDialog.NewCreateGrantDialog | components/dialogs/CreateGrantDialog.tsx:37-67 | The dialog validates with the grant schema and starts from the defaults `("", "", "", 3)`. |
| CreateGrantDialog.DefaultsRejected | components/dialogs/CreateGrantDialog.tsx:59-67 | The untouched form is rejected, though its default complexity 3 is valid and labelled Medium. |
| CreateGrantDialog.NonDigitNumbersRejected | components/dialogs/CreateGrantDialog.tsx:39-40 | `#123`, `-5` and `1.5` are rejected as an issue number or an amount. |
| CreateGrantDialog.ValidFormHasLabel | components/dialogs/CreateGrantDialog.tsx:41 | Every valid form has a complexity label. |
| ImportRepositoryDialog.NewImportDialog | components/dialogs/ImportRepositoryDialog.tsx:27-53 | The dialog validates with the non-empty rules and starts from empty fields. |
| ImportRepositoryDialog.DefaultsRejected | components/dialogs/ImportRepositoryDialog.tsx:47-53 | The untouched form is rejected. |
| ImportRepositoryDialog.NoResubmitAfterSuccess | components/dialogs/ImportRepositoryDialog.tsx:55-66 | After a successful import the dialog is closed and reset, and pressing Import again changes nothing. |
| GrantsPage.ActiveGrants | app/dashboard/maintainer/grants/page.tsx:37 | The active tab holds exactly the active grants. |
| GrantsPage.CompletedGrants | app/dashboard/maintainer/grants/page.tsx:38 | The completed tab holds exactly the completed grants. |
| GrantsPage.TabsAreDisjoint | app/dashboard/maintainer/grants/page.tsx:37-38 | The tabs share no grant, and pending-allocation grants appear in neither. Together they hold at most the list. |
| GrantsPage.FilterGrants | app/dashboard/maintainer/grants/page.tsx:40-47 | A grant is kept iff its title or description contains the query, case-insensitively, and the repository filter is "all" or its repository. |
| GrantsPage.FilterGrantsKeepsOrder | app/dashboard/maintainer/grants/page.tsx:41 | The result is an order-preserving subsequence, and filtering twice equals filtering once. |
| GrantsPage.InitialFilterShowsAll | app/dashboard/maintainer/grants/page.tsx:30-47 | The initial empty query with "all" shows each tab unchanged. |
| GrantsPage.ActiveFundingWithinTotal | app/dashboard/maintainer/grants/page.tsx:71 | The "Total Active Funding" card is the context's funding less the non-active grants. With non-negative amounts it is at most that funding. |
| GrantsPage.ShownActiveAreCounted | app/dashboard/maintainer/grants/page.tsx:49-71 | The cards ignore the search. Shown active grants are active, and with non-negative amounts their sum is at most the card. |
| RepositoriesPage.FilterRepositories | app/dashboard/maintainer/repositories/page.tsx:32-42 | A repository is kept iff the search matches its name or description, "active" requires active grants > 0, and "no-grants" requires active grants == 0. |
| RepositoriesPage.FilterRepositoriesKeepsOrder | app/dashboard/maintainer/repositories/page.tsx:32 | The result is an order-preserving subsequence, and the filter is idempotent. |
| RepositoriesPage.OtherStatusIsSearchOnly | app/dashboard/maintainer/repositories/page.tsx:36-41 | Any status other than the two named ones gives the "all" result. |
| RepositoriesPage.StatusesPartitionAll | app/dashboard/maintainer/repositories/page.tsx:36-41 | With non-negative counts, the "active" and "no-grants" results are disjoint, and their multiset union is the "all" result. |
| RepositoriesPage.NegativeCountInNeither | app/dashboard/maintainer/repositories/page.tsx:36-41 | A negative count is shown under "all" but under neither named status. |
| EarningsPage.FilterContributions | app/dashboard/contributor/earnings/page.tsx:18-21 | A contribution is kept iff its repository or issue title contains the query, case-insensitively. The result is an order-preserving subsequence. |
| EarningsPage.TotalAgainstContext | app/dashboard/contributor/earnings/page.tsx:18-23 | The total sums shown amounts whatever their status. With an empty query it equals the context's `totalEarnings`. With non-negative amounts it is at most that. |
| GrantCard.Split | components/GrantCard.tsx:50 | `split('_')` yields at least one piece, and no piece holds the separator. |
| GrantCard.FormatStatusIsFormatted | components/GrantCard.tsx:49-53 | Split, capitalise and join equals the left-to-right reading: each `_` becomes a space and each word's first letter is upper-cased. |
| GrantCard.FormatStatusShape | components/GrantCard.tsx:49-53 | The output has no `_` and the input's length, and formatting twice equals formatting once. |
| GrantCard.FormatStatusValue | components/GrantCard.tsx:49-53 | The three badge texts are "Pending Allocation", "Active" and "Completed". |
| GrantCard.BadgeDistinguishesStatus | components/GrantCard.tsx:36-47 | active gives default, completed gives secondary, pending_allocation gives outline. No two statuses share a variant. |
| GrantCard.ShowsProgress | components/GrantCard.tsx:97-105 | The progress bar shows iff `showProgress`, which defaults to true (line 33). |
| GrantCard.Actions | components/GrantCard.tsx:108-132 | Exactly one button: Allocate Funds, Manage Grant or View Details by status, outlined iff completed. It leads to `/maintainer/grants/<id>`. |
| ContributionCard.BadgeDistinguishesStatus | components/contributions/ContributionCard.tsx:25-53 | Colours are success, default, warning and destructive. Both the colours and the icons tell the four statuses apart. |
| ContributionCard.ReplaceFirst | components/contributions/ContributionCard.tsx:66 | The replacement keeps the text's length. |
| ContributionCard.ReplaceFirstAbsent | components/contributions/ContributionCard.tsx:66 | Without an occurrence of the pattern nothing changes. |
| ContributionCard.ReplaceFirstAt | components/contributions/ContributionCard.tsx:66 | Only the first occurrence is replaced: the text is the part before it, the replacement, and the part after it. |
| ContributionCard.LabelValue | components/contributions/ContributionCard.tsx:66 | The labels are "IN PROGRESS", "UNDER REVIEW", "COMPLETED" and "REJECTED". |
| ContributionCard.CompletedLine | components/contributions/ContributionCard.tsx:90-95 | The completed-date line shows iff `completedDate` is non-empty. |
| NavMain.CurrentSection | components/nav-main.tsx:41-43 | The first section with an active sub-item, present iff some section has one. |
| NavMain.Toggled | components/nav-main.tsx:55-61 | Opening appends, even a duplicate. Closing removes every copy and keeps the other titles in order, with their counts. |
| NavMain.Synced | components/nav-main.tsx:40-47 | The current section's title ends up open. The list is unchanged when there is none or it is already open, and grows by at most one. |
| NavMain.SyncSettles | components/nav-main.tsx:40-47 | Running the effect a second time changes nothing. |
| NavMain.ReopenDuplicates | components/nav-main.tsx:57-58 | Reopening an open section duplicates its title, and one close removes both copies. |
| NavMain.NavMenu.constructor | components/nav-main.tsx:38 | Every section starts closed. |
| NavMain.NavMenu.HandleCollapsibleChange | components/nav-main.tsx:55-61 | The list becomes `Toggled`, and the section is open (line 70) iff `isOpen`. |
| NavMain.NavMenu.SyncCurrentSection | components/nav-main.tsx:40-47 | The list becomes `Synced`, and the current section is open. |

## Left out

- **Network calls are inputs.** `fetch` to GitHub and to the token route is modelled as reply datatypes, and `services/githubService.ts` is not part of this model.
- **Wallet code.** The MetaMask code in `components/ConnectWalletDialog.tsx` and `types/ethereum.d.ts` is not part of this model. Only the menu's open flag for it is modelled.
- **JSON is abstract.** Serialisation, and which texts `JSON.parse` rejects, are abstract (`Item`). `URLSearchParams` percent-encoding is abstract too: the redirect is its endpoint plus its ordered parameter pairs.
- **React machinery.** React rendering, hooks scheduling, React Query caching, `invalidateQueries` and toasts are not modelled.
  - The mount effects run at construction.
  - Router pushes are returned as paths.
- **Concurrency.** The model is sequential. The only guard against a second exchange is the `isLoading` input, as in the code.
- **Browser-only hook and context methods.** `GithubAuth.GithubAuthHook` and `AuthContext.AuthProvider` methods require a browser window, since those components only render in the browser.
- **No fixed delays.** The `setTimeout` delays in the mock fetchers and mutations are not modelled.
- **Mock data.** The mock repository and grant lists of `fetchRepositories` and `fetchGrants` are not modelled. The contributions mock is kept as a constant.
- **Combined provider flags.** The maintainer provider's combined `isLoading`/`error` flags and the `useMaintainer`/`useContributor` guard hooks are not modelled.
- **Locale formatting.** `toLocaleString`, `toLocaleDateString` and `toISOString` are display or format details.
- **Deadline as a timestamp.** A grant's deadline is kept as the millisecond timestamp rather than its ISO text.
- **ASCII-only text.** Case mapping covers ASCII only, so `toLowerCase`/`toUpperCase` of other characters is not modelled.
- **Abstract URL check.** zod's `.url()` check is the `isUrl` parameter of the claim schema.
- **Unmodelled select list.** The create-grant form's repository select list is not checked against the repositories; the schema only requires a non-empty value.
- **Grant id text.** `GrantCard.Actions` takes the id's text form (`idText`), because JavaScript's number-to-text conversion is not modelled.
- **Typed statuses only.** Both cards take typed statuses, so their `default:` branches cannot be reached and are not modelled.
- MaintainerContext.NewGrant: requires the amount to be a digit string. The create-grant schema guarantees this before the mutation runs; `parseInt` on other text is not modelled.
- MaintainerContext.CreateGrant: the same digit-string requirement as `NewGrant`.
- Storage.SavedOAuthState: reads a session record or another JSON value found under the OAuth-state key as no saved state. Only login writes that key, always with plain text.
- LoginForm.ErrorToast: shows the corrected lookup `Describe`. For an inherited member name such as `toString`, the code as written shows that member instead of the fallback; `LoginForm.DescriptionAsWritten` models this and the Findings table records it.
- Storage.BrowserStorage.SetAuthState, Storage.BrowserStorage.ClearAuthState, Storage.WithAuthState, Storage.Cleared: writes and removals always succeed. A `setItem`/`removeItem` that throws (storage disabled, quota exceeded) is caught and ignored in the code, which leaves the store unchanged; the model does not capture that. So `GithubAuth.Authenticate` and the callback lemmas that rely on the session write assume that it took effect, whereas the code returns the user even when it did not. The logout path in `NavUser` does model an inaccessible storage.
- CreateGrantDialog.GrantFormValid: the complexity is an integer. The schema's `z.number().min(1).max(5)` also accepts fractions such as 2.5, which would get no label; the slider's step of 1 never produces one.
- GithubAuth.Authenticate: a run takes no time. One `now` serves both the opening session check and the expiry stamp of the write, whereas the code stamps the expiry after both network replies have arrived. The real expiry is therefore only later than the model's.
- GrantCard.FormatStatusShape: stated over the model's ASCII case mapping. Upper-casing other characters can change a string's length in JavaScript.
- **Regex parser scope.** The parser lemmas (`ContributorContext.ParseRoundTrip`, `ClaimPRDialog.ForeignNameRejected`) assume text around the segment contains no `g`, so that no earlier `github.com/` can match. A URL with several such segments takes the leftmost match, which `ContributorContext.Find` and `ContributorContext.FirstMatchFound` state.

## Findings

| source | as written | input that shows it | evidently intended | confidence | as-written member | corrected member |
|---|---|---|---|---|---|---|
| components/login-form.tsx:37 | `errorMessages[error] \|\| fallback` reads an object literal, which also yields inherited `Object.prototype` members | `/login?error=toString` yields a function, not the fallback message | every code outside the table shows "An unexpected error occurred" | not executed | LoginForm.DescriptionAsWritten, LoginForm.InheritedNameSkipsFallback | LoginForm.Describe |
