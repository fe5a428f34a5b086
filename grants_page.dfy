/** The maintainer's grants page (app/dashboard/maintainer/grants/page.tsx): the
    active and completed tabs, each narrowed by the search box and the repository
    select, and the four summary cards computed over the unfiltered tabs. */
module GrantsPage {
  import opened Common
  import opened MaintainerContext

  predicate IsCompleted(g: Grant) {
    g.status == Completed
  }

  predicate IsActiveOrCompleted(g: Grant) {
    g.status == Active || g.status == Completed
  }

  /** The two tabs' source lists. */
  function ActiveGrants(grants: seq<Grant>): (active: seq<Grant>)
    ensures forall g :: g in active <==> g in grants && g.status == Active
  {
    FilterMembership(grants, IsActive);
    Filter(grants, IsActive)
  }

  function CompletedGrants(grants: seq<Grant>): (completed: seq<Grant>)
    ensures forall g :: g in completed <==> g in grants && g.status == Completed
  {
    FilterMembership(grants, IsCompleted);
    Filter(grants, IsCompleted)
  }

  /** The two tabs never share a grant, and a grant awaiting allocation is on neither;
      together they hold at most the whole list. */
  lemma {:induction false} TabsAreDisjoint(grants: seq<Grant>)
    ensures forall g :: !(g in ActiveGrants(grants) && g in CompletedGrants(grants))
    ensures forall g: Grant :: g.status == PendingAllocation ==> g !in ActiveGrants(grants) && g !in CompletedGrants(grants)
    ensures |ActiveGrants(grants)| + |CompletedGrants(grants)| <= |grants|
  {
    FilterSplit(grants, IsActiveOrCompleted, IsActive, IsCompleted);
    assert |ActiveGrants(grants)| + |CompletedGrants(grants)| == |Filter(grants, IsActiveOrCompleted)|
    by {
      assert |multiset(Filter(grants, IsActive))| + |multiset(Filter(grants, IsCompleted))|
          == |multiset(Filter(grants, IsActiveOrCompleted))|;
    }
    FilterMembership(grants, IsActiveOrCompleted);
  }

  // ---------------------------------------------------------------------------
  // Search and repository select

  /** One grant against the search box and the repository select. */
  predicate KeepGrant(g: Grant, query: string, repoFilter: string) {
    (MatchesQuery(g.title, query) || MatchesQuery(g.description, query))
    && (repoFilter == "all" || g.repository == repoFilter)
  }

  function GrantTest(query: string, repoFilter: string): Grant -> bool {
    g => KeepGrant(g, query, repoFilter)
  }

  /** `filterGrants`, applied to either tab. */
  function FilterGrants(grants: seq<Grant>, query: string, repoFilter: string): (shown: seq<Grant>)
    ensures forall g :: g in shown <==>
      g in grants
      && (MatchesQuery(g.title, query) || MatchesQuery(g.description, query))
      && (repoFilter == "all" || g.repository == repoFilter)
    ensures |shown| <= |grants|
  {
    FilterMembership(grants, GrantTest(query, repoFilter));
    Filter(grants, GrantTest(query, repoFilter))
  }

  /** The shown grants keep the list's order, and filtering again changes nothing. */
  lemma {:induction false} FilterGrantsKeepsOrder(grants: seq<Grant>, query: string, repoFilter: string)
    ensures IsSubsequence(FilterGrants(grants, query, repoFilter), grants)
    ensures FilterGrants(FilterGrants(grants, query, repoFilter), query, repoFilter) == FilterGrants(grants, query, repoFilter)
  {
    FilterIsSubsequence(grants, GrantTest(query, repoFilter));
    FilterIdempotent(grants, GrantTest(query, repoFilter));
  }

  /** The page's initial search (empty query, every repository) shows each tab whole. */
  lemma {:induction false} InitialFilterShowsAll(grants: seq<Grant>)
    ensures FilterGrants(grants, "", "all") == grants
  {
    forall i | 0 <= i < |grants|
      ensures GrantTest("", "all")(grants[i])
    {
      EmptyQueryMatches(grants[i].title);
    }
    FilterKeepsAll(grants, GrantTest("", "all"));
  }

  // ---------------------------------------------------------------------------
  // Summary cards

  datatype Summary = Summary(
    totalActiveFunding: int,
    activeContributors: int,
    openIssues: int,
    completedCount: nat)

  function IssueCount(g: Grant): int {
    g.issueCount
  }

  /** The four cards, computed over the unfiltered tabs whatever the search says. */
  function Cards(grants: seq<Grant>): Summary
  {
    Summary(SumOf(ActiveGrants(grants), GrantAmount), SumOf(ActiveGrants(grants), Contributors),
      SumOf(ActiveGrants(grants), IssueCount), |CompletedGrants(grants)|)
  }

  /** The page's "Total Active Funding" is the context's total funding less what the
      non-active grants hold, and with non-negative amounts it is at most that total. */
  lemma {:induction false} ActiveFundingWithinTotal(repositories: seq<Repository>, grants: seq<Grant>)
    ensures Cards(grants).totalActiveFunding
         == Stats(repositories, grants).totalFunding - SumOf(Filter(grants, IsNotActive), GrantAmount)
    ensures (forall i :: 0 <= i < |grants| ==> grants[i].amount >= 0) ==>
      Cards(grants).totalActiveFunding <= Stats(repositories, grants).totalFunding
  {
    TotalsIncludeInactiveGrants(repositories, grants);
    if forall i :: 0 <= i < |grants| ==> grants[i].amount >= 0 {
      SumOfFilterAtMost(grants, IsActive, GrantAmount);
    }
  }

  /** The cards ignore the search: what the tabs show is a part of what the cards sum. */
  lemma {:induction false} ShownActiveAreCounted(grants: seq<Grant>, query: string, repoFilter: string)
    ensures forall g :: g in FilterGrants(ActiveGrants(grants), query, repoFilter) ==> g in ActiveGrants(grants)
    ensures (forall i :: 0 <= i < |grants| ==> grants[i].amount >= 0) ==>
      SumOf(FilterGrants(ActiveGrants(grants), query, repoFilter), GrantAmount) <= Cards(grants).totalActiveFunding
  {
    var active := ActiveGrants(grants);
    if forall i :: 0 <= i < |grants| ==> grants[i].amount >= 0 {
      forall i | 0 <= i < |active|
        ensures GrantAmount(active[i]) >= 0
      {
        assert active[i] in active;
      }
      SumOfFilterAtMost(active, GrantTest(query, repoFilter), GrantAmount);
    }
  }
}
