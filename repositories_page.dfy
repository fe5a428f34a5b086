/** The maintainer's repositories page (app/dashboard/maintainer/repositories/page.tsx):
    the search box and the status select narrow the context's repository list. */
module RepositoriesPage {
  import opened Common
  import opened MaintainerContext

  /** The search box and the status select on one repository: "active" wants some
      active grant, "no-grants" none, and any other choice only the search. */
  predicate KeepRepository(r: Repository, query: string, statusFilter: string) {
    var matchesSearch := MatchesQuery(r.name, query) || MatchesQuery(r.description, query);
    if statusFilter == "active" then matchesSearch && r.activeGrants > 0
    else if statusFilter == "no-grants" then matchesSearch && r.activeGrants == 0
    else matchesSearch
  }

  function RepositoryTest(query: string, statusFilter: string): Repository -> bool {
    r => KeepRepository(r, query, statusFilter)
  }

  /** `filteredRepos`. */
  function FilterRepositories(repositories: seq<Repository>, query: string, statusFilter: string): (shown: seq<Repository>)
    ensures forall r :: r in shown <==>
      r in repositories
      && (MatchesQuery(r.name, query) || MatchesQuery(r.description, query))
      && (statusFilter == "active" ==> r.activeGrants > 0)
      && (statusFilter == "no-grants" ==> r.activeGrants == 0)
    ensures |shown| <= |repositories|
  {
    FilterMembership(repositories, RepositoryTest(query, statusFilter));
    Filter(repositories, RepositoryTest(query, statusFilter))
  }

  /** The shown repositories keep the list's order, and filtering again changes nothing. */
  lemma {:induction false} FilterRepositoriesKeepsOrder(repositories: seq<Repository>, query: string, statusFilter: string)
    ensures IsSubsequence(FilterRepositories(repositories, query, statusFilter), repositories)
    ensures FilterRepositories(FilterRepositories(repositories, query, statusFilter), query, statusFilter)
         == FilterRepositories(repositories, query, statusFilter)
  {
    FilterIsSubsequence(repositories, RepositoryTest(query, statusFilter));
    FilterIdempotent(repositories, RepositoryTest(query, statusFilter));
  }

  /** Any status other than the two named ones is the same as "all". */
  lemma {:induction false} OtherStatusIsSearchOnly(repositories: seq<Repository>, query: string, statusFilter: string)
    requires statusFilter != "active" && statusFilter != "no-grants"
    ensures FilterRepositories(repositories, query, statusFilter) == FilterRepositories(repositories, query, "all")
  {
    FilterSameTest(repositories, RepositoryTest(query, statusFilter), RepositoryTest(query, "all"));
  }

  /** When no repository has a negative grant count, "active" and "no-grants" split
      the "all" result between them: no repository in both, none lost, none doubled. */
  lemma {:induction false} StatusesPartitionAll(repositories: seq<Repository>, query: string)
    requires forall i :: 0 <= i < |repositories| ==> repositories[i].activeGrants >= 0
    ensures forall r :: !(r in FilterRepositories(repositories, query, "active")
                       && r in FilterRepositories(repositories, query, "no-grants"))
    ensures multiset(FilterRepositories(repositories, query, "active"))
          + multiset(FilterRepositories(repositories, query, "no-grants"))
         == multiset(FilterRepositories(repositories, query, "all"))
  {
    forall r | r in repositories
      ensures RepositoryTest(query, "all")(r)
           == (RepositoryTest(query, "active")(r) || RepositoryTest(query, "no-grants")(r))
    {
      var i :| 0 <= i < |repositories| && repositories[i] == r;
    }
    FilterSplit(repositories, RepositoryTest(query, "all"), RepositoryTest(query, "active"), RepositoryTest(query, "no-grants"));
  }

  /** A negative grant count (which no repository record is built with) falls through
      both named statuses although "all" shows it. */
  lemma NegativeCountInNeither(r: Repository)
    requires r.activeGrants < 0 && r.name == ""
    ensures FilterRepositories([r], "", "all") == [r]
    ensures FilterRepositories([r], "", "active") == [] && FilterRepositories([r], "", "no-grants") == []
  {
    EmptyQueryMatches(r.name);
    assert r in FilterRepositories([r], "", "all");
    assert [r][1..] == [];
    assert Filter([r], RepositoryTest("", "active")) == [];
    assert Filter([r], RepositoryTest("", "no-grants")) == [];
  }
}
