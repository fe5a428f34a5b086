/** The contributor's earnings page (app/dashboard/contributor/earnings/page.tsx): the
    search box narrows the contributions, and the header total sums what is shown. */
module EarningsPage {
  import opened Common
  import opened ContributorContext

  predicate KeepContribution(c: Contribution, query: string) {
    MatchesQuery(c.repository, query) || MatchesQuery(c.issueTitle, query)
  }

  function ContributionTest(query: string): Contribution -> bool {
    c => KeepContribution(c, query)
  }

  /** `filteredContributions`. */
  function FilterContributions(contributions: seq<Contribution>, query: string): (shown: seq<Contribution>)
    ensures forall c :: c in shown <==>
      c in contributions && (MatchesQuery(c.repository, query) || MatchesQuery(c.issueTitle, query))
    ensures IsSubsequence(shown, contributions)
  {
    FilterMembership(contributions, ContributionTest(query));
    FilterIsSubsequence(contributions, ContributionTest(query));
    Filter(contributions, ContributionTest(query))
  }

  /** The header's `totalEarnings`. */
  function TotalEarnings(contributions: seq<Contribution>, query: string): int {
    SumOf(FilterContributions(contributions, query), Amount)
  }

  /** Every shown contribution counts toward the header, whatever its status; before
      any search the header is the context's total, and with non-negative amounts a
      search can only lower it. */
  lemma {:induction false} TotalAgainstContext(contributions: seq<Contribution>, query: string)
    ensures TotalEarnings(contributions, query)
         == SumOf(Filter(FilterContributions(contributions, query), IsPending), Amount)
          + SumOf(Filter(FilterContributions(contributions, query), IsNotPending), Amount)
    ensures query == "" ==> TotalEarnings(contributions, query) == Stats(contributions).totalEarnings
    ensures (forall i :: 0 <= i < |contributions| ==> contributions[i].amount >= 0) ==>
      TotalEarnings(contributions, query) <= Stats(contributions).totalEarnings
  {
    if query == "" {
      forall i | 0 <= i < |contributions|
        ensures ContributionTest(query)(contributions[i])
      {
        EmptyQueryMatches(contributions[i].repository);
      }
      FilterKeepsAll(contributions, ContributionTest(query));
    }
    if forall i :: 0 <= i < |contributions| ==> contributions[i].amount >= 0 {
      SumOfFilterAtMost(contributions, ContributionTest(query), Amount);
    }
    SumOfSplit(FilterContributions(contributions, query), IsPending, IsNotPending, Amount);
  }
}
