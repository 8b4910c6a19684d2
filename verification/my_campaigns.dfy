/**
 * The campaign list's search box and empty-state heading
 * (src/pages/MyCampaigns.tsx). The list itself arrives from the store
 * newest first; loading and deleting campaigns are not part of this model.
 */
module MyCampaigns {
  import opened Text
  import opened Seqs

  /** A campaign row as the page reads it. */
  datatype Campaign = Campaign(
    id: string,
    name: string,
    country: string,
    niche: string,
    platforms: seq<string>,
    budgetRange: string,
    startDate: string,
    endDate: string,
    createdAt: string)

  /** The term, lower-cased, occurs in the lower-cased name, niche or country. */
  predicate MatchesCampaign(term: string, c: Campaign)
  {
    var t := Lower(term);
    Contains(Lower(c.name), t) || Contains(Lower(c.niche), t) || Contains(Lower(c.country), t)
  }

  /** `filteredCampaigns`. */
  function FilteredCampaigns(campaigns: seq<Campaign>, term: string): (r: seq<Campaign>)
    ensures forall c :: c in r <==> c in campaigns && MatchesCampaign(term, c)
    ensures IsSubsequence(r, campaigns)
    ensures forall c :: multiset(r)[c] == if MatchesCampaign(term, c) then multiset(campaigns)[c] else 0
  {
    FilterIsSubsequence(campaigns, c => MatchesCampaign(term, c));
    FilterMembers(campaigns, c => MatchesCampaign(term, c));
    forall c ensures multiset(Filter(campaigns, c => MatchesCampaign(term, c)))[c]
                     == if MatchesCampaign(term, c) then multiset(campaigns)[c] else 0 {
      FilterCounts(campaigns, c => MatchesCampaign(term, c), c);
    }
    Filter(campaigns, c => MatchesCampaign(term, c))
  }

  /** An empty search keeps every campaign, in the same order. */
  lemma EmptyTermKeepsAll(campaigns: seq<Campaign>)
    ensures FilteredCampaigns(campaigns, "") == campaigns
  {
    forall c | c in campaigns ensures MatchesCampaign("", c) {
      ContainsEmpty(Lower(c.name));
    }
    FilterKeepsAll(campaigns, c => MatchesCampaign("", c));
  }

  /**
   * Only name, niche and country are searched: a term found (ignoring case) in
   * the country alone matches, and platforms, budget and dates never matter.
   */
  lemma SearchedFields(term: string, c: Campaign, platforms: seq<string>, budget: string, start: string, end: string)
    ensures Contains(c.country, term) ==> MatchesCampaign(term, c)
    ensures MatchesCampaign(term, c)
            == MatchesCampaign(term, c.(platforms := platforms, budgetRange := budget, startDate := start, endDate := end))
  {
    if Contains(c.country, term) {
      LowerContains(c.country, term);
    }
  }

  /** `a` was created no earlier than `b` (timestamps in one ISO-8601 format sort as strings). */
  predicate NewerOrSame(a: Campaign, b: Campaign)
  {
    LexAtMost(b.createdAt, a.createdAt)
  }

  /** A newest-first list stays newest first after searching. */
  lemma FilterKeepsNewestFirst(campaigns: seq<Campaign>, term: string)
    requires OrderedBy(campaigns, NewerOrSame)
    ensures OrderedBy(FilteredCampaigns(campaigns, term), NewerOrSame)
  {
    FilterOrdered(campaigns, c => MatchesCampaign(term, c), NewerOrSame);
  }

  const NoMatchHeading: string := "No matching campaigns found"
  const NoCampaignsHeading: string := "You haven't created any campaigns yet"

  /** The heading shown when the filtered list is empty. */
  function EmptyStateHeading(term: string): (r: string)
    ensures r == NoMatchHeading <==> term != ""
    ensures r == NoMatchHeading || r == NoCampaignsHeading
  {
    assert NoMatchHeading != NoCampaignsHeading by { assert NoMatchHeading[0] != NoCampaignsHeading[0]; }
    if term != "" then NoMatchHeading else NoCampaignsHeading
  }
}
