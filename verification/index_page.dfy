/**
 * The influencer search page: the `Influencer` and `Filters` records, the
 * initial filter state, and the list shown for a search term and a filter
 * record (src/pages/Index.tsx).
 */
module IndexPage {
  import opened Text
  import opened Seqs

  /** One catalogue entry. Engagement rates are percentages, compared only. */
  datatype Influencer = Influencer(
    id: string,
    name: string,
    handle: string,
    platform: string,
    followers: int,
    engagementRate: real,
    niche: string,
    location: string,
    avatar: string,
    verified: bool,
    avgLikes: int,
    avgComments: int)

  /** The filter record edited by the sidebar. */
  datatype Filters = Filters(
    platform: string,
    minFollowers: int,
    maxFollowers: int,
    minEngagement: real,
    maxEngagement: real,
    niche: string,
    location: string)

  /** The wildcard choice of the platform, niche and location selectors. */
  const All: string := "all"

  /** The filter state the page starts with. */
  const InitialFilters: Filters := Filters(All, 0, 10000000, 0.0, 20.0, All, All)

  /** The term, lower-cased, occurs in the lower-cased name, handle or niche. */
  predicate MatchesSearch(term: string, x: Influencer)
  {
    var t := Lower(term);
    Contains(Lower(x.name), t) || Contains(Lower(x.handle), t) || Contains(Lower(x.niche), t)
  }

  /** A selector set to `'all'` accepts anything; otherwise the value must equal the choice. */
  predicate MatchesChoice(choice: string, value: string)
  {
    choice == All || value == choice
  }

  /** The six conjuncts of the page's filter callback. */
  predicate Matches(term: string, f: Filters, x: Influencer)
  {
    && MatchesSearch(term, x)
    && MatchesChoice(f.platform, x.platform)
    && f.minFollowers <= x.followers <= f.maxFollowers
    && f.minEngagement <= x.engagementRate <= f.maxEngagement
    && MatchesChoice(f.niche, x.niche)
    && MatchesChoice(f.location, x.location)
  }

  /** `filteredInfluencers`: the catalogue entries that pass every criterion, in catalogue order. */
  function FilteredInfluencers(catalogue: seq<Influencer>, term: string, f: Filters): (r: seq<Influencer>)
    ensures forall x :: x in r <==> x in catalogue && Matches(term, f, x)
    ensures IsSubsequence(r, catalogue)
  {
    FilterIsSubsequence(catalogue, x => Matches(term, f, x));
    FilterMembers(catalogue, x => Matches(term, f, x));
    Filter(catalogue, x => Matches(term, f, x))
  }

  /** Each matching entry appears as many times as in the catalogue; no other entry appears. */
  lemma FilteredInfluencersCounts(catalogue: seq<Influencer>, term: string, f: Filters)
    ensures forall x :: multiset(FilteredInfluencers(catalogue, term, f))[x]
                        == if Matches(term, f, x) then multiset(catalogue)[x] else 0
  {
    forall x
      ensures multiset(FilteredInfluencers(catalogue, term, f))[x]
              == if Matches(term, f, x) then multiset(catalogue)[x] else 0
    {
      FilterCounts(catalogue, x => Matches(term, f, x), x);
    }
  }

  /** The empty search term matches every influencer. */
  lemma EmptySearchMatchesAll(x: Influencer)
    ensures MatchesSearch("", x)
  {
    ContainsEmpty(Lower(x.name));
  }

  /**
   * The search looks only at name, handle and niche: a term that occurs
   * (ignoring case) in the niche alone still matches, and changing location
   * or platform never changes the outcome.
   */
  lemma SearchFields(term: string, x: Influencer, location: string, platform: string)
    ensures Contains(x.niche, term) ==> MatchesSearch(term, x)
    ensures MatchesSearch(term, x) == MatchesSearch(term, x.(location := location, platform := platform))
  {
    if Contains(x.niche, term) {
      LowerContains(x.niche, term);
    }
  }

  /**
   * Both follower bounds are inclusive: an influencer otherwise accepted is
   * kept at either bound and dropped one follower outside either bound.
   */
  lemma FollowerBoundsInclusive(term: string, f: Filters, x: Influencer)
    requires MatchesSearch(term, x) && MatchesChoice(f.platform, x.platform)
    requires MatchesChoice(f.niche, x.niche) && MatchesChoice(f.location, x.location)
    requires f.minEngagement <= x.engagementRate <= f.maxEngagement
    requires f.minFollowers <= f.maxFollowers
    ensures Matches(term, f, x.(followers := f.minFollowers))
    ensures Matches(term, f, x.(followers := f.maxFollowers))
    ensures !Matches(term, f, x.(followers := f.minFollowers - 1))
    ensures !Matches(term, f, x.(followers := f.maxFollowers + 1))
  {
    assert MatchesSearch(term, x.(followers := f.minFollowers));
    assert MatchesSearch(term, x.(followers := f.maxFollowers));
  }

  /** Both engagement bounds are inclusive, and any rate outside them is dropped. */
  lemma EngagementBoundsInclusive(term: string, f: Filters, x: Influencer, rate: real)
    requires MatchesSearch(term, x) && MatchesChoice(f.platform, x.platform)
    requires MatchesChoice(f.niche, x.niche) && MatchesChoice(f.location, x.location)
    requires f.minFollowers <= x.followers <= f.maxFollowers
    requires f.minEngagement <= f.maxEngagement
    ensures Matches(term, f, x.(engagementRate := f.minEngagement))
    ensures Matches(term, f, x.(engagementRate := f.maxEngagement))
    ensures Matches(term, f, x.(engagementRate := rate)) <==> f.minEngagement <= rate <= f.maxEngagement
  {
    assert MatchesSearch(term, x.(engagementRate := f.minEngagement));
    assert MatchesSearch(term, x.(engagementRate := f.maxEngagement));
    assert MatchesSearch(term, x.(engagementRate := rate));
  }

  /** `'all'` disables a selector; any other choice demands exact, case-sensitive equality. */
  lemma ChoiceSemantics(choice: string, value: string)
    ensures choice == All ==> MatchesChoice(choice, value)
    ensures choice != All ==> (MatchesChoice(choice, value) <==> value == choice)
    ensures MatchesChoice("TikTok", "TikTok") && !MatchesChoice("TikTok", "tiktok")
  {
    assert "TikTok" != "tiktok" by { assert "TikTok"[0] != "tiktok"[0]; }
  }

  /**
   * With the initial filters and an empty term an influencer is listed exactly
   * when its followers lie in [0, 10,000,000] and its engagement in [0, 20];
   * the initial page therefore does not list every catalogue entry.
   */
  lemma InitialStateListing(catalogue: seq<Influencer>, x: Influencer)
    ensures x in FilteredInfluencers(catalogue, "", InitialFilters)
            <==> x in catalogue && 0 <= x.followers <= 10000000 && 0.0 <= x.engagementRate <= 20.0
    ensures x in catalogue && x.followers > 10000000 ==> x !in FilteredInfluencers(catalogue, "", InitialFilters)
  {
    EmptySearchMatchesAll(x);
  }

  /** An inverted follower or engagement range lists nothing. */
  lemma InvertedRangeIsEmpty(catalogue: seq<Influencer>, term: string, f: Filters)
    requires f.minFollowers > f.maxFollowers || f.minEngagement > f.maxEngagement
    ensures FilteredInfluencers(catalogue, term, f) == []
  {
    FilterDropsAll(catalogue, x => Matches(term, f, x));
  }

  /** A selector choice at least as strict as another: the same choice, or anything in place of `'all'`. */
  predicate ChoiceNarrows(tighter: string, looser: string)
  {
    looser == All || tighter == looser
  }

  /**
   * `(t2, f2)` tightens `(t1, f1)`: the term extends the old term (contains
   * it), minimums are raised, maximums lowered, and selectors narrowed.
   */
  predicate Narrows(t2: string, f2: Filters, t1: string, f1: Filters)
  {
    && Contains(t2, t1)
    && ChoiceNarrows(f2.platform, f1.platform)
    && f2.minFollowers >= f1.minFollowers && f2.maxFollowers <= f1.maxFollowers
    && f2.minEngagement >= f1.minEngagement && f2.maxEngagement <= f1.maxEngagement
    && ChoiceNarrows(f2.niche, f1.niche)
    && ChoiceNarrows(f2.location, f1.location)
  }

  /** An influencer that passes tighter criteria passes the looser ones. */
  lemma NarrowedMatch(t2: string, f2: Filters, t1: string, f1: Filters, x: Influencer)
    requires Narrows(t2, f2, t1, f1)
    requires Matches(t2, f2, x)
    ensures Matches(t1, f1, x)
  {
    LowerContains(t2, t1);
    var l1, l2 := Lower(t1), Lower(t2);
    if Contains(Lower(x.name), l2) {
      ContainsTransitive(Lower(x.name), l2, l1);
    } else if Contains(Lower(x.handle), l2) {
      ContainsTransitive(Lower(x.handle), l2, l1);
    } else {
      ContainsTransitive(Lower(x.niche), l2, l1);
    }
  }

  /**
   * Tightening any criterion never adds an influencer: the new list is an
   * order-preserving subsequence of the old one.
   */
  lemma NarrowingNeverAdds(catalogue: seq<Influencer>, t2: string, f2: Filters, t1: string, f1: Filters)
    requires Narrows(t2, f2, t1, f1)
    ensures IsSubsequence(FilteredInfluencers(catalogue, t2, f2), FilteredInfluencers(catalogue, t1, f1))
  {
    forall x | Matches(t2, f2, x) ensures Matches(t1, f1, x) {
      NarrowedMatch(t2, f2, t1, f1, x);
    }
    FilterMonotone(catalogue, x => Matches(t2, f2, x), x => Matches(t1, f1, x));
  }

  /** Typing more characters after the current term is a tightening. */
  lemma ExtendingTermNarrows(term: string, more: string, f: Filters)
    ensures Narrows(term + more, f, term, f)
  {
    ContainsParts(term, more);
  }
}
