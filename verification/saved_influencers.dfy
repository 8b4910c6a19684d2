/**
 * The saved-influencers page: the first six catalogue entries stand in for
 * the user's saved list, narrowed by a search term and a platform selector;
 * plus the result-count label and the empty-state heading
 * (src/pages/SavedInfluencers.tsx).
 */
module SavedInfluencers {
  import opened Text
  import opened Seqs
  import opened IndexPage

  /** How many catalogue entries the page treats as saved (`slice(0, 6)`). */
  const SavedCount: nat := 6

  /** The page's filter callback: the search of the main page plus the platform selector. */
  predicate MatchesSaved(term: string, platform: string, x: Influencer)
  {
    MatchesSearch(term, x) && MatchesChoice(platform, x.platform)
  }

  /** `filteredInfluencers` of this page. */
  function DisplayedSaved(catalogue: seq<Influencer>, term: string, platform: string): (r: seq<Influencer>)
    ensures |r| <= SavedCount
    ensures IsSubsequence(r, Take(catalogue, SavedCount)) && IsSubsequence(r, catalogue)
    ensures forall x :: x in r <==> x in Take(catalogue, SavedCount) && MatchesSaved(term, platform, x)
    ensures forall x :: multiset(r)[x]
                        == if MatchesSaved(term, platform, x) then multiset(Take(catalogue, SavedCount))[x] else 0
  {
    var saved := Take(catalogue, SavedCount);
    var r := Filter(saved, x => MatchesSaved(term, platform, x));
    forall x ensures multiset(r)[x] == if MatchesSaved(term, platform, x) then multiset(saved)[x] else 0 {
      FilterCounts(saved, x => MatchesSaved(term, platform, x), x);
    }
    FilterIsSubsequence(saved, x => MatchesSaved(term, platform, x));
    FilterMembers(saved, x => MatchesSaved(term, platform, x));
    TakeIsSubsequence(catalogue, SavedCount);
    SubsequenceTransitive(r, saved, catalogue);
    SubsequenceMembers(r, saved);
    r
  }

  /**
   * No follower, engagement, niche or location criterion applies here: with
   * an empty term and `'all'` the page shows the six saved entries as they are.
   */
  lemma UnfilteredShowsSaved(catalogue: seq<Influencer>)
    ensures DisplayedSaved(catalogue, "", All) == Take(catalogue, SavedCount)
  {
    forall x | x in Take(catalogue, SavedCount) ensures MatchesSaved("", All, x) {
      EmptySearchMatchesAll(x);
    }
    FilterKeepsAll(Take(catalogue, SavedCount), x => MatchesSaved("", All, x));
  }

  /** A platform other than `'all'` keeps exactly the saved entries of that platform that match the search. */
  lemma PlatformSelection(catalogue: seq<Influencer>, term: string, platform: string, x: Influencer)
    requires platform != All
    ensures x in DisplayedSaved(catalogue, term, platform)
            <==> x in Take(catalogue, SavedCount) && x.platform == platform && MatchesSearch(term, x)
  {
  }

  /**
   * The search box invites a country, but location is not searched: an
   * influencer based in Canada is not found by typing "Canada".
   */
  lemma CountryIsNotSearched()
    ensures var x := Influencer("1", "Ann", "ann", "Instagram", 5000, 3.5, "Tech", "Canada", "", false, 100, 10);
            DisplayedSaved([x], "Canada", All) == []
  {
    var x := Influencer("1", "Ann", "ann", "Instagram", 5000, 3.5, "Tech", "Canada", "", false, 100, 10);
    var t := Lower("Canada");
    NotContainsLonger(Lower(x.name), t);
    NotContainsLonger(Lower(x.handle), t);
    NotContainsLonger(Lower(x.niche), t);
    assert !MatchesSaved("Canada", All, x);
    FilterDropsAll(Take([x], SavedCount), y => MatchesSaved("Canada", All, y));
  }

  /** The count line: the number followed by "saved influencer", plural unless the count is one. */
  function CountLabel(count: nat): (r: string)
    ensures r == NatToString(count) + " saved influencer" + (if count != 1 then "s" else "")
    ensures |r| > 0 && (r[|r| - 1] == 's' <==> count != 1)
    ensures exists k :: 1 <= k < |r| && AllDigits(r[..k]) && DecimalValue(r[..k]) == count && r[k] == ' '
  {
    var digits := NatToString(count);
    var r := digits + " saved influencer" + (if count != 1 then "s" else "");
    assert r[..|digits|] == digits;
    r
  }

  /** The label names the count unambiguously: different counts give different labels. */
  lemma CountLabelInjective(m: nat, n: nat)
    requires CountLabel(m) == CountLabel(n)
    ensures m == n
  {
    var r, dm, dn := CountLabel(m), NatToString(m), NatToString(n);
    assert r[..|dm|] == dm && r[|dm|] == ' ';
    assert r[..|dn|] == dn && r[|dn|] == ' ';
    // A shorter digit block would put the space where the other label has a digit.
    assert |dm| == |dn|;
    NatToStringInjective(m, n);
  }

  const NoMatchHeading: string := "No matching influencers found"
  const NothingSavedHeading: string := "You haven't saved any influencers yet"

  /** The heading shown when the list is empty. */
  function EmptyStateHeading(term: string, platform: string): (r: string)
    ensures r == NoMatchHeading <==> term != "" || platform != All
    ensures r == NoMatchHeading || r == NothingSavedHeading
  {
    assert NoMatchHeading != NothingSavedHeading by { assert NoMatchHeading[0] != NothingSavedHeading[0]; }
    if term != "" || platform != All then NoMatchHeading else NothingSavedHeading
  }
}
