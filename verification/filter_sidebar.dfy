/**
 * The filter sidebar: the fixed option lists, the slider domains, one event
 * per control (each replaces one field of the filter record) and the Reset
 * Filters button (src/components/FilterSidebar.tsx).
 */
module FilterSidebar {
  import opened IndexPage

  const Platforms: seq<string> := ["all", "Instagram", "TikTok", "YouTube", "Twitter"]
  const Niches: seq<string> := ["all", "Fashion", "Tech", "Food", "Travel", "Fitness", "Beauty", "Gaming", "Lifestyle"]
  const Locations: seq<string> := ["all", "United States", "United Kingdom", "Canada", "Australia", "Germany", "France"]

  /** Follower sliders: 0 to 10,000,000 in steps of 10,000, i.e. positions 0..1000. */
  const FollowerSteps: nat := 1000
  /** Engagement sliders: 0 to 20 in steps of 0.1, i.e. positions 0..200. */
  const EngagementSteps: nat := 200

  /** The value a follower slider reports at position `k`. */
  function FollowerSliderValue(k: nat): int
  {
    k * 10000
  }

  /** The value an engagement slider reports at position `k`. */
  function EngagementSliderValue(k: nat): real
  {
    k as real / 10.0
  }

  /** What the Reset Filters button installs. */
  const ResetFilters: Filters := Filters("all", 0, 10000000, 0.0, 20.0, "all", "all")

  /** One user action on the sidebar. Slider events carry the slider position. */
  datatype FilterEvent =
    | PlatformSelected(platform: string)
    | MinFollowersMoved(minStep: nat)
    | MaxFollowersMoved(maxStep: nat)
    | MinEngagementMoved(minRateStep: nat)
    | MaxEngagementMoved(maxRateStep: nat)
    | NicheSelected(niche: string)
    | LocationSelected(location: string)
    | ResetClicked

  /** The event could come from the rendered controls: an offered option or an in-range slider position. */
  predicate ValidEvent(e: FilterEvent)
  {
    match e
    case PlatformSelected(p) => p in Platforms
    case MinFollowersMoved(k) => k <= FollowerSteps
    case MaxFollowersMoved(k) => k <= FollowerSteps
    case MinEngagementMoved(k) => k <= EngagementSteps
    case MaxEngagementMoved(k) => k <= EngagementSteps
    case NicheSelected(n) => n in Niches
    case LocationSelected(l) => l in Locations
    case ResetClicked => true
  }

  /** The seven fields of the filter record. */
  datatype Field = Platform | MinFollowers | MaxFollowers | MinEngagement | MaxEngagement | Niche | Location

  datatype FieldValue = Text(text: string) | Count(count: int) | Rate(rate: real)

  /** Reads one field of a filter record. */
  function Get(f: Filters, g: Field): FieldValue
  {
    match g
    case Platform => Text(f.platform)
    case MinFollowers => Count(f.minFollowers)
    case MaxFollowers => Count(f.maxFollowers)
    case MinEngagement => Rate(f.minEngagement)
    case MaxEngagement => Rate(f.maxEngagement)
    case Niche => Text(f.niche)
    case Location => Text(f.location)
  }

  /** Two filter records with the same value in every field are the same record. */
  lemma FieldsDetermineFilters(f: Filters, f': Filters)
    requires forall g :: Get(f, g) == Get(f', g)
    ensures f == f'
  {
    assert Get(f, Platform) == Get(f', Platform);
    assert Get(f, MinFollowers) == Get(f', MinFollowers);
    assert Get(f, MaxFollowers) == Get(f', MaxFollowers);
    assert Get(f, MinEngagement) == Get(f', MinEngagement);
    assert Get(f, MaxEngagement) == Get(f', MaxEngagement);
    assert Get(f, Niche) == Get(f', Niche);
    assert Get(f, Location) == Get(f', Location);
  }

  /** The field a control event writes. */
  function EventField(e: FilterEvent): Field
    requires !e.ResetClicked?
  {
    match e
    case PlatformSelected(_) => Platform
    case MinFollowersMoved(_) => MinFollowers
    case MaxFollowersMoved(_) => MaxFollowers
    case MinEngagementMoved(_) => MinEngagement
    case MaxEngagementMoved(_) => MaxEngagement
    case NicheSelected(_) => Niche
    case LocationSelected(_) => Location
  }

  /** The value a control event writes (the parsed slider value for sliders). */
  function EventValue(e: FilterEvent): FieldValue
    requires !e.ResetClicked?
  {
    match e
    case PlatformSelected(p) => Text(p)
    case MinFollowersMoved(k) => Count(FollowerSliderValue(k))
    case MaxFollowersMoved(k) => Count(FollowerSliderValue(k))
    case MinEngagementMoved(k) => Rate(EngagementSliderValue(k))
    case MaxEngagementMoved(k) => Rate(EngagementSliderValue(k))
    case NicheSelected(n) => Text(n)
    case LocationSelected(l) => Text(l)
  }

  /**
   * The `onChange`/`onClick` handlers: a control event copies the record and
   * replaces its one field; Reset installs the fixed record whatever came before.
   */
  function Apply(f: Filters, e: FilterEvent): (r: Filters)
    ensures e.ResetClicked? ==> r == ResetFilters
    ensures !e.ResetClicked? ==>
              forall g :: Get(r, g) == if g == EventField(e) then EventValue(e) else Get(f, g)
  {
    match e
    case PlatformSelected(p) => f.(platform := p)
    case MinFollowersMoved(k) => f.(minFollowers := FollowerSliderValue(k))
    case MaxFollowersMoved(k) => f.(maxFollowers := FollowerSliderValue(k))
    case MinEngagementMoved(k) => f.(minEngagement := EngagementSliderValue(k))
    case MaxEngagementMoved(k) => f.(maxEngagement := EngagementSliderValue(k))
    case NicheSelected(n) => f.(niche := n)
    case LocationSelected(l) => f.(location := l)
    case ResetClicked => ResetFilters
  }

  /** The state after a run of events, applied in order. */
  function ApplyAll(f: Filters, events: seq<FilterEvent>): Filters
    decreases |events|
  {
    if events == [] then f else ApplyAll(Apply(f, events[0]), events[1..])
  }

  /** Reset restores the page's initial filter state, and resetting twice is resetting once. */
  lemma ResetIsInitial(f: Filters)
    ensures Apply(f, ResetClicked) == InitialFilters
    ensures Apply(Apply(f, ResetClicked), ResetClicked) == Apply(f, ResetClicked)
  {
  }

  /** Setting the same field twice keeps only the last value. */
  lemma LastWriteWins(f: Filters, e1: FilterEvent, e2: FilterEvent)
    requires !e1.ResetClicked? && !e2.ResetClicked? && EventField(e1) == EventField(e2)
    ensures Apply(Apply(f, e1), e2) == Apply(f, e2)
  {
    FieldsDetermineFilters(Apply(Apply(f, e1), e2), Apply(f, e2));
  }

  /** Controls for different fields do not interfere: their events commute. */
  lemma DifferentFieldsCommute(f: Filters, e1: FilterEvent, e2: FilterEvent)
    requires !e1.ResetClicked? && !e2.ResetClicked? && EventField(e1) != EventField(e2)
    ensures Apply(Apply(f, e1), e2) == Apply(Apply(f, e2), e1)
  {
    FieldsDetermineFilters(Apply(Apply(f, e1), e2), Apply(Apply(f, e2), e1));
  }

  /** A value one of the follower sliders can report. */
  ghost predicate IsFollowerSliderValue(v: int)
  {
    exists k: nat :: k <= FollowerSteps && v == FollowerSliderValue(k)
  }

  /** A value one of the engagement sliders can report. */
  ghost predicate IsEngagementSliderValue(v: real)
  {
    exists k: nat :: k <= EngagementSteps && v == EngagementSliderValue(k)
  }

  /** Every field holds a value the sidebar's controls can show. */
  ghost predicate WithinControls(f: Filters)
  {
    && f.platform in Platforms && f.niche in Niches && f.location in Locations
    && IsFollowerSliderValue(f.minFollowers) && IsFollowerSliderValue(f.maxFollowers)
    && IsEngagementSliderValue(f.minEngagement) && IsEngagementSliderValue(f.maxEngagement)
  }

  /** Follower slider values are multiples of 10,000 within [0, 10,000,000]; engagement values lie in [0, 20]. */
  lemma SliderDomains(k: nat)
    ensures k <= FollowerSteps ==> 0 <= FollowerSliderValue(k) <= 10000000 && FollowerSliderValue(k) % 10000 == 0
    ensures k <= EngagementSteps ==> 0.0 <= EngagementSliderValue(k) <= 20.0
    ensures IsFollowerSliderValue(10000000) && IsEngagementSliderValue(20.0)
  {
    assert FollowerSliderValue(FollowerSteps) == 10000000;
    assert EngagementSliderValue(EngagementSteps) == 20.0;
  }

  /**
   * Starting from the initial state, any run of events coming from the
   * controls leaves every field at a value the controls offer; each option
   * list starts with `'all'`.
   */
  lemma {:induction false} ControlsKeepFiltersInDomain(f: Filters, events: seq<FilterEvent>)
    requires WithinControls(f)
    requires forall i :: 0 <= i < |events| ==> ValidEvent(events[i])
    ensures WithinControls(ApplyAll(f, events))
    ensures Platforms[0] == All && Niches[0] == All && Locations[0] == All
    decreases |events|
  {
    if events != [] {
      var e := events[0];
      assert ValidEvent(e);
      SliderDomains(0);
      match e {
        case MinFollowersMoved(k) => assert FollowerSliderValue(k) == k * 10000;
        case MaxFollowersMoved(k) => assert FollowerSliderValue(k) == k * 10000;
        case MinEngagementMoved(k) => assert EngagementSliderValue(k) == k as real / 10.0;
        case MaxEngagementMoved(k) => assert EngagementSliderValue(k) == k as real / 10.0;
        case ResetClicked =>
          assert FollowerSliderValue(0) == 0;
          assert EngagementSliderValue(0) == 0.0;
        case _ =>
      }
      assert WithinControls(Apply(f, e));
      ControlsKeepFiltersInDomain(Apply(f, e), events[1..]);
    }
  }

  /** The initial state is one the controls can show. */
  lemma InitialWithinControls()
    ensures WithinControls(InitialFilters)
  {
    assert FollowerSliderValue(0) == 0;
    assert EngagementSliderValue(0) == 0.0;
    SliderDomains(0);
  }

  /**
   * Min and max sliders are independent: moving the minimum follower slider
   * to the top and the maximum to the bottom is accepted, and the page then
   * lists nothing, whatever the catalogue and search term.
   */
  lemma MinAboveMaxAccepted(catalogue: seq<Influencer>, term: string)
    ensures ApplyAll(InitialFilters, [MinFollowersMoved(1000), MaxFollowersMoved(0)]).minFollowers == 10000000
    ensures ApplyAll(InitialFilters, [MinFollowersMoved(1000), MaxFollowersMoved(0)]).maxFollowers == 0
    ensures FilteredInfluencers(catalogue, term, ApplyAll(InitialFilters, [MinFollowersMoved(1000), MaxFollowersMoved(0)])) == []
  {
    var events := [MinFollowersMoved(1000), MaxFollowersMoved(0)];
    assert events[1..] == [MaxFollowersMoved(0)];
    assert events[1..][1..] == [];
    var f := ApplyAll(InitialFilters, events);
    InvertedRangeIsEmpty(catalogue, term, f);
  }
}
