/**
 * The three-step campaign wizard (src/pages/CreateCampaign.tsx): a step
 * counter moved by Next and Previous, a draft record whose text fields are
 * set by the inputs, and two lists (platforms, content types) that the
 * buttons toggle like sets.
 */
module CreateCampaign {
  import opened Seqs

  /** `campaignData`. */
  datatype CampaignDraft = CampaignDraft(
    name: string,
    country: string,
    niche: string,
    platforms: seq<string>,
    contentTypes: seq<string>,
    startDate: string,
    endDate: string,
    budgetRange: string,
    influencerAge: string,
    stopWords: string)

  const EmptyDraft: CampaignDraft := CampaignDraft("", "", "", [], [], "", "", "", "", "")

  const LastStep: int := 3

  /** The list with every occurrence of `v` removed (`xs.filter(p => p !== v)`). */
  function Without(xs: seq<string>, v: string): (r: seq<string>)
    ensures v !in r
    ensures IsSubsequence(r, xs)
    ensures forall x :: x != v ==> multiset(r)[x] == multiset(xs)[x]
  {
    FilterIsSubsequence(xs, x => x != v);
    FilterMembers(xs, x => x != v);
    forall x | x != v ensures multiset(Filter(xs, x => x != v))[x] == multiset(xs)[x] {
      FilterCounts(xs, x => x != v, x);
    }
    Filter(xs, x => x != v)
  }

  /**
   * The new list of `handlePlatformToggle` and `handleContentTypeToggle`:
   * a value already present is removed (every occurrence), an absent one is
   * appended at the end.
   */
  function Toggled(xs: seq<string>, v: string): (r: seq<string>)
    ensures v !in xs ==> r == xs + [v]
    ensures v in xs ==> v !in r && IsSubsequence(r, xs)
    ensures v in xs ==> forall x :: x != v ==> multiset(r)[x] == multiset(xs)[x]
  {
    if v in xs then Without(xs, v) else xs + [v]
  }

  predicate NoDuplicates(xs: seq<string>)
  {
    forall i, j :: 0 <= i < j < |xs| ==> xs[i] != xs[j]
  }

  /** A subsequence of a list without duplicates has none either. */
  lemma {:induction false} SubsequenceNoDuplicates(a: seq<string>, b: seq<string>)
    requires IsSubsequence(a, b) && NoDuplicates(b)
    ensures NoDuplicates(a)
  {
    SubsequenceOrdered(a, b, (x: string, y: string) => x != y);
  }

  /** Toggling keeps a duplicate-free list duplicate-free. */
  lemma ToggleKeepsNoDuplicates(xs: seq<string>, v: string)
    requires NoDuplicates(xs)
    ensures NoDuplicates(Toggled(xs, v))
  {
    if v in xs {
      SubsequenceNoDuplicates(Toggled(xs, v), xs);
    }
  }

  /** Toggling an absent value twice gives back the exact list. */
  lemma ToggleAbsentTwice(xs: seq<string>, v: string)
    requires v !in xs
    ensures Toggled(Toggled(xs, v), v) == xs
  {
    FilterConcat(xs, [v], x => x != v);
    FilterKeepsAll(xs, x => x != v);
    assert [v][1..] == [];
  }

  /**
   * Toggling a present value twice keeps the same elements, but the value
   * now sits at the end, after everything else in its old order.
   */
  lemma TogglePresentTwice(xs: seq<string>, v: string)
    requires v in xs
    ensures Toggled(Toggled(xs, v), v) == Without(xs, v) + [v]
    ensures forall x :: x in Toggled(Toggled(xs, v), v) <==> x in xs
  {
    var once := Toggled(xs, v);
    forall x | x in xs && x != v ensures x in once {
      assert multiset(once)[x] == multiset(xs)[x];
    }
    SubsequenceMembers(once, xs);
  }

  /** The text inputs of the wizard. */
  datatype TextField = Name | Country | Niche | StartDate | EndDate | BudgetRange | InfluencerAge | StopWords

  function GetText(d: CampaignDraft, f: TextField): string
  {
    match f
    case Name => d.name
    case Country => d.country
    case Niche => d.niche
    case StartDate => d.startDate
    case EndDate => d.endDate
    case BudgetRange => d.budgetRange
    case InfluencerAge => d.influencerAge
    case StopWords => d.stopWords
  }

  /** `setCampaignData(prev => ({ ...prev, f: value }))`. */
  function SetText(d: CampaignDraft, f: TextField, value: string): (r: CampaignDraft)
    ensures forall g :: GetText(r, g) == if g == f then value else GetText(d, g)
    ensures r.platforms == d.platforms && r.contentTypes == d.contentTypes
  {
    match f
    case Name => d.(name := value)
    case Country => d.(country := value)
    case Niche => d.(niche := value)
    case StartDate => d.(startDate := value)
    case EndDate => d.(endDate := value)
    case BudgetRange => d.(budgetRange := value)
    case InfluencerAge => d.(influencerAge := value)
    case StopWords => d.(stopWords := value)
  }

  /** The primary button at the bottom of the wizard. */
  datatype PrimaryButton = NextButton | CreateButton

  class CampaignWizard {
    var currentStep: int
    var draft: CampaignDraft

    /** The step lies in 1..3 and neither list holds a value twice. */
    ghost predicate Valid()
      reads this
    {
      1 <= currentStep <= LastStep && NoDuplicates(draft.platforms) && NoDuplicates(draft.contentTypes)
    }

    constructor ()
      ensures Valid() && currentStep == 1 && draft == EmptyDraft
    {
      currentStep := 1;
      draft := EmptyDraft;
    }

    /** `nextStep`: one step forward, except at the last step. */
    method NextStep()
      requires Valid()
      modifies this
      ensures Valid()
      ensures currentStep == if old(currentStep) < LastStep then old(currentStep) + 1 else old(currentStep)
      ensures draft == old(draft)
      ensures currentStep == old(currentStep) <==> old(Primary()) == CreateButton
    {
      if currentStep < LastStep {
        currentStep := currentStep + 1;
      }
    }

    /** `prevStep`: one step back, except at the first step. */
    method PrevStep()
      requires Valid()
      modifies this
      ensures Valid()
      ensures currentStep == if old(currentStep) > 1 then old(currentStep) - 1 else old(currentStep)
      ensures draft == old(draft)
      ensures currentStep == old(currentStep) <==> old(PreviousDisabled())
    {
      if currentStep > 1 {
        currentStep := currentStep - 1;
      }
    }

    /** `handlePlatformToggle`: only the platform list changes. */
    method TogglePlatform(platform: string)
      requires Valid()
      modifies this
      ensures Valid()
      ensures draft == old(draft).(platforms := Toggled(old(draft).platforms, platform))
      ensures currentStep == old(currentStep)
    {
      ToggleKeepsNoDuplicates(draft.platforms, platform);
      draft := draft.(platforms := Toggled(draft.platforms, platform));
    }

    /** `handleContentTypeToggle`: only the content-type list changes. */
    method ToggleContentType(contentType: string)
      requires Valid()
      modifies this
      ensures Valid()
      ensures draft == old(draft).(contentTypes := Toggled(old(draft).contentTypes, contentType))
      ensures currentStep == old(currentStep)
    {
      ToggleKeepsNoDuplicates(draft.contentTypes, contentType);
      draft := draft.(contentTypes := Toggled(draft.contentTypes, contentType));
    }

    /** One of the text inputs changed. */
    method UpdateText(field: TextField, value: string)
      requires Valid()
      modifies this
      ensures Valid()
      ensures draft == SetText(old(draft), field, value)
      ensures currentStep == old(currentStep)
    {
      draft := SetText(draft, field, value);
    }

    /** "Previous" is disabled on the first step. */
    function PreviousDisabled(): (disabled: bool)
      reads this
      requires Valid()
      ensures disabled <==> currentStep == 1
    {
      currentStep == 1
    }

    /** "Create Campaign" on the last step, "Next" on steps 1 and 2. */
    function Primary(): (b: PrimaryButton)
      reads this
      requires Valid()
      ensures b == CreateButton <==> currentStep == LastStep
      ensures b == NextButton <==> currentStep in {1, 2}
    {
      if currentStep == LastStep then CreateButton else NextButton
    }
  }
}
