/**
 * The review dialog (src/components/ReviewInfluencerDialog.tsx): five star
 * buttons set the rating, an optional text, and a submit handler that calls
 * `createReview` and then closes and clears the dialog. The hook reports its
 * own failures and always returns, so the dialog is cleared after every call;
 * the model records each call the handler makes.
 */
module ReviewDialog {
  import opened Wrappers

  /** One `createReview(influencerId, rating, review, campaignId)` call. */
  datatype ReviewCall = ReviewCall(influencerId: string, rating: int, review: string, campaignId: Option<string>)

  class ReviewInfluencerDialog {
    const influencerId: string
    const campaignId: Option<string>
    var open: bool
    var rating: int
    var review: string
    var loading: bool
    /** The `createReview` calls issued so far, oldest first. */
    var calls: seq<ReviewCall>

    /** The rating is 0 (none chosen) or one of the five stars. */
    ghost predicate Valid()
      reads this
    {
      0 <= rating <= 5
    }

    constructor (influencerId: string, campaignId: Option<string>)
      ensures Valid()
      ensures this.influencerId == influencerId && this.campaignId == campaignId
      ensures !open && rating == 0 && review == "" && !loading && calls == []
    {
      this.influencerId := influencerId;
      this.campaignId := campaignId;
      open, rating, review, loading, calls := false, 0, "", false, [];
    }

    /** The trigger button opens the dialog; Cancel and the close control shut it. */
    method SetOpen(value: bool)
      modifies this
      ensures open == value
      ensures rating == old(rating) && review == old(review) && loading == old(loading) && calls == old(calls)
    {
      open := value;
    }

    /** Clicking star `star`; only the stars 1 to 5 are rendered. */
    method SelectStar(star: int)
      requires 1 <= star <= 5
      modifies this
      ensures Valid() && rating == star
      ensures open == old(open) && review == old(review) && loading == old(loading) && calls == old(calls)
    {
      rating := star;
    }

    method EditReview(text: string)
      modifies this
      ensures review == text
      ensures open == old(open) && rating == old(rating) && loading == old(loading) && calls == old(calls)
    {
      review := text;
    }

    /** Star `star` is drawn filled exactly up to the current rating. */
    function StarFilled(star: int): (filled: bool)
      reads this
      ensures filled <==> star <= rating
    {
      star <= rating
    }

    /** How many of the stars 1..`upTo` are drawn filled; of the five, exactly `rating`. */
    function FilledStars(upTo: nat): (n: nat)
      reads this
      ensures n == if rating <= 0 then 0 else if upTo <= rating then upTo else rating
      ensures Valid() && upTo == 5 ==> n == rating
    {
      if upTo == 0 then 0 else FilledStars(upTo - 1) + (if StarFilled(upTo) then 1 else 0)
    }

    /** The submit button is disabled with no rating or while a call is in flight. */
    function SubmitDisabled(): (disabled: bool)
      reads this
      ensures disabled <==> rating == 0 || loading
    {
      rating == 0 || loading
    }

    /**
     * The part of `handleReview` before the `await`: with no rating nothing
     * happens; otherwise `loading` is set and the call is issued with the
     * current rating and text.
     */
    method StartReview() returns (started: bool)
      requires Valid()
      modifies this
      ensures Valid()
      ensures started <==> old(rating) != 0
      ensures !old(SubmitDisabled()) ==> started
      ensures !started ==> open == old(open) && rating == old(rating) && review == old(review)
                           && loading == old(loading) && calls == old(calls)
      ensures started ==> loading && SubmitDisabled()
      ensures started ==> calls == old(calls) + [ReviewCall(influencerId, old(rating), old(review), campaignId)]
      ensures open == old(open) && rating == old(rating) && review == old(review)
    {
      if rating == 0 {
        return false;
      }
      loading := true;
      calls := calls + [ReviewCall(influencerId, rating, review, campaignId)];
      started := true;
    }

    /** The part after the `await`: close, clear the rating and text, then clear `loading`. */
    method ReviewReturned()
      modifies this
      ensures Valid()
      ensures !open && rating == 0 && review == "" && !loading
      ensures calls == old(calls)
    {
      open := false;
      rating := 0;
      review := "";
      loading := false;
    }

    /** `handleReview` from click to completion. */
    method HandleReview()
      requires Valid()
      modifies this
      ensures Valid()
      ensures old(rating) == 0 ==> open == old(open) && rating == old(rating) && review == old(review)
                                   && loading == old(loading) && calls == old(calls)
      ensures old(rating) != 0 ==>
                && calls == old(calls) + [ReviewCall(influencerId, old(rating), old(review), campaignId)]
                && !open && rating == 0 && review == "" && !loading
    {
      var started := StartReview();
      if started {
        ReviewReturned();
      }
    }
  }

  /** Submitting without choosing a star issues no review; with five stars and no text, one. */
  method SubmitScenario() returns (withoutStar: nat, withFiveStars: nat)
    ensures withoutStar == 0 && withFiveStars == 1
  {
    var d := new ReviewInfluencerDialog("inf-1", None);
    d.HandleReview();
    withoutStar := |d.calls|;
    d.SelectStar(5);
    d.HandleReview();
    withFiveStars := |d.calls|;
    assert d.calls == [ReviewCall("inf-1", 5, "", None)];
  }
}
