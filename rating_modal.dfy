/** The review dialog shown after a gig: one to five stars and a comment. */
module Rating {
  import opened Backend

  /** The star buttons, in order. */
  const Stars: seq<int> := [1, 2, 3, 4, 5]

  class RatingModal {
    const gigId: string
    const reviewerId: string
    const revieweeId: string
    /** Zero until a star has been clicked. */
    var rating: int
    var comment: string
    var loading: bool
    /** How many times the dialog asked its owner to close it. */
    var closeRequests: nat

    /** The rating is zero or one of the stars. */
    predicate Valid()
      reads this
    {
      rating == 0 || rating in Stars
    }

    constructor (gigId: string, reviewerId: string, revieweeId: string)
      ensures this.gigId == gigId && this.reviewerId == reviewerId && this.revieweeId == revieweeId
      ensures Valid() && rating == 0 && comment == "" && !loading && closeRequests == 0
    {
      this.gigId := gigId;
      this.reviewerId := reviewerId;
      this.revieweeId := revieweeId;
      rating := 0;
      comment := "";
      loading := false;
      closeRequests := 0;
    }

    /** The submit button is disabled while submitting and until a star is chosen. */
    predicate SubmitDisabled()
      reads this
    {
      loading || rating == 0
    }

    /** Submit is enabled exactly while idle with one to five stars chosen. */
    lemma SubmitEnabledOnlyWhenRated()
      requires Valid()
      ensures !SubmitDisabled() <==> !loading && 1 <= rating <= 5
    {
    }

    /** A click on the star at `index` (0-based) selects that star's value. */
    method ClickStar(index: nat)
      requires index < |Stars|
      modifies this`rating
      ensures rating == Stars[index] && 1 <= rating <= 5
      ensures Valid() && (SubmitDisabled() <==> loading)
    {
      rating := Stars[index];
    }

    method EditComment(text: string)
      modifies this`comment
      ensures comment == text
    {
      comment := text;
    }

    /** Submits the review. Without a rating nothing happens. Otherwise exactly
        one review is inserted, carrying this dialog's gig, reviewer and
        reviewee, the chosen rating (from one to five) and the comment; the
        dialog asks to close only when the insert succeeded, and loading is off
        afterwards either way. No profile aggregate is touched. */
    method HandleSubmit(store: Store)
      requires Valid()
      modifies this`loading, this`closeRequests, store`log
      ensures Valid()
      ensures old(rating) == 0 ==>
        store.log == old(store.log) && loading == old(loading) && closeRequests == old(closeRequests)
      ensures old(rating) != 0 ==>
        && |store.log| == |old(store.log)| + 1
        && store.log[..|old(store.log)|] == old(store.log)
        && var call := store.log[|old(store.log)|];
        && call.request == InsertReview(ReviewDraft(gigId, reviewerId, revieweeId, rating, comment))
        && 1 <= call.request.review.rating <= 5
        && !loading
        && closeRequests == old(closeRequests) + (if call.outcome.Success? then 1 else 0)
    {
      if rating == 0 {
        return;
      }
      loading := true;
      var outcome := store.Send(InsertReview(ReviewDraft(gigId, reviewerId, revieweeId, rating, comment)));
      if outcome.Success? {
        closeRequests := closeRequests + 1;
      }
      loading := false;
    }
  }
}
