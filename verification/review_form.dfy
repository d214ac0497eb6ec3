/** The review form (src/components/reviews/ReviewForm.js): a star rating
    (0 = none chosen) and a comment, checked rating first, then comment
    length, before the payload is handed to the parent.

    Whether the parent's `onSubmit` throws is the parameter `submitFails`;
    toasts become the returned message. */
module ReviewForm {
  import opened Common

  const RatingMessage: string := "Please select a rating"
  const CommentMessage: string := "Review must be at least 10 characters"
  const SuccessMessage: string := "Review submitted successfully"
  const FailureMessage: string := "Failed to submit review"

  /** What `onSubmit` receives. */
  datatype ReviewPayload = ReviewPayload(rating: int, comment: string, appointmentId: Option<int>)

  /** The two checks, rating first: the message of the first that fails. */
  function CheckReview(rating: int, comment: string): (r: Option<string>)
    ensures r.None? <==> rating != 0 && |comment| >= 10
    ensures r == Some(CommentMessage) ==> rating != 0
  {
    if rating == 0 then Some(RatingMessage)
    else if |comment| < 10 then Some(CommentMessage)
    else None
  }

  /** An unrated review is refused for its rating whatever its comment says. */
  lemma RatingCheckedFirst(comment: string)
    ensures CheckReview(0, comment) == Some(RatingMessage)
    ensures |comment| < 10 ==> CheckReview(0, comment) != Some(CommentMessage)
  {
  }

  class Form {
    const appointmentId: Option<int>
    var rating: int
    var comment: string
    var isSubmitting: bool

    constructor (appointmentId: Option<int>)
      ensures this.appointmentId == appointmentId
      ensures rating == 0 && comment == "" && !isSubmitting
    {
      this.appointmentId := appointmentId;
      rating := 0;
      comment := "";
      isSubmitting := false;
    }

    /** Clicking star `star`. */
    method SelectRating(star: int)
      requires 1 <= star <= 5
      modifies this
      ensures rating == star && comment == old(comment) && isSubmitting == old(isSubmitting)
    {
      rating := star;
    }

    /** Typing in the comment box. */
    method SetComment(text: string)
      modifies this
      ensures comment == text && rating == old(rating) && isSubmitting == old(isSubmitting)
    {
      comment := text;
    }

    /** `handleSubmit`: `sent` is the payload passed to `onSubmit` (`None`
        when a check failed and it was never called) and `message` the toast. */
    method Submit(submitFails: bool) returns (sent: Option<ReviewPayload>, message: string)
      modifies this
      ensures var check := CheckReview(old(rating), old(comment));
        && (check.Some? ==> sent == None && message == check.value
                            && rating == old(rating) && comment == old(comment) && isSubmitting == old(isSubmitting))
        && (check.None? ==> sent == Some(ReviewPayload(old(rating), old(comment), appointmentId)) && !isSubmitting)
        && (check.None? && !submitFails ==> rating == 0 && comment == "" && message == SuccessMessage)
        && (check.None? && submitFails ==> rating == old(rating) && comment == old(comment) && message == FailureMessage)
    {
      if rating == 0 {
        return None, RatingMessage;
      }
      if |comment| < 10 {
        return None, CommentMessage;
      }
      isSubmitting := true;
      sent := Some(ReviewPayload(rating, comment, appointmentId));
      if !submitFails {
        message := SuccessMessage;
        rating := 0;
        comment := "";
      } else {
        message := FailureMessage;
      }
      isSubmitting := false;
    }
  }
}
