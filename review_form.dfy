/**
 * The rating form of src/components/ReviewForm.tsx: a rating held in state,
 * set by the star widget, and a submit that reports it only when positive.
 */
module ReviewForm {
  import opened Wrappers

  /** The submit gate `rating > 0`. */
  predicate SubmitAllowed(rating: int) { rating > 0 }

  /** The button's `disabled={rating === 0}`. */
  predicate ButtonDisabled(rating: int) { rating == 0 }

  /** For the ratings the stars can produce (and the initial 0), the button is disabled exactly when submitting does nothing. */
  lemma ButtonMatchesGate(rating: int)
    requires rating >= 0
    ensures ButtonDisabled(rating) <==> !SubmitAllowed(rating)
  {
  }

  class Form {
    var rating: int

    constructor ()
      ensures rating == 0
    {
      rating := 0;
    }

    /** `setRating`, the star widget's callback. */
    method SetRating(r: int)
      modifies this
      ensures rating == r
    {
      rating := r;
    }

    /**
     * The submit button's `disabled` attribute in the current state: for every rating the
     * stars can set, the button is disabled exactly when `HandleSubmit` would report nothing.
     */
    function SubmitButtonDisabled(): (disabled: bool)
      reads this
      ensures rating >= 0 ==> (disabled <==> !SubmitAllowed(rating))
    {
      ButtonDisabled(rating)
    }

    /** `handleSubmit`: returns the single `onSubmit` call, if made. */
    method HandleSubmit() returns (submitted: Option<int>)
      ensures submitted.Some? <==> SubmitAllowed(rating)
      ensures submitted.Some? ==> submitted.value == rating
    {
      if SubmitAllowed(rating) {
        submitted := Some(rating);
      } else {
        submitted := None;
      }
    }
  }
}
