/** The "Leave a Review" form: its validation, the gated submit that posts
    the review and resets the form, and the star widget. */
module ReviewForm {
  import opened Common

  datatype FieldErrors = FieldErrors(customerName: string, reviewText: string, rating: string)

  const NoErrors := FieldErrors("", "", "")

  const NameRequired := "Name is required"
  const NameTooLong := "Name must be 50 characters or less"
  const TextRequired := "Review text is required"
  const TextTooLong := "Review must be 500 characters or less"
  const RatingOutOfRange := "Rating must be between 1 and 5"

  /** The name's error: required once trimmed, then at most 50 UTF-16 units untrimmed. */
  function NameError(name: string): (e: string)
    ensures e == "" <==> !Blank(name) && JsLength(name) <= 50
    ensures Blank(name) ==> e == NameRequired
    ensures !Blank(name) && JsLength(name) > 50 ==> e == NameTooLong
  {
    if Blank(name) then NameRequired else if JsLength(name) > 50 then NameTooLong else ""
  }

  /** The review text's error: required once trimmed, then at most 500 units. */
  function TextError(text: string): (e: string)
    ensures e == "" <==> !Blank(text) && JsLength(text) <= 500
    ensures Blank(text) ==> e == TextRequired
    ensures !Blank(text) && JsLength(text) > 500 ==> e == TextTooLong
  {
    if Blank(text) then TextRequired else if JsLength(text) > 500 then TextTooLong else ""
  }

  function RatingError(rating: int): (e: string)
    ensures e == "" <==> 1 <= rating <= 5
    ensures e != "" ==> e == RatingOutOfRange
  {
    if rating < 1 || rating > 5 then RatingOutOfRange else ""
  }

  /** A form the service may be sent. */
  predicate FormValid(name: string, text: string, rating: int) {
    !Blank(name) && JsLength(name) <= 50 && !Blank(text) && JsLength(text) <= 500 && 1 <= rating <= 5
  }

  /** `validateForm()`: fills a fresh error record field by field, clearing
      the `valid` flag at each failure. Each field's error depends on that
      field alone, and the form is valid exactly when no error is set. */
  method ValidateForm(customerName: string, reviewText: string, rating: int)
    returns (valid: bool, errors: FieldErrors)
    ensures errors == FieldErrors(NameError(customerName), TextError(reviewText), RatingError(rating))
    ensures valid <==> errors == NoErrors
    ensures valid <==> FormValid(customerName, reviewText, rating)
  {
    valid := true;
    errors := NoErrors;
    if Trim(customerName) == "" {
      errors := errors.(customerName := NameRequired);
      valid := false;
    } else if JsLength(customerName) > 50 {
      errors := errors.(customerName := NameTooLong);
      valid := false;
    }
    if Trim(reviewText) == "" {
      errors := errors.(reviewText := TextRequired);
      valid := false;
    } else if JsLength(reviewText) > 500 {
      errors := errors.(reviewText := TextTooLong);
      valid := false;
    }
    if rating < 1 || rating > 5 {
      errors := errors.(rating := RatingOutOfRange);
      valid := false;
    }
  }

  /** The body of the POST. */
  datatype ReviewPost = ReviewPost(customerId: string, customerName: string, restaurantId: string,
                                   reviewText: string, rating: int)

  /** The star a widget shows up to: the hovered one if any, else the rating
      (`hoverRating || rating`). */
  function Shown(hoverRating: int, rating: int): (r: int)
    ensures hoverRating != 0 ==> r == hoverRating
    ensures hoverRating == 0 ==> r == rating
  {
    if hoverRating != 0 then hoverRating else rating
  }

  class ReviewFormState {
    const restaurantId: string
    var customerName: string
    var reviewText: string
    var rating: int
    var hoverRating: int
    var errors: FieldErrors
    var isSubmitting: bool
    var showThankYou: bool

    constructor (restaurantId: string)
      ensures this.restaurantId == restaurantId
      ensures customerName == "" && reviewText == "" && rating == 1 && hoverRating == 0
      ensures errors == NoErrors && !isSubmitting && !showThankYou
    {
      this.restaurantId := restaurantId;
      customerName, reviewText, rating, hoverRating := "", "", 1, 0;
      errors, isSubmitting, showThankYou := NoErrors, false, false;
    }

    /** `handleSubmit`: validate; when valid, post the review and, once the
        service has answered, reset the form, show the thank-you overlay and
        ask the page to refresh (`refresh`). A rejected post leaves the form
        as it was. */
    method HandleSubmit(reply: AxiosReply<()>) returns (post: Option<ReviewPost>, refresh: bool)
      modifies this
      ensures post.Some? <==> FormValid(old(customerName), old(reviewText), old(rating))
      ensures post.Some? ==>
        post.value == ReviewPost("customer1", old(customerName), restaurantId, old(reviewText), old(rating))
      ensures refresh <==> post.Some? && reply.Response?
      ensures refresh ==> customerName == "" && reviewText == "" && rating == 1 && errors == NoErrors && showThankYou
      ensures !refresh ==>
        && customerName == old(customerName) && reviewText == old(reviewText) && rating == old(rating)
        && showThankYou == old(showThankYou)
        && errors == FieldErrors(NameError(customerName), TextError(reviewText), RatingError(rating))
      ensures hoverRating == old(hoverRating)
      ensures post.Some? ==> !isSubmitting
      ensures post.None? ==> isSubmitting == old(isSubmitting)
    {
      var valid, newErrors := ValidateForm(customerName, reviewText, rating);
      errors := newErrors;
      if !valid {
        return None, false;
      }
      isSubmitting := true;
      post := Some(ReviewPost("customer1", customerName, restaurantId, reviewText, rating));
      refresh := false;
      if reply.Response? {
        customerName, reviewText, rating := "", "", 1;
        errors := NoErrors;
        showThankYou := true;
        refresh := true;
      }
      isSubmitting := false;
    }

    /** A star click sets the rating and clears the rating error only. */
    method HandleStarClick(star: int)
      modifies this
      ensures rating == star && errors == old(errors).(rating := "")
      ensures customerName == old(customerName) && reviewText == old(reviewText)
      ensures hoverRating == old(hoverRating) && isSubmitting == old(isSubmitting) && showThankYou == old(showThankYou)
    {
      rating := star;
      errors := errors.(rating := "");
    }

    method HandleStarHover(star: int)
      modifies this
      ensures hoverRating == star
      ensures rating == old(rating) && errors == old(errors)
      ensures customerName == old(customerName) && reviewText == old(reviewText)
      ensures isSubmitting == old(isSubmitting) && showThankYou == old(showThankYou)
    {
      hoverRating := star;
    }

    /** Leaving the widget drops the hover, so the stars show the rating again. */
    method HandleStarHoverLeave()
      modifies this
      ensures hoverRating == 0 && forall s :: 1 <= s <= 5 ==> (StarFilled(s) <==> s <= rating)
      ensures rating == old(rating) && errors == old(errors)
      ensures customerName == old(customerName) && reviewText == old(reviewText)
      ensures isSubmitting == old(isSubmitting) && showThankYou == old(showThankYou)
    {
      hoverRating := 0;
    }

    /** Typing in the name clears the name error only. */
    method ChangeName(value: string)
      modifies this
      ensures customerName == value && errors == old(errors).(customerName := "")
      ensures reviewText == old(reviewText) && rating == old(rating) && hoverRating == old(hoverRating)
      ensures isSubmitting == old(isSubmitting) && showThankYou == old(showThankYou)
    {
      customerName := value;
      errors := errors.(customerName := "");
    }

    /** Typing in the review text clears the text error only. */
    method ChangeText(value: string)
      modifies this
      ensures reviewText == value && errors == old(errors).(reviewText := "")
      ensures customerName == old(customerName) && rating == old(rating) && hoverRating == old(hoverRating)
      ensures isSubmitting == old(isSubmitting) && showThankYou == old(showThankYou)
    {
      reviewText := value;
      errors := errors.(reviewText := "");
    }

    /** Star `s` is drawn filled. */
    predicate StarFilled(s: int)
      reads this
    {
      Shown(hoverRating, rating) >= s
    }
  }
}
