/** The list of reviews with its edit modal and delete buttons. Its handlers
    call the review page's `handleEdit` and `handleDelete`, which never throw
    (they answer false instead), so only their boolean answers reach it. */
module ReviewList {
  import opened Common
  import opened ReviewPage

  const FillAllFields := "Please fill in all fields"
  const UpdateFailed := "Failed to update review. Please try again."
  const DeleteFailed := "Failed to delete review. Please try again."

  /** `renderStars(rating)`: stars 1..5, star s filled exactly when s <= rating. */
  function RenderStars(rating: int): (stars: seq<bool>)
    ensures |stars| == 5
    ensures forall i :: 0 <= i < 5 ==> (stars[i] <==> i + 1 <= rating)
  {
    [1 <= rating, 2 <= rating, 3 <= rating, 4 <= rating, 5 <= rating]
  }

  /** The filled stars come first: the display is a run of filled stars and
      then a run of empty ones, as long as the rating allows (0 to 5). */
  lemma StarsArePrefix(rating: int)
    ensures forall i, j :: 0 <= i < j < 5 && RenderStars(rating)[j] ==> RenderStars(rating)[i]
    ensures 0 <= rating <= 5 ==> forall i :: 0 <= i < 5 ==> (RenderStars(rating)[i] <==> i < rating)
    ensures rating >= 5 ==> RenderStars(rating) == [true, true, true, true, true]
    ensures rating <= 0 ==> RenderStars(rating) == [false, false, false, false, false]
  {
  }

  class ReviewListState {
    var editingReview: Option<Review>
    var editedName: string
    var editedText: string
    var editedRating: int
    var isLoading: bool
    var error: string
    var showDeleteSuccess: bool
    var showUpdateSuccess: bool
    var deletingId: Option<string>

    constructor ()
      ensures editingReview == None && editedName == "" && editedText == "" && editedRating == 0
      ensures !isLoading && error == "" && !showDeleteSuccess && !showUpdateSuccess && deletingId == None
    {
      editingReview, editedName, editedText, editedRating := None, "", "", 0;
      isLoading, error, showDeleteSuccess, showUpdateSuccess, deletingId := false, "", false, false, None;
    }

    /** A click on star `star` of a widget; only the modal's widget is editable. */
    method ClickStar(star: int, editable: bool)
      modifies this
      ensures editable ==> editedRating == star
      ensures !editable ==> editedRating == old(editedRating)
      ensures editingReview == old(editingReview) && editedName == old(editedName) && editedText == old(editedText)
      ensures error == old(error) && deletingId == old(deletingId) && isLoading == old(isLoading)
      ensures showDeleteSuccess == old(showDeleteSuccess) && showUpdateSuccess == old(showUpdateSuccess)
    {
      if editable {
        editedRating := star;
      }
    }

    /** `handleEditClick(review)`: open the modal on a copy of the review. */
    method HandleEditClick(review: Review)
      modifies this
      ensures editingReview == Some(review)
      ensures editedName == review.customerName && editedText == review.reviewText && editedRating == review.rating
      ensures error == ""
      ensures deletingId == old(deletingId) && isLoading == old(isLoading)
      ensures showDeleteSuccess == old(showDeleteSuccess) && showUpdateSuccess == old(showUpdateSuccess)
    {
      editingReview := Some(review);
      editedName, editedText, editedRating := review.customerName, review.reviewText, review.rating;
      error := "";
    }

    method HandleCloseModal()
      modifies this
      ensures editingReview == None && error == ""
      ensures editedName == old(editedName) && editedText == old(editedText) && editedRating == old(editedRating)
      ensures deletingId == old(deletingId) && isLoading == old(isLoading)
      ensures showDeleteSuccess == old(showDeleteSuccess) && showUpdateSuccess == old(showUpdateSuccess)
    {
      editingReview := None;
      error := "";
    }

    /** The first half of `handleDelete`: the button of `reviewId` is now disabled. */
    method BeginDelete(reviewId: string)
      modifies this
      ensures deletingId == Some(reviewId) && DeleteDisabled(reviewId)
      ensures editingReview == old(editingReview) && error == old(error)
      ensures showDeleteSuccess == old(showDeleteSuccess)
      ensures editedName == old(editedName) && editedText == old(editedText) && editedRating == old(editedRating)
      ensures isLoading == old(isLoading) && showUpdateSuccess == old(showUpdateSuccess)
    {
      deletingId := Some(reviewId);
    }

    /** The second half of `handleDelete`, whatever the page answered. */
    method EndDelete(success: bool)
      modifies this
      ensures deletingId == None
      ensures success ==> showDeleteSuccess && error == old(error)
      ensures !success ==> error == DeleteFailed && showDeleteSuccess == old(showDeleteSuccess)
      ensures editingReview == old(editingReview)
      ensures editedName == old(editedName) && editedText == old(editedText) && editedRating == old(editedRating)
      ensures isLoading == old(isLoading) && showUpdateSuccess == old(showUpdateSuccess)
    {
      if success {
        showDeleteSuccess := true;
      } else {
        error := DeleteFailed;
      }
      deletingId := None;
    }

    /** `handleDelete(reviewId)`: the page's answer decides the overlay or the
        error, and no delete button stays disabled afterwards. */
    method HandleDelete(page: ReviewsPage, reviewId: string, reply: AxiosReply<()>)
      modifies this, page
      ensures page.reviews == (if reply.Response? then DropReview(old(page.reviews), reviewId) else old(page.reviews))
      ensures deletingId == None
      ensures reply.Response? ==> showDeleteSuccess && error == old(error)
      ensures reply.Rejected? ==> error == DeleteFailed && showDeleteSuccess == old(showDeleteSuccess)
      ensures editingReview == old(editingReview)
      ensures editedName == old(editedName) && editedText == old(editedText) && editedRating == old(editedRating)
      ensures isLoading == old(isLoading) && showUpdateSuccess == old(showUpdateSuccess)
      ensures page.isLoading == old(page.isLoading) && page.error == old(page.error)
    {
      BeginDelete(reviewId);
      var success := page.HandleDelete(reviewId, reply);
      EndDelete(success);
    }

    /** `handleSubmit`: nothing without a review being edited; a blank name
        or text is refused before the page is called; otherwise the page's
        answer closes the modal or sets the error. */
    method HandleSubmit(page: ReviewsPage, reply: AxiosReply<ReviewPatch>)
      returns (payload: Option<EditPayload>)
      modifies this, page
      ensures old(editingReview).None? ==>
        payload == None && error == old(error) && editingReview == old(editingReview)
        && page.reviews == old(page.reviews)
        && isLoading == old(isLoading) && showUpdateSuccess == old(showUpdateSuccess)
      ensures old(editingReview).Some? && (Blank(old(editedName)) || Blank(old(editedText))) ==>
        payload == None && error == FillAllFields && editingReview == old(editingReview)
        && page.reviews == old(page.reviews)
        && isLoading == old(isLoading) && showUpdateSuccess == old(showUpdateSuccess)
      ensures old(editingReview).Some? && !Blank(old(editedName)) && !Blank(old(editedText)) ==>
        && payload == Some(EditRequest(EditFields(old(editedName), old(editedText), old(editedRating))))
        && !isLoading
        && var ok := reply.Response? && reply.status == 200;
           && (ok ==> editingReview == None && error == "" && showUpdateSuccess
                      && page.reviews == MergeReviews(old(page.reviews), old(editingReview).value.id, reply.data))
           && (!ok ==> editingReview == old(editingReview) && error == UpdateFailed
                       && page.reviews == old(page.reviews) && showUpdateSuccess == old(showUpdateSuccess))
      ensures editedName == old(editedName) && editedText == old(editedText) && editedRating == old(editedRating)
      ensures deletingId == old(deletingId) && showDeleteSuccess == old(showDeleteSuccess)
      ensures page.isLoading == old(page.isLoading) && page.error == old(page.error)
    {
      if editingReview.None? {
        return None;
      }
      var name, text := editedName, editedText;
      if Blank(name) || Blank(text) {  // `!editedName.trim() || !editedText.trim()`
        error := FillAllFields;
        return None;
      }
      isLoading := true;
      error := "";
      var ok, p := page.HandleEdit(editingReview.value.id, EditFields(editedName, editedText, editedRating), reply);
      payload := Some(p);
      if ok {
        editingReview, error := None, "";
        showUpdateSuccess := true;
      } else {
        error := UpdateFailed;
      }
      isLoading := false;
    }

    /** The delete button of `reviewId` is disabled while its delete is in flight. */
    predicate DeleteDisabled(reviewId: string)
      reads this
    {
      deletingId == Some(reviewId)
    }
  }
}
