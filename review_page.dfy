/** The customer review page: the list of reviews of one restaurant and the
    two handlers the review list calls back, which reconcile the local list
    with the review service's answer to a delete or an edit. */
module ReviewPage {
  import opened Common
  import opened Keyed

  datatype Review = Review(id: string, customerName: string, reviewText: string, rating: int,
                           restaurantId: Option<string>)

  function ReviewId(r: Review): string { r.id }

  /** The fields of a review the service's answer to an edit carries; any of
      them, `_id` included, may be present. */
  datatype ReviewPatch = ReviewPatch(id: Option<string>, customerName: Option<string>,
                                     reviewText: Option<string>, rating: Option<int>,
                                     restaurantId: Option<Option<string>>)

  function Pick<T>(o: Option<T>, d: T): T {
    if o.Some? then o.value else d
  }

  /** `{ ...review, ...data }`: every field the answer carries wins. */
  function Merge(r: Review, data: ReviewPatch): (m: Review)
    ensures data.id.Some? ==> m.id == data.id.value
    ensures data.id.None? ==> m.id == r.id
    ensures data.customerName.Some? ==> m.customerName == data.customerName.value
    ensures data.customerName.None? ==> m.customerName == r.customerName
    ensures data.reviewText.Some? ==> m.reviewText == data.reviewText.value
    ensures data.reviewText.None? ==> m.reviewText == r.reviewText
    ensures data.rating.Some? ==> m.rating == data.rating.value
    ensures data.rating.None? ==> m.rating == r.rating
    ensures data.restaurantId.Some? ==> m.restaurantId == data.restaurantId.value
    ensures data.restaurantId.None? ==> m.restaurantId == r.restaurantId
  {
    Review(Pick(data.id, r.id), Pick(data.customerName, r.customerName), Pick(data.reviewText, r.reviewText),
           Pick(data.rating, r.rating), Pick(data.restaurantId, r.restaurantId))
  }

  /** Merging the same answer again changes nothing. */
  lemma MergeIdempotent(r: Review, data: ReviewPatch)
    ensures Merge(Merge(r, data), data) == Merge(r, data)
  {
  }

  /** The fields the review list sends for an edit. */
  datatype EditFields = EditFields(customerName: string, reviewText: string, rating: int)

  /** `{ ...updatedReview, customerId, restaurantId }`. */
  datatype EditPayload = EditPayload(customerName: string, reviewText: string, rating: int,
                                     customerId: string, restaurantId: string)

  const PageRestaurantId := "restaurant123"
  const PageCustomerId := "customer1"
  const LoadFailure := "Failed to load reviews. Please try again later."

  /** The payload of an edit: the edited fields, then the page's own ids. */
  function EditRequest(fields: EditFields): (p: EditPayload)
    ensures p.customerId == PageCustomerId && p.restaurantId == PageRestaurantId
    ensures p.customerName == fields.customerName && p.reviewText == fields.reviewText && p.rating == fields.rating
  {
    EditPayload(fields.customerName, fields.reviewText, fields.rating, PageCustomerId, PageRestaurantId)
  }

  /** `reviews.map(r => r._id === reviewId ? { ...r, ...data } : r)`. */
  function MergeReviews(reviews: seq<Review>, reviewId: string, data: ReviewPatch): (r: seq<Review>)
    ensures |r| == |reviews|
    ensures forall i :: 0 <= i < |reviews| && reviews[i].id != reviewId ==> r[i] == reviews[i]
    ensures forall i :: 0 <= i < |reviews| && reviews[i].id == reviewId ==> r[i] == Merge(reviews[i], data)
  {
    UpdateWhere(reviews, ReviewId, reviewId, x => Merge(x, data))
  }

  /** `reviews.filter(r => r._id !== reviewId)`. */
  function DropReview(reviews: seq<Review>, reviewId: string): (r: seq<Review>)
    ensures |r| <= |reviews|
    ensures forall i :: 0 <= i < |r| ==> r[i].id != reviewId
    ensures forall i :: 0 <= i < |reviews| && reviews[i].id != reviewId ==> reviews[i] in r
    ensures forall i :: 0 <= i < |r| ==> r[i] in reviews
  {
    RemoveWhere(reviews, ReviewId, reviewId)
  }

  /** Exactly the reviews with the id are dropped, and the rest keep their order. */
  lemma DropReviewExact(a: seq<Review>, b: seq<Review>, reviewId: string)
    ensures |DropReview(a, reviewId)| == |a| - CountKey(a, ReviewId, reviewId)
    ensures DropReview(a + b, reviewId) == DropReview(a, reviewId) + DropReview(b, reviewId)
  {
    RemoveWhereLength(a, ReviewId, reviewId);
    RemoveWhereConcat(a, b, ReviewId, reviewId);
  }

  class ReviewsPage {
    var reviews: seq<Review>
    var isLoading: bool
    var error: string

    constructor ()
      ensures reviews == [] && isLoading && error == ""
    {
      reviews, isLoading, error := [], true, "";
    }

    /** `fetchReviews`: the service's list replaces the local one. */
    method FetchReviews(reply: AxiosReply<seq<Review>>)
      modifies this
      ensures reply.Response? ==> reviews == reply.data && error == ""
      ensures reply.Rejected? ==> reviews == old(reviews) && error == LoadFailure
      ensures !isLoading
    {
      isLoading := true;
      if reply.Response? {
        reviews := reply.data;
        error := "";
      } else {
        error := LoadFailure;
      }
      isLoading := false;
    }

    /** `handleDelete(reviewId)`: true, with the review dropped, when the
        service accepted the delete; false, with nothing changed, otherwise. */
    method HandleDelete(reviewId: string, reply: AxiosReply<()>) returns (ok: bool)
      modifies this
      ensures ok <==> reply.Response?
      ensures ok ==> reviews == DropReview(old(reviews), reviewId)
      ensures !ok ==> reviews == old(reviews)
      ensures isLoading == old(isLoading) && error == old(error)
    {
      if reply.Rejected? {
        return false;
      }
      reviews := DropReview(reviews, reviewId);
      ok := true;
    }

    /** `handleEdit(reviewId, fields)`: only an answer with status 200
        counts, and its fields are merged into the matching reviews. */
    method HandleEdit(reviewId: string, fields: EditFields, reply: AxiosReply<ReviewPatch>)
      returns (ok: bool, payload: EditPayload)
      modifies this
      ensures payload == EditRequest(fields)
      ensures ok <==> reply.Response? && reply.status == 200
      ensures ok ==> reviews == MergeReviews(old(reviews), reviewId, reply.data)
      ensures !ok ==> reviews == old(reviews)
      ensures isLoading == old(isLoading) && error == old(error)
    {
      payload := EditRequest(fields);
      if reply.Response? && reply.status == 200 {
        reviews := MergeReviews(reviews, reviewId, reply.data);
        return true, payload;
      }
      ok := false;
    }
  }
}
