/** The restaurant's own home page: its banner image URL, and the fetch of
    its details guarded on the logged-in restaurant's id. */
module RestaurantHome {
  import opened Common
  import opened Cloudinary
  import opened RestaurantSession

  /** The banner's transformation: at most 1920 pixels wide. */
  const BannerTransformations := "c_limit,w_1920,f_auto,q_auto"

  /** `getImageUrl(publicId)` of the home page. */
  function BannerUrl(cloudName: Option<string>, publicId: string): (url: string)
    ensures url == ImageUrl(cloudName, BannerTransformations, publicId)
    ensures url[|url| - |publicId| - 1..] == "/" + publicId
  {
    ImageUrl(cloudName, BannerTransformations, publicId)
  }

  /** The details the page shows. */
  datatype RestaurantDetails = RestaurantDetails(id: Option<string>, name: string, imageUrl: string,
                                                 location: string, owner_name: string, email: string, mobile: string)

  /** How the details fetch ended: a record, or a failure (not ok, or no JSON). */
  datatype DetailsReply = Fetched(details: RestaurantDetails) | FetchFailed

  const DetailsUrl := "http://localhost:5000/api/restaurant/"

  class RestaurantHomePage {
    var restaurantDetails: Option<RestaurantDetails>

    constructor ()
      ensures restaurantDetails == None
    {
      restaurantDetails := None;
    }

    /** The effect: no fetch without a restaurant id; a failed fetch leaves
        the page loading. */
    method FetchRestaurant(restaurants: RestaurantStore, reply: DetailsReply) returns (request: Option<string>)
      modifies this
      ensures request.None? <==> restaurants.RestaurantId().None?
      ensures request.Some? ==> request.value == DetailsUrl + restaurants.RestaurantId().value
      ensures request.Some? && reply.Fetched? ==> restaurantDetails == Some(reply.details)
      ensures request.None? || reply.FetchFailed? ==> restaurantDetails == old(restaurantDetails)
    {
      var id := restaurants.RestaurantId();
      if id.None? {
        return None;
      }
      request := Some(DetailsUrl + id.value);
      if reply.Fetched? {
        restaurantDetails := Some(reply.details);
      }
    }
  }
}
