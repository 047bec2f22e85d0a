/** The customer's grid of restaurant cards: each card's image URL, its
    list key and the page it links to. */
module RestaurantCards {
  import opened Common
  import opened Cloudinary
  import RestaurantHome

  /** The card's transformation: at most 960 pixels wide. */
  const CardTransformations := "c_limit,w_960,f_auto,q_auto"

  /** `getImageUrl(publicId)` of the cards. */
  function CardImageUrl(cloudName: Option<string>, publicId: string): (url: string)
    ensures url == ImageUrl(cloudName, CardTransformations, publicId)
    ensures url[|url| - |publicId| - 1..] == "/" + publicId
  {
    ImageUrl(cloudName, CardTransformations, publicId)
  }

  /** The card and the banner of the same image are different URLs: the two
      templates differ only in the width. */
  lemma CardAndBannerDiffer(cloudName: Option<string>, publicId: string)
    ensures CardImageUrl(cloudName, publicId) != RestaurantHome.BannerUrl(cloudName, publicId)
  {
    ImageUrlSeparatesTransformations(cloudName, CardTransformations, RestaurantHome.BannerTransformations, publicId);
  }

  /** The fields of a restaurant the card uses. */
  datatype Restaurant = Restaurant(id: Option<string>, name: string, imageUrl: string)

  /** `key={restaurant._id || index}`, as React reads a key: a string. */
  function CardKey(restaurants: seq<Restaurant>, index: nat): (key: string)
    requires index < |restaurants|
    ensures Truthy(restaurants[index].id) ==> key == restaurants[index].id.value
    ensures !Truthy(restaurants[index].id) ==> key == NatToString(index)
  {
    OrElse(restaurants[index].id, NatToString(index))
  }

  /** The keys are distinct when every restaurant has its own non-empty id,
      and when none has an id at all. */
  lemma CardKeysDistinct(restaurants: seq<Restaurant>, i: nat, j: nat)
    requires i < |restaurants| && j < |restaurants| && i != j
    requires || ((forall k :: 0 <= k < |restaurants| ==> Truthy(restaurants[k].id))
                 && restaurants[i].id != restaurants[j].id)
             || (forall k :: 0 <= k < |restaurants| ==> !Truthy(restaurants[k].id))
    ensures CardKey(restaurants, i) != CardKey(restaurants, j)
  {
    if !Truthy(restaurants[i].id) {
      NatToStringInjective(i, j);
    }
  }

  /** `/user/restaurants/${restaurant._id}`: a missing id renders as "undefined". */
  function CardLink(r: Restaurant): (path: string)
    ensures |path| >= 18 && path[..18] == "/user/restaurants/"
    ensures r.id.Some? ==> path[18..] == r.id.value
    ensures r.id.None? ==> path[18..] == "undefined"
  {
    "/user/restaurants/" + (if r.id.Some? then r.id.value else "undefined")
  }

  /** Restaurants with different ids link to different pages. */
  lemma CardLinkInjective(r: Restaurant, s: Restaurant)
    requires r.id.Some? && s.id.Some? && r.id != s.id
    ensures CardLink(r) != CardLink(s)
  {
    assert CardLink(r)[18..] != CardLink(s)[18..];
  }
}
