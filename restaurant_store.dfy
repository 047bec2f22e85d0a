/** The restaurant's session: a token and a restaurant profile, both initially null. */
module RestaurantSession {
  import opened Common

  class RestaurantStore {
    var token: Option<string>
    var restaurant: Option<Profile>

    constructor ()
      ensures token == None && restaurant == None
    {
      token, restaurant := None, None;
    }

    /** The id the restaurant home page guards its fetch on (`restaurant?._id`). */
    function RestaurantId(): (r: Option<string>)
      reads this
      ensures r.Some? ==> r.value != ""
    {
      IdOf(restaurant)
    }

    method SetRestaurantToken(t: Option<string>)
      modifies this
      ensures token == t && restaurant == old(restaurant)
    {
      token := t;
    }

    method SetRestaurant(r: Option<Profile>)
      modifies this
      ensures restaurant == r && token == old(token)
    {
      restaurant := r;
    }

    /** Clears both fields; a second logout finds them cleared already. */
    method Logout()
      modifies this
      ensures token == None && restaurant == None
    {
      token, restaurant := None, None;
    }
  }
}
