/** The restaurant sign-up form: the required-field check, the payload it
    posts, the error it shows, the image upload result and the submit
    button's enable rule. */
module RestaurantRegistration {
  import opened Common
  import opened RestaurantSession

  const FillAllFields := "Please fill in all fields."
  const GenericError := "An error occurred. Please try again."
  const RestaurantHome := "/restaurant"

  /** The body of the POST: `ownerName` goes out as `owner_name`, the role is
      fixed and the uploaded image's public id is the `imageUrl`. */
  datatype RestaurantPayload = RestaurantPayload(name: string, email: string, password: string, location: string,
                                                 owner_name: string, mobile: string, role: string, imageUrl: string)

  /** The body of a 201 answer: `response.data.restaurant` and `response.data.token`. */
  datatype RestaurantAuth = RestaurantAuth(restaurant: Option<Profile>, token: Option<string>)

  /** Some field of the form is empty; the password confirmation is not among them. */
  predicate MissingField(name: string, email: string, password: string, location: string,
                         ownerName: string, mobile: string, publicId: string) {
    name == "" || email == "" || password == "" || location == "" || ownerName == "" || mobile == "" || publicId == ""
  }

  class RestaurantRegistrationForm {
    var name: string
    var email: string
    var password: string
    var confirmedPassword: string
    var error: string
    var location: string
    var ownerName: string
    var mobile: string
    var success: bool
    var publicId: string

    constructor ()
      ensures name == "" && email == "" && password == "" && confirmedPassword == "" && error == ""
      ensures location == "" && ownerName == "" && mobile == "" && !success && publicId == ""
    {
      name, email, password, confirmedPassword, error := "", "", "", "", "";
      location, ownerName, mobile, success, publicId := "", "", "", false, "";
    }

    /** `handleSubmit`: refuses a form with an empty field; posts; on 201
        stores the restaurant's session and (after a delay) goes to its home;
        on a rejection shows the service's message, or a generic one. */
    method HandleSubmit(restaurants: RestaurantStore, reply: AxiosReply<RestaurantAuth>)
      returns (request: Option<RestaurantPayload>, redirect: Option<string>)
      modifies this, restaurants
      ensures request.None? <==>
        MissingField(old(name), old(email), old(password), old(location), old(ownerName), old(mobile), old(publicId))
      ensures request.None? ==>
        error == FillAllFields && success == old(success) && redirect == None
        && restaurants.restaurant == old(restaurants.restaurant) && restaurants.token == old(restaurants.token)
      ensures request.Some? ==>
        request.value == RestaurantPayload(old(name), old(email), old(password), old(location), old(ownerName),
                                           old(mobile), "restaurant", old(publicId))
      ensures request.Some? && reply.Response? && reply.status == 201 ==>
        && success && error == old(error) && redirect == Some(RestaurantHome)
        && restaurants.restaurant == reply.data.restaurant && restaurants.token == reply.data.token
      ensures request.Some? && reply.Response? && reply.status != 201 ==>
        && success == old(success) && error == old(error) && redirect == None
        && restaurants.restaurant == old(restaurants.restaurant) && restaurants.token == old(restaurants.token)
      ensures request.Some? && reply.Rejected? ==>
        && !success && error == OrElse(reply.message, GenericError) && redirect == None
        && restaurants.restaurant == old(restaurants.restaurant) && restaurants.token == old(restaurants.token)
      ensures name == old(name) && email == old(email) && password == old(password)
      ensures confirmedPassword == old(confirmedPassword) && location == old(location)
      ensures ownerName == old(ownerName) && mobile == old(mobile) && publicId == old(publicId)
    {
      if MissingField(name, email, password, location, ownerName, mobile, publicId) {
        error := FillAllFields;
        return None, None;
      }
      request := Some(RestaurantPayload(name, email, password, location, ownerName, mobile, "restaurant", publicId));
      redirect := None;
      if reply.Rejected? {
        error := OrElse(reply.message, GenericError);
        success := false;
      } else if reply.status == 201 {
        success := true;
        restaurants.SetRestaurant(reply.data.restaurant);
        restaurants.SetRestaurantToken(reply.data.token);
        redirect := Some(RestaurantHome);
      }
    }

    /** The upload widget's `onSuccess`: only a "success" event records the public id. */
    method OnUploadSuccess(event: string, uploadedId: string)
      modifies this
      ensures publicId == (if event == "success" then uploadedId else old(publicId))
      ensures name == old(name) && error == old(error) && success == old(success)
      ensures email == old(email) && password == old(password) && confirmedPassword == old(confirmedPassword)
      ensures location == old(location) && ownerName == old(ownerName) && mobile == old(mobile)
    {
      if event != "success" {
        return;
      }
      publicId := uploadedId;
    }

    /** The submit button is enabled exactly once an image is uploaded. */
    function SubmitEnabled(): (enabled: bool)
      reads this
      ensures enabled <==> publicId != ""
    {
      publicId != ""
    }

    /** The submit button's label. */
    function SubmitLabel(): (caption: string)
      reads this
      ensures caption == "Create Restaurant" <==> SubmitEnabled()
      ensures caption == "Upload Image First" <==> !SubmitEnabled()
    {
      if publicId != "" then "Create Restaurant" else "Upload Image First"
    }
  }
}
