/** The shared login form: the chosen role picks the service endpoint, every
    role sends the same credentials, and only a 201 answer stores a session.
    A delivery person's session goes into the customer's store. */
module LoginForm {
  import opened Common
  import opened UserSession
  import opened RestaurantSession

  const UserLoginUrl := "http://localhost:5000/api/auth/login"
  const RestaurantLoginUrl := "http://localhost:5000/api/restaurant/login"
  const DeliveryPersonLoginUrl := "http://localhost:5000/api/deliveryPerson/login"

  /** The roles the dropdown offers. */
  const Roles: set<string> := {"user", "restaurant", "deliveryPerson"}

  /** The endpoint a role logs in at; no other role, the initial "" included, has one. */
  function Endpoint(role: string): (url: Option<string>)
    ensures url.Some? <==> role in Roles
    ensures role == "user" ==> url == Some(UserLoginUrl)
    ensures role == "restaurant" ==> url == Some(RestaurantLoginUrl)
    ensures role == "deliveryPerson" ==> url == Some(DeliveryPersonLoginUrl)
  {
    if role == "user" then Some(UserLoginUrl)
    else if role == "restaurant" then Some(RestaurantLoginUrl)
    else if role == "deliveryPerson" then Some(DeliveryPersonLoginUrl)
    else None
  }

  /** Different roles log in at different endpoints. */
  lemma EndpointsDistinct(r: string, s: string)
    requires r in Roles && s in Roles && r != s
    ensures Endpoint(r) != Endpoint(s)
  {
  }

  /** The POST: the endpoint and the `{ email, password }` body. */
  datatype LoginRequest = LoginRequest(url: string, email: string, password: string)

  /** The body of a login answer; each role's answer names its profile differently. */
  datatype LoginData = LoginData(user: Option<Profile>, restaurant: Option<Profile>,
                                 deliveryPerson: Option<Profile>, token: Option<string>)

  /** The page each role lands on. */
  function Home(role: string): string {
    if role == "user" then "/user" else if role == "restaurant" then "/restaurant" else "/deliveryPerson"
  }

  class LoginFormState {
    var role: string
    var email: string
    var password: string

    constructor ()
      ensures role == "" && email == "" && password == ""
    {
      role, email, password := "", "", "";
    }

    /** `handleLogin`. */
    method HandleLogin(users: UserStore, restaurants: RestaurantStore, reply: AxiosReply<LoginData>)
      returns (request: Option<LoginRequest>, redirect: Option<string>)
      modifies users, restaurants
      ensures request.None? <==> role !in Roles
      ensures request.Some? ==> request.value == LoginRequest(Endpoint(role).value, email, password)
      ensures var logged := request.Some? && reply.Response? && reply.status == 201;
        && (!logged ==>
              && redirect == None
              && users.user == old(users.user) && users.token == old(users.token)
              && restaurants.restaurant == old(restaurants.restaurant) && restaurants.token == old(restaurants.token))
        && (logged ==> redirect == Some(Home(role)))
        && (logged && role == "user" ==>
              && users.user == reply.data.user && users.token == reply.data.token
              && restaurants.restaurant == old(restaurants.restaurant) && restaurants.token == old(restaurants.token))
        && (logged && role == "restaurant" ==>
              && restaurants.restaurant == reply.data.restaurant && restaurants.token == reply.data.token
              && users.user == old(users.user) && users.token == old(users.token))
        && (logged && role == "deliveryPerson" ==>
              && users.user == reply.data.deliveryPerson && users.token == reply.data.token
              && restaurants.restaurant == old(restaurants.restaurant) && restaurants.token == old(restaurants.token))
    {
      var url := Endpoint(role);
      if url.None? {
        return None, None;
      }
      request := Some(LoginRequest(url.value, email, password));
      redirect := None;
      if reply.Rejected? || reply.status != 201 {
        return;
      }
      if role == "user" {
        users.SetUser(reply.data.user);
        users.SetToken(reply.data.token);
      } else if role == "restaurant" {
        restaurants.SetRestaurant(reply.data.restaurant);
        restaurants.SetRestaurantToken(reply.data.token);
      } else {
        users.SetUser(reply.data.deliveryPerson);
        users.SetToken(reply.data.token);
      }
      redirect := Some(Home(role));
    }
  }
}
