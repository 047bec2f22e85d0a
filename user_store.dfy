/** The customer's session: a token and a profile, both initially null. */
module UserSession {
  import opened Common

  class UserStore {
    var token: Option<string>
    var user: Option<Profile>

    constructor ()
      ensures token == None && user == None
    {
      token, user := None, None;
    }

    /** The id the cart and the other pages guard on (`user?._id`). */
    function UserId(): (r: Option<string>)
      reads this
      ensures r.Some? ==> r.value != ""
    {
      IdOf(user)
    }

    method SetToken(t: Option<string>)
      modifies this
      ensures token == t && user == old(user)
    {
      token := t;
    }

    method SetUser(u: Option<Profile>)
      modifies this
      ensures user == u && token == old(token)
    {
      user := u;
    }

    /** Clears both fields; a second logout finds them cleared already. */
    method Logout()
      modifies this
      ensures token == None && user == None
    {
      token, user := None, None;
    }
  }
}
