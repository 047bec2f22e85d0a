/** The customer sign-up form: the password confirmation check, the payload
    it posts, and the session it stores when the service answers 201. */
module UserRegistration {
  import opened Common
  import opened UserSession

  const PasswordMismatch := "Passwords do not match"
  const Created := "User Successfully Created"
  const RegistrationFailed := "Registration failed. Please try again."
  const RegisterUrl := "http://localhost:5000/api/auth/register"
  const UserHome := "/user"

  /** `{ username, email, password }`: the confirmation is not sent. */
  datatype RegisterPayload = RegisterPayload(username: string, email: string, password: string)

  /** The body of a sign-up answer: `res.data.user` and `res.data.token`. */
  datatype AuthData = AuthData(user: Option<Profile>, token: Option<string>)

  class UserRegistrationForm {
    var username: string
    var email: string
    var password: string
    var confirmPassword: string
    var error: string
    var success: string

    constructor ()
      ensures username == "" && email == "" && password == "" && confirmPassword == ""
      ensures error == "" && success == ""
    {
      username, email, password, confirmPassword := "", "", "", "";
      error, success := "", "";
    }

    /** `handleSubmit`: clears the error, refuses mismatched passwords,
        posts, and on 201 stores the session and goes to the user's home. A
        rejected post is only logged. */
    method HandleSubmit(users: UserStore, reply: AxiosReply<AuthData>)
      returns (request: Option<RegisterPayload>, redirect: Option<string>)
      modifies this, users
      ensures request.None? <==> old(password) != old(confirmPassword)
      ensures request.None? ==>
        error == PasswordMismatch && success == old(success) && redirect == None
        && users.user == old(users.user) && users.token == old(users.token)
      ensures request.Some? ==> request.value == RegisterPayload(old(username), old(email), old(password))
      ensures request.Some? && reply.Response? && reply.status == 201 ==>
        && success == Created && error == "" && redirect == Some(UserHome)
        && users.user == reply.data.user && users.token == reply.data.token
      ensures request.Some? && !(reply.Response? && reply.status == 201) ==>
        && success == old(success) && redirect == None
        && users.user == old(users.user) && users.token == old(users.token)
        && error == (if reply.Response? then RegistrationFailed else "")
      ensures username == old(username) && email == old(email)
      ensures password == old(password) && confirmPassword == old(confirmPassword)
    {
      error := "";
      if password != confirmPassword {
        error := PasswordMismatch;
        return None, None;
      }
      request := Some(RegisterPayload(username, email, password));
      redirect := None;
      if reply.Response? {
        if reply.status == 201 {
          success := Created;
          users.SetUser(reply.data.user);
          users.SetToken(reply.data.token);
          redirect := Some(UserHome);
        } else {
          error := RegistrationFailed;
        }
      }
    }
  }
}
