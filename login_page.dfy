/**
 * The login page: the form's submit handler signs in through the session
 * store and sends the user to the dashboard of the returned role.
 */
module Login {
  import opened Common
  import opened Http
  import opened Auth

  /** Where a role is sent after signing in: "teacher" to the teacher dashboard, any other role to the student's. */
  function DashboardFor(role: string): (path: string)
    ensures path in {"/teacher", "/student"}
    ensures path == "/teacher" <==> role == "teacher"
  {
    if role == "teacher" then "/teacher" else "/student"
  }

  const DefaultLoginError := "Invalid email or password"

  /** The message shown for a failed login: the backend's, or the default one. */
  function LoginError(e: HttpError): (msg: string)
    ensures msg != ""
    ensures Truthy(e.message) ==> msg == e.message.value
    ensures !Truthy(e.message) ==> msg == DefaultLoginError
  {
    MessageOr(e, DefaultLoginError)
  }

  class LoginPage {
    var email: string
    var password: string
    var error: string

    constructor ()
      ensures email == "" && password == "" && error == ""
    {
      email := "";
      password := "";
      error := "";
    }

    /**
     * `handleSubmit`: the error is cleared, `login` gets the trimmed email
     * and the password as typed; success navigates by the returned role
     * (leaving the error empty), failure sets the error and stays.
     */
    method HandleSubmit(auth: AuthProvider, reply: Reply<LoginData>) returns (nav: Option<string>, sent: seq<Request>)
      modifies this`error, auth
      ensures sent == [Request(Post, "/auth/login", Credentials(Trim(email), password))]
      ensures reply.Ok? ==> nav == Some(DashboardFor(reply.value.role)) && error == ""
      ensures reply.Ok? ==> auth.storage == StoreSession(old(auth.storage), reply.value)
                            && auth.user == Some(SessionUser(reply.value))
      ensures reply.Fail? ==> nav.None? && error == LoginError(reply.error)
      ensures reply.Fail? ==> auth.storage == old(auth.storage) && auth.user == old(auth.user)
    {
      error := "";
      var r;
      r, sent := auth.Login(Trim(email), password, reply);
      match r {
        case Ok(role) =>
          nav := Some(DashboardFor(role));
        case Fail(e) =>
          nav := None;
          error := LoginError(e);
      }
    }
  }
}
