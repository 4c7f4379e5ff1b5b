/**
 * The route table and its access guard: for a session and a path, whether
 * a view renders or the browser is redirected.
 */
module Routes {
  import opened Common
  import opened Auth

  datatype View = LoginView | RegisterView | TeacherView | StudentView

  datatype Decision = Render(view: View) | Redirect(to: string)

  /**
   * `Protected`: no user redirects to "/login"; a truthy required role
   * that is not the user's role redirects to "/login"; otherwise the
   * guarded view renders.
   */
  function Protected(user: Option<User>, role: Option<string>, view: View): (d: Decision)
    ensures user.None? ==> d == Redirect("/login")
    ensures user.Some? && Truthy(role) && user.value.role != role ==> d == Redirect("/login")
    ensures d.Render? <==> user.Some? && (!Truthy(role) || user.value.role == role)
    ensures d.Render? ==> d.view == view
    ensures d.Redirect? ==> d.to == "/login"
  {
    if user.None? then Redirect("/login")
    else if Truthy(role) && user.value.role != role then Redirect("/login")
    else Render(view)
  }

  /** The route table, "/" and every unmatched path redirecting to "/login". */
  function Route(user: Option<User>, path: string): (d: Decision)
    ensures path == "/login" ==> d == Render(LoginView)
    ensures path == "/register" ==> d == Render(RegisterView)
    ensures path !in {"/login", "/register", "/teacher", "/student"} ==> d == Redirect("/login")
    ensures d == Render(TeacherView) <==> path == "/teacher" && user.Some? && user.value.role == Some("teacher")
    ensures d == Render(StudentView) <==> path == "/student" && user.Some? && user.value.role == Some("student")
    ensures path == "/teacher" && (user.None? || user.value.role != Some("teacher")) ==> d == Redirect("/login")
    ensures path == "/student" && (user.None? || user.value.role != Some("student")) ==> d == Redirect("/login")
    ensures d.Redirect? ==> d.to == "/login"
  {
    if path == "/login" then Render(LoginView)
    else if path == "/register" then Render(RegisterView)
    else if path == "/teacher" then Protected(user, Some("teacher"), TeacherView)
    else if path == "/student" then Protected(user, Some("student"), StudentView)
    else Redirect("/login")
  }

  /** A teacher session never renders the student dashboard, and a student session never renders the teacher's. */
  lemma RolesSeparated(user: User, path: string)
    ensures user.role == Some("teacher") ==> Route(Some(user), path) != Render(StudentView)
    ensures user.role == Some("student") ==> Route(Some(user), path) != Render(TeacherView)
  {
  }

  /** Without a session, nothing but the login and registration views renders. */
  lemma NoSessionOnlyPublicViews(path: string)
    ensures Route(None, path).Render? ==> Route(None, path).view in {LoginView, RegisterView}
  {
  }
}
