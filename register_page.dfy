/**
 * The registration page: a four-field form, and a submit handler that
 * registers, then signs in with the same credentials, then navigates by
 * the role chosen in the form.
 */
module Register {
  import opened Common
  import opened Http
  import opened Auth
  import Login

  datatype RegisterForm = RegisterForm(name: string, email: string, password: string, role: string)

  /** The `name` attribute of the input that changed. */
  datatype Field = NameField | EmailField | PasswordField | RoleField

  function FieldValue(form: RegisterForm, f: Field): string
  {
    match f
    case NameField => form.name
    case EmailField => form.email
    case PasswordField => form.password
    case RoleField => form.role
  }

  /** The initial form: every text field empty and the role "student". */
  function Initial(): (form: RegisterForm)
    ensures forall f :: f != RoleField ==> FieldValue(form, f) == ""
    ensures FieldValue(form, RoleField) == "student"
  {
    RegisterForm("", "", "", "student")
  }

  /** `handleChange`: `{ ...s, [name]: value }`, the named field takes the value; the others are unchanged. */
  function HandleChange(form: RegisterForm, f: Field, value: string): (r: RegisterForm)
    ensures FieldValue(r, f) == value
    ensures forall g :: g != f ==> FieldValue(r, g) == FieldValue(form, g)
  {
    match f
    case NameField => form.(name := value)
    case EmailField => form.(email := value)
    case PasswordField => form.(password := value)
    case RoleField => form.(role := value)
  }

  const DefaultRegisterError := "Registration failed"

  function RegisterBody(form: RegisterForm): Body
  {
    Registration(form.name, form.email, form.password, form.role)
  }

  class RegisterPage {
    var form: RegisterForm
    var error: string
    var loading: bool

    constructor ()
      ensures form == Initial() && error == "" && !loading
    {
      form := Initial();
      error := "";
      loading := false;
    }

    /** An input's change event. */
    method Change(f: Field, value: string)
      modifies this`form
      ensures form == HandleChange(old(form), f, value)
    {
      form := HandleChange(form, f, value);
    }

    /**
     * `handleSubmit`: the error is cleared; the form is posted to
     * `/auth/register`; only if that succeeds is `login` called with the
     * form's email and password; if both succeed the page navigates by the
     * FORM's role. A failure of either step sets the error and stays.
     * Loading is false at the end in every case.
     */
    method HandleSubmit(auth: AuthProvider, registerReply: Reply<()>, loginReply: Reply<LoginData>)
      returns (nav: Option<string>, sent: seq<Request>)
      modifies this`error, this`loading, auth
      ensures !loading
      ensures |sent| >= 1 && sent[0] == Request(Post, "/auth/register", RegisterBody(form))
      ensures registerReply.Fail? ==>
                && sent == [sent[0]] && nav.None? && error == MessageOr(registerReply.error, DefaultRegisterError)
                && auth.storage == old(auth.storage) && auth.user == old(auth.user)
      ensures registerReply.Ok? ==>
                sent == [sent[0], Request(Post, "/auth/login", Credentials(form.email, form.password))]
      ensures registerReply.Ok? && loginReply.Ok? ==>
                && nav == Some(Login.DashboardFor(form.role)) && error == ""
                && auth.storage == StoreSession(old(auth.storage), loginReply.value)
                && auth.user == Some(SessionUser(loginReply.value))
      ensures registerReply.Ok? && loginReply.Fail? ==>
                && nav.None? && error == MessageOr(loginReply.error, DefaultRegisterError)
                && auth.storage == old(auth.storage) && auth.user == old(auth.user)
    {
      error := "";
      loading := true;
      nav := None;
      sent := [Request(Post, "/auth/register", RegisterBody(form))];
      match registerReply {
        case Fail(e) =>
          error := MessageOr(e, DefaultRegisterError);
        case Ok(_) =>
          var r, loginSent := auth.Login(form.email, form.password, loginReply);
          sent := sent + loginSent;
          match r {
            case Ok(_) =>
              nav := Some(Login.DashboardFor(form.role));
            case Fail(e) =>
              error := MessageOr(e, DefaultRegisterError);
          }
      }
      loading := false;
    }
  }
}
