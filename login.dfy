/**
  The login page: credential normalisation, the role-to-route choice after a
  successful login, and the error text shown after a failed one.
 */
module Login {
  import opened Domain
  import opened Text
  import opened Guards
  import opened Session

  datatype LoginForm = LoginForm(email: string, password: string)

  /** The two named inputs `handleChange` writes through `e.target.name`. */
  datatype Field = EmailField | PasswordField

  datatype Credentials = Credentials(email: string, password: string)

  /** What `handleLogin` submits: `form.email.trim().toLowerCase()` and `form.password.trim()`. */
  function Normalise(form: LoginForm): Credentials {
    Credentials(ToLower(Trim(form.email)), Trim(form.password))
  }

  /** The submitted e-mail has no surrounding whitespace and no ASCII capital,
      and it is empty only when nothing but whitespace was typed. */
  lemma NormalisedEmail(form: LoginForm)
    ensures var e := Normalise(form).email;
      && |e| <= |form.email|
      && (forall k :: 0 <= k < |e| ==> !IsUpperAscii(e[k]))
      && (e == [] || (!IsWhitespace(e[0]) && !IsWhitespace(e[|e| - 1])))
      && (e == [] <==> AllWhitespace(form.email))
  {
    TrimSpec(form.email);
    ToLowerKeepsWhitespace(Trim(form.email));
  }

  /** The submitted password is the typed one with its surrounding whitespace
      cut off: a contiguous piece of what was typed, so no letter changes case. */
  lemma NormalisedPassword(form: LoginForm)
    ensures var p := Normalise(form).password;
      var start := StartIndex(form.password, 0);
      && start + |p| <= |form.password|
      && p == form.password[start..start + |p|]
      && (p == [] <==> AllWhitespace(form.password))
  {
    TrimSpec(form.password);
  }

  /** Two typed e-mails that differ only in the case of ASCII letters submit the same e-mail. */
  lemma SameEmailIgnoringCase(a: LoginForm, b: LoginForm)
    requires |Trim(a.email)| == |Trim(b.email)|
    requires forall k :: 0 <= k < |Trim(a.email)| ==> LowerChar(Trim(a.email)[k]) == LowerChar(Trim(b.email)[k])
    ensures Normalise(a).email == Normalise(b).email
  {
    ToLowerIgnoresCase(Trim(a.email), Trim(b.email));
  }

  /** Normalising an already normalised login changes nothing. */
  lemma NormaliseIdempotent(form: LoginForm)
    ensures var c := Normalise(form); Normalise(LoginForm(c.email, c.password)) == c
  {
    var c := Normalise(form);
    TrimIdempotent(form.password);
    NormalisedEmail(form);
    TrimOfClean(c.email);
    ToLowerIdempotent(Trim(form.email));
  }

  const INVALID_CREDENTIALS := "Invalid email or password"

  /** `typeof err === 'string' ? err : 'Invalid email or password'`. */
  function DisplayedError(thrown: JsValue): (text: string)
    ensures thrown.JsString? ==> text == thrown.s
    ensures !thrown.JsString? ==> text == INVALID_CREDENTIALS
  {
    if thrown.JsString? then thrown.s else INVALID_CREDENTIALS
  }

  /** The text a failed login shows: the server's message when it is a
      non-empty string, 'Login failed' when there is no usable message, and
      'Invalid email or password' only when the message is a truthy non-string.
      It is never empty. */
  lemma FailedLoginText(message: Option<JsValue>)
    ensures var text := DisplayedError(OrFallback(message, LOGIN_FALLBACK));
      && text != ""
      && (message.Some? && message.value.JsString? && message.value.s != "" ==> text == message.value.s)
      && (message.None? || message.value == JsString("") || message.value == JsOther(false) ==> text == LOGIN_FALLBACK)
      && (message == Some(JsOther(true)) ==> text == INVALID_CREDENTIALS)
  {
  }

  class LoginPage {
    const auth: AuthProvider
    var form: LoginForm
    var error: string
    /** The last route `navigate` was called with. */
    var navigatedTo: Option<Route>

    constructor (auth: AuthProvider)
      ensures this.auth == auth
      ensures form == LoginForm("", "") && error == "" && navigatedTo == None
    {
      this.auth := auth;
      form := LoginForm("", "");
      error := "";
      navigatedTo := None;
    }

    /** `handleChange`: replaces the one named field. */
    method HandleChange(field: Field, value: string)
      modifies this
      ensures field == EmailField ==> form == old(form).(email := value)
      ensures field == PasswordField ==> form == old(form).(password := value)
      ensures error == old(error) && navigatedTo == old(navigatedTo)
    {
      match field
      case EmailField => form := form.(email := value);
      case PasswordField => form := form.(password := value);
    }

    /** `handleLogin`: clears the error, submits the normalised credentials,
        then navigates by role on success or shows the error on failure. */
    method HandleLogin(reply: AuthReply)
      modifies this, auth, auth.storage
      ensures form == old(form)
      ensures var c := Normalise(old(form)); auth.sent == old(auth.sent) + [PostLogin(c.email, c.password)]
      ensures auth.loading == old(auth.loading)
      ensures reply.Accepted? ==>
        && error == ""
        && auth.user == Some(reply.data)
        && auth.storage.items == old(auth.storage.items)[SESSION_KEY := reply.data]
        && navigatedTo == (if RouteForRole(reply.data.role).Some? then RouteForRole(reply.data.role) else old(navigatedTo))
      ensures reply.Rejected? ==>
        && error == DisplayedError(OrFallback(reply.message, LOGIN_FALLBACK))
        && error != ""
        && auth.user == old(auth.user)
        && auth.storage.items == old(auth.storage.items)
        && navigatedTo == old(navigatedTo)
    {
      error := "";
      var c := Normalise(form);
      var outcome := auth.Login(c.email, c.password, reply);
      match outcome
      case Returned(u) =>
        var route := RouteForRole(u.role);
        if route.Some? {
          navigatedTo := route;
        }
      case Threw(e) =>
        error := DisplayedError(e);
    }
  }

  /** A user whose role is Staff signs in and lands on /staff. */
  method StaffSignsIn(auth: AuthProvider, staff: User) returns (page: LoginPage)
    requires staff.role == STAFF
    modifies auth, auth.storage
    ensures page.navigatedTo == Some(StaffRoute)
    ensures page.error == "" && auth.user == Some(staff)
  {
    page := new LoginPage(auth);
    page.HandleLogin(Accepted(staff));
  }
}
