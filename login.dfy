/**
 * The sign-in page of app/login/page.tsx: phone and password login, the
 * first-time password setup it may switch to, and the role-based redirect.
 */
module Login {
  import opened Wrappers
  import opened Strings
  import opened Browser
  import opened Api
  import opened Auth
  import opened Feedback

  const SuperAdmin := "SUPER_ADMIN"
  const AdminHome := "/admin"
  const OwnerHome := "/dashboard"

  const PhoneMissingText := "يرجى إدخال رقم الهاتف"
  const LoginFailedText := "فشل تسجيل الدخول"
  const PasswordsMissingText := "يرجى إدخال كلمة المرور وتأكيدها"
  const PasswordsDifferText := "كلمات المرور غير متطابقة"
  const PasswordTooShortText := "كلمة المرور يجب أن تكون 8 أحرف على الأقل"
  const SetPasswordFailedText := "فشل تعيين كلمة المرور"

  /** What the JavaScript engine reports when a reply has no `user` to read `role` from. */
  const MissingUserText := "Cannot read properties of undefined (reading 'role')"

  const MinPasswordLength := 8

  /** Where a signed-in user is sent: administrators to the admin page, everyone else to the dashboard. */
  function HomeFor(role: string): (href: string)
    ensures href == AdminHome <==> role == SuperAdmin
    ensures href == OwnerHome <==> role != SuperAdmin
  {
    if role == SuperAdmin then AdminHome else OwnerHome
  }

  /** `err.response?.data?.message || err.message || fallback`. */
  function ErrorText(f: Failure, fallback: string): (t: string)
    ensures fallback != "" ==> t != ""
    ensures Truthy(ServerMessage(f)) ==> t == ServerMessage(f).value
    ensures !Truthy(ServerMessage(f)) && f.message != "" ==> t == f.message
    ensures !Truthy(ServerMessage(f)) && f.message == "" ==> t == fallback
  {
    OrElse(ServerMessage(f), OrElse(Some(f.message), fallback))
  }

  /** `password || undefined`: an empty password is not sent. */
  function PasswordArg(password: string): (p: Option<string>)
    ensures p.None? <==> password == ""
    ensures p.Some? ==> p.value == password
  {
    if password == "" then None else Some(password)
  }

  datatype PasswordProblem = Missing | Mismatch | TooShort

  function ProblemText(p: PasswordProblem): string
  {
    match p
    case Missing => PasswordsMissingText
    case Mismatch => PasswordsDifferText
    case TooShort => PasswordTooShortText
  }

  /**
   * The checks of `handleSetPassword`, in their order: both fields filled,
   * then equal, then at least eight characters. A problem is reported only
   * when every earlier check passed.
   */
  function SetupProblem(password: string, confirm: string): (p: Option<PasswordProblem>)
    ensures p == Some(Missing) <==> password == "" || confirm == ""
    ensures p == Some(Mismatch) <==> password != "" && confirm != "" && password != confirm
    ensures p == Some(TooShort) <==> password != "" && password == confirm && |password| < MinPasswordLength
    ensures p == None <==> password == confirm && |password| >= MinPasswordLength
  {
    if password == "" || confirm == "" then Some(Missing)
    else if password != confirm then Some(Mismatch)
    else if |password| < MinPasswordLength then Some(TooShort)
    else None
  }

  /** How a submitted form ends: the setup form, a redirect, or an error message. */
  datatype Outcome = SetupRequired | Redirect(href: string) | ShowError(message: string)

  /** The end of `handleSetPassword` (and of a login that needs no setup), from the reply. */
  function RouteAfter(reply: Response<AuthBody>, fallback: string): (o: Outcome)
    ensures o.Redirect? <==> reply.Ok? && reply.data.user.Some?
    ensures o.Redirect? ==> o.href == HomeFor(reply.data.user.value.role)
    ensures o.ShowError? && reply.Failed? ==> o.message == ErrorText(reply.failure, fallback)
    ensures o.ShowError? && reply.Ok? ==> o.message == MissingUserText
    ensures !o.SetupRequired?
  {
    match reply
    case Failed(f) => ShowError(ErrorText(f, fallback))
    case Ok(body) => if body.user.None? then ShowError(MissingUserText) else Redirect(HomeFor(body.user.value.role))
  }

  /** The end of `handleLogin`: a reply asking for a password setup never redirects. */
  function LoginOutcome(reply: Response<AuthBody>): (o: Outcome)
    ensures o.SetupRequired? <==> reply.Ok? && reply.data.requiresPasswordSetup
    ensures !o.SetupRequired? ==> o == RouteAfter(reply, LoginFailedText)
  {
    if reply.Ok? && reply.data.requiresPasswordSetup then SetupRequired else RouteAfter(reply, LoginFailedText)
  }

  /**
   * A login that succeeds with tokens and a user, and needs no setup, both
   * opens a session and sends the user home.
   */
  lemma SuccessfulLoginOpensSession(storage: map<string, string>, reply: Response<AuthBody>)
    requires reply.Ok? && Truthy(reply.data.accessToken) && reply.data.user.Some? && !reply.data.requiresPasswordSetup
    ensures LoginOutcome(reply) == Redirect(HomeFor(reply.data.user.value.role))
    ensures AccessTokenKey in SessionAfter(storage, reply) && SessionAfter(storage, reply)[AccessTokenKey] != ""
  {
  }

  datatype LoginState = LoginState(
    phone: string, password: string, error: string, loading: bool,
    requiresPasswordSetup: bool, newPassword: string, confirmPassword: string)

  class LoginPage {
    const browser: Browser
    var phone: string
    var password: string
    var error: string
    var loading: bool
    var requiresPasswordSetup: bool
    var newPassword: string
    var confirmPassword: string

    function Snapshot(): LoginState
      reads this
    {
      LoginState(phone, password, error, loading, requiresPasswordSetup, newPassword, confirmPassword)
    }

    constructor(browser: Browser)
      ensures this.browser == browser
      ensures Snapshot() == LoginState("", "", "", false, false, "", "")
    {
      this.browser := browser;
      phone := "";
      password := "";
      error := "";
      loading := false;
      requiresPasswordSetup := false;
      newPassword := "";
      confirmPassword := "";
    }

    /** Applies an outcome: the setup form, a navigation, or an error message. */
    method Conclude(o: Outcome)
      modifies this, browser
      ensures browser.trace == old(browser.trace) + (if o.Redirect? then [Navigated(o.href)] else [])
      ensures Snapshot() == old(Snapshot()).(
        requiresPasswordSetup := old(requiresPasswordSetup) || o.SetupRequired?,
        error := if o.ShowError? then o.message else old(error),
        loading := false)
      ensures browser.storage == old(browser.storage) && browser.notice == old(browser.notice)
    {
      loading := false;
      match o
      case SetupRequired =>
        requiresPasswordSetup := true;
      case Redirect(href) =>
        browser.Navigate(href);
      case ShowError(message) =>
        error := message;
    }

    /**
     * `handleLogin`: an empty phone is refused before any call; otherwise the
     * trimmed phone and the password (omitted when empty) are sent, and the
     * reply decides between the setup form, a redirect and an error.
     */
    method HandleLogin(reply: Response<AuthBody>)
      modifies this, browser
      ensures old(phone) == "" ==>
        && Snapshot() == old(Snapshot()).(error := PhoneMissingText, loading := false)
        && browser.trace == old(browser.trace) && browser.storage == old(browser.storage)
      ensures old(phone) != "" ==>
        var o := LoginOutcome(reply);
        && browser.trace == old(browser.trace) + [Call(Post, "/auth/login", LoginBody(Trim(old(phone)), PasswordArg(old(password))))] +
             (if o.Redirect? then [Navigated(o.href)] else [])
        && browser.storage == SessionAfter(old(browser.storage), reply)
        && Snapshot() == old(Snapshot()).(
             requiresPasswordSetup := old(requiresPasswordSetup) || o.SetupRequired?,
             error := if o.ShowError? then o.message else "",
             loading := false)
      ensures browser.notice == old(browser.notice)
    {
      error := "";
      loading := true;
      if phone == "" {
        error := PhoneMissingText;
        loading := false;
        return;
      }
      var settled := Auth.Login(browser, Trim(phone), PasswordArg(password), reply);
      Conclude(LoginOutcome(settled));
    }

    /** `handleSetPassword`: the three checks in order, then `setPassword` and the redirect. */
    method HandleSetPassword(reply: Response<AuthBody>)
      modifies this, browser
      ensures var p := SetupProblem(old(newPassword), old(confirmPassword));
        p.Some? ==>
          && Snapshot() == old(Snapshot()).(error := ProblemText(p.value), loading := false)
          && browser.trace == old(browser.trace) && browser.storage == old(browser.storage)
      ensures SetupProblem(old(newPassword), old(confirmPassword)).None? ==>
        var o := RouteAfter(reply, SetPasswordFailedText);
        && browser.trace == old(browser.trace) +
             [Call(Post, "/auth/set-password", map["password" := old(newPassword), "confirmPassword" := old(confirmPassword)])] +
             (if o.Redirect? then [Navigated(o.href)] else [])
        && browser.storage == SessionAfter(old(browser.storage), reply)
        && Snapshot() == old(Snapshot()).(error := if o.ShowError? then o.message else "", loading := false)
      ensures browser.notice == old(browser.notice)
    {
      error := "";
      loading := true;
      var problem := SetupProblem(newPassword, confirmPassword);
      if problem.Some? {
        error := ProblemText(problem.value);
        loading := false;
        return;
      }
      var settled := Auth.SetPassword(browser, newPassword, confirmPassword, reply);
      Conclude(RouteAfter(settled, SetPasswordFailedText));
    }
  }
}
