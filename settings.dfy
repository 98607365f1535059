/**
 * The restaurant settings page of app/dashboard/settings/page.tsx: name and
 * brand colour, the logo upload, and the owner's password change.
 *
 * The password change is split at its `await`: `SubmitPasswordChange`
 * validates, raises `changingPassword` and sends the request;
 * `CompletePasswordChange` applies the reply. A second submit between the
 * two finds the flag raised and does nothing.
 */
module Settings {
  import opened Wrappers
  import opened Browser
  import opened Api
  import opened Upload
  import opened Feedback
  import Login

  const DefaultPrimaryColor := "#0284c7"
  const MinPasswordLength := 8

  const MismatchText := "كلمة المرور غير متطابقة"
  const TooShortText := "كلمة المرور يجب أن تكون 8 أحرف على الأقل"
  const PasswordChangedText := "تم تغيير كلمة المرور بنجاح"
  const PasswordChangeFailedText := "فشل تغيير كلمة المرور"
  const LogoUploadedText := "تم رفع اللوجو بنجاح!"
  const LogoFailedText := "فشل رفع اللوجو"
  const SavedText := "تم حفظ الإعدادات بنجاح"
  const SaveFailedText := "حدث خطأ أثناء حفظ الإعدادات"

  /** A restaurant with its free-form `settings` object, absent or a map of fields. */
  datatype Restaurant = Restaurant(id: string, name: string, settings: Option<map<string, string>>)

  /** `restaurant.settings?.primaryColor`. */
  function PrimaryColorOf(r: Restaurant): (c: Option<string>)
    ensures c.Some? <==> r.settings.Some? && "primaryColor" in r.settings.value
    ensures c.Some? ==> c.value == r.settings.value["primaryColor"]
  {
    if r.settings.Some? && "primaryColor" in r.settings.value then Some(r.settings.value["primaryColor"]) else None
  }

  /** The colour field after a restaurant is loaded or saved: replaced only by a non-empty stored colour. */
  function ColorAfter(current: string, r: Restaurant): (c: string)
    ensures Truthy(PrimaryColorOf(r)) ==> c == PrimaryColorOf(r).value
    ensures !Truthy(PrimaryColorOf(r)) ==> c == current
  {
    if Truthy(PrimaryColorOf(r)) then PrimaryColorOf(r).value else current
  }

  /** `{...restaurant, settings: {...restaurant.settings, customLogo: url}}`. */
  function WithLogo(r: Restaurant, url: string): (r': Restaurant)
    ensures r'.id == r.id && r'.name == r.name && r'.settings.Some?
    ensures "customLogo" in r'.settings.value && r'.settings.value["customLogo"] == url
    ensures r.settings.Some? ==> forall k :: k in r.settings.value && k != "customLogo" ==>
      k in r'.settings.value && r'.settings.value[k] == r.settings.value[k]
    ensures forall k :: k in r'.settings.value && k != "customLogo" ==> r.settings.Some? && k in r.settings.value
  {
    var fields := if r.settings.Some? then r.settings.value else map[];
    r.(settings := Some(fields["customLogo" := url]))
  }

  /** A logo upload never changes the brand colour. */
  lemma LogoKeepsColor(r: Restaurant, url: string, current: string)
    ensures ColorAfter(current, WithLogo(r, url)) == ColorAfter(current, r)
  {
    assert PrimaryColorOf(WithLogo(r, url)) == PrimaryColorOf(r);
  }

  /** The checks of `handleChangePassword`, in their order: equal first, then long enough. */
  function ChangeProblem(password: string, confirm: string): (p: Option<Login.PasswordProblem>)
    ensures p == Some(Login.Mismatch) <==> password != confirm
    ensures p == Some(Login.TooShort) <==> password == confirm && |password| < MinPasswordLength
    ensures p != Some(Login.Missing)
  {
    if password != confirm then Some(Login.Mismatch)
    else if |password| < MinPasswordLength then Some(Login.TooShort)
    else None
  }

  /**
   * The settings page accepts exactly the passwords the first-time setup
   * accepts; it reports two empty fields as too short where the setup form
   * reports them as missing.
   */
  lemma SameAcceptedPasswords(password: string, confirm: string)
    ensures ChangeProblem(password, confirm).None? <==> Login.SetupProblem(password, confirm).None?
    ensures password == "" && confirm == "" ==>
      ChangeProblem(password, confirm) == Some(Login.TooShort) && Login.SetupProblem(password, confirm) == Some(Login.Missing)
  {
  }

  function ChangeProblemText(p: Login.PasswordProblem): string
  {
    if p == Login.Mismatch then MismatchText else TooShortText
  }

  datatype SettingsState = SettingsState(
    loading: bool,
    saving: bool,
    restaurant: Option<Restaurant>,
    name: string,
    primaryColor: string,
    uploadingLogo: bool,
    newPassword: string,
    confirmPassword: string,
    changingPassword: bool,
    toast: Option<Toast>)

  class SettingsPage {
    const browser: Browser
    const apiUrl: string
    var loading: bool
    var saving: bool
    var restaurant: Option<Restaurant>
    var name: string
    var primaryColor: string
    var uploadingLogo: bool
    var newPassword: string
    var confirmPassword: string
    var changingPassword: bool
    var toast: Option<Toast>

    function Snapshot(): SettingsState
      reads this
    {
      SettingsState(loading, saving, restaurant, name, primaryColor, uploadingLogo, newPassword, confirmPassword,
        changingPassword, toast)
    }

    /** The page as first rendered: loading, with the default brand colour. */
    constructor(browser: Browser, env: Option<string>)
      ensures this.browser == browser && apiUrl == ApiUrl(env)
      ensures Snapshot() == SettingsState(true, false, None, "", DefaultPrimaryColor, false, "", "", false, None)
    {
      this.browser := browser;
      apiUrl := ApiUrl(env);
      loading := true;
      saving := false;
      restaurant := None;
      name := "";
      primaryColor := DefaultPrimaryColor;
      uploadingLogo := false;
      newPassword := "";
      confirmPassword := "";
      changingPassword := false;
      toast := None;
    }

    /** `fetchRestaurant`: the first restaurant, its name, and its colour when it has one. */
    method FetchRestaurant(reply: Response<seq<Restaurant>>)
      modifies this, browser
      ensures browser.trace == old(browser.trace) + [Call(Get, "/restaurants", map[])]
      ensures Snapshot() == if reply.Ok? && reply.data != [] then
          old(Snapshot()).(restaurant := Some(reply.data[0]), name := reply.data[0].name,
            primaryColor := ColorAfter(old(primaryColor), reply.data[0]), loading := false)
        else old(Snapshot()).(loading := false)
      ensures browser.storage == old(browser.storage) && browser.notice == old(browser.notice)
    {
      browser.Issue(Get, "/restaurants", map[]);
      if reply.Ok? && reply.data != [] {
        var current := reply.data[0];
        restaurant := Some(current);
        name := current.name;
        primaryColor := ColorAfter(primaryColor, current);
      }
      loading := false;
    }

    /** `handleSaveGeneral`: sends name and colour; the saved restaurant replaces the local one. */
    method SaveGeneral(reply: Response<Restaurant>)
      modifies this, browser
      ensures old(restaurant).None? ==> Snapshot() == old(Snapshot()) && browser.trace == old(browser.trace)
      ensures old(restaurant).Some? ==>
        && browser.trace == old(browser.trace) +
             [Call(Patch, "/restaurants/" + old(restaurant).value.id, map["name" := old(name), "primaryColor" := old(primaryColor)])]
        && Snapshot() == if reply.Ok? then
             old(Snapshot()).(restaurant := Some(reply.data), primaryColor := ColorAfter(old(primaryColor), reply.data),
               toast := Some(Toast(SavedText, Success)), saving := false)
           else old(Snapshot()).(toast := Some(Toast(SaveFailedText, Error)), saving := false)
      ensures browser.storage == old(browser.storage) && browser.notice == old(browser.notice)
    {
      if restaurant.None? {
        return;
      }
      saving := true;
      browser.Issue(Patch, "/restaurants/" + restaurant.value.id, map["name" := name, "primaryColor" := primaryColor]);
      if reply.Ok? {
        restaurant := Some(reply.data);
        primaryColor := ColorAfter(primaryColor, reply.data);
        toast := Some(Toast(SavedText, Success));
      } else {
        toast := Some(Toast(SaveFailedText, Error));
      }
      saving := false;
    }

    /**
     * `handleLogoUpload`: the file is checked (type, then size) before
     * anything is sent; then the upload and the `PATCH` of the settings,
     * the second only after the first succeeded. On success the local
     * settings gain the logo and keep every other field.
     */
    method UploadLogo(file: Option<File>, upload: Response<string>, patch: Response<()>)
      modifies this, browser
      ensures file.None? ==> Snapshot() == old(Snapshot()) && browser.trace == old(browser.trace)
      ensures file.Some? && CheckImage(file.value).Some? ==>
        && Snapshot() == old(Snapshot()).(toast := Some(Toast(ImageErrorText(CheckImage(file.value).value), Error)))
        && browser.trace == old(browser.trace)
      ensures file.Some? && CheckImage(file.value).None? ==>
        var uploadCall := Call(Post, apiUrl + "/storage/upload", map["folder" := "logos"]);
        if upload.Failed? then
          && browser.trace == old(browser.trace) + [uploadCall]
          && Snapshot() == old(Snapshot()).(toast := Some(Toast(FailureText(upload.failure, LogoFailedText), Error)),
               uploadingLogo := false)
        else if old(restaurant).None? then
          && browser.trace == old(browser.trace) + [uploadCall]
          && Snapshot() == old(Snapshot()).(toast := Some(Toast(LogoFailedText, Error)), uploadingLogo := false)
        else
          && browser.trace == old(browser.trace) +
               [uploadCall, Call(Patch, "/restaurants/" + old(restaurant).value.id + "/settings", map["customLogo" := upload.data])]
          && Snapshot() == if patch.Failed? then
               old(Snapshot()).(toast := Some(Toast(FailureText(patch.failure, LogoFailedText), Error)),
                 uploadingLogo := false)
             else
               old(Snapshot()).(restaurant := Some(WithLogo(old(restaurant).value, upload.data)),
                 toast := Some(Toast(LogoUploadedText, Success)), uploadingLogo := false)
      ensures browser.storage == old(browser.storage) && browser.notice == old(browser.notice)
    {
      if file.None? {
        return;
      }
      var problem := CheckImage(file.value);
      if problem.Some? {
        toast := Some(Toast(ImageErrorText(problem.value), Error));
        return;
      }
      uploadingLogo := true;
      browser.Issue(Post, apiUrl + "/storage/upload", map["folder" := "logos"]);
      if upload.Failed? {
        toast := Some(Toast(FailureText(upload.failure, LogoFailedText), Error));
      } else if restaurant.None? {
        // reading `restaurant.id` throws; the thrown error carries no server message
        toast := Some(Toast(LogoFailedText, Error));
      } else {
        var r := restaurant.value;
        browser.Issue(Patch, "/restaurants/" + r.id + "/settings", map["customLogo" := upload.data]);
        if patch.Failed? {
          toast := Some(Toast(FailureText(patch.failure, LogoFailedText), Error));
        } else {
          restaurant := Some(WithLogo(r, upload.data));
          toast := Some(Toast(LogoUploadedText, Success));
        }
      }
      uploadingLogo := false;
    }

    /**
     * The part of `handleChangePassword` before its `await`: the two checks,
     * then the `changingPassword` guard, then the request.
     */
    method SubmitPasswordChange() returns (sent: bool)
      modifies this, browser
      ensures var p := ChangeProblem(old(newPassword), old(confirmPassword));
        sent <==> p.None? && !old(changingPassword)
      ensures var p := ChangeProblem(old(newPassword), old(confirmPassword));
        p.Some? ==> Snapshot() == old(Snapshot()).(toast := Some(Toast(ChangeProblemText(p.value), Error)))
      ensures !sent ==> browser.trace == old(browser.trace)
      ensures ChangeProblem(old(newPassword), old(confirmPassword)).None? && old(changingPassword) ==>
        Snapshot() == old(Snapshot())
      ensures sent ==>
        && browser.trace == old(browser.trace) +
             [Call(Post, "/auth/set-password", map["password" := newPassword, "confirmPassword" := confirmPassword])]
        && Snapshot() == old(Snapshot()).(changingPassword := true)
      ensures browser.storage == old(browser.storage) && browser.notice == old(browser.notice)
    {
      var problem := ChangeProblem(newPassword, confirmPassword);
      if problem.Some? {
        toast := Some(Toast(ChangeProblemText(problem.value), Error));
        return false;
      }
      if changingPassword {
        return false;
      }
      changingPassword := true;
      browser.Issue(Post, "/auth/set-password", map["password" := newPassword, "confirmPassword" := confirmPassword]);
      sent := true;
    }

    /** The rest of `handleChangePassword`: success clears both fields; the flag drops either way. */
    method CompletePasswordChange(reply: Response<()>)
      modifies this
      ensures Snapshot() == if reply.Ok? then
          old(Snapshot()).(toast := Some(Toast(PasswordChangedText, Success)), newPassword := "", confirmPassword := "",
            changingPassword := false)
        else old(Snapshot()).(toast := Some(Toast(FailureText(reply.failure, PasswordChangeFailedText), Error)),
            changingPassword := false)
    {
      if reply.Ok? {
        toast := Some(Toast(PasswordChangedText, Success));
        newPassword := "";
        confirmPassword := "";
      } else {
        toast := Some(Toast(FailureText(reply.failure, PasswordChangeFailedText), Error));
      }
      changingPassword := false;
    }
  }
}
