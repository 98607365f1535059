/**
 * `authService` of lib/auth.ts: the calls that create a session (register,
 * login, set-password) write both tokens when the reply carries an access
 * token; logout always clears them; `getToken` and `isAuthenticated` read
 * them. Each call takes the settled outcome of its `api.post` as input.
 */
module Auth {
  import opened Wrappers
  import opened Browser
  import opened Api

  datatype User = User(id: string, phone: string, role: string)

  /** `{user, accessToken, refreshToken, requiresPasswordSetup?}`, each part possibly absent. */
  datatype AuthBody = AuthBody(
    user: Option<User>,
    accessToken: Option<string>,
    refreshToken: Option<string>,
    requiresPasswordSetup: bool)

  /**
   * Storage after an auth reply: both tokens are written exactly when the
   * reply resolved with a non-empty access token (a missing refresh token is
   * stored as the text "undefined"); otherwise, e.g. a
   * `requiresPasswordSetup` reply, storage is unchanged. No other key moves.
   */
  function SessionAfter(storage: map<string, string>, reply: Response<AuthBody>): (r: map<string, string>)
    ensures !(reply.Ok? && Truthy(reply.data.accessToken)) ==> r == storage
    ensures reply.Ok? && Truthy(reply.data.accessToken) ==>
      && AccessTokenKey in r && r[AccessTokenKey] == reply.data.accessToken.value
      && RefreshTokenKey in r && r[RefreshTokenKey] == JsString(reply.data.refreshToken)
    ensures r.Keys == storage.Keys || r.Keys == storage.Keys + {AccessTokenKey, RefreshTokenKey}
    ensures forall k :: k in storage && k != AccessTokenKey && k != RefreshTokenKey ==> r[k] == storage[k]
  {
    if reply.Ok? && Truthy(reply.data.accessToken) then
      storage[AccessTokenKey := reply.data.accessToken.value][RefreshTokenKey := JsString(reply.data.refreshToken)]
    else storage
  }

  /** The `{phone, password, firstName?, lastName?}` body of `register`; absent names are not sent. */
  function RegisterBody(phone: string, password: string, firstName: Option<string>, lastName: Option<string>): (m: map<string, string>)
    ensures "phone" in m && m["phone"] == phone && "password" in m && m["password"] == password
    ensures ("firstName" in m <==> firstName.Some?) && ("lastName" in m <==> lastName.Some?)
    ensures firstName.Some? ==> m["firstName"] == firstName.value
    ensures lastName.Some? ==> m["lastName"] == lastName.value
  {
    var m := map["phone" := phone, "password" := password];
    var m' := if firstName.Some? then m["firstName" := firstName.value] else m;
    if lastName.Some? then m'["lastName" := lastName.value] else m'
  }

  /** The body of `login`: an omitted password is sent as the empty string. */
  function LoginBody(phone: string, password: Option<string>): (m: map<string, string>)
    ensures m.Keys == {"phone", "password"} && m["phone"] == phone
    ensures m["password"] == "" <==> !Truthy(password)
    ensures Truthy(password) ==> m["password"] == password.value
  {
    map["phone" := phone, "password" := OrElse(password, "")]
  }

  /** `register`: returns the reply body unchanged (a rejection propagates). */
  method Register(b: Browser, phone: string, password: string, firstName: Option<string>, lastName: Option<string>,
                  reply: Response<AuthBody>) returns (r: Response<AuthBody>)
    modifies b
    ensures r == reply
    ensures b.trace == old(b.trace) + [Call(Post, "/auth/register", RegisterBody(phone, password, firstName, lastName))]
    ensures b.storage == SessionAfter(old(b.storage), reply)
    ensures b.notice == old(b.notice) && b.pathname == old(b.pathname)
  {
    b.Issue(Post, "/auth/register", RegisterBody(phone, password, firstName, lastName));
    r := reply;
    if reply.Ok? && Truthy(reply.data.accessToken) {
      b.SetItem(AccessTokenKey, reply.data.accessToken.value);
      b.SetItem(RefreshTokenKey, JsString(reply.data.refreshToken));
    }
  }

  /** `login(phone, password?)`: returns the reply body unchanged. */
  method Login(b: Browser, phone: string, password: Option<string>, reply: Response<AuthBody>) returns (r: Response<AuthBody>)
    modifies b
    ensures r == reply
    ensures b.trace == old(b.trace) + [Call(Post, "/auth/login", LoginBody(phone, password))]
    ensures b.storage == SessionAfter(old(b.storage), reply)
    ensures b.notice == old(b.notice) && b.pathname == old(b.pathname)
  {
    b.Issue(Post, "/auth/login", LoginBody(phone, password));
    r := reply;
    if reply.Ok? && Truthy(reply.data.accessToken) {
      b.SetItem(AccessTokenKey, reply.data.accessToken.value);
      b.SetItem(RefreshTokenKey, JsString(reply.data.refreshToken));
    }
  }

  /** `setPassword(password, confirmPassword)`: returns the reply body unchanged. */
  method SetPassword(b: Browser, password: string, confirmPassword: string, reply: Response<AuthBody>) returns (r: Response<AuthBody>)
    modifies b
    ensures r == reply
    ensures b.trace == old(b.trace) +
      [Call(Post, "/auth/set-password", map["password" := password, "confirmPassword" := confirmPassword])]
    ensures b.storage == SessionAfter(old(b.storage), reply)
    ensures b.notice == old(b.notice) && b.pathname == old(b.pathname)
  {
    b.Issue(Post, "/auth/set-password", map["password" := password, "confirmPassword" := confirmPassword]);
    r := reply;
    if reply.Ok? && Truthy(reply.data.accessToken) {
      b.SetItem(AccessTokenKey, reply.data.accessToken.value);
      b.SetItem(RefreshTokenKey, JsString(reply.data.refreshToken));
    }
  }

  /**
   * `logout`: the server is told only when a refresh token is stored; its
   * answer, success or failure, is ignored, and both tokens are removed
   * afterwards in every case, so the session is no longer authenticated.
   */
  method Logout(b: Browser)
    modifies b
    ensures var rt := GetItem(old(b.storage), RefreshTokenKey);
      b.trace == old(b.trace) + (if Truthy(rt) then [Call(Post, "/auth/logout", map["refreshToken" := rt.value])] else [])
    ensures b.storage == old(b.storage) - {AccessTokenKey, RefreshTokenKey}
    ensures !IsAuthenticated(b)
    ensures b.notice == old(b.notice) && b.pathname == old(b.pathname)
  {
    var refreshToken := GetItem(b.storage, RefreshTokenKey);
    if Truthy(refreshToken) {
      b.Issue(Post, "/auth/logout", map["refreshToken" := refreshToken.value]);
    } else {
      assert b.trace == old(b.trace) + [];
    }
    b.RemoveItem(AccessTokenKey);
    b.RemoveItem(RefreshTokenKey);
    assert b.storage == old(b.storage) - {AccessTokenKey, RefreshTokenKey};
  }

  /** `getToken`: no token without a window (a `null` browser); else the stored access token. */
  function GetToken(b: Browser?): (t: Option<string>)
    reads b
    ensures b == null ==> t == None
    ensures b != null ==> (t.Some? <==> AccessTokenKey in b.storage)
    ensures t.Some? ==> b != null && t.value == b.storage[AccessTokenKey]
  {
    if b == null then None else GetItem(b.storage, AccessTokenKey)
  }

  /** `isAuthenticated`: a window is present and a non-empty access token is stored. */
  predicate IsAuthenticated(b: Browser?)
    reads b
    ensures IsAuthenticated(b) <==> b != null && AccessTokenKey in b.storage && b.storage[AccessTokenKey] != ""
  {
    Truthy(GetToken(b))
  }
}
