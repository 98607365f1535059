/**
 * The shared HTTP client of lib/api.ts: an axios instance whose request
 * interceptor attaches the stored bearer token and whose response
 * interceptor classifies failures (no response, expired subscription,
 * unauthorized) and, for a first 401, refreshes the session once and
 * resends the request.
 *
 * `Dispatch` and `OnError` are the specification, as functions over a
 * `State` snapshot; the `Client` class performs the same steps in place on
 * a `Browser` and a `Request` and is proved to agree with them.
 */
module Api {
  import opened Wrappers
  import opened Strings
  import opened Browser

  const DefaultApiUrl := "http://localhost:3001/api/v1"
  const RefreshPath := "/auth/refresh"
  const SubscriptionExpiredCode := "SUBSCRIPTION_EXPIRED"
  const DefaultExpiredMessage := "انتهت مدة الاشتراك"
  const ExpiredPage := "/dashboard/subscription-expired"
  const LoginPage := "/login"
  const Authorization := "Authorization"

  /** `process.env.NEXT_PUBLIC_API_URL || default`: the base URL is never empty. */
  function ApiUrl(env: Option<string>): (url: string)
    ensures url != ""
    ensures Truthy(env) ==> url == env.value
    ensures !Truthy(env) ==> url == DefaultApiUrl
  {
    OrElse(env, DefaultApiUrl)
  }

  /** The body of an error response: `{code?, message?, expiredAt?}`. */
  datatype ErrorData = ErrorData(code: Option<string>, message: Option<string>, expiredAt: Option<string>)

  /** An axios error: either no response arrived, or the server answered with a status. */
  datatype Failure =
    | NoResponse(code: Option<string>, message: string)
    | HttpError(status: int, data: ErrorData, message: string)

  /** How a call settles for its caller: resolved with data, or rejected. */
  datatype Response<T> = Ok(data: T) | Failed(failure: Failure)

  /** What `POST {API_URL}/auth/refresh` gives back. */
  datatype RefreshReply =
    | Refreshed(accessToken: Option<string>, refreshToken: Option<string>)
    | RefreshFailed(failure: Failure)

  /** The fixed part of a request: method, URL and body. */
  datatype Target = Target(verb: Verb, url: string, body: map<string, string>)

  /** What a request can change: storage, the notice slot, the effects so far, and the request's own headers and `_retry` flag. */
  datatype State = State(
    storage: map<string, string>,
    notice: Option<Notice>,
    trace: seq<Event>,
    headers: map<string, string>,
    retry: bool)

  /**
   * The request interceptor: `Authorization` becomes `Bearer <token>` when a
   * non-empty access token is stored; otherwise the headers are left alone.
   * No other header is touched.
   */
  function WithBearer(storage: map<string, string>, headers: map<string, string>): (h: map<string, string>)
    ensures Truthy(GetItem(storage, AccessTokenKey)) ==>
      Authorization in h && h[Authorization] == "Bearer " + storage[AccessTokenKey]
    ensures !Truthy(GetItem(storage, AccessTokenKey)) ==> h == headers
    ensures forall k :: k in headers && k != Authorization ==> k in h && h[k] == headers[k]
    ensures forall k :: k in h ==> k in headers || k == Authorization
  {
    var token := GetItem(storage, AccessTokenKey);
    if Truthy(token) then headers[Authorization := "Bearer " + token.value] else headers
  }

  function ConnectHint(apiUrl: string): string
  {
    "Cannot connect to backend server. Make sure it's running on " + apiUrl
  }

  /** A transport error the hint is for: connection refused, or a "Network Error". */
  predicate Unreachable(f: Failure)
    requires f.NoResponse?
  {
    f.code == Some("ECONNREFUSED") || Contains(f.message, "Network Error")
  }

  /** A transport error keeps its code; only its message may be replaced by the hint. */
  function WithHint(f: Failure, apiUrl: string): (g: Failure)
    requires f.NoResponse?
    ensures g.NoResponse? && g.code == f.code
    ensures Unreachable(f) ==> g.message == ConnectHint(apiUrl)
    ensures !Unreachable(f) ==> g == f
  {
    if Unreachable(f) then NoResponse(f.code, ConnectHint(apiUrl)) else f
  }

  /** The blob stored for an expired subscription: its message is never empty. */
  function ExpiryNotice(data: ErrorData): (n: Notice)
    ensures n.message != ""
    ensures Truthy(data.message) ==> n.message == data.message.value
    ensures !Truthy(data.message) ==> n.message == DefaultExpiredMessage
    ensures n.expiredAt == data.expiredAt
  {
    Notice(OrElse(data.message, DefaultExpiredMessage), data.expiredAt)
  }

  datatype Branch = Transport | SubscriptionExpired | Refresh | Reject

  /** The response interceptor's branches, tried in this order. */
  function Classify(f: Failure, retried: bool): (b: Branch)
    ensures b == Transport <==> f.NoResponse?
    ensures b == SubscriptionExpired <==>
      f.HttpError? && f.status == 403 && f.data.code == Some(SubscriptionExpiredCode)
    ensures b == Refresh <==> f.HttpError? && f.status == 401 && !retried
  {
    if f.NoResponse? then Transport
    else if f.status == 403 && f.data.code == Some(SubscriptionExpiredCode) then SubscriptionExpired
    else if f.status == 401 && !retried then Refresh
    else Reject
  }

  /** The call that exchanges the refresh token. */
  function RefreshCall(apiUrl: string, refreshToken: string): Event
  {
    Call(Post, apiUrl + RefreshPath, map["refreshToken" := refreshToken])
  }

  /**
   * `api(config)`: the request interceptor runs, the request leaves, and a
   * failure goes through the response interceptor. A call resolves only
   * with a response the server sent; its trace only grows.
   */
  function Dispatch<T>(s: State, apiUrl: string, pathname: string, target: Target,
                       reply: Response<T>, refresh: RefreshReply, resend: Response<T>): (r: (State, Response<T>))
    ensures s.trace < r.0.trace
    ensures r.1.Ok? ==> r.1 == reply || r.1 == resend
    ensures r.0.retry == (s.retry || (reply.Failed? && reply.failure.HttpError? && reply.failure.status == 401))
    decreases if s.retry then 1 else 3
  {
    var sent := s.(headers := WithBearer(s.storage, s.headers),
                   trace := s.trace + [Call(target.verb, target.url, target.body)]);
    match reply
    case Ok(data) => (sent, Ok(data))
    case Failed(f) => OnError(sent, apiUrl, pathname, target, f, refresh, resend)
  }

  /**
   * The response interceptor's error handler. A transport error or a plain
   * rejection changes nothing; `_retry` ends set exactly when a 401 was
   * seen; a request already retried is never resolved and never touches the
   * credentials or headers; a resolved result is the resent request's reply.
   */
  function OnError<T>(s: State, apiUrl: string, pathname: string, target: Target,
                      f: Failure, refresh: RefreshReply, resend: Response<T>): (r: (State, Response<T>))
    ensures s.trace <= r.0.trace
    ensures f.NoResponse? ==> r == (s, Failed(WithHint(f, apiUrl)))
    ensures Classify(f, s.retry) == Reject ==> r == (s, Failed(f))
    ensures r.0.retry == (s.retry || (f.HttpError? && f.status == 401))
    ensures s.retry ==> r.1.Failed? && r.0.storage == s.storage && r.0.headers == s.headers
    ensures r.1.Ok? ==> r.1 == resend
    decreases if s.retry then 0 else 2
  {
    match Classify(f, s.retry)
    case Transport => (s, Failed(WithHint(f, apiUrl)))
    case SubscriptionExpired =>
      var nav := if Contains(pathname, "/subscription") then [] else [Navigated(ExpiredPage)];
      (s.(notice := Some(ExpiryNotice(f.data)), trace := s.trace + nav), Failed(f))
    case Reject => (s, Failed(f))
    case Refresh =>
      var marked := s.(retry := true);
      var refreshToken := GetItem(s.storage, RefreshTokenKey);
      if !Truthy(refreshToken) then (marked, Failed(f))
      else
        var asked := marked.(trace := marked.trace + [RefreshCall(apiUrl, refreshToken.value)]);
        match refresh
        case RefreshFailed(e) =>
          (asked.(storage := asked.storage - {AccessTokenKey, RefreshTokenKey},
                  trace := asked.trace + [Navigated(LoginPage)]),
           Failed(e))
        case Refreshed(accessToken, newRefreshToken) =>
          Dispatch(Renewed(asked, accessToken, newRefreshToken), apiUrl, pathname, target, resend, refresh, resend)
  }

  /**
   * After a successful refresh: the new access token is stored (as text),
   * the refresh token is replaced when a non-empty one came back, and the
   * request's own `Authorization` header carries the new token.
   */
  function Renewed(asked: State, accessToken: Option<string>, newRefreshToken: Option<string>): State
  {
    var token := JsString(accessToken);
    var stored := asked.storage[AccessTokenKey := token];
    var stored' := if Truthy(newRefreshToken) then stored[RefreshTokenKey := newRefreshToken.value] else stored;
    asked.(storage := stored', headers := asked.headers[Authorization := "Bearer " + token])
  }

  /** What `Renewed` keeps and changes. */
  lemma RenewedCredentials(asked: State, accessToken: Option<string>, newRefreshToken: Option<string>)
    requires RefreshTokenKey in asked.storage
    ensures var r := Renewed(asked, accessToken, newRefreshToken);
      && AccessTokenKey in r.storage && r.storage[AccessTokenKey] == JsString(accessToken)
      && RefreshTokenKey in r.storage
      && r.storage[RefreshTokenKey] == OrElse(newRefreshToken, asked.storage[RefreshTokenKey])
      && Authorization in r.headers && r.headers[Authorization] == "Bearer " + JsString(accessToken)
      && (forall k :: k in asked.storage && k != AccessTokenKey && k != RefreshTokenKey ==>
            k in r.storage && r.storage[k] == asked.storage[k])
      && r.storage.Keys == asked.storage.Keys + {AccessTokenKey}
      && (forall h :: h in asked.headers && h != Authorization ==> h in r.headers && r.headers[h] == asked.headers[h])
      && r.headers.Keys == asked.headers.Keys + {Authorization}
      && r.trace == asked.trace && r.notice == asked.notice && r.retry == asked.retry
  {
  }

  /** A 403 whose code marks an expired subscription. */
  lemma SubscriptionExpiredEffects<T>(s: State, apiUrl: string, pathname: string, target: Target,
                                      f: Failure, refresh: RefreshReply, resend: Response<T>)
    requires f.HttpError? && f.status == 403 && f.data.code == Some(SubscriptionExpiredCode)
    ensures var (t, r) := OnError(s, apiUrl, pathname, target, f, refresh, resend);
      && r == Failed(f)
      && t.notice == Some(ExpiryNotice(f.data))
      && t.storage == s.storage && t.headers == s.headers && t.retry == s.retry
      && (!Contains(pathname, "/subscription") ==> t.trace == s.trace + [Navigated(ExpiredPage)])
      && (Contains(pathname, "/subscription") ==> t.trace == s.trace)
  {
  }

  /** A first 401 with no (or an empty) refresh token: only `_retry` is set, and the 401 is rejected. */
  lemma NoRefreshTokenRejects<T>(s: State, apiUrl: string, pathname: string, target: Target,
                                 f: Failure, refresh: RefreshReply, resend: Response<T>)
    requires f.HttpError? && f.status == 401 && !s.retry
    requires !Truthy(GetItem(s.storage, RefreshTokenKey))
    ensures OnError(s, apiUrl, pathname, target, f, refresh, resend) == (s.(retry := true), Failed(f))
  {
  }

  /**
   * A first 401 whose refresh call fails: both tokens are gone, the page
   * goes to `/login`, and the caller sees the refresh error.
   */
  lemma RefreshFailureEndsSession<T>(s: State, apiUrl: string, pathname: string, target: Target,
                                     f: Failure, refresh: RefreshReply, resend: Response<T>)
    requires f.HttpError? && f.status == 401 && !s.retry
    requires Truthy(GetItem(s.storage, RefreshTokenKey))
    requires refresh.RefreshFailed?
    ensures var (t, r) := OnError(s, apiUrl, pathname, target, f, refresh, resend);
      && r == Failed(refresh.failure)
      && AccessTokenKey !in t.storage && RefreshTokenKey !in t.storage
      && (forall k :: k in s.storage && k != AccessTokenKey && k != RefreshTokenKey ==> k in t.storage && t.storage[k] == s.storage[k])
      && t.trace == s.trace + [RefreshCall(apiUrl, s.storage[RefreshTokenKey]), Navigated(LoginPage)]
      && t.notice == s.notice && t.headers == s.headers && t.retry
  {
  }

  /**
   * A first 401 whose refresh succeeds: the new access token is stored, the
   * refresh token is replaced only by a non-empty new one, and the request
   * is resent right after the refresh call with the new bearer. Whatever
   * the resent request gets back, the new credentials stay: its failure
   * escapes to the caller as it is (a second 401 included) and never
   * reaches the code that clears the session.
   */
  lemma RefreshSuccessResends<T>(s: State, apiUrl: string, pathname: string, target: Target,
                                 f: Failure, refresh: RefreshReply, resend: Response<T>)
    requires f.HttpError? && f.status == 401 && !s.retry
    requires Truthy(GetItem(s.storage, RefreshTokenKey))
    requires refresh.Refreshed?
    ensures var (t, r) := OnError(s, apiUrl, pathname, target, f, refresh, resend);
      var token := JsString(refresh.accessToken);
      && AccessTokenKey in t.storage && t.storage[AccessTokenKey] == token
      && RefreshTokenKey in t.storage
      && t.storage[RefreshTokenKey] == OrElse(refresh.refreshToken, s.storage[RefreshTokenKey])
      && Authorization in t.headers && t.headers[Authorization] == "Bearer " + token
      && (forall k :: k in s.storage && k != AccessTokenKey && k != RefreshTokenKey ==>
            k in t.storage && t.storage[k] == s.storage[k])
      && (forall h :: h in s.headers && h != Authorization ==> h in t.headers && t.headers[h] == s.headers[h])
      && var resent := s.trace + [RefreshCall(apiUrl, s.storage[RefreshTokenKey]), Call(target.verb, target.url, target.body)];
      && (t.trace == resent || t.trace == resent + [Navigated(ExpiredPage)])
      && Navigated(LoginPage) !in t.trace[|s.trace|..]
      && (resend.Ok? ==> r == resend)
      && (resend.Failed? ==> r.Failed?)
      && (resend.Failed? && resend.failure.HttpError? && resend.failure.status == 401 ==> r == resend)
  {
    var token := JsString(refresh.accessToken);
    var rt := s.storage[RefreshTokenKey];
    var asked := s.(retry := true, trace := s.trace + [RefreshCall(apiUrl, rt)]);
    var renewed := Renewed(asked, refresh.accessToken, refresh.refreshToken);
    RenewedCredentials(asked, refresh.accessToken, refresh.refreshToken);
    var call := Call(target.verb, target.url, target.body);
    var sent := renewed.(headers := WithBearer(renewed.storage, renewed.headers), trace := renewed.trace + [call]);
    assert sent.headers[Authorization] == "Bearer " + token;
    assert OnError(s, apiUrl, pathname, target, f, refresh, resend) == Dispatch(renewed, apiUrl, pathname, target, resend, refresh, resend);
    var (t, r) := OnError(s, apiUrl, pathname, target, f, refresh, resend);
    if resend.Failed? {
      assert (t, r) == OnError(sent, apiUrl, pathname, target, resend.failure, refresh, resend);
      RetriedNeverNavigatesToLogin(sent, apiUrl, pathname, target, resend.failure, refresh, resend);
      assert t.trace[|s.trace|..] == [RefreshCall(apiUrl, rt), call] + t.trace[|sent.trace|..];
    } else {
      assert t == sent;
    }
  }

  /** A request already retried adds at most the subscription redirect to the trace. */
  lemma RetriedNeverNavigatesToLogin<T>(s: State, apiUrl: string, pathname: string, target: Target,
                                        f: Failure, refresh: RefreshReply, resend: Response<T>)
    requires s.retry
    ensures var t := OnError(s, apiUrl, pathname, target, f, refresh, resend).0;
      t.trace == s.trace || t.trace == s.trace + [Navigated(ExpiredPage)]
  {
  }

  /** Whether an effect is a call to the refresh endpoint. */
  predicate IsRefreshCall(e: Event, apiUrl: string)
  {
    e.Call? && e.verb == Post && e.url == apiUrl + RefreshPath
  }

  /** How many refresh calls a trace holds. */
  function RefreshCount(trace: seq<Event>, apiUrl: string): nat
    decreases |trace|
  {
    if trace == [] then 0
    else RefreshCount(trace[..|trace| - 1], apiUrl) + (if IsRefreshCall(trace[|trace| - 1], apiUrl) then 1 else 0)
  }

  lemma {:induction false} RefreshCountAppend(a: seq<Event>, b: seq<Event>, apiUrl: string)
    ensures RefreshCount(a + b, apiUrl) == RefreshCount(a, apiUrl) + RefreshCount(b, apiUrl)
    decreases |b|
  {
    if b == [] {
      assert a + b == a;
    } else {
      RefreshCountAppend(a, b[..|b| - 1], apiUrl);
      assert (a + b)[..|a + b| - 1] == a + b[..|b| - 1];
    }
  }

  /** A request already retried makes no refresh call. */
  lemma RetriedAddsNoRefresh<T>(s: State, apiUrl: string, pathname: string, target: Target,
                                f: Failure, refresh: RefreshReply, resend: Response<T>)
    requires s.retry
    ensures var t := OnError(s, apiUrl, pathname, target, f, refresh, resend).0;
      s.trace <= t.trace && RefreshCount(t.trace[|s.trace|..], apiUrl) == 0
  {
    var t := OnError(s, apiUrl, pathname, target, f, refresh, resend).0;
    RetriedNeverNavigatesToLogin(s, apiUrl, pathname, target, f, refresh, resend);
    if t.trace == s.trace {
      assert t.trace[|s.trace|..] == [];
    } else {
      assert t.trace[|s.trace|..] == [Navigated(ExpiredPage)];
      assert [Navigated(ExpiredPage)][..0] == [];
    }
  }

  /** A refresh that succeeds is the only refresh call: the resent request makes none. */
  lemma RefreshedAddsOneRefresh<T>(s: State, apiUrl: string, pathname: string, target: Target,
                                   f: Failure, refresh: RefreshReply, resend: Response<T>)
    requires !(target.verb == Post && target.url == apiUrl + RefreshPath)
    requires Classify(f, s.retry) == Refresh && Truthy(GetItem(s.storage, RefreshTokenKey)) && refresh.Refreshed?
    ensures var t := OnError(s, apiUrl, pathname, target, f, refresh, resend).0;
      s.trace <= t.trace && RefreshCount(t.trace[|s.trace|..], apiUrl) == 1
  {
    var t := OnError(s, apiUrl, pathname, target, f, refresh, resend).0;
    var delta := t.trace[|s.trace|..];
    var rc := RefreshCall(apiUrl, GetItem(s.storage, RefreshTokenKey).value);
    assert RefreshCount([rc], apiUrl) == 1 by { assert [rc][..0] == []; }
    var token := JsString(refresh.accessToken);
    var asked := s.(retry := true, trace := s.trace + [rc]);
    var renewed := Renewed(asked, refresh.accessToken, refresh.refreshToken);
    var call := Call(target.verb, target.url, target.body);
    var sent := renewed.(headers := WithBearer(renewed.storage, renewed.headers), trace := renewed.trace + [call]);
    assert OnError(s, apiUrl, pathname, target, f, refresh, resend) == Dispatch(renewed, apiUrl, pathname, target, resend, refresh, resend);
    var tail: seq<Event> := t.trace[|sent.trace|..];
    if resend.Failed? {
      assert t == OnError(sent, apiUrl, pathname, target, resend.failure, refresh, resend).0;
      RetriedAddsNoRefresh(sent, apiUrl, pathname, target, resend.failure, refresh, resend);
    } else {
      assert tail == [];
    }
    assert delta == [rc] + [call] + tail;
    assert RefreshCount([call], apiUrl) == 0 by { assert [call][..0] == []; }
    RefreshCountAppend([rc], [call], apiUrl);
    RefreshCountAppend([rc] + [call], tail, apiUrl);
  }

  /**
   * One refresh per failing request: handling a failure adds exactly one
   * refresh call when the request was not yet retried, got a 401 and a
   * refresh token is stored, and none otherwise (for any request that is
   * not itself a refresh call).
   */
  lemma {:induction false} AtMostOneRefresh<T>(s: State, apiUrl: string, pathname: string, target: Target,
                                               f: Failure, refresh: RefreshReply, resend: Response<T>)
    requires !(target.verb == Post && target.url == apiUrl + RefreshPath)
    ensures var t := OnError(s, apiUrl, pathname, target, f, refresh, resend).0;
      && s.trace <= t.trace
      && RefreshCount(t.trace[|s.trace|..], apiUrl) ==
         (if Classify(f, s.retry) == Refresh && Truthy(GetItem(s.storage, RefreshTokenKey)) then 1 else 0)
  {
    var t := OnError(s, apiUrl, pathname, target, f, refresh, resend).0;
    var delta := t.trace[|s.trace|..];
    match Classify(f, s.retry)
    case Transport =>
      assert delta == [];
    case Reject =>
      assert delta == [];
    case SubscriptionExpired =>
      assert delta == [] || delta == [Navigated(ExpiredPage)];
      assert RefreshCount([Navigated(ExpiredPage)], apiUrl) == 0 by {
        assert [Navigated(ExpiredPage)][..0] == [];
      }
    case Refresh =>
      var refreshToken := GetItem(s.storage, RefreshTokenKey);
      if !Truthy(refreshToken) {
        assert delta == [];
      } else if refresh.Refreshed? {
        RefreshedAddsOneRefresh(s, apiUrl, pathname, target, f, refresh, resend);
      } else {
        var rc := RefreshCall(apiUrl, refreshToken.value);
        assert RefreshCount([rc], apiUrl) == 1 by { assert [rc][..0] == []; }
        assert delta == [rc] + [Navigated(LoginPage)];
        RefreshCountAppend([rc], [Navigated(LoginPage)], apiUrl);
        assert RefreshCount([Navigated(LoginPage)], apiUrl) == 0 by {
          assert [Navigated(LoginPage)][..0] == [];
        }
      }
  }

  /** An outgoing request: fixed target, mutable headers and `_retry` flag. */
  class Request {
    const target: Target
    var headers: map<string, string>
    var retry: bool

    constructor(target: Target, headers: map<string, string>)
      ensures this.target == target && this.headers == headers && !retry
    {
      this.target := target;
      this.headers := headers;
      retry := false;
    }
  }

  /** The part of the browser and the request that a call can change. */
  function StateOf(b: Browser, req: Request): State
    reads b, req
  {
    State(b.storage, b.notice, b.trace, req.headers, req.retry)
  }

  /** The configured axios instance `api` and its two interceptors. */
  class Client {
    const baseUrl: string
    const browser: Browser

    constructor(env: Option<string>, browser: Browser)
      ensures baseUrl == ApiUrl(env) && this.browser == browser
    {
      baseUrl := ApiUrl(env);
      this.browser := browser;
    }

    /** The request interceptor. */
    method Authorize(req: Request)
      modifies req
      ensures req.headers == WithBearer(browser.storage, old(req.headers))
      ensures req.retry == old(req.retry)
    {
      var token := GetItem(browser.storage, AccessTokenKey);
      if Truthy(token) {
        req.headers := req.headers[Authorization := "Bearer " + token.value];
      }
    }

    /** `api(req)`: `reply` is what the server sends; `refresh` and `resend` answer a refresh and the resent request. */
    method Send<T>(req: Request, reply: Response<T>, refresh: RefreshReply, resend: Response<T>) returns (r: Response<T>)
      modifies browser, req
      ensures (StateOf(browser, req), r) ==
        Dispatch(old(StateOf(browser, req)), baseUrl, browser.pathname, req.target, reply, refresh, resend)
      ensures browser.pathname == old(browser.pathname)
      decreases if req.retry then 1 else 3
    {
      Authorize(req);
      browser.Issue(req.target.verb, req.target.url, req.target.body);
      match reply
      case Ok(data) =>
        r := Ok(data);
      case Failed(f) =>
        r := OnResponseError(req, f, refresh, resend);
    }

    /** The response interceptor's error handler. */
    method OnResponseError<T>(req: Request, f: Failure, refresh: RefreshReply, resend: Response<T>) returns (r: Response<T>)
      modifies browser, req
      ensures (StateOf(browser, req), r) ==
        OnError(old(StateOf(browser, req)), baseUrl, browser.pathname, req.target, f, refresh, resend)
      ensures browser.pathname == old(browser.pathname)
      decreases if req.retry then 0 else 2
    {
      if f.NoResponse? {
        r := Failed(WithHint(f, baseUrl));
        return;
      }
      if f.status == 403 && f.data.code == Some(SubscriptionExpiredCode) {
        browser.SetNotice(ExpiryNotice(f.data));
        if !Contains(browser.pathname, "/subscription") {
          browser.Navigate(ExpiredPage);
        } else {
          assert browser.trace == old(browser.trace) + [];
        }
        r := Failed(f);
        return;
      }
      if f.status == 401 && !req.retry {
        req.retry := true;
        var refreshToken := GetItem(browser.storage, RefreshTokenKey);
        if Truthy(refreshToken) {
          browser.Issue(Post, baseUrl + RefreshPath, map["refreshToken" := refreshToken.value]);
          match refresh
          case RefreshFailed(e) =>
            browser.RemoveItem(AccessTokenKey);
            browser.RemoveItem(RefreshTokenKey);
            assert browser.storage == old(browser.storage) - {AccessTokenKey, RefreshTokenKey};
            browser.Navigate(LoginPage);
            r := Failed(e);
            return;
          case Refreshed(accessToken, newRefreshToken) =>
            browser.SetItem(AccessTokenKey, JsString(accessToken));
            if Truthy(newRefreshToken) {
              browser.SetItem(RefreshTokenKey, newRefreshToken.value);
            }
            req.headers := req.headers[Authorization := "Bearer " + JsString(accessToken)];
            r := Send(req, resend, refresh, resend);
            return;
        }
      }
      r := Failed(f);
    }
  }
}
