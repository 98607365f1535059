/**
 * The page of app/dashboard/subscription-expired/page.tsx shown after the
 * client saw an expired subscription: it consumes the stored notice once,
 * tries to read a restaurant id from its own path, and offers a renewal link.
 */
module SubscriptionExpired {
  import opened Wrappers
  import opened Strings
  import opened Browser
  import opened Api

  const PageSegment := "subscription-expired"
  const FallbackMessage := "انتهت مدة الاشتراك. يرجى تجديد الاشتراك للوصول إلى لوحة التحكم والمنيو."

  /**
   * The restaurant id named by the last `/`-separated segment of the path,
   * unless that segment is empty or is the page's own name.
   */
  function RestaurantIdFromPath(pathname: string): (id: Option<string>)
    ensures id.None? <==> LastSegment(pathname, '/') in {"", PageSegment}
    ensures id.Some? ==> id.value == LastSegment(pathname, '/')
  {
    var last := LastSegment(pathname, '/');
    if last != "" && last != PageSegment then Some(last) else None
  }

  /** An id appended as the last segment of any path is read back. */
  lemma ReadsAppendedId(prefix: string, id: string)
    requires '/' !in id && id != "" && id != PageSegment
    ensures RestaurantIdFromPath(prefix + "/" + id) == Some(id)
  {
    LastSegmentAfter(prefix, id, '/');
  }

  /** On the page's own route, and on any path ending in `/`, no id is found. */
  lemma {:induction false} NoIdOnOwnRoute(prefix: string)
    ensures RestaurantIdFromPath(prefix + "/" + PageSegment) == None
    ensures RestaurantIdFromPath(prefix + "/") == None
  {
    LastSegmentAfter(prefix, PageSegment, '/');
    LastSegmentAfter(prefix, "", '/');
    assert prefix + "/" + "" == prefix + "/";
  }

  /** Where "renew" leads: the dashboard without an id, the restaurant's subscription page with one. */
  function RenewTarget(id: Option<string>): (href: string)
    ensures id.None? ==> href == "/dashboard"
    ensures id.Some? ==> href == "/dashboard/restaurants/" + id.value + "/subscription"
  {
    if id.None? then "/dashboard" else "/dashboard/restaurants/" + id.value + "/subscription"
  }

  /** The message shown: the stored one when non-empty, else the page's own text. */
  function DisplayMessage(info: Option<Notice>): (m: string)
    ensures m != ""
    ensures info.Some? && info.value.message != "" ==> m == info.value.message
    ensures !(info.Some? && info.value.message != "") ==> m == FallbackMessage
  {
    if info.Some? && info.value.message != "" then info.value.message else FallbackMessage
  }

  /** A notice stored by the response interceptor is shown with the interceptor's message. */
  lemma ShowsInterceptorMessage(data: ErrorData)
    ensures DisplayMessage(Some(ExpiryNotice(data))) == OrElse(data.message, DefaultExpiredMessage)
  {
  }

  /** `formatDate`: the empty string stays empty; any other date is handed to the locale formatter. */
  function FormatDate(dateString: string, localize: string -> string): (r: string)
    ensures dateString == "" ==> r == ""
    ensures dateString != "" ==> r == localize(dateString)
  {
    if dateString == "" then "" else localize(dateString)
  }

  class SubscriptionExpiredPage {
    const browser: Browser
    var subscriptionInfo: Option<Notice>
    var restaurantId: Option<string>

    constructor(browser: Browser)
      ensures this.browser == browser && subscriptionInfo == None && restaurantId == None
    {
      this.browser := browser;
      subscriptionInfo := None;
      restaurantId := None;
    }

    /**
     * The mount effect: the stored notice is taken if present and removed in
     * every case, so a later mount finds nothing; the id is read from the path.
     */
    method Mount()
      modifies this, browser
      ensures subscriptionInfo == if old(browser.notice).Some? then old(browser.notice) else old(subscriptionInfo)
      ensures restaurantId == if RestaurantIdFromPath(browser.pathname).Some? then RestaurantIdFromPath(browser.pathname)
        else old(restaurantId)
      ensures browser.notice == None
      ensures browser.storage == old(browser.storage) && browser.trace == old(browser.trace)
      ensures browser.pathname == old(browser.pathname)
    {
      var stored := browser.notice;
      if stored.Some? {
        subscriptionInfo := stored;
      }
      var idFromPath := RestaurantIdFromPath(browser.pathname);
      if idFromPath.Some? {
        restaurantId := idFromPath;
      }
      browser.RemoveNotice();
    }

    /** `handleRenew`. */
    method HandleRenew()
      modifies browser
      ensures browser.trace == old(browser.trace) + [Navigated(RenewTarget(restaurantId))]
      ensures browser.storage == old(browser.storage) && browser.notice == old(browser.notice)
    {
      browser.Navigate(RenewTarget(restaurantId));
    }
  }
}
