/**
 * The browser state the client shares between its modules: `localStorage`,
 * the current `window.location.pathname`, and the outward effects a page
 * causes (HTTP calls it issues and navigations it starts), in order.
 */
module Browser {
  import opened Wrappers

  /** The `localStorage` keys of the two session credentials. */
  const AccessTokenKey := "accessToken"
  const RefreshTokenKey := "refreshToken"

  /**
   * The `{message, expiredAt}` record kept under the `subscriptionExpired`
   * key; JSON encoding of it is not modelled, the slot holds the record.
   */
  datatype Notice = Notice(message: string, expiredAt: Option<string>)

  datatype Verb = Get | Post | Patch | Delete

  /** One outward effect: an HTTP call issued, or a navigation started. */
  datatype Event =
    | Call(verb: Verb, url: string, body: map<string, string>)
    | Navigated(href: string)

  /** `localStorage.getItem(key)`: `null` is `None`. */
  function GetItem(storage: map<string, string>, key: string): (v: Option<string>)
    ensures v.Some? <==> key in storage
    ensures v.Some? ==> v.value == storage[key]
  {
    if key in storage then Some(storage[key]) else None
  }

  /** JavaScript truthiness of an optional string: present and non-empty. */
  predicate Truthy(v: Option<string>)
  {
    v.Some? && v.value != ""
  }

  /** `v || fallback` on an optional string. */
  function OrElse(v: Option<string>, fallback: string): (r: string)
    ensures Truthy(v) ==> r == v.value
    ensures !Truthy(v) ==> r == fallback
  {
    if Truthy(v) then v.value else fallback
  }

  /** `String(v)`, as `setItem` and template literals convert `undefined`. */
  function JsString(v: Option<string>): string
  {
    if v.Some? then v.value else "undefined"
  }

  class Browser {
    var storage: map<string, string>
    var notice: Option<Notice>
    var pathname: string
    var trace: seq<Event>

    constructor(storage: map<string, string>, notice: Option<Notice>, pathname: string)
      ensures this.storage == storage && this.notice == notice && this.pathname == pathname
      ensures trace == []
    {
      this.storage := storage;
      this.notice := notice;
      this.pathname := pathname;
      trace := [];
    }

    /** `localStorage.setItem(key, value)`. */
    method SetItem(key: string, value: string)
      modifies this
      ensures storage == old(storage)[key := value]
      ensures notice == old(notice) && pathname == old(pathname) && trace == old(trace)
    {
      storage := storage[key := value];
    }

    /** `localStorage.removeItem(key)`. */
    method RemoveItem(key: string)
      modifies this
      ensures storage == old(storage) - {key}
      ensures notice == old(notice) && pathname == old(pathname) && trace == old(trace)
    {
      storage := storage - {key};
    }

    /** `localStorage.setItem('subscriptionExpired', JSON.stringify(n))`. */
    method SetNotice(n: Notice)
      modifies this
      ensures notice == Some(n)
      ensures storage == old(storage) && pathname == old(pathname) && trace == old(trace)
    {
      notice := Some(n);
    }

    /** `localStorage.removeItem('subscriptionExpired')`. */
    method RemoveNotice()
      modifies this
      ensures notice == None
      ensures storage == old(storage) && pathname == old(pathname) && trace == old(trace)
    {
      notice := None;
    }

    /** An HTTP call leaves the page. */
    method Issue(verb: Verb, url: string, body: map<string, string>)
      modifies this
      ensures trace == old(trace) + [Call(verb, url, body)]
      ensures storage == old(storage) && notice == old(notice) && pathname == old(pathname)
    {
      trace := trace + [Call(verb, url, body)];
    }

    /** `window.location.href = href` or `router.push(href)`. */
    method Navigate(href: string)
      modifies this
      ensures trace == old(trace) + [Navigated(href)]
      ensures storage == old(storage) && notice == old(notice) && pathname == old(pathname)
    {
      trace := trace + [Navigated(href)];
    }
  }
}
