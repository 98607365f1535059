/**
 * The platform administrator's page of app/admin/page.tsx: the list of all
 * restaurants with their subscriptions, the remaining-days badge on each
 * card, and the create, edit, delete and cancel-subscription actions.
 *
 * Dates are integer milliseconds since the epoch; `now` is a parameter.
 */
module Admin {
  import opened Wrappers
  import opened Strings
  import opened Browser
  import opened Api
  import opened Lists
  import opened Feedback

  const DayMs := 1000 * 60 * 60 * 24

  /** `Math.ceil(a / b)` for a positive divisor, in integers. */
  function CeilDiv(a: int, b: int): (q: int)
    requires b > 0
    ensures (q - 1) * b < a <= q * b
  {
    -((-a) / b)
  }

  /**
   * `calculateRemainingDays`: no end date gives `null`; otherwise the
   * number of started days from `now` to `end`, rounded up, so an end date
   * less than one day in the past still counts as day 0.
   */
  function RemainingDays(end: Option<int>, now: int): (days: Option<int>)
    ensures days.None? <==> end.None?
    ensures end.Some? ==> (days.value - 1) * DayMs < end.value - now <= days.value * DayMs
  {
    if end.None? then None else Some(CeilDiv(end.value - now, DayMs))
  }

  /** The card's `isExpired`. */
  predicate IsExpired(days: Option<int>)
  {
    days.Some? && days.value < 0
  }

  /** A subscription shows as expired exactly when it ended a full day or more ago. */
  lemma {:induction false} ExpiredAfterAFullDay(end: int, now: int)
    ensures IsExpired(RemainingDays(Some(end), now)) <==> end + DayMs <= now
  {
    var d := RemainingDays(Some(end), now).value;
    if d < 0 {
      assert d * DayMs <= -DayMs;
    } else {
      assert (d - 1) * DayMs >= -DayMs;
    }
  }

  datatype Urgency = Red | Yellow | Green

  /** The colour of the remaining-days figure. */
  function UrgencyOf(days: int): (u: Urgency)
    ensures u == Red <==> days <= 7
    ensures u == Yellow <==> 7 < days <= 30
    ensures u == Green <==> 30 < days
  {
    if days <= 7 then Red else if days <= 30 then Yellow else Green
  }

  function Severity(u: Urgency): nat
  {
    match u
    case Red => 2
    case Yellow => 1
    case Green => 0
  }

  /** Fewer remaining days is never less urgent. */
  lemma UrgencyMonotone(d1: int, d2: int)
    requires d1 <= d2
    ensures Severity(UrgencyOf(d1)) >= Severity(UrgencyOf(d2))
  {
  }

  /** What a card shows in its subscription box. */
  datatype Badge = ExpiredBadge | RemainingBadge(days: int, urgency: Urgency) | NoBadge

  function BadgeOf(end: Option<int>, now: int): (b: Badge)
    ensures b.NoBadge? <==> end.None?
    ensures b.ExpiredBadge? <==> IsExpired(RemainingDays(end, now))
    ensures b.RemainingBadge? ==> b.days >= 0 && b.days == RemainingDays(end, now).value
    ensures b.RemainingBadge? ==> b.urgency == UrgencyOf(b.days)
  {
    var days := RemainingDays(end, now);
    if IsExpired(days) then ExpiredBadge
    else if days.Some? then RemainingBadge(days.value, UrgencyOf(days.value))
    else NoBadge
  }

  /** A subscription that has not expired and ends within a week of `now` is shown in red. */
  lemma {:induction false} RedWithinAWeek(end: int, now: int)
    requires now < end + DayMs && end - now <= 7 * DayMs
    ensures BadgeOf(Some(end), now).RemainingBadge? && BadgeOf(Some(end), now).urgency == Red
  {
    ExpiredAfterAFullDay(end, now);
    var d := RemainingDays(Some(end), now).value;
    assert (d - 1) * DayMs < 7 * DayMs;
  }

  datatype Subscription = Subscription(plan: string, status: string, currentPeriodEnd: Option<int>)

  datatype Restaurant = Restaurant(id: string, name: string, ownerPhone: string, subscription: Subscription)

  /** The buttons on a restaurant's card. */
  datatype CardAction = Edit | Remove | Cancel

  /**
   * A card always offers edit and delete, in that order; the
   * cancel-subscription button follows only on an active subscription.
   */
  function CardActions(r: Restaurant): (acts: seq<CardAction>)
    ensures |acts| >= 2 && acts[0] == Edit && acts[1] == Remove
    ensures Cancel in acts <==> r.subscription.status == "ACTIVE"
  {
    [Edit, Remove] + (if r.subscription.status == "ACTIVE" then [Cancel] else [])
  }

  /** The platform counters shown on the overview tab; the growth and breakdown lists are not modelled. */
  datatype PlatformStats = PlatformStats(totalRestaurants: int, totalUsers: int, activeSubscriptions: int)

  /** The create-restaurant form. */
  datatype RestaurantForm = RestaurantForm(
    name: string, ownerPhone: string, ownerFirstName: string, ownerLastName: string,
    description: string, phone: string, address: string, plan: string, subscriptionDuration: int)

  const EmptyForm := RestaurantForm("", "", "", "", "", "", "", "PRO", 1)

  /** The edit form: name, plan and a duration extension. */
  datatype EditForm = EditForm(name: string, plan: string, subscriptionDuration: int)

  function FormBody(f: RestaurantForm): map<string, string>
  {
    map["name" := f.name, "ownerPhone" := f.ownerPhone, "ownerFirstName" := f.ownerFirstName,
        "ownerLastName" := f.ownerLastName, "description" := f.description, "phone" := f.phone,
        "address" := f.address, "plan" := f.plan, "subscriptionDuration" := Decimal(f.subscriptionDuration)]
  }

  /** `restaurants.filter(r => r.id !== id)`: exactly the entries with that id go, the rest stay in order. */
  function WithoutRestaurant(rs: seq<Restaurant>, id: string): (r: seq<Restaurant>)
    ensures forall i :: 0 <= i < |r| ==> r[i].id != id && r[i] in rs
    ensures forall i :: 0 <= i < |rs| && rs[i].id != id ==> rs[i] in r
  {
    FilterMembers(rs, (x: Restaurant) => x.id != id);
    Filter(rs, (x: Restaurant) => x.id != id)
  }

  /** Deleting distributes over the list, so the kept restaurants keep their relative order. */
  lemma DeleteKeepsOrder(a: seq<Restaurant>, b: seq<Restaurant>, id: string)
    ensures WithoutRestaurant(a + b, id) == WithoutRestaurant(a, id) + WithoutRestaurant(b, id)
  {
    FilterAppend(a, b, (x: Restaurant) => x.id != id);
  }

  /** The edit form for a restaurant: its name and plan, and no extension. */
  function EditFormFor(r: Restaurant): (f: EditForm)
    ensures f.name == r.name && f.plan == r.subscription.plan && f.subscriptionDuration == 0
  {
    EditForm(r.name, r.subscription.plan, 0)
  }

  datatype AdminState = AdminState(
    restaurants: seq<Restaurant>,
    stats: Option<PlatformStats>,
    loading: bool,
    showCreateModal: bool,
    formData: RestaurantForm,
    editingRestaurant: Option<Restaurant>,
    showEditModal: bool,
    editFormData: EditForm,
    alert: Option<string>)

  class AdminPage {
    const browser: Browser
    var restaurants: seq<Restaurant>
    var stats: Option<PlatformStats>
    var loading: bool
    var showCreateModal: bool
    var formData: RestaurantForm
    var editingRestaurant: Option<Restaurant>
    var showEditModal: bool
    var editFormData: EditForm
    var alert: Option<string>   // the last `alert` shown

    function Snapshot(): AdminState
      reads this
    {
      AdminState(restaurants, stats, loading, showCreateModal, formData, editingRestaurant, showEditModal,
        editFormData, alert)
    }

    constructor(browser: Browser)
      ensures this.browser == browser
      ensures Snapshot() == AdminState([], None, true, false, EmptyForm, None, false, EditForm("", "PRO", 1), None)
    {
      this.browser := browser;
      restaurants := [];
      stats := None;
      loading := true;
      showCreateModal := false;
      formData := EmptyForm;
      editingRestaurant := None;
      showEditModal := false;
      editFormData := EditForm("", "PRO", 1);
      alert := None;
    }

    /** `fetchData`: both lists are set only when both calls succeed. */
    method FetchData(list: Response<seq<Restaurant>>, platform: Response<PlatformStats>)
      modifies this, browser
      ensures browser.trace == old(browser.trace) + [Call(Get, "/restaurants", map[]), Call(Get, "/admin/stats", map[])]
      ensures Snapshot() == if list.Ok? && platform.Ok? then
          old(Snapshot()).(restaurants := list.data, stats := Some(platform.data), loading := false)
        else old(Snapshot()).(loading := false)
      ensures browser.storage == old(browser.storage) && browser.notice == old(browser.notice)
    {
      browser.Issue(Get, "/restaurants", map[]);
      browser.Issue(Get, "/admin/stats", map[]);
      if list.Ok? && platform.Ok? {
        restaurants := list.data;
        stats := Some(platform.data);
      }
      loading := false;
    }

    /** `handleDeleteRestaurant`: after confirmation, the restaurant leaves the local list on success. */
    method DeleteRestaurant(id: string, confirmed: bool, reply: Response<()>)
      modifies this, browser
      ensures !confirmed ==> Snapshot() == old(Snapshot()) && browser.trace == old(browser.trace)
      ensures confirmed ==>
        && browser.trace == old(browser.trace) + [Call(Delete, "/restaurants/" + id, map[])]
        && Snapshot() == if reply.Ok? then
             old(Snapshot()).(restaurants := WithoutRestaurant(old(restaurants), id), alert := Some("تم حذف المطعم بنجاح"))
           else old(Snapshot()).(alert := Some(FailureText(reply.failure, "فشل حذف المطعم")))
      ensures browser.storage == old(browser.storage) && browser.notice == old(browser.notice)
    {
      if !confirmed {
        return;
      }
      browser.Issue(Delete, "/restaurants/" + id, map[]);
      if reply.Ok? {
        restaurants := WithoutRestaurant(restaurants, id);
        alert := Some("تم حذف المطعم بنجاح");
      } else {
        alert := Some(FailureText(reply.failure, "فشل حذف المطعم"));
      }
    }

    /** `openEditModal`. */
    method OpenEditModal(r: Restaurant)
      modifies this
      ensures Snapshot() == old(Snapshot()).(editingRestaurant := Some(r), editFormData := EditFormFor(r), showEditModal := true)
    {
      editingRestaurant := Some(r);
      editFormData := EditFormFor(r);
      showEditModal := true;
    }

    /**
     * `handleUpdateRestaurant`: only the name is sent. On success the modal
     * closes and the data is fetched again.
     */
    method UpdateRestaurant(reply: Response<()>, list: Response<seq<Restaurant>>, platform: Response<PlatformStats>)
      modifies this, browser
      ensures old(editingRestaurant).None? ==> Snapshot() == old(Snapshot()) && browser.trace == old(browser.trace)
      ensures old(editingRestaurant).Some? && reply.Failed? ==>
        && browser.trace == old(browser.trace) +
             [Call(Patch, "/restaurants/" + old(editingRestaurant).value.id, map["name" := old(editFormData).name])]
        && Snapshot() == old(Snapshot()).(alert := Some(FailureText(reply.failure, "فشل تحديث المطعم")))
      ensures old(editingRestaurant).Some? && reply.Ok? ==>
        && browser.trace == old(browser.trace) +
             [Call(Patch, "/restaurants/" + old(editingRestaurant).value.id, map["name" := old(editFormData).name]),
              Call(Get, "/restaurants", map[]), Call(Get, "/admin/stats", map[])]
        && Snapshot() == old(Snapshot()).(
             restaurants := if list.Ok? && platform.Ok? then list.data else old(restaurants),
             stats := if list.Ok? && platform.Ok? then Some(platform.data) else old(stats),
             loading := false, showEditModal := false, editingRestaurant := None,
             alert := Some("تم تحديث بيانات المطعم بنجاح"))
      ensures browser.storage == old(browser.storage) && browser.notice == old(browser.notice)
    {
      if editingRestaurant.None? {
        return;
      }
      browser.Issue(Patch, "/restaurants/" + editingRestaurant.value.id, map["name" := editFormData.name]);
      if reply.Failed? {
        alert := Some(FailureText(reply.failure, "فشل تحديث المطعم"));
        return;
      }
      showEditModal := false;
      editingRestaurant := None;
      FetchData(list, platform);
      alert := Some("تم تحديث بيانات المطعم بنجاح");
    }

    /** `handleCreateRestaurant`: on success the modal closes, the form is reset and the data fetched again. */
    method CreateRestaurant(reply: Response<()>, list: Response<seq<Restaurant>>, platform: Response<PlatformStats>)
      modifies this, browser
      ensures reply.Failed? ==>
        && browser.trace == old(browser.trace) + [Call(Post, "/restaurants", FormBody(old(formData)))]
        && Snapshot() == old(Snapshot()).(alert := Some(FailureText(reply.failure, "فشل إنشاء المطعم")))
      ensures reply.Ok? ==>
        && browser.trace == old(browser.trace) +
             [Call(Post, "/restaurants", FormBody(old(formData))), Call(Get, "/restaurants", map[]), Call(Get, "/admin/stats", map[])]
        && Snapshot() == old(Snapshot()).(
             restaurants := if list.Ok? && platform.Ok? then list.data else old(restaurants),
             stats := if list.Ok? && platform.Ok? then Some(platform.data) else old(stats),
             loading := false, showCreateModal := false, formData := EmptyForm)
      ensures browser.storage == old(browser.storage) && browser.notice == old(browser.notice)
    {
      browser.Issue(Post, "/restaurants", FormBody(formData));
      if reply.Failed? {
        alert := Some(FailureText(reply.failure, "فشل إنشاء المطعم"));
        return;
      }
      showCreateModal := false;
      formData := EmptyForm;
      FetchData(list, platform);
    }

    /** `handleCancelSubscription`: after confirmation, the cancel call and, on success, a refetch. */
    method CancelSubscription(restaurantId: string, confirmed: bool, reply: Response<()>,
                              list: Response<seq<Restaurant>>, platform: Response<PlatformStats>)
      modifies this, browser
      ensures !confirmed ==> Snapshot() == old(Snapshot()) && browser.trace == old(browser.trace)
      ensures confirmed && reply.Failed? ==>
        && browser.trace == old(browser.trace) + [Call(Patch, "/admin/subscriptions/" + restaurantId + "/cancel", map[])]
        && Snapshot() == old(Snapshot()).(alert := Some(FailureText(reply.failure, "فشل إلغاء الاشتراك")))
      ensures confirmed && reply.Ok? ==>
        && browser.trace == old(browser.trace) + [Call(Patch, "/admin/subscriptions/" + restaurantId + "/cancel", map[]),
             Call(Get, "/restaurants", map[]), Call(Get, "/admin/stats", map[])]
        && Snapshot() == old(Snapshot()).(
             restaurants := if list.Ok? && platform.Ok? then list.data else old(restaurants),
             stats := if list.Ok? && platform.Ok? then Some(platform.data) else old(stats),
             loading := false, alert := Some("تم إلغاء الاشتراك بنجاح"))
      ensures browser.storage == old(browser.storage) && browser.notice == old(browser.notice)
    {
      if !confirmed {
        return;
      }
      browser.Issue(Patch, "/admin/subscriptions/" + restaurantId + "/cancel", map[]);
      if reply.Failed? {
        alert := Some(FailureText(reply.failure, "فشل إلغاء الاشتراك"));
        return;
      }
      alert := Some("تم إلغاء الاشتراك بنجاح");
      FetchData(list, platform);
    }
  }
}
