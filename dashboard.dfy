/**
 * The owner's dashboard of app/dashboard/page.tsx: the first restaurant of
 * the signed-in owner with its categories, menu items, settings and QR
 * codes, and the handlers that change them. Every handler is keyed in
 * `loadingActions`; a handler whose key is already pending does nothing.
 *
 * Each `api` call is one `Call` event on the browser's trace and its
 * settled outcome is a parameter of the handler; the interceptor's own
 * effects on such a call are those of module Api.
 */
module Dashboard {
  import opened Wrappers
  import opened Strings
  import opened Browser
  import opened Api
  import opened Lists
  import opened Upload
  import opened Feedback

  datatype Category = Category(
    id: string,
    name: string,
    description: Option<string>,
    isActive: bool,
    itemCount: Option<int>)   // `_count.items`

  datatype MenuItem = MenuItem(
    id: string,
    name: string,
    price: int,
    isAvailable: bool,
    categoryId: string,
    image: Option<string>,
    description: Option<string>)

  /** The `data` of `handleCreateItem`. */
  datatype NewItem = NewItem(
    categoryId: string,
    name: string,
    price: int,
    description: Option<string>,
    image: Option<string>)

  datatype Settings = Settings(id: string, customLogo: Option<string>, primaryColor: Option<string>)

  datatype QrCode = QrCode(id: string, code: string)

  datatype Restaurant = Restaurant(id: string, name: string)

  // ----- Keys of the pending actions -----

  datatype Action =
    | CreateCategory
    | UpdateCategory(id: string)
    | DeleteCategory(id: string)
    | CreateItem
    | UploadItemImage(id: string)
    | UpdateItem(id: string)
    | DeleteItem(id: string)
    | GenerateQr

  function Prefix(a: Action): string
  {
    match a
    case CreateCategory => "create-category"
    case UpdateCategory(_) => "update-category-"
    case DeleteCategory(_) => "delete-category-"
    case CreateItem => "create-item"
    case UploadItemImage(_) => "upload-item-image-"
    case UpdateItem(_) => "update-item-"
    case DeleteItem(_) => "delete-item-"
    case GenerateQr => "generate-qr"
  }

  function Subject(a: Action): string
  {
    match a
    case UpdateCategory(id) => id
    case DeleteCategory(id) => id
    case UploadItemImage(id) => id
    case UpdateItem(id) => id
    case DeleteItem(id) => id
    case _ => ""
  }

  /** The string an action is kept under in `loadingActions`, e.g. `update-item-<id>`. */
  function ActionKey(a: Action): string
  {
    Prefix(a) + Subject(a)
  }

  /** The prefix named by a key's first eight characters. */
  function PrefixOfHead(head: string): string
  {
    if head == "create-c" then "create-category"
    else if head == "update-c" then "update-category-"
    else if head == "delete-c" then "delete-category-"
    else if head == "create-i" then "create-item"
    else if head == "upload-i" then "upload-item-image-"
    else if head == "update-i" then "update-item-"
    else if head == "delete-i" then "delete-item-"
    else "generate-qr"
  }

  lemma HeadNamesPrefix(a: Action)
    ensures |Prefix(a)| >= 8 && PrefixOfHead(Prefix(a)[..8]) == Prefix(a)
  {
    match a
    case CreateCategory => assert Prefix(a)[..8] == "create-c";
    case UpdateCategory(_) => assert Prefix(a)[..8] == "update-c";
    case DeleteCategory(_) => assert Prefix(a)[..8] == "delete-c";
    case CreateItem => assert Prefix(a)[..8] == "create-i";
    case UploadItemImage(_) => assert Prefix(a)[..8] == "upload-i";
    case UpdateItem(_) => assert Prefix(a)[..8] == "update-i";
    case DeleteItem(_) => assert Prefix(a)[..8] == "delete-i";
    case GenerateQr => assert Prefix(a)[..8] == "generate";
  }

  /**
   * Distinct actions have distinct keys: a pending update of one item never
   * blocks the update of another item, nor any other kind of action.
   */
  lemma {:induction false} ActionKeyInjective(a: Action, b: Action)
    ensures ActionKey(a) == ActionKey(b) <==> a == b
  {
    if ActionKey(a) == ActionKey(b) {
      var k := ActionKey(a);
      HeadNamesPrefix(a);
      HeadNamesPrefix(b);
      assert k[..8] == Prefix(a)[..8] == Prefix(b)[..8];
      assert Prefix(a) == Prefix(b);
      assert Subject(a) == k[|Prefix(a)|..] == Subject(b);
    }
  }

  // ----- The list updaters -----

  /** `prev.map(c => c.id === id ? updated : c)`. */
  function Replaced(cats: seq<Category>, id: string, updated: Category): (r: seq<Category>)
    ensures |r| == |cats|
    ensures forall i :: 0 <= i < |cats| && cats[i].id == id ==> r[i] == updated
    ensures forall i :: 0 <= i < |cats| && cats[i].id != id ==> r[i] == cats[i]
  {
    Map(cats, (c: Category) => if c.id == id then updated else c)
  }

  /** `c._count?.items || 0`. */
  function CountOf(c: Category): int
  {
    c.itemCount.GetOr(0)
  }

  /** The category's count after one more item: a missing count counts as 0. */
  function Counted(c: Category): (d: Category)
    ensures d.itemCount == Some(CountOf(c) + 1)
    ensures d.(itemCount := c.itemCount) == c
  {
    c.(itemCount := Some(CountOf(c) + 1))
  }

  /** The local count update after an item is created in `categoryId`. */
  function WithItemCounted(cats: seq<Category>, categoryId: string): (r: seq<Category>)
    ensures |r| == |cats|
    ensures forall i :: 0 <= i < |cats| && cats[i].id == categoryId ==> r[i] == Counted(cats[i])
    ensures forall i :: 0 <= i < |cats| && cats[i].id != categoryId ==> r[i] == cats[i]
  {
    Map(cats, (c: Category) => if c.id == categoryId then Counted(c) else c)
  }

  function TotalItems(cats: seq<Category>): int
  {
    if cats == [] then 0 else CountOf(cats[0]) + TotalItems(cats[1..])
  }

  function Occurrences(cats: seq<Category>, id: string): nat
  {
    if cats == [] then 0 else (if cats[0].id == id then 1 else 0) + Occurrences(cats[1..], id)
  }

  /**
   * Creating an item raises the dashboard's total item count by one for each
   * category listed under its id: by exactly one when ids are unique, and
   * not at all when the category is not listed.
   */
  lemma {:induction false} ItemCountedOnce(cats: seq<Category>, categoryId: string)
    ensures TotalItems(WithItemCounted(cats, categoryId)) == TotalItems(cats) + Occurrences(cats, categoryId)
    decreases |cats|
  {
    if cats != [] {
      ItemCountedOnce(cats[1..], categoryId);
      var r := WithItemCounted(cats, categoryId);
      assert r[1..] == WithItemCounted(cats[1..], categoryId);
    }
  }

  /** `prev.filter(c => c.id !== id)`: the category is gone and every other one stays, in order. */
  function WithoutCategory(cats: seq<Category>, id: string): (r: seq<Category>)
    ensures forall i :: 0 <= i < |r| ==> r[i].id != id && r[i] in cats
    ensures forall i :: 0 <= i < |cats| && cats[i].id != id ==> cats[i] in r
  {
    FilterMembers(cats, (c: Category) => c.id != id);
    Filter(cats, (c: Category) => c.id != id)
  }

  /** `prev.filter(i => i.categoryId !== id)`: the deleted category's items go with it. */
  function WithoutItemsOf(items: seq<MenuItem>, id: string): (r: seq<MenuItem>)
    ensures forall i :: 0 <= i < |r| ==> r[i].categoryId != id && r[i] in items
    ensures forall i :: 0 <= i < |items| && items[i].categoryId != id ==> items[i] in r
  {
    FilterMembers(items, (m: MenuItem) => m.categoryId != id);
    Filter(items, (m: MenuItem) => m.categoryId != id)
  }

  /** Deleting distributes over the lists, so the categories and items that stay keep their relative order. */
  lemma DeleteCategoryKeepsOrder(a: seq<Category>, b: seq<Category>, items1: seq<MenuItem>, items2: seq<MenuItem>, id: string)
    ensures WithoutCategory(a + b, id) == WithoutCategory(a, id) + WithoutCategory(b, id)
    ensures WithoutItemsOf(items1 + items2, id) == WithoutItemsOf(items1, id) + WithoutItemsOf(items2, id)
  {
    FilterAppend(a, b, (c: Category) => c.id != id);
    FilterAppend(items1, items2, (m: MenuItem) => m.categoryId != id);
  }

  /** Removing a category that holds no listed item leaves the items as they are. */
  lemma NoItemsNoChange(items: seq<MenuItem>, id: string)
    requires forall i :: 0 <= i < |items| ==> items[i].categoryId != id
    ensures WithoutItemsOf(items, id) == items
  {
    FilterKeepsAll(items, (m: MenuItem) => m.categoryId != id);
  }

  // ----- Request targets -----

  function RestaurantUrl(rid: string): string { "/restaurants/" + rid }
  function CategoriesUrl(rid: string): string { RestaurantUrl(rid) + "/menus/categories" }
  function ItemsUrl(rid: string): string { RestaurantUrl(rid) + "/menus/items" }
  function SettingsUrl(rid: string): string { RestaurantUrl(rid) + "/settings" }
  function QrCodesUrl(rid: string): string { RestaurantUrl(rid) + "/qr-codes" }

  /** `{name, description}`; an undefined description is dropped from the JSON body. */
  function CategoryBody(name: string, description: Option<string>): map<string, string>
  {
    if description.Some? then map["name" := name, "description" := description.value] else map["name" := name]
  }

  function NewItemBody(d: NewItem): map<string, string>
  {
    var m := map["categoryId" := d.categoryId, "name" := d.name, "price" := Decimal(d.price)];
    var m' := if d.description.Some? then m["description" := d.description.value] else m;
    if d.image.Some? then m'["image" := d.image.value] else m'
  }

  /**
   * The deletions `handleGenerateQR` starts before it asks for a new code:
   * one `DELETE` per existing code, in list order.
   */
  function QrDeletions(rid: string, qrs: seq<QrCode>): (calls: seq<Event>)
    ensures |calls| == |qrs|
    ensures forall i :: 0 <= i < |qrs| ==> calls[i] == Call(Delete, QrCodesUrl(rid) + "/" + qrs[i].id, map[])
  {
    seq(|qrs|, i requires 0 <= i < |qrs| => Call(Delete, QrCodesUrl(rid) + "/" + qrs[i].id, map[]))
  }

  // ----- The page -----

  /** Everything on the page a handler can change. */
  datatype PageState = PageState(
    restaurant: Option<Restaurant>,
    categories: seq<Category>,
    items: seq<MenuItem>,
    settings: Option<Settings>,
    qrCodes: seq<QrCode>,
    loading: bool,
    loadingActions: set<string>,
    uploadingItemImage: Option<string>,
    toast: Option<Toast>,
    showCategoryModal: bool,
    showItemModal: bool,
    editingCategory: Option<Category>,
    editingItem: Option<MenuItem>)

  /** The state a handler skips with: no restaurant yet, or its own key already pending. */
  predicate Skips(s: PageState, a: Action)
  {
    s.restaurant.None? || ActionKey(a) in s.loadingActions
  }

  function Succeeded(message: string): Option<Toast> { Some(Toast(message, Success)) }
  function FailedWith(f: Failure, fallback: string): Option<Toast> { Some(Toast(FailureText(f, fallback), Error)) }

  class DashboardPage {
    const browser: Browser
    const apiUrl: string
    var restaurant: Option<Restaurant>
    var categories: seq<Category>
    var items: seq<MenuItem>
    var settings: Option<Settings>
    var qrCodes: seq<QrCode>
    var loading: bool
    var loadingActions: set<string>
    var uploadingItemImage: Option<string>
    var toast: Option<Toast>
    var showCategoryModal: bool
    var showItemModal: bool
    var editingCategory: Option<Category>
    var editingItem: Option<MenuItem>

    function Snapshot(): PageState
      reads this
    {
      PageState(restaurant, categories, items, settings, qrCodes, loading, loadingActions,
        uploadingItemImage, toast, showCategoryModal, showItemModal, editingCategory, editingItem)
    }

    /** The page as first rendered: loading, nothing fetched, nothing pending. */
    constructor(browser: Browser, env: Option<string>)
      ensures this.browser == browser && apiUrl == ApiUrl(env)
      ensures Snapshot() == PageState(None, [], [], None, [], true, {}, None, None, false, false, None, None)
    {
      this.browser := browser;
      apiUrl := ApiUrl(env);
      restaurant := None;
      categories := [];
      items := [];
      settings := None;
      qrCodes := [];
      loading := true;
      loadingActions := {};
      uploadingItemImage := None;
      toast := None;
      showCategoryModal := false;
      showItemModal := false;
      editingCategory := None;
      editingItem := None;
    }

    /** One render: the page takes on the state its handler's updates produced. */
    method Show(next: PageState)
      modifies this
      ensures Snapshot() == next
    {
      restaurant := next.restaurant;
      categories := next.categories;
      items := next.items;
      settings := next.settings;
      qrCodes := next.qrCodes;
      loading := next.loading;
      loadingActions := next.loadingActions;
      uploadingItemImage := next.uploadingItemImage;
      toast := next.toast;
      showCategoryModal := next.showCategoryModal;
      showItemModal := next.showItemModal;
      editingCategory := next.editingCategory;
      editingItem := next.editingItem;
      assert next == PageState(restaurant, categories, items, settings, qrCodes, loading, loadingActions,
        uploadingItemImage, toast, showCategoryModal, showItemModal, editingCategory, editingItem);
    }

    /** The `loadingActions.has(key)` guard followed by adding the key. */
    method TryBegin(a: Action) returns (started: bool)
      modifies this
      ensures started <==> ActionKey(a) !in old(loadingActions)
      ensures Snapshot() == old(Snapshot()).(loadingActions := old(loadingActions) + {ActionKey(a)})
    {
      started := ActionKey(a) !in loadingActions;
      if started {
        loadingActions := loadingActions + {ActionKey(a)};
      }
    }

    /** The `finally` that deletes the key again. */
    method Finish(a: Action)
      modifies this
      ensures Snapshot() == old(Snapshot()).(loadingActions := old(loadingActions) - {ActionKey(a)})
    {
      loadingActions := loadingActions - {ActionKey(a)};
    }

    /** `fetchCategories(rId)`: a failure is swallowed and keeps the current list. */
    method FetchCategories(rid: string, reply: Response<seq<Category>>)
      modifies this, browser
      ensures browser.trace == old(browser.trace) + [Call(Get, CategoriesUrl(rid), map[])]
      ensures Snapshot() == old(Snapshot()).(categories := if reply.Ok? then reply.data else old(categories))
      ensures browser.storage == old(browser.storage) && browser.notice == old(browser.notice)
    {
      browser.Issue(Get, CategoriesUrl(rid), map[]);
      if reply.Ok? {
        categories := reply.data;
      }
    }

    /** `fetchItems(rId)`: a failure is swallowed and keeps the current list. */
    method FetchItems(rid: string, reply: Response<seq<MenuItem>>)
      modifies this, browser
      ensures browser.trace == old(browser.trace) + [Call(Get, ItemsUrl(rid), map[])]
      ensures Snapshot() == old(Snapshot()).(items := if reply.Ok? then reply.data else old(items))
      ensures browser.storage == old(browser.storage) && browser.notice == old(browser.notice)
    {
      browser.Issue(Get, ItemsUrl(rid), map[]);
      if reply.Ok? {
        items := reply.data;
      }
    }

    /** `fetchSettings(rId)`: a failure is swallowed and keeps the current settings. */
    method FetchSettings(rid: string, reply: Response<Settings>)
      modifies this, browser
      ensures browser.trace == old(browser.trace) + [Call(Get, SettingsUrl(rid), map[])]
      ensures Snapshot() == old(Snapshot()).(settings := if reply.Ok? then Some(reply.data) else old(settings))
      ensures browser.storage == old(browser.storage) && browser.notice == old(browser.notice)
    {
      browser.Issue(Get, SettingsUrl(rid), map[]);
      if reply.Ok? {
        settings := Some(reply.data);
      }
    }

    /** `fetchQRCodes(rId)`: a failure is swallowed and keeps the current list. */
    method FetchQrCodes(rid: string, reply: Response<seq<QrCode>>)
      modifies this, browser
      ensures browser.trace == old(browser.trace) + [Call(Get, QrCodesUrl(rid), map[])]
      ensures Snapshot() == old(Snapshot()).(qrCodes := if reply.Ok? then reply.data else old(qrCodes))
      ensures browser.storage == old(browser.storage) && browser.notice == old(browser.notice)
    {
      browser.Issue(Get, QrCodesUrl(rid), map[]);
      if reply.Ok? {
        qrCodes := reply.data;
      }
    }

    /** The four reads `fetchMainData` makes once it knows the restaurant; each keeps the current value on failure. */
    method FetchRestaurantData(rid: string, cats: Response<seq<Category>>, menu: Response<seq<MenuItem>>,
                               conf: Response<Settings>, qrs: Response<seq<QrCode>>)
      modifies this, browser
      ensures browser.trace == old(browser.trace) + [Call(Get, CategoriesUrl(rid), map[]), Call(Get, ItemsUrl(rid), map[]),
        Call(Get, SettingsUrl(rid), map[]), Call(Get, QrCodesUrl(rid), map[])]
      ensures Snapshot() == old(Snapshot()).(
        categories := if cats.Ok? then cats.data else old(categories),
        items := if menu.Ok? then menu.data else old(items),
        settings := if conf.Ok? then Some(conf.data) else old(settings),
        qrCodes := if qrs.Ok? then qrs.data else old(qrCodes))
      ensures browser.storage == old(browser.storage) && browser.notice == old(browser.notice)
    {
      FetchCategories(rid, cats);
      FetchItems(rid, menu);
      FetchSettings(rid, conf);
      FetchQrCodes(rid, qrs);
    }

    /**
     * `fetchMainData`: the owner's first restaurant, then its categories,
     * items, settings and QR codes. Each of the four fetches keeps the
     * current value on failure; an empty list clears the restaurant.
     * `loading` ends false in every case.
     */
    method Load(restaurants: Response<seq<Restaurant>>, cats: Response<seq<Category>>, menu: Response<seq<MenuItem>>,
                conf: Response<Settings>, qrs: Response<seq<QrCode>>)
      modifies this, browser
      ensures restaurants.Failed? ==>
        && browser.trace == old(browser.trace) + [Call(Get, "/restaurants", map[])]
        && Snapshot() == old(Snapshot()).(loading := false)
      ensures restaurants.Ok? && restaurants.data == [] ==>
        && browser.trace == old(browser.trace) + [Call(Get, "/restaurants", map[])]
        && Snapshot() == old(Snapshot()).(restaurant := None, loading := false)
      ensures restaurants.Ok? && restaurants.data != [] ==>
        var rid := restaurants.data[0].id;
        && browser.trace == old(browser.trace) + [Call(Get, "/restaurants", map[]),
             Call(Get, CategoriesUrl(rid), map[]), Call(Get, ItemsUrl(rid), map[]),
             Call(Get, SettingsUrl(rid), map[]), Call(Get, QrCodesUrl(rid), map[])]
        && Snapshot() == old(Snapshot()).(
             restaurant := Some(restaurants.data[0]),
             categories := if cats.Ok? then cats.data else old(categories),
             items := if menu.Ok? then menu.data else old(items),
             settings := if conf.Ok? then Some(conf.data) else old(settings),
             qrCodes := if qrs.Ok? then qrs.data else old(qrCodes),
             loading := false)
      ensures browser.storage == old(browser.storage) && browser.notice == old(browser.notice)
    {
      loading := true;
      browser.Issue(Get, "/restaurants", map[]);
      if restaurants.Failed? {
        loading := false;
        return;
      }
      if restaurants.data == [] {
        restaurant := None;
        loading := false;
        return;
      }
      var current := restaurants.data[0];
      restaurant := Some(current);
      FetchRestaurantData(current.id, cats, menu, conf, qrs);
      loading := false;
    }

    method HandleCreateCategory(name: string, description: Option<string>, reply: Response<Category>)
      modifies this, browser
      ensures var s := old(Snapshot());
        if Skips(s, CreateCategory) then
          Snapshot() == s && browser.trace == old(browser.trace)
        else
          && browser.trace == old(browser.trace) +
               [Call(Post, CategoriesUrl(s.restaurant.value.id), CategoryBody(name, description))]
          && Snapshot() == (match reply
               case Ok(c) => s.(categories := s.categories + [c], showCategoryModal := false,
                                toast := Succeeded("تم إضافة الفئة بنجاح!"))
               case Failed(f) => s.(toast := FailedWith(f, "فشل إضافة الفئة")))
      ensures browser.storage == old(browser.storage) && browser.notice == old(browser.notice)
    {
      if restaurant.None? {
        return;
      }
      var started := TryBegin(CreateCategory);
      if !started {
        return;
      }
      var before := Snapshot();
      browser.Issue(Post, CategoriesUrl(restaurant.value.id), CategoryBody(name, description));
      if reply.Ok? {
        Show(before.(categories := before.categories + [reply.data], showCategoryModal := false,
          toast := Succeeded("تم إضافة الفئة بنجاح!")));
      } else {
        Show(before.(toast := FailedWith(reply.failure, "فشل إضافة الفئة")));
      }
      Finish(CreateCategory);
    }

    method HandleUpdateCategory(id: string, name: string, description: Option<string>, reply: Response<Category>)
      modifies this, browser
      ensures var s := old(Snapshot());
        if Skips(s, UpdateCategory(id)) then
          Snapshot() == s && browser.trace == old(browser.trace)
        else
          && browser.trace == old(browser.trace) +
               [Call(Patch, CategoriesUrl(s.restaurant.value.id) + "/" + id, CategoryBody(name, description))]
          && Snapshot() == (if reply.Ok? then
                 s.(categories := Replaced(s.categories, id, reply.data), editingCategory := None,
                    toast := Succeeded("تم تحديث الفئة بنجاح!"))
               else s.(toast := FailedWith(reply.failure, "فشل تحديث الفئة")))
      ensures browser.storage == old(browser.storage) && browser.notice == old(browser.notice)
    {
      if restaurant.None? {
        return;
      }
      var started := TryBegin(UpdateCategory(id));
      if !started {
        return;
      }
      var before := Snapshot();
      browser.Issue(Patch, CategoriesUrl(restaurant.value.id) + "/" + id, CategoryBody(name, description));
      if reply.Ok? {
        Show(before.(categories := Replaced(before.categories, id, reply.data), editingCategory := None,
          toast := Succeeded("تم تحديث الفئة بنجاح!")));
      } else {
        Show(before.(toast := FailedWith(reply.failure, "فشل تحديث الفئة")));
      }
      Finish(UpdateCategory(id));
    }

    /**
     * `handleDeleteCategory`: asks for confirmation before the pending-key
     * guard; on success the category and, locally, all of its items go.
     */
    method HandleDeleteCategory(id: string, confirmed: bool, reply: Response<()>)
      modifies this, browser
      ensures var s := old(Snapshot());
        if s.restaurant.None? || !confirmed || Skips(s, DeleteCategory(id)) then
          Snapshot() == s && browser.trace == old(browser.trace)
        else
          && browser.trace == old(browser.trace) + [Call(Delete, CategoriesUrl(s.restaurant.value.id) + "/" + id, map[])]
          && Snapshot() == (if reply.Ok? then
                 s.(categories := WithoutCategory(s.categories, id), items := WithoutItemsOf(s.items, id),
                    toast := Succeeded("تم حذف الفئة بنجاح!"))
               else s.(toast := FailedWith(reply.failure, "فشل حذف الفئة")))
      ensures browser.storage == old(browser.storage) && browser.notice == old(browser.notice)
    {
      if restaurant.None? || !confirmed {
        return;
      }
      var started := TryBegin(DeleteCategory(id));
      if !started {
        return;
      }
      var before := Snapshot();
      browser.Issue(Delete, CategoriesUrl(restaurant.value.id) + "/" + id, map[]);
      if reply.Ok? {
        Show(before.(categories := WithoutCategory(before.categories, id), items := WithoutItemsOf(before.items, id),
          toast := Succeeded("تم حذف الفئة بنجاح!")));
      } else {
        Show(before.(toast := FailedWith(reply.failure, "فشل حذف الفئة")));
      }
      Finish(DeleteCategory(id));
    }

    /** `handleCreateItem`: appends the created item and counts it in its category. */
    method HandleCreateItem(d: NewItem, reply: Response<MenuItem>)
      modifies this, browser
      ensures var s := old(Snapshot());
        if Skips(s, CreateItem) then
          Snapshot() == s && browser.trace == old(browser.trace)
        else
          && browser.trace == old(browser.trace) + [Call(Post, ItemsUrl(s.restaurant.value.id), NewItemBody(d))]
          && Snapshot() == (if reply.Ok? then
                 s.(items := s.items + [reply.data], categories := WithItemCounted(s.categories, d.categoryId),
                    showItemModal := false, toast := Succeeded("تم إضافة العنصر بنجاح!"))
               else s.(toast := FailedWith(reply.failure, "فشل إضافة العنصر")))
      ensures browser.storage == old(browser.storage) && browser.notice == old(browser.notice)
    {
      if restaurant.None? {
        return;
      }
      var started := TryBegin(CreateItem);
      if !started {
        return;
      }
      var before := Snapshot();
      browser.Issue(Post, ItemsUrl(restaurant.value.id), NewItemBody(d));
      if reply.Ok? {
        Show(before.(items := before.items + [reply.data], categories := WithItemCounted(before.categories, d.categoryId),
          showItemModal := false, toast := Succeeded("تم إضافة العنصر بنجاح!")));
      } else {
        Show(before.(toast := FailedWith(reply.failure, "فشل إضافة العنصر")));
      }
      Finish(CreateItem);
    }

    /**
     * The calls of an image upload: the upload, then the `PATCH` of the
     * item, then a refetch of the items, each only after the previous one
     * succeeded. Gives the item list to show and the toast.
     */
    method SendItemImage(rid: string, itemId: string, current: seq<MenuItem>, upload: Response<string>,
                         patch: Response<()>, refetch: Response<seq<MenuItem>>)
      returns (listed: seq<MenuItem>, shown: Option<Toast>)
      modifies browser
      ensures browser.trace == old(browser.trace) + [Call(Post, apiUrl + "/storage/upload", map["folder" := "menu-items"])] +
        (if upload.Failed? then []
         else [Call(Patch, ItemsUrl(rid) + "/" + itemId, map["image" := upload.data])] +
              (if patch.Failed? then [] else [Call(Get, ItemsUrl(rid), map[])]))
      ensures listed == if upload.Ok? && patch.Ok? && refetch.Ok? then refetch.data else current
      ensures shown == if upload.Failed? then FailedWith(upload.failure, "فشل رفع الصورة")
        else if patch.Failed? then FailedWith(patch.failure, "فشل رفع الصورة")
        else Succeeded("تم رفع صورة العنصر بنجاح!")
      ensures browser.storage == old(browser.storage) && browser.notice == old(browser.notice)
    {
      listed := current;
      browser.Issue(Post, apiUrl + "/storage/upload", map["folder" := "menu-items"]);
      if upload.Failed? {
        shown := FailedWith(upload.failure, "فشل رفع الصورة");
        return;
      }
      browser.Issue(Patch, ItemsUrl(rid) + "/" + itemId, map["image" := upload.data]);
      if patch.Failed? {
        shown := FailedWith(patch.failure, "فشل رفع الصورة");
        return;
      }
      browser.Issue(Get, ItemsUrl(rid), map[]);
      if refetch.Ok? {
        listed := refetch.data;
      }
      shown := Succeeded("تم رفع صورة العنصر بنجاح!");
    }

    /**
     * `handleItemImageUpload`: the file is checked (type, then size) before
     * the pending-key guard; then the upload, the `PATCH` that stores the
     * returned URL on the item, and a refetch of the items, each only after
     * the previous one succeeded. The first failure decides the toast.
     */
    method HandleItemImageUpload(itemId: string, file: Option<File>, upload: Response<string>, patch: Response<()>,
                                 refetch: Response<seq<MenuItem>>)
      modifies this, browser
      ensures var s := old(Snapshot());
        if s.restaurant.None? || file.None? then
          Snapshot() == s && browser.trace == old(browser.trace)
        else if CheckImage(file.value).Some? then
          && Snapshot() == s.(toast := Some(Toast(ImageErrorText(CheckImage(file.value).value), Error)))
          && browser.trace == old(browser.trace)
        else if ActionKey(UploadItemImage(itemId)) in s.loadingActions then
          Snapshot() == s && browser.trace == old(browser.trace)
        else
          var itemUrl := ItemsUrl(s.restaurant.value.id) + "/" + itemId;
          && browser.trace == old(browser.trace) + [Call(Post, apiUrl + "/storage/upload", map["folder" := "menu-items"])] +
               (if upload.Failed? then []
                else [Call(Patch, itemUrl, map["image" := upload.data])] +
                     (if patch.Failed? then [] else [Call(Get, ItemsUrl(s.restaurant.value.id), map[])]))
          && Snapshot() == s.(
               items := if upload.Ok? && patch.Ok? && refetch.Ok? then refetch.data else s.items,
               uploadingItemImage := None,
               toast := if upload.Failed? then FailedWith(upload.failure, "فشل رفع الصورة")
                        else if patch.Failed? then FailedWith(patch.failure, "فشل رفع الصورة")
                        else Succeeded("تم رفع صورة العنصر بنجاح!"))
      ensures browser.storage == old(browser.storage) && browser.notice == old(browser.notice)
    {
      if restaurant.None? || file.None? {
        return;
      }
      var problem := CheckImage(file.value);
      if problem.Some? {
        toast := Some(Toast(ImageErrorText(problem.value), Error));
        return;
      }
      var started := TryBegin(UploadItemImage(itemId));
      if !started {
        return;
      }
      var before := Snapshot();
      uploadingItemImage := Some(itemId);
      var listed, shown := SendItemImage(restaurant.value.id, itemId, before.items, upload, patch, refetch);
      Show(before.(items := listed, uploadingItemImage := None, toast := shown));
      Finish(UploadItemImage(itemId));
    }

    /** `handleUpdateItem`: on success the items are fetched again and the editor closes. */
    method HandleUpdateItem(id: string, data: map<string, string>, reply: Response<()>, refetch: Response<seq<MenuItem>>)
      modifies this, browser
      ensures var s := old(Snapshot());
        if Skips(s, UpdateItem(id)) then
          Snapshot() == s && browser.trace == old(browser.trace)
        else
          var rid := s.restaurant.value.id;
          && browser.trace == old(browser.trace) + [Call(Patch, ItemsUrl(rid) + "/" + id, data)] +
               (if reply.Ok? then [Call(Get, ItemsUrl(rid), map[])] else [])
          && Snapshot() == (if reply.Ok? then
                 s.(items := if refetch.Ok? then refetch.data else s.items, editingItem := None,
                    toast := Succeeded("تم تحديث العنصر بنجاح!"))
               else s.(toast := FailedWith(reply.failure, "فشل تحديث العنصر")))
      ensures browser.storage == old(browser.storage) && browser.notice == old(browser.notice)
    {
      if restaurant.None? {
        return;
      }
      var started := TryBegin(UpdateItem(id));
      if !started {
        return;
      }
      var rid := restaurant.value.id;
      browser.Issue(Patch, ItemsUrl(rid) + "/" + id, data);
      if reply.Ok? {
        FetchItems(rid, refetch);
        editingItem := None;
        toast := Succeeded("تم تحديث العنصر بنجاح!");
        Finish(UpdateItem(id));
        assert loadingActions == old(loadingActions);
      } else {
        toast := FailedWith(reply.failure, "فشل تحديث العنصر");
        Finish(UpdateItem(id));
        assert loadingActions == old(loadingActions);
      }
    }

    /** `handleDeleteItem`: confirmation first, then the guard; on success the items are fetched again. */
    method HandleDeleteItem(id: string, confirmed: bool, reply: Response<()>, refetch: Response<seq<MenuItem>>)
      modifies this, browser
      ensures var s := old(Snapshot());
        if s.restaurant.None? || !confirmed || Skips(s, DeleteItem(id)) then
          Snapshot() == s && browser.trace == old(browser.trace)
        else
          var rid := s.restaurant.value.id;
          && browser.trace == old(browser.trace) + [Call(Delete, ItemsUrl(rid) + "/" + id, map[])] +
               (if reply.Ok? then [Call(Get, ItemsUrl(rid), map[])] else [])
          && Snapshot() == (if reply.Ok? then
                 s.(items := if refetch.Ok? then refetch.data else s.items, toast := Succeeded("تم حذف العنصر بنجاح!"))
               else s.(toast := FailedWith(reply.failure, "فشل حذف العنصر")))
      ensures browser.storage == old(browser.storage) && browser.notice == old(browser.notice)
    {
      if restaurant.None? || !confirmed {
        return;
      }
      var started := TryBegin(DeleteItem(id));
      if !started {
        return;
      }
      var rid := restaurant.value.id;
      browser.Issue(Delete, ItemsUrl(rid) + "/" + id, map[]);
      if reply.Ok? {
        FetchItems(rid, refetch);
        toast := Succeeded("تم حذف العنصر بنجاح!");
        Finish(DeleteItem(id));
        assert loadingActions == old(loadingActions);
      } else {
        toast := FailedWith(reply.failure, "فشل حذف العنصر");
        Finish(DeleteItem(id));
        assert loadingActions == old(loadingActions);
      }
    }

    /** The deletion loop of `handleGenerateQR`: one `DELETE` per existing code, in order, each failure swallowed. */
    method DeleteQrCodes(rid: string, existing: seq<QrCode>)
      modifies browser
      ensures browser.trace == old(browser.trace) + QrDeletions(rid, existing)
      ensures browser.storage == old(browser.storage) && browser.notice == old(browser.notice)
    {
      for i := 0 to |existing|
        invariant browser.trace == old(browser.trace) + QrDeletions(rid, existing[..i])
        invariant browser.storage == old(browser.storage) && browser.notice == old(browser.notice)
      {
        browser.Issue(Delete, QrCodesUrl(rid) + "/" + existing[i].id, map[]);
        assert QrDeletions(rid, existing[..i + 1]) == QrDeletions(rid, existing[..i]) + [Call(Delete, QrCodesUrl(rid) + "/" + existing[i].id, map[])];
      }
      assert existing[..|existing|] == existing;
    }

    /**
     * `handleGenerateQR`: every existing code is deleted first (each failure
     * swallowed), then a new code is created and, only if that succeeded,
     * the list is fetched again. Returns the created code, or `null` on failure.
     */
    method HandleGenerateQr(created: Response<QrCode>, refetch: Response<seq<QrCode>>) returns (r: Option<QrCode>)
      modifies this, browser
      ensures var s := old(Snapshot());
        if Skips(s, GenerateQr) then
          Snapshot() == s && browser.trace == old(browser.trace) && r == None
        else
          var rid := s.restaurant.value.id;
          && browser.trace == old(browser.trace) + QrDeletions(rid, s.qrCodes) + [Call(Post, QrCodesUrl(rid), map[])] +
               (if created.Ok? then [Call(Get, QrCodesUrl(rid), map[])] else [])
          && r == (if created.Ok? then Some(created.data) else None)
          && Snapshot() == (if created.Ok? then
                 s.(qrCodes := if refetch.Ok? then refetch.data else s.qrCodes, toast := Succeeded("تم إنشاء رمز QR بنجاح!"))
               else s.(toast := FailedWith(created.failure, "فشل إنشاء رمز QR")))
      ensures browser.storage == old(browser.storage) && browser.notice == old(browser.notice)
    {
      r := None;
      if restaurant.None? {
        return;
      }
      var started := TryBegin(GenerateQr);
      if !started {
        return;
      }
      var rid := restaurant.value.id;
      DeleteQrCodes(rid, qrCodes);
      browser.Issue(Post, QrCodesUrl(rid), map[]);
      if created.Ok? {
        FetchQrCodes(rid, refetch);
        toast := Succeeded("تم إنشاء رمز QR بنجاح!");
        r := Some(created.data);
        Finish(GenerateQr);
        assert loadingActions == old(loadingActions);
      } else {
        toast := FailedWith(created.failure, "فشل إنشاء رمز QR");
        Finish(GenerateQr);
        assert loadingActions == old(loadingActions);
      }
    }
  }
}
