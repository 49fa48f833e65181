/** The kitchen page: find the kitchen named by the `id` query
    parameter, load its menu items and meal plans (a 404 meaning "none"),
    and give its owner forms that add items and meal plans. */
module KitchenPage {
  import opened Common
  import opened Wire
  import opened Session
  import opened Db
  import opened KitchenRouter

  /** A row of `GET /homekitchens/` as the page normalises it; the
      VerifiedBy column is dropped. */
  datatype KitchenCard = KitchenCard(
    id: int,
    ownerUid: int,
    name: string,
    address: string,
    averageRating: Option<int>,
    approvalStatus: Option<string>,
    logo: Option<string>)

  /** The card of a kitchen row: its id and every column but VerifiedBy. */
  function CardOf(id: int, row: KitchenRow): (k: KitchenCard)
    ensures k.id == id && k.ownerUid == row.ownerUid && k.name == row.name && k.address == row.address
    ensures k.averageRating == row.averageRating && k.approvalStatus == row.approvalStatus && k.logo == row.logo
  {
    KitchenCard(id, row.ownerUid, row.name, row.address, row.averageRating, row.approvalStatus, row.logo)
  }

  /** `.find(k => k.id === Number(kitchenId))`: the first card with that
      id; NaN (None) equals nothing. */
  function FindKitchen(list: seq<KitchenCard>, wanted: Option<int>): (r: Option<KitchenCard>)
    ensures r.None? <==> wanted.None? || forall i :: 0 <= i < |list| ==> list[i].id != wanted.value
    ensures r.Some? ==> exists i :: 0 <= i < |list| && list[i] == r.value && r.value.id == wanted.value
                          && forall j :: 0 <= j < i ==> list[j].id != wanted.value
  {
    if list == [] || wanted.None? then None
    else if list[0].id == wanted.value then Some(list[0])
    else
      var r := FindKitchen(list[1..], wanted);
      assert forall i :: 1 <= i < |list| ==> list[i] == list[1..][i - 1];
      if r.Some? then
        var k :| 0 <= k < |list[1..]| && list[1..][k] == r.value && r.value.id == wanted.value
                  && forall j :: 0 <= j < k ==> list[1..][j].id != wanted.value;
        assert list[k + 1] == r.value;
        assert forall j :: 0 <= j < k + 1 ==> list[j].id != wanted.value;
        r
      else r
  }

  /** The page shows the owner's forms iff the caller's role is "owner"
      and their uid is the kitchen's OwnerUID. */
  predicate IsOwner(role: Option<string>, uid: Option<int>, k: KitchenCard)
    ensures role != Some(OWNER) || uid.None? ==> !IsOwner(role, uid, k)
    ensures IsOwner(role, uid, k) ==> uid.value == k.ownerUid
  {
    role == Some(OWNER) && uid == Some(k.ownerUid)
  }

  /** The page's owner test agrees with the backend's ownership check:
      the forms appear only to a caller whose writes `verify_owner`
      accepts, and appear to every such caller whose role is "owner". */
  lemma OwnerViewMatchesBackend(kitchens: map<int, KitchenRow>, users: seq<UserRow>, email: string, id: int, role: Option<string>)
    requires id in kitchens
    ensures IsOwner(role, UidOf(users, email), CardOf(id, kitchens[id]))
        <==> role == Some(OWNER) && VerifyOwner(kitchens, users, email, id).Ok?
  {
  }

  /** How a listing reply lands on the page: a 404 is the empty list,
      another failure is an error whose message is the `detail` (the
      empty message when there is none), and a success is its body. */
  function ListOrEmpty<L>(reply: Reply<L>, empty: L): (r: Response<L>)
    ensures reply.Success? ==> r == Ok(reply.body)
    ensures reply.Failure? && reply.status == 404 ==> r == Ok(empty)
    ensures reply.Failure? && reply.status != 404 ==> r == Error(reply.status, OrElse(reply.detail, ""))
  {
    match reply
    case Success(body) => Ok(body)
    case Failure(status, detail) => if status == 404 then Ok(empty) else Error(status, OrElse(detail, ""))
  }

  /** A backend response as the page receives it. */
  function Delivered<T>(r: Response<T>): Reply<T>
  {
    match r
    case Ok(v) => Success(v)
    case Error(code, detail) => Failure(code, Some(detail))
  }

  /** Through the 404 rule the page shows exactly the kitchen's menu
      items: none when the backend reports that it has none. */
  lemma {:induction false} PageShowsKitchenMenu(menuItems: map<int, MenuItemRow>, k: int)
    ensures ListOrEmpty(Delivered(GetMenuItems(menuItems, k)), map[])
         == Ok(map id | id in menuItems && menuItems[id].kitchenId == k :: menuItems[id])
  {
    var r := GetMenuItems(menuItems, k);
    if r.Error? {
      var shown := map id | id in menuItems && menuItems[id].kitchenId == k :: menuItems[id];
      assert forall id :: id in menuItems ==> menuItems[id].kitchenId != k;
      assert shown.Keys == {};
      assert shown == map[];
    } else {
      assert r.value == map id | id in menuItems && menuItems[id].kitchenId == k :: menuItems[id];
    }
  }

  /** Likewise for meal plans. */
  lemma {:induction false} PageShowsKitchenMealPlans(mealPlans: map<int, MealPlanRow>, k: int)
    ensures ListOrEmpty(Delivered(GetMealPlans(mealPlans, k)), map[])
         == Ok(map id | id in mealPlans && mealPlans[id].kitchenId == k :: mealPlans[id])
  {
    var r := GetMealPlans(mealPlans, k);
    if r.Error? {
      var shown := map id | id in mealPlans && mealPlans[id].kitchenId == k :: mealPlans[id];
      assert forall id :: id in mealPlans ==> mealPlans[id].kitchenId != k;
      assert shown.Keys == {};
      assert shown == map[];
    } else {
      assert r.value == map id | id in mealPlans && mealPlans[id].kitchenId == k :: mealPlans[id];
    }
  }

  /** The meal-plan form: the typed ids are kept as strings. */
  datatype MealForm = MealForm(name: string, totalPrice: string, image: string, items: seq<string>)

  const EMPTY_MEAL: MealForm := MealForm("", "", "", [])
  const EMPTY_ITEM: MenuItemPayload := MenuItemPayload("", "", "", "")

  /** `newMeal.Items.map(i => ({ItemID: Number(i)}))`. */
  function ItemIds(typed: seq<string>): (r: seq<Option<int>>)
    ensures |r| == |typed|
    ensures forall i :: 0 <= i < |typed| ==> r[i] == ParseNumber(typed[i])
  {
    seq(|typed|, i requires 0 <= i < |typed| => ParseNumber(typed[i]))
  }

  /** The body `handleAddMeal` posts. */
  function MealPayload(f: MealForm): (p: MealPlanPayload)
    ensures p.name == f.name && p.totalPrice == f.totalPrice && p.image == f.image
    ensures |p.items| == |f.items|
    ensures forall i :: 0 <= i < |f.items| ==> p.items[i] == ParseNumber(f.items[i])
  {
    MealPlanPayload(f.name, f.totalPrice, f.image, ItemIds(f.items))
  }

  /** Ids typed as the decimal text of numbers reach the backend as those
      numbers, in the order they were added. */
  lemma TypedIdsRoundTrip(ids: seq<int>)
    ensures ItemIds(seq(|ids|, i requires 0 <= i < |ids| => IntToString(ids[i])))
         == seq(|ids|, i requires 0 <= i < |ids| => Some(ids[i]))
  {
    forall i | 0 <= i < |ids| ensures ParseNumber(IntToString(ids[i])) == Some(ids[i]) {
      NumberOfIntToString(ids[i]);
    }
  }

  /** An entry of the page's menu list: a row from the backend, or the
      form's fields appended locally with `Date.now()` as its id. */
  datatype MenuEntry = ItemRow(itemId: int, item: MenuItemRow) | LocalItem(form: MenuItemPayload, stamp: int)

  /** An entry of the page's meal-plan list, likewise. */
  datatype PlanEntry = PlanRow(mealPlanId: int, plan: MealPlanRow) | LocalPlan(payload: MealPlanPayload, stamp: int)

  /** What the page keeps of the /me/ reply: its status, UID and Role. */
  datatype MeReply = MeReply(status: int, uid: Option<int>, role: Option<string>)

  /** The `id` query parameter is present and non-empty (truthy). */
  predicate Named(id: Option<string>)
  {
    id.Some? && id.value != ""
  }

  function MenuItemsPath(id: string): string
  {
    "/homekitchens/" + id + "/menuitems"
  }

  function MealPlansPath(id: string): string
  {
    "/homekitchens/" + id + "/mealplans"
  }

  class Kitchen {
    const browser: Browser
    var user: Option<(Option<int>, Option<string>)>
    var kitchen: Option<KitchenCard>
    var menuItems: seq<MenuEntry>
    var mealPlans: seq<PlanEntry>
    var loading: bool
    var error: Option<string>
    var newItem: MenuItemPayload
    var newMeal: MealForm
    var itemIdInput: string

    /** Every id collected for the meal plan is non-empty text. */
    ghost predicate Valid()
      reads this
    {
      forall i :: 0 <= i < |newMeal.items| ==> newMeal.items[i] != ""
    }

    constructor (b: Browser)
      ensures browser == b && user == None && kitchen == None && menuItems == [] && mealPlans == []
      ensures loading && error == None && newItem == EMPTY_ITEM && newMeal == EMPTY_MEAL && itemIdInput == ""
      ensures Valid()
    {
      browser := b;
      user, kitchen := None, None;
      menuItems, mealPlans := [], [];
      loading, error := true, None;
      newItem, newMeal, itemIdInput := EMPTY_ITEM, EMPTY_MEAL, "";
    }

    /** The owner's forms are rendered: loading is over, no (truthy) error
        is shown, and the caller owns the kitchen found. */
    predicate ShowsOwnerForms()
      reads this
    {
      !loading && (error.None? || error.value == "") && user.Some? && kitchen.Some?
      && IsOwner(user.value.1, user.value.0, kitchen.value)
    }

    /** The mount effect. `id` is the query parameter (None when absent);
        `me` and `list` answer `GET /me/` and `GET /homekitchens/`, and
        `items` and `plans` the two listings of the kitchen found. When
        both listings fail, the menu's error is the one shown. */
    method Mount(id: Option<string>, me: MeReply, list: seq<KitchenCard>,
                 items: Reply<seq<MenuEntry>>, plans: Reply<seq<PlanEntry>>)
      requires loading && error == None && kitchen.None?
      modifies this`user, this`kitchen, this`menuItems, this`mealPlans, this`loading, this`error
      modifies browser`location, browser`sent
      ensures !Named(id) ==>
        browser.location == "/feed" && browser.sent == old(browser.sent) && loading
      ensures Named(id) && !HasToken(browser.accessToken) ==>
        browser.location == "/login" && browser.sent == old(browser.sent) && loading
      ensures Named(id) && HasToken(browser.accessToken) ==> !loading
      ensures (Named(id) && HasToken(browser.accessToken) && me.status == 401) ==>
        browser.location == "/login" && browser.sent == old(browser.sent) + [Get("/me/"), Get("/homekitchens/")]
      ensures (!Named(id) || !HasToken(browser.accessToken) || me.status == 401) ==>
        user == old(user) && kitchen == old(kitchen) && error == old(error)
        && menuItems == old(menuItems) && mealPlans == old(mealPlans)
      ensures (Named(id) && HasToken(browser.accessToken) && me.status != 401) ==>
        user == Some((me.uid, me.role)) && kitchen == FindKitchen(list, ParseNumber(id.value))
        && browser.location == old(browser.location)
      ensures (Named(id) && HasToken(browser.accessToken) && me.status != 401 && kitchen.None?) ==>
        error == Some("Kitchen not found") && browser.sent == old(browser.sent) + [Get("/me/"), Get("/homekitchens/")]
        && menuItems == old(menuItems) && mealPlans == old(mealPlans)
      ensures (Named(id) && HasToken(browser.accessToken) && me.status != 401 && kitchen.Some?) ==>
        browser.sent == old(browser.sent)
          + [Get("/me/"), Get("/homekitchens/"), Get(MenuItemsPath(id.value)), Get(MealPlansPath(id.value))]
      ensures (Named(id) && HasToken(browser.accessToken) && me.status != 401 && kitchen.Some?) ==>
        var shownItems, shownPlans := ListOrEmpty(items, []), ListOrEmpty(plans, []);
        && (shownItems.Ok? && shownPlans.Ok? ==>
              error == None && menuItems == shownItems.value && mealPlans == shownPlans.value)
        && (shownItems.Error? ==> error == Some(shownItems.detail))
        && (shownItems.Ok? && shownPlans.Error? ==> error == Some(shownPlans.detail))
        && (shownItems.Error? || shownPlans.Error? ==> menuItems == old(menuItems) && mealPlans == old(mealPlans))
    {
      if !Named(id) {
        browser.location := "/feed";
        return;
      }
      if !HasToken(browser.accessToken) {
        browser.location := "/login";
        return;
      }
      browser.sent := browser.sent + [Get("/me/"), Get("/homekitchens/")];
      if me.status == 401 {
        browser.location := "/login";
      } else {
        user := Some((me.uid, me.role));
        var found := FindKitchen(list, ParseNumber(id.value));
        if found.None? {
          error := Some("Kitchen not found");
        } else {
          kitchen := found;
          browser.sent := browser.sent + [Get(MenuItemsPath(id.value)), Get(MealPlansPath(id.value))];
          var shownItems := ListOrEmpty(items, []);
          var shownPlans := ListOrEmpty(plans, []);
          if shownItems.Error? {
            error := Some(shownItems.detail);
          } else if shownPlans.Error? {
            error := Some(shownPlans.detail);
          } else {
            menuItems := shownItems.value;
            mealPlans := shownPlans.value;
          }
        }
      }
      loading := false;
    }

    /** The "Add ID" button: a non-empty typed id joins the plan's list
        and the input is cleared; an empty one changes nothing. */
    method AddId()
      requires Valid()
      modifies this`newMeal, this`itemIdInput
      ensures Valid() && itemIdInput == ""
      ensures old(itemIdInput) != "" ==> newMeal == old(newMeal).(items := old(newMeal).items + [old(itemIdInput)])
      ensures old(itemIdInput) == "" ==> newMeal == old(newMeal)
    {
      if itemIdInput != "" {
        newMeal := newMeal.(items := newMeal.items + [itemIdInput]);
        itemIdInput := "";
      }
    }

    /** `handleAddItem`: post the form with an empty Items list, append
        it locally under the id `now` whatever the reply, and clear the
        form. */
    method HandleAddItem(now: int)
      requires kitchen.Some?
      modifies this`menuItems, this`newItem, browser`sent
      ensures browser.sent == old(browser.sent) + [Post(MenuItemsPath(IntToString(kitchen.value.id)), MenuItem(old(newItem)))]
      ensures menuItems == old(menuItems) + [LocalItem(old(newItem), now)]
      ensures newItem == EMPTY_ITEM
    {
      browser.sent := browser.sent + [Post(MenuItemsPath(IntToString(kitchen.value.id)), MenuItem(newItem))];
      menuItems := menuItems + [LocalItem(newItem, now)];
      newItem := EMPTY_ITEM;
    }

    /** `handleAddMeal`: post the plan with its ids as numbers in the
        order added, append it locally under the id `now`, and reset the
        form and the id input. */
    method HandleAddMeal(now: int)
      requires kitchen.Some? && Valid()
      modifies this`mealPlans, this`newMeal, this`itemIdInput, browser`sent
      ensures browser.sent == old(browser.sent) + [Post(MealPlansPath(IntToString(kitchen.value.id)), MealPlan(MealPayload(old(newMeal))))]
      ensures |MealPayload(old(newMeal)).items| == |old(newMeal).items|
      ensures forall i :: 0 <= i < |old(newMeal).items| ==> MealPayload(old(newMeal)).items[i] == ParseNumber(old(newMeal).items[i])
      ensures mealPlans == old(mealPlans) + [LocalPlan(MealPayload(old(newMeal)), now)]
      ensures newMeal == EMPTY_MEAL && itemIdInput == "" && Valid()
    {
      var payload := MealPayload(newMeal);
      browser.sent := browser.sent + [Post(MealPlansPath(IntToString(kitchen.value.id)), MealPlan(payload))];
      mealPlans := mealPlans + [LocalPlan(payload, now)];
      newMeal := EMPTY_MEAL;
      itemIdInput := "";
    }
  }
}
