/** The `/homekitchens` routes: creating a kitchen, its menu items and
    meal plans, and reading them back. */
module KitchenRouter {
  import opened Common
  import opened Db
  import opened UserRole

  /** `verify_owner`'s query: the kitchen exists and its OwnerUID is the
      UID of the caller's email (a missing USERS row matches nothing). */
  predicate Owns(kitchens: map<int, KitchenRow>, users: seq<UserRow>, email: string, kitchenId: int)
    ensures Owns(kitchens, users, email, kitchenId) ==>
      kitchenId in kitchens
      && exists i :: 0 <= i < |users| && users[i].email == email && users[i].uid == kitchens[kitchenId].ownerUid
    ensures (forall i :: 0 <= i < |users| ==> users[i].email != email) ==> !Owns(kitchens, users, email, kitchenId)
  {
    kitchenId in kitchens && UidOf(users, email).Some? && kitchens[kitchenId].ownerUid == UidOf(users, email).value
  }

  /** `verify_owner`: 403 unless the caller owns the kitchen. */
  function VerifyOwner(kitchens: map<int, KitchenRow>, users: seq<UserRow>, email: string, kitchenId: int): (r: Response<()>)
    ensures r.Ok? <==> kitchenId in kitchens && UidOf(users, email) == Some(kitchens[kitchenId].ownerUid)
    ensures r.Error? ==> r == Error(403, "You do not own this kitchen")
  {
    if Owns(kitchens, users, email, kitchenId) then Ok(()) else Error(403, "You do not own this kitchen")
  }

  /** The body of `POST /homekitchens/`; the optional fields may be null. */
  datatype HomeKitchenCreate = HomeKitchenCreate(
    name: string,
    address: string,
    averageRating: Option<int>,
    verifiedBy: Option<int>,
    approvalStatus: Option<string>,
    logo: Option<string>)

  /** `POST /homekitchens/`: the caller's email must have a USERS row (else
      400) whose uid is a kitchen owner (else 401); then one HOMEKITCHENS
      row is inserted with the request's fields as given. */
  method MakeHomeKitchen(db: Database, req: HomeKitchenCreate, user: Caller) returns (r: Response<string>)
    requires db.Valid()
    modifies db`kitchens, db`nextKitchenId
    ensures db.Valid()
    ensures UidOf(db.users, user.email).None? ==> r == Error(400, "Owner not found")
    ensures UidOf(db.users, user.email).Some? && UidOf(db.users, user.email).value !in db.kitchenOwners
         ==> r == Error(401, "Not an owner")
    ensures r.Ok? <==> UidOf(db.users, user.email).Some? && UidOf(db.users, user.email).value in db.kitchenOwners
    ensures r.Error? ==> db.kitchens == old(db.kitchens)
    ensures r.Ok? ==> r.value == "HomeKitchen created successfully"
    ensures r.Ok? ==> old(db.nextKitchenId) !in old(db.kitchens)
    ensures r.Ok? ==> db.kitchens == old(db.kitchens)[old(db.nextKitchenId) := KitchenRow(
      UidOf(db.users, user.email).value, req.name, req.address, req.averageRating, req.verifiedBy, req.approvalStatus, req.logo)]
  {
    var found := UidOf(db.users, user.email);
    if found.None? {
      return Error(400, "Owner not found");
    }
    var ownerUid := found.value;
    if RoleOf(db.kitchenOwners, db.drivers.Keys, db.customers, ownerUid) != Some(OWNER) {
      return Error(401, "Not an owner");
    }
    var row := KitchenRow(ownerUid, req.name, req.address, req.averageRating, req.verifiedBy, req.approvalStatus, req.logo);
    db.kitchens := db.kitchens[db.nextKitchenId := row];
    db.nextKitchenId := db.nextKitchenId + 1;
    r := Ok("HomeKitchen created successfully");
  }

  /** `GET /homekitchens/{id}/mealplans`: the kitchen's meal plans, or 404
      when it has none. */
  function GetMealPlans(mealPlans: map<int, MealPlanRow>, kitchenId: int): (r: Response<map<int, MealPlanRow>>)
    ensures r.Error? <==> forall id :: id in mealPlans ==> mealPlans[id].kitchenId != kitchenId
    ensures r.Error? ==> r == Error(404, "No meal plans found for this kitchen")
    ensures r.Ok? ==> forall id :: id in r.value <==> id in mealPlans && mealPlans[id].kitchenId == kitchenId
    ensures r.Ok? ==> forall id :: id in r.value ==> r.value[id] == mealPlans[id]
  {
    if exists id :: id in mealPlans && mealPlans[id].kitchenId == kitchenId
    then Ok(map id | id in mealPlans && mealPlans[id].kitchenId == kitchenId :: mealPlans[id])
    else Error(404, "No meal plans found for this kitchen")
  }

  /** `GET /homekitchens/{id}/menuitems`: the kitchen's menu items, or 404
      when it has none; the 404's detail is the same text the meal-plan
      listing uses. */
  function GetMenuItems(menuItems: map<int, MenuItemRow>, kitchenId: int): (r: Response<map<int, MenuItemRow>>)
    ensures r.Error? <==> forall id :: id in menuItems ==> menuItems[id].kitchenId != kitchenId
    ensures r.Error? ==> r == Error(404, "No meal plans found for this kitchen")
    ensures r.Ok? ==> forall id :: id in r.value <==> id in menuItems && menuItems[id].kitchenId == kitchenId
    ensures r.Ok? ==> forall id :: id in r.value ==> r.value[id] == menuItems[id]
  {
    if exists id :: id in menuItems && menuItems[id].kitchenId == kitchenId
    then Ok(map id | id in menuItems && menuItems[id].kitchenId == kitchenId :: menuItems[id])
    else Error(404, "No meal plans found for this kitchen")
  }

  /** A row of the join in `get_mealplan_items`: a menu item with its id. */
  datatype ItemOfPlan = ItemOfPlan(itemId: int, item: MenuItemRow)

  /** The MEALPLANITEMS rows the join keeps: those of the plan whose item
      still exists, in table order, each as often as it occurs. */
  function PlanRows(rows: seq<MealPlanItemRow>, menuItems: map<int, MenuItemRow>, mealPlanId: int): (r: seq<MealPlanItemRow>)
    ensures forall row :: row in r <==> row in rows && row.mealPlanId == mealPlanId && row.itemId in menuItems
    ensures forall row :: multiset(r)[row] ==
              (if row.mealPlanId == mealPlanId && row.itemId in menuItems then multiset(rows)[row] else 0)
  {
    FilterCount(rows, InPlan(menuItems, mealPlanId));
    Filter(rows, InPlan(menuItems, mealPlanId))
  }

  /** The join condition of `get_mealplan_items`. */
  function InPlan(menuItems: map<int, MenuItemRow>, mealPlanId: int): MealPlanItemRow -> bool
  {
    (row: MealPlanItemRow) => row.mealPlanId == mealPlanId && row.itemId in menuItems
  }

  /** The join of MEALPLANITEMS with MENUITEMS for one meal plan: one
      result per plan row whose item still exists, in plan-row order,
      carrying that menu item. */
  function Joined(rows: seq<MealPlanItemRow>, menuItems: map<int, MenuItemRow>, mealPlanId: int): (r: seq<ItemOfPlan>)
    ensures |r| == |PlanRows(rows, menuItems, mealPlanId)|
    ensures forall i :: 0 <= i < |r| ==>
              && PlanRows(rows, menuItems, mealPlanId)[i].itemId in menuItems
              && r[i] == ItemOfPlan(PlanRows(rows, menuItems, mealPlanId)[i].itemId,
                                    menuItems[PlanRows(rows, menuItems, mealPlanId)[i].itemId])
  {
    var p := PlanRows(rows, menuItems, mealPlanId);
    assert forall i :: 0 <= i < |p| ==> p[i] in p;
    seq(|p|, i requires 0 <= i < |p| => ItemOfPlan(p[i].itemId, menuItems[p[i].itemId]))
  }

  /** The join holds exactly the menu items of the plan's rows whose item
      still exists. */
  lemma JoinedMembers(rows: seq<MealPlanItemRow>, menuItems: map<int, MenuItemRow>, mealPlanId: int)
    ensures forall x :: x in Joined(rows, menuItems, mealPlanId) ==>
              x.itemId in menuItems && x.item == menuItems[x.itemId]
              && exists row :: row in rows && row.mealPlanId == mealPlanId && row.itemId == x.itemId
    ensures forall row :: row in rows && row.mealPlanId == mealPlanId && row.itemId in menuItems
              ==> ItemOfPlan(row.itemId, menuItems[row.itemId]) in Joined(rows, menuItems, mealPlanId)
  {
    var p := PlanRows(rows, menuItems, mealPlanId);
    var r := Joined(rows, menuItems, mealPlanId);
    forall x | x in r
      ensures x.itemId in menuItems && x.item == menuItems[x.itemId]
      ensures exists row :: row in rows && row.mealPlanId == mealPlanId && row.itemId == x.itemId
    {
      var i :| 0 <= i < |r| && r[i] == x;
      assert p[i] in p;
    }
    forall row | row in rows && row.mealPlanId == mealPlanId && row.itemId in menuItems
      ensures ItemOfPlan(row.itemId, menuItems[row.itemId]) in r
    {
      assert row in p;
      var i :| 0 <= i < |p| && p[i] == row;
      assert r[i] == ItemOfPlan(row.itemId, menuItems[row.itemId]);
    }
  }

  /** The join follows the order of the plan rows: joining two runs of
      rows one after the other gives their joins one after the other. */
  lemma JoinedAppend(a: seq<MealPlanItemRow>, b: seq<MealPlanItemRow>, menuItems: map<int, MenuItemRow>, mealPlanId: int)
    ensures Joined(a + b, menuItems, mealPlanId) == Joined(a, menuItems, mealPlanId) + Joined(b, menuItems, mealPlanId)
  {
    assert PlanRows(a + b, menuItems, mealPlanId) == PlanRows(a, menuItems, mealPlanId) + PlanRows(b, menuItems, mealPlanId) by {
      FilterAppend(a, b, InPlan(menuItems, mealPlanId));
    }
    JoinedOfSplit(a + b, a, b, menuItems, mealPlanId);
  }

  /** The join depends on the rows only through the plan rows kept. */
  lemma JoinedOfSplit(rows: seq<MealPlanItemRow>, a: seq<MealPlanItemRow>, b: seq<MealPlanItemRow>,
                      menuItems: map<int, MenuItemRow>, mealPlanId: int)
    requires PlanRows(rows, menuItems, mealPlanId) == PlanRows(a, menuItems, mealPlanId) + PlanRows(b, menuItems, mealPlanId)
    ensures Joined(rows, menuItems, mealPlanId) == Joined(a, menuItems, mealPlanId) + Joined(b, menuItems, mealPlanId)
  {
    var p, pa := PlanRows(rows, menuItems, mealPlanId), PlanRows(a, menuItems, mealPlanId);
    var j, ja, jb := Joined(rows, menuItems, mealPlanId), Joined(a, menuItems, mealPlanId), Joined(b, menuItems, mealPlanId);
    forall i | 0 <= i < |j| ensures j[i] == (ja + jb)[i] {
      if i < |ja| {
        assert p[i] == pa[i];
      } else {
        assert p[i] == PlanRows(b, menuItems, mealPlanId)[i - |ja|];
      }
    }
    assert j == ja + jb;
  }



  /** `GET /homekitchens/{id}/{plan}/items`: the plan's menu items, or 404
      when the join is empty. The kitchen in the path takes no part in
      the query. */
  function GetMealPlanItems(mealPlanItems: seq<MealPlanItemRow>, menuItems: map<int, MenuItemRow>, kitchenId: int, mealPlanId: int)
    : (r: Response<seq<ItemOfPlan>>)
    ensures r.Error? <==> forall row :: row in mealPlanItems && row.mealPlanId == mealPlanId ==> row.itemId !in menuItems
    ensures r.Error? ==> r == Error(404, "No items found for this meal plan")
    ensures r.Ok? ==> r.value == Joined(mealPlanItems, menuItems, mealPlanId)
  {
    var items := Joined(mealPlanItems, menuItems, mealPlanId);
    JoinedMembers(mealPlanItems, menuItems, mealPlanId);
    assert items != [] ==> items[0] in items;
    if items == [] then Error(404, "No items found for this meal plan") else Ok(items)
  }

  /** The validation query of `create_mealplan`: the item exists and
      belongs to the kitchen. */
  predicate InKitchen(menuItems: map<int, MenuItemRow>, kitchenId: int, itemId: int)
  {
    itemId in menuItems && menuItems[itemId].kitchenId == kitchenId
  }

  /** `id` is the first listed ItemID that fails the validation query. */
  ghost predicate FirstMissing(menuItems: map<int, MenuItemRow>, kitchenId: int, items: seq<int>, id: int)
  {
    exists i :: 0 <= i < |items| && items[i] == id && !InKitchen(menuItems, kitchenId, id)
      && forall j :: 0 <= j < i ==> InKitchen(menuItems, kitchenId, items[j])
  }

  /** At most one ItemID is the first failing one. */
  lemma FirstMissingUnique(menuItems: map<int, MenuItemRow>, kitchenId: int, items: seq<int>, a: int, b: int)
    requires FirstMissing(menuItems, kitchenId, items, a) && FirstMissing(menuItems, kitchenId, items, b)
    ensures a == b
  {
    var i :| 0 <= i < |items| && items[i] == a && !InKitchen(menuItems, kitchenId, a)
      && forall j :: 0 <= j < i ==> InKitchen(menuItems, kitchenId, items[j]);
    var k :| 0 <= k < |items| && items[k] == b && !InKitchen(menuItems, kitchenId, b)
      && forall j :: 0 <= j < k ==> InKitchen(menuItems, kitchenId, items[j]);
    assert !(i < k) && !(k < i);
  }

  /** The validation loop of `create_mealplan`: stops at the first ItemID
      that is not a menu item of the kitchen. */
  method FindMissingItem(menuItems: map<int, MenuItemRow>, kitchenId: int, items: seq<int>) returns (missing: Option<int>)
    ensures missing.None? <==> forall i :: 0 <= i < |items| ==> InKitchen(menuItems, kitchenId, items[i])
    ensures missing.Some? ==> FirstMissing(menuItems, kitchenId, items, missing.value)
  {
    for i := 0 to |items|
      invariant forall j :: 0 <= j < i ==> InKitchen(menuItems, kitchenId, items[j])
    {
      if !InKitchen(menuItems, kitchenId, items[i]) {
        return Some(items[i]);
      }
    }
    return None;
  }

  /** The body of `POST /homekitchens/{id}/mealplans`; the price is in cents. */
  datatype MealPlanCreate = MealPlanCreate(name: string, totalPrice: int, image: string, items: seq<int>)

  /** The MEALPLANITEMS rows for a new plan: one per listed item, in order. */
  function PlanItemRows(kitchenId: int, mealPlanId: int, items: seq<int>): (r: seq<MealPlanItemRow>)
    ensures |r| == |items|
    ensures forall i :: 0 <= i < |r| ==> r[i] == MealPlanItemRow(kitchenId, mealPlanId, items[i])
  {
    seq(|items|, i requires 0 <= i < |items| => MealPlanItemRow(kitchenId, mealPlanId, items[i]))
  }

  function MissingItemMessage(id: int): string
  {
    "Menu item " + IntToString(id) + " does not exist in this kitchen"
  }

  /** `POST /homekitchens/{id}/mealplans`: ownership first, then every item
      is validated before anything is inserted; then one MEALPLANS row and
      one MEALPLANITEMS row per item, all for the new plan. */
  method CreateMealPlan(db: Database, kitchenId: int, plan: MealPlanCreate, user: Caller) returns (r: Response<string>)
    requires db.Valid()
    modifies db`mealPlans, db`mealPlanItems, db`nextMealPlanId
    ensures db.Valid()
    ensures !Owns(db.kitchens, db.users, user.email, kitchenId) ==> r == Error(403, "You do not own this kitchen")
    ensures Owns(db.kitchens, db.users, user.email, kitchenId) && r.Error?
         ==> exists id :: FirstMissing(db.menuItems, kitchenId, plan.items, id) && r == Error(400, MissingItemMessage(id))
    ensures r.Ok? <==> (Owns(db.kitchens, db.users, user.email, kitchenId)
                        && forall i :: 0 <= i < |plan.items| ==> InKitchen(db.menuItems, kitchenId, plan.items[i]))
    ensures r.Error? ==> db.mealPlans == old(db.mealPlans) && db.mealPlanItems == old(db.mealPlanItems)
    ensures r.Ok? ==> r.value == "Meal plan created successfully"
    ensures r.Ok? ==> old(db.nextMealPlanId) !in old(db.mealPlans)
    ensures r.Ok? ==> db.mealPlans == old(db.mealPlans)[old(db.nextMealPlanId) := MealPlanRow(kitchenId, plan.name, plan.totalPrice, plan.image)]
    ensures r.Ok? ==> db.mealPlanItems == old(db.mealPlanItems) + PlanItemRows(kitchenId, old(db.nextMealPlanId), plan.items)
    ensures r.Ok? ==> forall id :: id in db.mealPlans && db.mealPlans[id].kitchenId == kitchenId && db.mealPlans[id].name == plan.name
                              ==> id <= old(db.nextMealPlanId)
  {
    var gate := VerifyOwner(db.kitchens, db.users, user.email, kitchenId);
    if gate.Error? {
      return Error(gate.code, gate.detail);
    }
    var missing := FindMissingItem(db.menuItems, kitchenId, plan.items);
    if missing.Some? {
      return Error(400, MissingItemMessage(missing.value));
    }
    var mealPlanId := db.nextMealPlanId;
    db.mealPlans := db.mealPlans[mealPlanId := MealPlanRow(kitchenId, plan.name, plan.totalPrice, plan.image)];
    db.nextMealPlanId := db.nextMealPlanId + 1;
    var i := 0;
    while i < |plan.items|
      invariant 0 <= i <= |plan.items|
      invariant db.mealPlanItems == old(db.mealPlanItems) + PlanItemRows(kitchenId, mealPlanId, plan.items)[..i]
      invariant db.mealPlans == old(db.mealPlans)[mealPlanId := MealPlanRow(kitchenId, plan.name, plan.totalPrice, plan.image)]
      invariant db.nextMealPlanId == mealPlanId + 1
    {
      db.mealPlanItems := db.mealPlanItems + [MealPlanItemRow(kitchenId, mealPlanId, plan.items[i])];
      i := i + 1;
    }
    assert PlanItemRows(kitchenId, mealPlanId, plan.items)[..i] == PlanItemRows(kitchenId, mealPlanId, plan.items);
    r := Ok("Meal plan created successfully");
  }

  /** What `delete_mealplan` leaves in MEALPLANITEMS. */
  function WithoutPlanItems(rows: seq<MealPlanItemRow>, kitchenId: int, mealPlanId: int): (r: seq<MealPlanItemRow>)
    ensures forall row :: row in r <==> row in rows && !(row.mealPlanId == mealPlanId && row.kitchenId == kitchenId)
    ensures forall row :: multiset(r)[row] ==
              (if row.mealPlanId == mealPlanId && row.kitchenId == kitchenId then 0 else multiset(rows)[row])
  {
    var keep := (row: MealPlanItemRow) => !(row.mealPlanId == mealPlanId && row.kitchenId == kitchenId);
    FilterCount(rows, keep);
    Filter(rows, keep)
  }

  /** `DELETE /homekitchens/{id}/mealplans/{plan}`: ownership first, then the
      plan's items and then the plan, each only within that kitchen. */
  method DeleteMealPlan(db: Database, kitchenId: int, mealPlanId: int, user: Caller) returns (r: Response<string>)
    modifies db`mealPlans, db`mealPlanItems
    ensures !Owns(db.kitchens, db.users, user.email, kitchenId) ==> r == Error(403, "You do not own this kitchen")
    ensures !Owns(db.kitchens, db.users, user.email, kitchenId)
         ==> db.mealPlans == old(db.mealPlans) && db.mealPlanItems == old(db.mealPlanItems)
    ensures Owns(db.kitchens, db.users, user.email, kitchenId) ==> r == Ok("Meal plan and its items deleted")
    ensures Owns(db.kitchens, db.users, user.email, kitchenId)
         ==> db.mealPlanItems == WithoutPlanItems(old(db.mealPlanItems), kitchenId, mealPlanId)
    ensures Owns(db.kitchens, db.users, user.email, kitchenId) && mealPlanId in old(db.mealPlans)
         && old(db.mealPlans)[mealPlanId].kitchenId == kitchenId
         ==> db.mealPlans == old(db.mealPlans) - {mealPlanId}
    ensures !(mealPlanId in old(db.mealPlans) && old(db.mealPlans)[mealPlanId].kitchenId == kitchenId)
         ==> db.mealPlans == old(db.mealPlans)
    ensures old(db.Valid()) ==> db.Valid()
  {
    var gate := VerifyOwner(db.kitchens, db.users, user.email, kitchenId);
    if gate.Error? {
      return Error(gate.code, gate.detail);
    }
    db.mealPlanItems := WithoutPlanItems(db.mealPlanItems, kitchenId, mealPlanId);
    if mealPlanId in db.mealPlans && db.mealPlans[mealPlanId].kitchenId == kitchenId {
      db.mealPlans := db.mealPlans - {mealPlanId};
    }
    r := Ok("Meal plan and its items deleted");
  }

  /** The body of `POST /homekitchens/{id}/menuitems`; its `Items` list is
      accepted and ignored. */
  datatype MenuItemCreate = MenuItemCreate(name: string, description: string, price: int, image: string, items: seq<int>)

  /** `POST /homekitchens/{id}/menuitems`: ownership first, then one
      MENUITEMS row. */
  method CreateMenuItem(db: Database, kitchenId: int, item: MenuItemCreate, user: Caller) returns (r: Response<string>)
    requires db.Valid()
    modifies db`menuItems, db`nextMenuItemId
    ensures db.Valid()
    ensures !Owns(db.kitchens, db.users, user.email, kitchenId) ==> r == Error(403, "You do not own this kitchen")
    ensures r.Ok? <==> Owns(db.kitchens, db.users, user.email, kitchenId)
    ensures r.Error? ==> db.menuItems == old(db.menuItems)
    ensures r.Ok? ==> r.value == "Menu item created successfully"
    ensures r.Ok? ==> old(db.nextMenuItemId) !in old(db.menuItems)
    ensures r.Ok? ==> db.menuItems == old(db.menuItems)[old(db.nextMenuItemId) := MenuItemRow(kitchenId, item.name, item.description, item.price, item.image)]
  {
    var gate := VerifyOwner(db.kitchens, db.users, user.email, kitchenId);
    if gate.Error? {
      return Error(gate.code, gate.detail);
    }
    db.menuItems := db.menuItems[db.nextMenuItemId := MenuItemRow(kitchenId, item.name, item.description, item.price, item.image)];
    db.nextMenuItemId := db.nextMenuItemId + 1;
    r := Ok("Menu item created successfully");
  }

  /** `DELETE /homekitchens/{id}/menuitems/{item}`: ownership first, then
      the item goes if it belongs to that kitchen. */
  method DeleteMenuItem(db: Database, kitchenId: int, itemId: int, user: Caller) returns (r: Response<string>)
    modifies db`menuItems
    ensures !Owns(db.kitchens, db.users, user.email, kitchenId) ==> r == Error(403, "You do not own this kitchen")
    ensures r.Ok? <==> Owns(db.kitchens, db.users, user.email, kitchenId)
    ensures r.Ok? ==> r.value == "Menu item deleted"
    ensures r.Ok? && InKitchen(old(db.menuItems), kitchenId, itemId) ==> db.menuItems == old(db.menuItems) - {itemId}
    ensures r.Error? || !InKitchen(old(db.menuItems), kitchenId, itemId) ==> db.menuItems == old(db.menuItems)
    ensures old(db.Valid()) ==> db.Valid()
  {
    var gate := VerifyOwner(db.kitchens, db.users, user.email, kitchenId);
    if gate.Error? {
      return Error(gate.code, gate.detail);
    }
    if InKitchen(db.menuItems, kitchenId, itemId) {
      db.menuItems := db.menuItems - {itemId};
    }
    r := Ok("Menu item deleted");
  }
}
