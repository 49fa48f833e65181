/** The backend's MySQL tables, as a database object whose fields the
    routers update, and the order lifecycle those tables record. */
module Db {
  import opened Common

  datatype UserRow = UserRow(uid: int, firstName: string, lastName: string, email: string)

  /** A DRIVERS row (keyed by DriverUID). */
  datatype DriverRow = DriverRow(approvalStatus: Option<string>, verifiedBy: Option<int>)

  /** A HOMEKITCHENS row (keyed by KitchenID). */
  datatype KitchenRow = KitchenRow(
    ownerUid: int,
    name: string,
    address: string,
    averageRating: Option<int>,
    verifiedBy: Option<int>,
    approvalStatus: Option<string>,
    logo: Option<string>)

  /** A MENUITEMS row (keyed by ItemID); prices in cents. */
  datatype MenuItemRow = MenuItemRow(kitchenId: int, name: string, description: string, price: int, image: string)

  /** A MEALPLANS row (keyed by MealPlanID); prices in cents. */
  datatype MealPlanRow = MealPlanRow(kitchenId: int, name: string, totalPrice: int, image: string)

  datatype MealPlanItemRow = MealPlanItemRow(kitchenId: int, mealPlanId: int, itemId: int)

  /** The three values ORDERS.Status takes. */
  datatype Status = Pending | Claimed | Completed

  /** An ORDERS row (keyed by OrderID). DriverUID is NULL until claimed. */
  datatype OrderRow = OrderRow(
    totalPrice: int,
    eta: string,
    customerUid: int,
    kitchenId: int,
    driverUid: Option<int>,
    status: Status)

  datatype ContainsRow = ContainsRow(orderId: int, kitchenId: int, itemId: int)

  /** The authenticated caller: the token's email and role, and the uid the
      admin routes read from it. */
  datatype Caller = Caller(email: string, role: string, uid: int)

  class Database {
    var users: seq<UserRow>
    var customers: set<int>
    var drivers: map<int, DriverRow>
    var kitchenOwners: set<int>
    var kitchens: map<int, KitchenRow>
    var menuItems: map<int, MenuItemRow>
    var mealPlans: map<int, MealPlanRow>
    var mealPlanItems: seq<MealPlanItemRow>
    var orders: map<int, OrderRow>
    var orderContains: seq<ContainsRow>
    /** The next AUTO_INCREMENT values. */
    var nextKitchenId: int
    var nextMenuItemId: int
    var nextMealPlanId: int
    var nextOrderId: int

    /** Every id in use lies below its table's next AUTO_INCREMENT value. */
    ghost predicate Valid()
      reads this
    {
      && (forall id :: id in kitchens ==> id < nextKitchenId)
      && (forall id :: id in menuItems ==> id < nextMenuItemId)
      && (forall id :: id in mealPlans ==> id < nextMealPlanId)
      && (forall id :: id in orders ==> id < nextOrderId)
    }

    constructor ()
      ensures Valid()
      ensures users == [] && customers == {} && drivers == map[] && kitchenOwners == {}
      ensures kitchens == map[] && menuItems == map[] && mealPlans == map[] && mealPlanItems == []
      ensures orders == map[] && orderContains == []
    {
      users, customers, drivers, kitchenOwners := [], {}, map[], {};
      kitchens, menuItems, mealPlans, mealPlanItems := map[], map[], map[], [];
      orders, orderContains := map[], [];
      nextKitchenId, nextMenuItemId, nextMealPlanId, nextOrderId := 1, 1, 1, 1;
    }
  }

  /** `SELECT UID FROM USERS WHERE Email = %s`: the first matching row's
      UID, or None (NULL) when no row matches. */
  function UidOf(users: seq<UserRow>, email: string): (r: Option<int>)
    ensures r.None? <==> forall i :: 0 <= i < |users| ==> users[i].email != email
    ensures r.Some? ==> exists i :: 0 <= i < |users| && users[i].email == email && users[i].uid == r.value
  {
    if users == [] then None
    else if users[0].email == email then Some(users[0].uid)
    else
      var r := UidOf(users[1..], email);
      assert forall i :: 1 <= i < |users| ==> users[i] == users[1..][i - 1];
      r
  }

  function StatusName(s: Status): string
  {
    match s
    case Pending => "Pending"
    case Claimed => "Claimed"
    case Completed => "Completed"
  }

  /** The `status` query parameter of `GET /driver/orders`, accepted only
      when it is one of the three names. */
  function ParseStatus(s: string): (r: Option<Status>)
    ensures r.Some? <==> s == "Pending" || s == "Claimed" || s == "Completed"
    ensures r.Some? ==> StatusName(r.value) == s
  {
    if s == "Pending" then Some(Pending)
    else if s == "Claimed" then Some(Claimed)
    else if s == "Completed" then Some(Completed)
    else None
  }

  lemma ParseStatusName(s: Status)
    ensures ParseStatus(StatusName(s)) == Some(s)
  {
  }

  /** The position of a status in the lifecycle Pending, Claimed, Completed. */
  function Rank(s: Status): nat
  {
    match s
    case Pending => 0
    case Claimed => 1
    case Completed => 2
  }

  /** No order disappears and none moves back in the lifecycle. */
  ghost predicate NeverBackwards(before: map<int, OrderRow>, after: map<int, OrderRow>)
  {
    forall id :: id in before ==> id in after && Rank(before[id].status) <= Rank(after[id].status)
  }

  /** One lifecycle step of a single order: Pending to Claimed (the claim
      also records a driver), or Claimed to Completed (nothing else moves). */
  ghost predicate Advances(before: OrderRow, after: OrderRow)
  {
    || (before.status == Pending && after == before.(status := Claimed, driverUid := after.driverUid))
    || (before.status == Claimed && after == before.(status := Completed))
  }

  /** A step moves an order exactly one place forward. */
  lemma AdvancesRank(before: OrderRow, after: OrderRow)
    requires Advances(before, after)
    ensures Rank(after.status) == Rank(before.status) + 1
  {
  }

  /** Updating one order by a step, or by nothing, never moves any order
      backwards. */
  lemma UpdateNeverBackwards(orders: map<int, OrderRow>, id: int, row: OrderRow)
    requires id in orders && Advances(orders[id], row)
    ensures NeverBackwards(orders, orders[id := row])
  {
    AdvancesRank(orders[id], row);
  }

  lemma NeverBackwardsTransitive(a: map<int, OrderRow>, b: map<int, OrderRow>, c: map<int, OrderRow>)
    requires NeverBackwards(a, b) && NeverBackwards(b, c)
    ensures NeverBackwards(a, c)
  {
  }
}
