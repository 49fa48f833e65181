/** `POST /order/`: a customer places one order with one kitchen. */
module OrderRouter {
  import opened Common
  import opened Wire
  import opened Db

  /** The ORDERCONTAINS rows for an order: one per requested item, in
      request order, each with the order's id and the request's KitchenID.
      The item's Quantity is not stored. */
  function ContainsRows(orderId: int, order: OrderRequest): (r: seq<ContainsRow>)
    ensures |r| == |order.items|
    ensures forall i :: 0 <= i < |r| ==> r[i] == ContainsRow(orderId, order.kitchenId, order.items[i].itemId)
  {
    seq(|order.items|, i requires 0 <= i < |order.items| => ContainsRow(orderId, order.kitchenId, order.items[i].itemId))
  }

  /** The id `place_order` returns: the customer's highest OrderID. */
  ghost predicate IsLatestOf(orders: map<int, OrderRow>, customerUid: int, id: int)
  {
    id in orders && orders[id].customerUid == customerUid
    && forall other :: other in orders && orders[other].customerUid == customerUid ==> other <= id
  }

  method PlaceOrder(db: Database, order: OrderRequest, user: Caller) returns (r: Response<int>)
    requires db.Valid()
    modifies db`orders, db`orderContains, db`nextOrderId
    ensures db.Valid()
    ensures user.role != CUSTOMER ==> r == Error(403, "Only customers can place orders")
    ensures user.role == CUSTOMER && UidOf(db.users, user.email).None? ==> r == Error(500, "Internal Server Error")
    ensures r.Ok? <==> user.role == CUSTOMER && UidOf(db.users, user.email).Some?
    ensures r.Error? ==> db.orders == old(db.orders) && db.orderContains == old(db.orderContains)
    ensures r.Ok? ==> r.value !in old(db.orders)
    ensures r.Ok? ==> db.orders == old(db.orders)[r.value := OrderRow(order.totalPrice, order.eta, UidOf(db.users, user.email).value, order.kitchenId, None, Pending)]
    ensures r.Ok? ==> db.orderContains == old(db.orderContains) + ContainsRows(r.value, order)
    ensures r.Ok? ==> IsLatestOf(db.orders, UidOf(db.users, user.email).value, r.value)
  {
    if user.role != CUSTOMER {
      return Error(403, "Only customers can place orders");
    }
    var found := UidOf(db.users, user.email);
    if found.None? {
      // `execute_query(...)[0][0]` on an empty result raises IndexError.
      return Error(500, "Internal Server Error");
    }
    var customerUid := found.value;
    var orderId := db.nextOrderId;
    db.orders := db.orders[orderId := OrderRow(order.totalPrice, order.eta, customerUid, order.kitchenId, None, Pending)];
    db.nextOrderId := db.nextOrderId + 1;
    var i := 0;
    while i < |order.items|
      invariant 0 <= i <= |order.items|
      invariant db.orderContains == old(db.orderContains) + ContainsRows(orderId, order)[..i]
      invariant db.orders == old(db.orders)[orderId := OrderRow(order.totalPrice, order.eta, customerUid, order.kitchenId, None, Pending)]
      invariant db.nextOrderId == orderId + 1
    {
      db.orderContains := db.orderContains + [ContainsRow(orderId, order.kitchenId, order.items[i].itemId)];
      i := i + 1;
    }
    assert ContainsRows(orderId, order)[..i] == ContainsRows(orderId, order);
    r := Ok(orderId);
  }
}
