/** The `/driver` routes: listing orders by status, claiming a pending
    order and completing a claimed one. */
module DriverRouter {
  import opened Common
  import opened Db

  /** `GET /driver/orders?status=...`: the orders whose Status is the
      requested one, keyed by OrderID; only drivers may ask, and only for
      one of the three statuses. */
  function GetOrders(orders: map<int, OrderRow>, status: string, user: Caller): (r: Response<map<int, OrderRow>>)
    ensures user.role != DRIVER ==> r == Error(403, "Only drivers can view this route")
    ensures user.role == DRIVER && ParseStatus(status).None? ==> r == Error(400, "Invalid status")
    ensures r.Ok? <==> user.role == DRIVER && (status == "Pending" || status == "Claimed" || status == "Completed")
    ensures r.Ok? ==> forall id :: id in r.value <==> id in orders && StatusName(orders[id].status) == status
    ensures r.Ok? ==> forall id :: id in r.value ==> r.value[id] == orders[id]
  {
    if user.role != DRIVER then Error(403, "Only drivers can view this route")
    else match ParseStatus(status)
      case None => Error(400, "Invalid status")
      case Some(s) => Ok(map id | id in orders && orders[id].status == s :: orders[id])
  }

  /** The three listings partition the orders: each order is listed under
      its own status and under no other. */
  lemma ListedUnderOwnStatus(orders: map<int, OrderRow>, id: int, s: Status, user: Caller)
    requires user.role == DRIVER && id in orders
    ensures GetOrders(orders, StatusName(s), user).Ok?
    ensures id in GetOrders(orders, StatusName(s), user).value <==> orders[id].status == s
  {
    ParseStatusName(s);
    ParseStatusName(orders[id].status);
  }

  /** The ownership test of `complete_order`: the order exists and its
      DriverUID equals the caller's UID; a NULL on either side matches
      nothing. */
  predicate AssignedTo(orders: map<int, OrderRow>, users: seq<UserRow>, orderId: int, email: string)
    ensures AssignedTo(orders, users, orderId, email) ==>
      orderId in orders && orders[orderId].driverUid.Some?
      && exists i :: 0 <= i < |users| && users[i].email == email && Some(users[i].uid) == orders[orderId].driverUid
    ensures orderId in orders && orders[orderId].driverUid.None? ==> !AssignedTo(orders, users, orderId, email)
    ensures (forall i :: 0 <= i < |users| ==> users[i].email != email) ==> !AssignedTo(orders, users, orderId, email)
  {
    orderId in orders && UidOf(users, email).Some? && orders[orderId].driverUid == UidOf(users, email)
  }

  /** `POST /driver/orders/{id}/claim`. */
  method ClaimOrder(db: Database, orderId: int, user: Caller) returns (r: Response<string>)
    modifies db`orders
    ensures user.role != DRIVER ==> r == Error(403, "Only drivers can claim orders")
    ensures user.role == DRIVER && orderId !in old(db.orders) ==> r == Error(404, "Order not found")
    ensures user.role == DRIVER && orderId in old(db.orders) && old(db.orders)[orderId].status != Pending
         ==> r == Error(400, "Order has already been claimed or completed")
    ensures r.Ok? <==> user.role == DRIVER && orderId in old(db.orders) && old(db.orders)[orderId].status == Pending
    ensures r.Error? ==> db.orders == old(db.orders)
    ensures r.Ok? ==> r.value == "Order claimed successfully"
    ensures r.Ok? ==> db.orders == old(db.orders)[orderId := old(db.orders)[orderId].(status := Claimed, driverUid := UidOf(db.users, user.email))]
    ensures r.Ok? ==> Advances(old(db.orders)[orderId], db.orders[orderId])
    ensures NeverBackwards(old(db.orders), db.orders)
    ensures old(db.Valid()) ==> db.Valid()
  {
    if user.role != DRIVER {
      return Error(403, "Only drivers can claim orders");
    }
    if orderId !in db.orders {
      return Error(404, "Order not found");
    }
    if db.orders[orderId].status != Pending {
      return Error(400, "Order has already been claimed or completed");
    }
    var row := db.orders[orderId].(status := Claimed, driverUid := UidOf(db.users, user.email));
    UpdateNeverBackwards(db.orders, orderId, row);
    db.orders := db.orders[orderId := row];
    r := Ok("Order claimed successfully");
  }

  /** `POST /driver/orders/{id}/complete`. */
  method CompleteOrder(db: Database, orderId: int, user: Caller) returns (r: Response<string>)
    modifies db`orders
    ensures user.role != DRIVER ==> r == Error(403, "Only drivers can complete orders")
    ensures user.role == DRIVER && !AssignedTo(old(db.orders), db.users, orderId, user.email)
         ==> r == Error(403, "Order is not assigned to you or doesn't exist")
    ensures user.role == DRIVER && AssignedTo(old(db.orders), db.users, orderId, user.email)
         && old(db.orders)[orderId].status != Claimed
         ==> r == Error(400, "Order must be claimed before completing")
    ensures r.Ok? <==> (user.role == DRIVER && AssignedTo(old(db.orders), db.users, orderId, user.email)
                        && old(db.orders)[orderId].status == Claimed)
    ensures r.Error? ==> db.orders == old(db.orders)
    ensures r.Ok? ==> r.value == "Order marked as completed"
    ensures r.Ok? ==> db.orders == old(db.orders)[orderId := old(db.orders)[orderId].(status := Completed)]
    ensures r.Ok? ==> Advances(old(db.orders)[orderId], db.orders[orderId])
    ensures NeverBackwards(old(db.orders), db.orders)
    ensures old(db.Valid()) ==> db.Valid()
  {
    if user.role != DRIVER {
      return Error(403, "Only drivers can complete orders");
    }
    if !AssignedTo(db.orders, db.users, orderId, user.email) {
      return Error(403, "Order is not assigned to you or doesn't exist");
    }
    if db.orders[orderId].status != Claimed {
      return Error(400, "Order must be claimed before completing");
    }
    var row := db.orders[orderId].(status := Completed);
    UpdateNeverBackwards(db.orders, orderId, row);
    db.orders := db.orders[orderId := row];
    r := Ok("Order marked as completed");
  }

  /** The delivery lifecycle end to end: a driver with a USERS row who
      claims a pending order can then complete it, and the order ends
      Completed under that driver's UID. */
  method ClaimThenComplete(db: Database, orderId: int, user: Caller) returns (claimed: Response<string>, completed: Response<string>)
    requires user.role == DRIVER && UidOf(db.users, user.email).Some?
    requires orderId in db.orders && db.orders[orderId].status == Pending
    modifies db`orders
    ensures claimed.Ok? && completed.Ok?
    ensures orderId in db.orders
    ensures db.orders[orderId] == old(db.orders)[orderId].(status := Completed, driverUid := UidOf(db.users, user.email))
    ensures NeverBackwards(old(db.orders), db.orders)
  {
    claimed := ClaimOrder(db, orderId, user);
    completed := CompleteOrder(db, orderId, user);
  }
}
