/** `get_user_role`: a user's role from the role tables they appear in. */
module UserRole {
  import opened Common

  /** The first of KITCHENOWNERS, DRIVERS, CUSTOMERS holding `uid` decides
      the role; a uid in none of them has no role (the function falls off
      its end and returns None). */
  function RoleOf(owners: set<int>, drivers: set<int>, customers: set<int>, uid: int): (r: Option<string>)
    ensures r == Some(OWNER) <==> uid in owners
    ensures r == Some(DRIVER) <==> uid !in owners && uid in drivers
    ensures r == Some(CUSTOMER) <==> uid !in owners && uid !in drivers && uid in customers
    ensures r == None <==> uid !in owners && uid !in drivers && uid !in customers
    ensures r != Some(ADMIN)
  {
    if uid in owners then Some(OWNER)
    else if uid in drivers then Some(DRIVER)
    else if uid in customers then Some(CUSTOMER)
    else None
  }
}
