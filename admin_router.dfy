/** The `/admin` routes: approving drivers and kitchens, deleting users,
    and the pending and all-user listings. */
module AdminRouter {
  import opened Common
  import opened Db
  import opened UserRole

  /** `verify_admin`: only the "admin" role passes. */
  function VerifyAdmin(user: Caller): (r: Response<bool>)
    ensures r.Ok? <==> user.role == ADMIN
    ensures r.Ok? ==> r.value
    ensures r.Error? ==> r == Error(403, "Admins only")
  {
    if user.role != ADMIN then Error(403, "Admins only") else Ok(true)
  }

  /** `ApprovalStatus != 'approved' OR ApprovalStatus IS NULL`: SQL's
      three-valued comparison drops NULL from the first disjunct and the
      second puts it back, so exactly the non-approved rows match. */
  predicate IsPending(status: Option<string>)
    ensures IsPending(status) <==> status != Some("approved")
  {
    status.None? || status.value != "approved"
  }

  /** `PUT /admin/verify-driver/{id}`: the DRIVERS row, if there is one,
      becomes approved and verified by the admin; the message is sent
      whether or not a row matched. */
  method VerifyDriver(db: Database, driverId: int, user: Caller) returns (r: Response<string>)
    modifies db`drivers
    ensures user.role != ADMIN ==> r == Error(403, "Admins only") && db.drivers == old(db.drivers)
    ensures user.role == ADMIN ==> r == Ok("Driver " + IntToString(driverId) + " approved")
    ensures user.role == ADMIN && driverId in old(db.drivers)
         ==> db.drivers == old(db.drivers)[driverId := DriverRow(Some("approved"), Some(user.uid))]
    ensures user.role == ADMIN && driverId !in old(db.drivers) ==> db.drivers == old(db.drivers)
    ensures user.role == ADMIN ==> driverId !in PendingDrivers(db.drivers)
    ensures PendingDrivers(db.drivers) <= PendingDrivers(old(db.drivers))
  {
    var gate := VerifyAdmin(user);
    if gate.Error? {
      return Error(gate.code, gate.detail);
    }
    if driverId in db.drivers {
      db.drivers := db.drivers[driverId := DriverRow(Some("approved"), Some(user.uid))];
    }
    r := Ok("Driver " + IntToString(driverId) + " approved");
  }

  /** What `delete_user` leaves in USERS: every row but those of `uid`. */
  function WithoutUser(users: seq<UserRow>, uid: int): (r: seq<UserRow>)
    ensures forall row :: row in r <==> row in users && row.uid != uid
  {
    Filter(users, (row: UserRow) => row.uid != uid)
  }

  /** `DELETE /admin/delete-user/{uid}`: the uid leaves CUSTOMERS, DRIVERS,
      KITCHENOWNERS and USERS, so it has no role and no email maps to it. */
  method DeleteUser(db: Database, uid: int, user: Caller) returns (r: Response<string>)
    modifies db`customers, db`drivers, db`kitchenOwners, db`users
    ensures user.role != ADMIN ==> r == Error(403, "Admins only")
    ensures user.role != ADMIN ==> db.customers == old(db.customers) && db.drivers == old(db.drivers)
    ensures user.role != ADMIN ==> db.kitchenOwners == old(db.kitchenOwners) && db.users == old(db.users)
    ensures user.role == ADMIN ==> r == Ok("User " + IntToString(uid) + " deleted")
    ensures user.role == ADMIN ==> db.customers == old(db.customers) - {uid} && db.drivers == old(db.drivers) - {uid}
    ensures user.role == ADMIN ==> db.kitchenOwners == old(db.kitchenOwners) - {uid}
    ensures user.role == ADMIN ==> db.users == WithoutUser(old(db.users), uid)
    ensures user.role == ADMIN ==> RoleOf(db.kitchenOwners, db.drivers.Keys, db.customers, uid) == None
    ensures user.role == ADMIN ==> forall email :: UidOf(db.users, email) != Some(uid)
  {
    var gate := VerifyAdmin(user);
    if gate.Error? {
      return Error(gate.code, gate.detail);
    }
    db.customers := db.customers - {uid};
    db.drivers := db.drivers - {uid};
    db.kitchenOwners := db.kitchenOwners - {uid};
    db.users := WithoutUser(db.users, uid);
    forall email ensures UidOf(db.users, email) != Some(uid) {
      var found := UidOf(db.users, email);
      if found.Some? {
        var i :| 0 <= i < |db.users| && db.users[i].email == email && db.users[i].uid == found.value;
        assert db.users[i] in db.users;
      }
    }
    r := Ok("User " + IntToString(uid) + " deleted");
  }

  /** `PUT /admin/approve-kitchen/{id}`: the HOMEKITCHENS row, if there is
      one, becomes approved and verified by the admin. */
  method ApproveKitchen(db: Database, kitchenId: int, user: Caller) returns (r: Response<string>)
    modifies db`kitchens
    ensures user.role != ADMIN ==> r == Error(403, "Admins only") && db.kitchens == old(db.kitchens)
    ensures user.role == ADMIN ==> r == Ok("Kitchen " + IntToString(kitchenId) + " approved")
    ensures user.role == ADMIN && kitchenId in old(db.kitchens)
         ==> db.kitchens == old(db.kitchens)[kitchenId := old(db.kitchens)[kitchenId].(approvalStatus := Some("approved"), verifiedBy := Some(user.uid))]
    ensures user.role == ADMIN && kitchenId !in old(db.kitchens) ==> db.kitchens == old(db.kitchens)
    ensures user.role == ADMIN ==> kitchenId !in PendingKitchens(db.kitchens)
    ensures PendingKitchens(db.kitchens).Keys <= PendingKitchens(old(db.kitchens)).Keys
    ensures old(db.Valid()) ==> db.Valid()
  {
    var gate := VerifyAdmin(user);
    if gate.Error? {
      return Error(gate.code, gate.detail);
    }
    if kitchenId in db.kitchens {
      db.kitchens := db.kitchens[kitchenId := db.kitchens[kitchenId].(approvalStatus := Some("approved"), verifiedBy := Some(user.uid))];
    }
    r := Ok("Kitchen " + IntToString(kitchenId) + " approved");
  }

  /** The DriverUIDs that `GET /admin/pending-drivers` lists. */
  function PendingDrivers(drivers: map<int, DriverRow>): (r: set<int>)
    ensures forall id :: id in r <==> id in drivers && drivers[id].approvalStatus != Some("approved")
  {
    set id | id in drivers && IsPending(drivers[id].approvalStatus)
  }

  /** The KitchenID and Name pairs that `GET /admin/pending-kitchens` lists. */
  function PendingKitchens(kitchens: map<int, KitchenRow>): (r: map<int, string>)
    ensures forall id :: id in r <==> id in kitchens && kitchens[id].approvalStatus != Some("approved")
    ensures forall id :: id in r ==> r[id] == kitchens[id].name
  {
    map id | id in kitchens && IsPending(kitchens[id].approvalStatus) :: kitchens[id].name
  }

  function GetPendingDrivers(drivers: map<int, DriverRow>, user: Caller): (r: Response<set<int>>)
    ensures r.Error? <==> user.role != ADMIN
    ensures r.Error? ==> r == Error(403, "Admins only")
    ensures r.Ok? ==> forall id :: id in r.value <==> id in drivers && drivers[id].approvalStatus != Some("approved")
  {
    var gate := VerifyAdmin(user);
    if gate.Error? then Error(gate.code, gate.detail) else Ok(PendingDrivers(drivers))
  }

  function GetPendingKitchens(kitchens: map<int, KitchenRow>, user: Caller): (r: Response<map<int, string>>)
    ensures r.Error? <==> user.role != ADMIN
    ensures r.Error? ==> r == Error(403, "Admins only")
    ensures r.Ok? ==> forall id :: id in r.value <==> id in kitchens && kitchens[id].approvalStatus != Some("approved")
    ensures r.Ok? ==> forall id :: id in r.value ==> r.value[id] == kitchens[id].name
  {
    var gate := VerifyAdmin(user);
    if gate.Error? then Error(gate.code, gate.detail) else Ok(PendingKitchens(kitchens))
  }

  /** One entry of `GET /admin/all-users`. */
  datatype UserEntry = UserEntry(uid: int, firstName: string, lastName: string, role: Option<string>)

  /** `GET /admin/all-users`: one entry per USERS row, in row order, each
      tagged with the role `get_user_role` derives for its uid. */
  method GetAllUsers(db: Database, user: Caller) returns (r: Response<seq<UserEntry>>)
    ensures r.Error? <==> user.role != ADMIN
    ensures r.Error? ==> r == Error(403, "Admins only")
    ensures r.Ok? ==> |r.value| == |db.users|
    ensures r.Ok? ==> forall i :: 0 <= i < |db.users| ==>
      r.value[i] == UserEntry(db.users[i].uid, db.users[i].firstName, db.users[i].lastName,
                              RoleOf(db.kitchenOwners, db.drivers.Keys, db.customers, db.users[i].uid))
  {
    var gate := VerifyAdmin(user);
    if gate.Error? {
      return Error(gate.code, gate.detail);
    }
    var output: seq<UserEntry> := [];
    for i := 0 to |db.users|
      invariant |output| == i
      invariant forall j :: 0 <= j < i ==>
        output[j] == UserEntry(db.users[j].uid, db.users[j].firstName, db.users[j].lastName,
                               RoleOf(db.kitchenOwners, db.drivers.Keys, db.customers, db.users[j].uid))
    {
      var row := db.users[i];
      var role := RoleOf(db.kitchenOwners, db.drivers.Keys, db.customers, row.uid);
      output := output + [UserEntry(row.uid, row.firstName, row.lastName, role)];
    }
    r := Ok(output);
  }
}
