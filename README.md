# Home-kitchen ordering: cart, orders and delivery

A Dafny model of the deterministic rules of a food-ordering marketplace
whose customers buy from home kitchens, whose owners manage menus and meal
plans, whose drivers deliver orders and whose admins approve kitchens and
drivers. The web pages run in the browser and call a FastAPI backend over
MySQL. The model follows one path through the system: cart, then orders,
then delivery.

- **Cart** (`cart.dfy`). The cart page edits the stored list of cart lines:
  it clamps a quantity at 1 and removes a line. Its total is always the sum
  of price × quantity.
- **Checkout** (`checkout.dfy`). The cart is folded into one group per
  KitchenID. This is proved to be a partition, and the group totals are
  proved to add up to the cart total. One order request is built per group,
  all with the same ETA. The stored cart is cleared only when every order
  succeeds.
- **Orders and delivery** (`order_router.dfy`, `driver_router.dfy`,
  `driver_page.dfy`). `POST /order/` inserts a Pending order and one
  ORDERCONTAINS row per item. A driver claims a Pending order and completes
  an order they claimed, so an order's status only ever moves forward. The
  driver dashboard maps its tabs to these statuses and offers each action
  only on the tab whose orders it applies to.
- **Administration and roles** (`admin_router.dfy`, `user_role.dfy`). Admin
  gates, approvals, user deletion, the pending listings and the fixed
  owner > driver > customer role precedence.
- **Kitchens** (`kitchen_router.dfy`, `kitchen_page.dfy`,
  `create_kitchen_page.dfy`). The ownership check runs before every write.
  A meal plan's items are all validated before anything is inserted. On the
  page, a 404 listing means an empty list, the owner test agrees with the
  backend's, and the meal-plan id builder is modelled.
- **Accounts** (`signup_page.dfy`, `login_page.dfy`). The signup validation
  chain, its payload and routing, and the login's role-based redirect.

Conventions:
- Prices are integer cents.
- The database is the class `Db.Database`. It has one field per table: a
  map keyed by primary key, a set for the role tables, and a sequence for
  tables without a key. SQL results without `ORDER BY` are maps or sets.
- The browser's localStorage, its router location and the log of requests
  sent are fields of `Session.Browser`.
- Every network reply, the clock (`Date.now()`) and the ETA are parameters.
- The authenticated caller (email, role, uid) is an input.

Behaviour of the code that the model keeps as written:
- `GET /homekitchens/{id}/menuitems` answers 404 with the meal-plan text
  "No meal plans found for this kitchen" (`KitchenRouter.GetMenuItems`).
- `Math.round(group.Total)` rounds to whole dollars, so the TotalPrice sent
  for an order is in dollars (`Checkout.RoundToDollars`).
- `Object.values` lists integer keys in ascending order. The checkout groups
  therefore appear by ascending KitchenID, not in order of first
  appearance in the cart.
- The driver's "Active Orders" tab lists the orders every driver has
  claimed. Completing one claimed by someone else gives 403
  (`DriverPage.DeliverOfferedOnlyForClaimed`).
- The owner's add-item and add-meal-plan handlers append locally whatever
  the reply was.
- `place_order` looks up the customer with `[0][0]`. When the email has no
  USERS row this raises, which the model treats as a 500 with nothing
  inserted.

## Model

| member | source | states |
|---|---|---|
| Common.OrElse | frontend/src/app/checkout/page.js:92 | `detail \|\| fallback`: a non-empty detail is shown, otherwise the fallback |
| Common.ParseNumber | frontend/src/app/homekitchens/page.js:58 | `Number(s)`: blank text is 0, a digit string is its value, and any text read as a number uses only digits, signs and points after trimming; everything else is NaN (None) |
| Common.NumberIgnoresSpaces | frontend/src/app/homekitchens/page.js:58 | `Number` ignores white space around the text |
| Common.NumberWithPlus | frontend/src/app/homekitchens/page.js:58 | a leading "+" reads as the unsigned number |
| Common.NumberWithZeroFraction | frontend/src/app/homekitchens/page.js:58 | an integer followed by "." and only zeros reads as that integer |
| Common.NumberOfIntToString | frontend/src/app/homekitchens/page.js:126 | a number's decimal text read back with `Number` gives the number |
| Session.LoadedCart | frontend/src/app/cart/page.js:13 | `JSON.parse(stored \|\| "[]")`: the stored cart, or [] when none is stored |
| Session.HasToken | frontend/src/app/cart/page.js:39 | a token counts only when it is stored and non-empty |
| Session.RedirectIfLoggedOut | frontend/src/app/cart/page.js:38-42 | without a stored token the page navigates to /login; otherwise the location is unchanged |
| Cart.WithQuantity | frontend/src/app/cart/page.js:23-25 | the edited quantity is max(1, q + delta), hence ≥ 1; length and every other line unchanged |
| Cart.Removed | frontend/src/app/cart/page.js:30-32 | splice(idx, 1) drops exactly line idx: length − 1, order of the rest kept, multiset minus that line |
| Cart.Total | frontend/src/app/cart/page.js:19 | the reduce starts at 0, so an empty cart totals 0; non-negative prices and quantities give a non-negative total |
| Cart.TotalAppend | frontend/src/app/cart/page.js:17-21 | the reduce total of a concatenation is the sum of the totals |
| Cart.TotalAfterQuantity | frontend/src/app/cart/page.js:23-26 | a quantity edit changes the total by exactly the edited line's change |
| Cart.TotalAfterRemove | frontend/src/app/cart/page.js:30-33 | removing a line takes exactly its price × quantity off the total |
| Cart.CartPage.Load | frontend/src/app/cart/page.js:12-21 | the page's cart is the stored cart (or []), and its total is that cart's sum |
| Cart.CartPage.UpdateQty | frontend/src/app/cart/page.js:23-28 | new cart is the clamped edit; stored cart equals it; total stays the sum; positive quantities stay positive |
| Cart.CartPage.RemoveItem | frontend/src/app/cart/page.js:30-35 | new cart is the old minus line idx; stored cart equals it; total drops by that line |
| Checkout.ByKitchen | frontend/src/app/checkout/page.js:27-43 | the reduce's object has exactly one key per distinct KitchenID of the cart |
| Checkout.AddInPlace | frontend/src/app/checkout/page.js:28-41 | the in-place step (create the group if missing, push the item, add price × quantity) equals the reference step of the reduce |
| Checkout.ByKitchenCorrect | frontend/src/app/checkout/page.js:27-43 | the reduce has one key per distinct KitchenID, and each group holds that kitchen's lines in order, their total and the first line's Kitchen name |
| Checkout.Values | frontend/src/app/checkout/page.js:44 | `Object.values` lists one group per key |
| Checkout.Groups | frontend/src/app/checkout/page.js:44 | there are as many groups as distinct KitchenIDs in the cart |
| Checkout.GroupsListKeys | frontend/src/app/checkout/page.js:44 | group i belongs to the i-th smallest KitchenID and holds exactly that kitchen's lines |
| Checkout.GroupsAreByKitchen | frontend/src/app/checkout/page.js:44 | `Object.values` lists the groups by ascending KitchenID, one per distinct id |
| Checkout.GroupsPartition | frontend/src/app/checkout/page.js:27-44 | each line's KitchenID names exactly one group; #groups = #distinct ids; no groups iff the cart is empty |
| Checkout.SumTotals | frontend/src/app/checkout/page.js:61 | the sum starts at 0; non-negative group totals give a non-negative sum |
| Checkout.GrandTotalIsCartTotal | frontend/src/app/checkout/page.js:61 | the sum of the group totals equals the sum of price × quantity over the whole cart |
| Checkout.GroupByKitchen | frontend/src/app/checkout/page.js:27-43 | the in-place reduce loop builds exactly the reference grouping |
| Checkout.AscendingProperties | frontend/src/app/checkout/page.js:44 | the ascending listing of a key set is strictly increasing and has exactly those keys |
| Checkout.RoundToDollars | frontend/src/app/checkout/page.js:87 | `Math.round` of a cent amount in dollars is the nearest dollar, halves up |
| Checkout.OrderRequestOf | frontend/src/app/checkout/page.js:83-88 | a group's request carries its KitchenID, its Items and the ETA, and a TotalPrice within half a dollar of the group total |
| Checkout.FailureMessage | frontend/src/app/checkout/page.js:92 | never empty: a non-empty detail is shown, otherwise "Order to kitchen N failed" |
| Checkout.OrderRequests | frontend/src/app/checkout/page.js:68-88 | one request per group, in order, with its KitchenID and Items, the one ETA and the rounded total |
| Checkout.OrderPosts | frontend/src/app/checkout/page.js:75-89 | one `POST /order/` per request, in order |
| Checkout.CheckoutPage.Load | frontend/src/app/checkout/page.js:23-45 | the groups shown are the grouping of the stored cart |
| Checkout.CheckoutPage.LoadAddress | frontend/src/app/checkout/page.js:48-59 | the address is the first on file, or "" when there is none or /me/ fails |
| Checkout.CheckoutPage.GrandTotal | frontend/src/app/checkout/page.js:61 | the grand total shown equals the cart's total |
| Checkout.CheckoutPage.PlaceOrdersOffered | frontend/src/app/checkout/page.js:115-159 | the Place Orders button appears iff the cart is non-empty |
| Checkout.FirstFailure | frontend/src/app/checkout/page.js:75-96 | `Promise.all` resolves iff every reply succeeded; otherwise the scan names a failed reply with only successes before it |
| Checkout.CheckoutPage.PlaceOrders | frontend/src/app/checkout/page.js:63-106 | one post per group; all ok ⇒ cart removed, /feed, no error; otherwise cart and location kept and a failing reply's detail or "Order to kitchen N failed" shown |
| Db.UidOf | backend/api/routers/driver.py:49 | `SELECT UID FROM USERS WHERE Email`: the first matching uid, NULL iff none matches |
| Db.ParseStatus | backend/api/routers/driver.py:13-14 | a status string is accepted iff it is Pending, Claimed or Completed, and names that status |
| Db.ParseStatusName | backend/api/routers/driver.py:13 | every status name is accepted as itself |
| Db.AdvancesRank | backend/api/routers/driver.py:45-75 | a lifecycle step moves an order exactly one place forward |
| Db.UpdateNeverBackwards | backend/api/routers/driver.py:49-75 | updating one order by a step moves no order backwards and loses none |
| Db.NeverBackwardsTransitive | backend/api/routers/driver.py:45-75 | runs of steps compose: status never moves backwards across them |
| UserRole.RoleOf | backend/api/utils/userRole.py:4-10 | KITCHENOWNERS ⇒ owner; else DRIVERS ⇒ driver; else CUSTOMERS ⇒ customer; else None; never admin |
| DriverRouter.AssignedTo | backend/api/routers/driver.py:60-67 | `DriverUID = (SELECT UID … WHERE Email)` holds only for an existing order with a driver whose uid is the one of a USERS row with that email; never when DriverUID is NULL or no such row exists |
| DriverRouter.GetOrders | backend/api/routers/driver.py:8-30 | non-driver ⇒ 403; unknown status ⇒ 400; else exactly the orders with that status |
| DriverRouter.ListedUnderOwnStatus | backend/api/routers/driver.py:13-30 | each order is listed under its own status and no other |
| DriverRouter.ClaimOrder | backend/api/routers/driver.py:34-51 | non-driver 403, missing 404, not Pending 400, all unchanged; else only that order becomes Claimed with the caller's uid |
| DriverRouter.CompleteOrder | backend/api/routers/driver.py:54-76 | non-driver 403, not the caller's 403, not Claimed 400, all unchanged; else only its status becomes Completed |
| DriverRouter.ClaimThenComplete | backend/api/routers/driver.py:34-76 | a driver who claims a Pending order can complete it; it ends Completed under that driver |
| OrderRouter.ContainsRows | backend/api/routers/order.py:43-44 | one ORDERCONTAINS row per item, in order, with the order's id and KitchenID; no quantity |
| OrderRouter.PlaceOrder | backend/api/routers/order.py:22-46 | non-customer 403 with nothing inserted; else one Pending order with no driver, its item rows, and its id is the customer's highest |
| AdminRouter.VerifyAdmin | backend/api/routers/admin.py:11-15 | passes iff the role is "admin", else 403 "Admins only" |
| AdminRouter.IsPending | backend/api/routers/admin.py:51 | `!= 'approved' OR IS NULL` holds iff the status is not 'approved' |
| AdminRouter.VerifyDriver | backend/api/routers/admin.py:18-25 | admin only; that DRIVERS row becomes approved, verified by the admin; no longer pending |
| AdminRouter.WithoutUser | backend/api/routers/admin.py:35 | the USERS rows kept are exactly those of other uids |
| AdminRouter.DeleteUser | backend/api/routers/admin.py:28-36 | admin only; the uid leaves CUSTOMERS, DRIVERS, KITCHENOWNERS and USERS, so it has no role |
| AdminRouter.ApproveKitchen | backend/api/routers/admin.py:39-46 | admin only; that kitchen becomes approved, verified by the admin; the others are unchanged |
| AdminRouter.PendingDrivers | backend/api/routers/admin.py:51-53 | exactly the drivers whose status is not 'approved' |
| AdminRouter.PendingKitchens | backend/api/routers/admin.py:58-60 | exactly the non-approved kitchens, with their names |
| AdminRouter.GetPendingDrivers | backend/api/routers/admin.py:48-53 | 403 for non-admins, else the pending drivers |
| AdminRouter.GetPendingKitchens | backend/api/routers/admin.py:55-60 | 403 for non-admins, else the pending kitchens |
| AdminRouter.GetAllUsers | backend/api/routers/admin.py:62-79 | 403 for non-admins; else one entry per USERS row, in order, tagged with its derived role |
| KitchenRouter.Owns | backend/api/utils/verify_owner.py:6-13 | the ownership query finds a row only for an existing kitchen whose OwnerUID is the uid of a USERS row with that email; never when no such row exists |
| KitchenRouter.VerifyOwner | backend/api/utils/verify_owner.py:5-14 | passes iff the kitchen's OwnerUID is the caller's uid, else 403 |
| KitchenRouter.MakeHomeKitchen | backend/api/routers/homekitchen.py:48-79 | no USERS row 400; not an owner 401; nothing inserted then; else one kitchen row with the request's fields |
| KitchenRouter.GetMealPlans | backend/api/routers/homekitchen.py:81-89 | 404 iff the kitchen has no plans, else exactly its plans |
| KitchenRouter.GetMenuItems | backend/api/routers/homekitchen.py:92-103 | 404 iff the kitchen has no items, else exactly its items |
| KitchenRouter.PlanRows | backend/api/routers/homekitchen.py:108-113 | the join's rows are the plan's rows whose item exists, each with its multiplicity in the table, in table order |
| KitchenRouter.Joined | backend/api/routers/homekitchen.py:108-113 | one result per joined row, in the same order and with duplicates kept: the menu item that row names |
| KitchenRouter.JoinedMembers | backend/api/routers/homekitchen.py:108-113 | an item is in the join iff some plan row names it and it exists |
| KitchenRouter.JoinedAppend | backend/api/routers/homekitchen.py:108-113 | the join of two runs of rows is the concatenation of their joins |
| KitchenRouter.GetMealPlanItems | backend/api/routers/homekitchen.py:106-116 | 404 iff the join is empty, else the join |
| KitchenRouter.FirstMissingUnique | backend/api/routers/homekitchen.py:124-128 | the first failing ItemID is well defined |
| KitchenRouter.FindMissingItem | backend/api/routers/homekitchen.py:124-128 | the validation loop stops at the first item not in the kitchen; None iff all are |
| KitchenRouter.PlanItemRows | backend/api/routers/homekitchen.py:142-143 | one MEALPLANITEMS row per listed item, in order, for the plan and kitchen |
| KitchenRouter.CreateMealPlan | backend/api/routers/homekitchen.py:119-145 | ownership 403, then the first missing item 400, both inserting nothing; else one plan row and its item rows |
| KitchenRouter.WithoutPlanItems | backend/api/routers/homekitchen.py:153-154 | deletes exactly the plan's rows within that kitchen; every other row keeps its multiplicity |
| KitchenRouter.DeleteMealPlan | backend/api/routers/homekitchen.py:148-160 | ownership first; then the plan's items and the plan, both scoped to the kitchen |
| KitchenRouter.CreateMenuItem | backend/api/routers/homekitchen.py:163-171 | ownership first; then one MENUITEMS row |
| KitchenRouter.DeleteMenuItem | backend/api/routers/homekitchen.py:174-179 | ownership first; then the item goes if it is that kitchen's |
| DriverPage.UpperCase | frontend/src/app/driver/page.js:46 | `toUpperCase` on a character: a..z become A..Z, every other character is unchanged |
| DriverPage.ApiStatus | frontend/src/app/driver/page.js:46 | `status[0].toUpperCase() + status.slice(1)`: same length and tail, first character upper-cased |
| DriverPage.EmptyMessage | frontend/src/app/driver/page.js:97-102 | "No active orders" iff claimed, "No unclaimed orders" iff pending, "No delivered orders" otherwise |
| DriverPage.ApiStatusOfTab | frontend/src/app/driver/page.js:46 | capitalising a tab value gives its status name, which the backend accepts |
| DriverPage.TabsCoverStatuses | frontend/src/app/driver/page.js:13-17 | the three tabs ask for three distinct accepted statuses, one per status |
| DriverPage.Actions | frontend/src/app/driver/page.js:127-143 | Claim only on the pending tab, Mark as Delivered only on the claimed tab |
| DriverPage.EmptyMessagesDistinct | frontend/src/app/driver/page.js:97-102 | each tab has its own empty-list message |
| DriverPage.ClaimOfferedOnlyForPending | frontend/src/app/driver/page.js:127-134 | every order offered for claiming was listed as Pending |
| DriverPage.DeliverOfferedOnlyForClaimed | frontend/src/app/driver/page.js:135-142 | every order offered for delivery was listed as Claimed |
| DriverPage.DriverDashboard.FetchOrders | frontend/src/app/driver/page.js:43-54 | one GET for the capitalised status; the reply becomes the list |
| DriverPage.DriverDashboard.Mount | frontend/src/app/driver/page.js:19-37 | no token ⇒ /login; non-driver ⇒ /feed with no fetch; driver ⇒ fetch of the current tab |
| DriverPage.DriverDashboard.SelectTab | frontend/src/app/driver/page.js:83 | a tab button selects its tab |
| DriverPage.DriverDashboard.TabChanged | frontend/src/app/driver/page.js:39-41 | a tab change refetches only when a token is held |
| DriverPage.DriverDashboard.ClaimOrder | frontend/src/app/driver/page.js:56-63 | claim posted, pending refetched, tab becomes "claimed" |
| DriverPage.DriverDashboard.CompleteOrder | frontend/src/app/driver/page.js:65-72 | completion posted, claimed refetched, tab becomes "completed" |
| SignupPage.Validate | frontend/src/app/signup/page.js:28-39 | missing field ⇒ fill-in error; else mismatch ⇒ password error; else customer without address ⇒ address error; else valid |
| SignupPage.AddressOnlyForCustomers | frontend/src/app/signup/page.js:36-39 | only the customer role needs an address |
| SignupPage.Payload | frontend/src/app/signup/page.js:44-52 | the form's fields and role; Address for customers, "" otherwise |
| SignupPage.CustomerPayloadHasAddress | frontend/src/app/signup/page.js:36-51 | a validated customer always sends a non-empty address |
| SignupPage.Signup.HandleSubmit | frontend/src/app/signup/page.js:23-94 | invalid ⇒ error, nothing sent; failure ⇒ detail or "Signup failed."; owner ⇒ auto-login, token stored, /create-kitchen; others ⇒ /login |
| LoginPage.RouteFor | frontend/src/app/login/page.js:58-60 | driver ⇒ /driver, admin ⇒ /admin, every other role ⇒ /feed |
| LoginPage.Login.HandleSubmit | frontend/src/app/login/page.js:16-67 | token failure ⇒ detail or "Login failed.", no token stored; token stored before /me; /me failure ⇒ "Failed to fetch user info", no redirect |
| CreateKitchenPage.Validate | frontend/src/app/create-kitchen/page.js:42-45 | valid iff name and address are non-empty; else the fixed message |
| CreateKitchenPage.Payload | frontend/src/app/create-kitchen/page.js:49-56 | ApprovalStatus "pending", null rating and verifier, null logo iff the logo is empty |
| CreateKitchenPage.CreatedKitchenIsPending | frontend/src/app/create-kitchen/page.js:54 | a kitchen created from the page is listed among the admin's pending kitchens |
| CreateKitchenPage.CreateKitchen.Mount | frontend/src/app/create-kitchen/page.js:16-36 | no token, a non-200 /me/ or a non-owner role ⇒ /login |
| CreateKitchenPage.CreateKitchen.HandleSubmit | frontend/src/app/create-kitchen/page.js:38-81 | invalid ⇒ error, nothing sent; ok ⇒ /feed; failure ⇒ detail or "Failed to create kitchen" |
| KitchenPage.CardOf | frontend/src/app/homekitchens/page.js:49-57 | the card takes id, owner, name, address, rating, status and logo from the row's columns |
| KitchenPage.IsOwner | frontend/src/app/homekitchens/page.js:98 | only an "owner" with a uid can own the page, and then the uid is the kitchen's OwnerUID |
| KitchenPage.MealPayload | frontend/src/app/homekitchens/page.js:122-127 | the form's name, price and image, and one `Number(i)` ItemID per typed id in order |
| KitchenPage.FindKitchen | frontend/src/app/homekitchens/page.js:48-59 | the first kitchen whose id equals Number(id); none iff no id matches |
| KitchenPage.OwnerViewMatchesBackend | frontend/src/app/homekitchens/page.js:98 | isOwner holds iff role is "owner" and the backend's ownership check passes |
| KitchenPage.ListOrEmpty | frontend/src/app/homekitchens/page.js:66-80 | 404 ⇒ empty list; other failure ⇒ its detail; success ⇒ its body |
| KitchenPage.PageShowsKitchenMenu | frontend/src/app/homekitchens/page.js:66-72 | with the backend's listing, the page shows exactly the kitchen's menu items, none included |
| KitchenPage.PageShowsKitchenMealPlans | frontend/src/app/homekitchens/page.js:74-80 | likewise for meal plans |
| KitchenPage.ItemIds | frontend/src/app/homekitchens/page.js:126 | one `Number(i)` per typed id, in order |
| KitchenPage.TypedIdsRoundTrip | frontend/src/app/homekitchens/page.js:222-226 | ids typed as numbers' text are sent as those numbers, in order |
| KitchenPage.Kitchen.Mount | frontend/src/app/homekitchens/page.js:26-92 | no id ⇒ /feed; no token ⇒ /login; 401 ⇒ /login; these three leave user, kitchen, error and listings unchanged; no match ⇒ "Kitchen not found"; else the listings, 404 as empty; location unchanged except by the redirects |
| KitchenPage.Kitchen.AddId | frontend/src/app/homekitchens/page.js:222-226 | a non-empty input is appended and cleared; an empty one changes nothing |
| KitchenPage.Kitchen.HandleAddItem | frontend/src/app/homekitchens/page.js:101-117 | the form is posted, appended locally and reset |
| KitchenPage.Kitchen.HandleAddMeal | frontend/src/app/homekitchens/page.js:119-139 | Items sent as Number(i) in order; one plan appended locally; form and input reset |

## Left out

- Network and concurrency. `Promise.all` is modelled as a sequence of replies handled in order. When several checkout orders fail, or both kitchen-page listings fail, which error is shown depends on timing. `Checkout.CheckoutPage.PlaceOrders` promises only that it is some failing group's message; `KitchenPage.Kitchen.Mount` shows the menu's.
- Already-placed orders are not rolled back when a later one fails. The backend is not modelled across the separate calls of one checkout.
- On the driver dashboard, the refetch started by a claim or completion races the refetch of the tab effect. The model runs them one after the other (`ClaimOrder`, then `TabChanged`).
- JWT encoding and decoding, password hashing, and the dependency that turns a token into a caller. The caller's email, role and uid are inputs. The token issued at login carries no role, and the admin routes read a `uid` the dependency never sets. The model takes both as given.
- DB connections, startup side effects and the unmounted duplicate router are not modelled. So are the feed, account, admin, landing and root pages, and the `/me` route: they only fetch and display.
- Floating point. Prices are integer cents. `toFixed` display rounding is not modelled.
- The clock and `toTimeString`. The ETA and `Date.now()` are parameters.
- "Last inserted id" queries (`place_order`, `create_mealplan`) are only right when run alone. Fresh ids come from a per-table counter.
- `return_homeKitchens` (`GET /homekitchens/`) returns the whole table. It appears only as the `list` input of `KitchenPage.Kitchen.Mount`.
- Decoding of request bodies. Pydantic's validation errors (422), JSON parse failures and non-array reply bodies are not modelled.
- Common.ParseNumber: models `Number` on ASCII white space around an optional sign ("+" or "-"), digits and an all-zero fraction ("5.", "5.00"). Exponents ("5e0"), hex, octal and binary prefixes ("0x5"), "Infinity", non-ASCII white space and non-integer fractions give None where `Number` gives a number. So a URL id such as `5e0` or `0x5` shows "Kitchen not found" where the page would find kitchen 5, and such typed meal-plan ids are sent as null rather than 5; a typed "1.5" is sent as null rather than 1.5.
- Per-statement commits. `execute_query` (backend/api/db.py:19-32) commits each statement on its own and turns any database error into a 500 with the error text. `OrderRouter.PlaceOrder`, `KitchenRouter.CreateMealPlan`, `AdminRouter.DeleteUser` and `KitchenRouter.DeleteMealPlan` run several statements and can leave part of their writes behind; the model runs each route as one atomic step and has no 500 path besides the missing-customer lookup.
- Claim race. `claim_order` (backend/api/routers/driver.py:40-50) checks the status and then updates in a separate statement, so two drivers claiming at once can both succeed. `DriverRouter.ClaimOrder` runs one request at a time.
- Collation. MySQL's default collation compares text case-insensitively and ignores trailing spaces. `Db.UidOf`, `KitchenRouter.Owns` and `DriverRouter.AssignedTo` compare emails exactly, and `AdminRouter.IsPending` compares the client-supplied ApprovalStatus with 'approved' exactly, so "Approved" counts as pending in the model but not in the database.
- KitchenPage.Kitchen.Mount: requires the page's fresh state (loading, no error, no kitchen). The source's effect depends on `[kitchenId, router]`, never clears a previous error and would re-run on stale state if the id changed; no page changes the id in place (the feed navigates with `router.push`, which mounts a new page), so that re-run is not modelled.
- DriverPage.UpperCase: only ASCII letters are upper-cased. The tab values are ASCII.
- Cart.CartPage.UpdateQty: requires an index inside the cart. The buttons exist only for existing lines, and the source would throw on any other index.
- Rendering, styling, the `required` attributes of the HTML forms, and the Authorization headers.
