/** The data the pages keep in the browser and send over HTTP. */
module Wire {
  import opened Common

  /** One line of the cart kept in localStorage under "cart". The price is
      in cents; KitchenID is a database id, hence a natural number. */
  datatype CartLine = CartLine(
    itemId: int,
    kitchenId: nat,
    kitchen: string,
    price: int,
    quantity: int,
    name: string,
    image: string)

  /** An entry of an order's `Items`: `{ItemID, Quantity}`. */
  datatype OrderItem = OrderItem(itemId: int, quantity: int)

  /** The body of `POST /order/`. */
  datatype OrderRequest = OrderRequest(kitchenId: int, items: seq<OrderItem>, eta: string, totalPrice: int)

  /** The body of `POST /auth/` sent by the signup page. */
  datatype SignupPayload = SignupPayload(
    firstName: string,
    lastName: string,
    email: string,
    phoneNo: string,
    password: string,
    role: string,
    address: string)

  /** The body of `POST /homekitchens/` sent by the create-kitchen page;
      `null` fields are None. */
  datatype KitchenPayload = KitchenPayload(
    name: string,
    address: string,
    averageRating: Option<int>,
    verifiedBy: Option<int>,
    approvalStatus: string,
    logo: Option<string>)

  /** The body of `POST /homekitchens/{id}/menuitems`: the form's fields
      as typed, with an empty `Items` list. */
  datatype MenuItemPayload = MenuItemPayload(name: string, description: string, price: string, image: string)

  /** The body of `POST /homekitchens/{id}/mealplans`. TotalPrice is the
      form's text (the page runs parseFloat on it); each ItemID is
      `Number(id)` of a typed id, None standing for NaN. */
  datatype MealPlanPayload = MealPlanPayload(name: string, totalPrice: string, image: string, items: seq<Option<int>>)

  datatype Body =
    | NoBody
    | Credentials(username: string, password: string)
    | Signup(signup: SignupPayload)
    | Order(order: OrderRequest)
    | Kitchen(kitchen: KitchenPayload)
    | MenuItem(menuItem: MenuItemPayload)
    | MealPlan(mealPlan: MealPlanPayload)

  /** A request a page sends to the API, by path relative to the API root. */
  datatype Request = Get(path: string) | Post(path: string, body: Body)

  /** What a page learns from a response: a 2xx with its decoded body, or
      a failure with its status and the `detail` field if there is one. */
  datatype Reply<T> = Success(body: T) | Failure(status: int, detail: Option<string>)
}
