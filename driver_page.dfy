/** The driver dashboard: three tabs over the order lifecycle, each
    listing the orders of one status, with the action that moves a
    listed order to the next status. */
module DriverPage {
  import opened Common
  import opened Wire
  import opened Session
  import opened Db
  import opened DriverRouter

  /** The tab buttons in display order: label and value. */
  const TABS: seq<(string, string)> := [
    ("Active Orders", "claimed"),
    ("Unclaimed Orders", "pending"),
    ("Delivered Orders", "completed")]

  /** The value of a tab button. */
  predicate IsTab(tab: string)
  {
    tab == "claimed" || tab == "pending" || tab == "completed"
  }

  /** The tab that lists the orders of status `s`. */
  function TabOf(s: Status): string
  {
    match s
    case Pending => "pending"
    case Claimed => "claimed"
    case Completed => "completed"
  }

  /** `toUpperCase` on one character; only ASCII letters are modelled. */
  function UpperCase(c: char): (u: char)
    ensures 'a' <= c <= 'z' ==> 'A' <= u <= 'Z' && u as int - 'A' as int == c as int - 'a' as int
    ensures !('a' <= c <= 'z') ==> u == c
  {
    if 'a' <= c <= 'z' then (c as int - 32) as char else c
  }

  /** `status[0].toUpperCase() + status.slice(1)`. */
  function ApiStatus(tab: string): (s: string)
    requires tab != ""
    ensures |s| == |tab| && s[1..] == tab[1..]
    ensures 'a' <= tab[0] <= 'z' ==> 'A' <= s[0] <= 'Z'
    ensures !('a' <= tab[0] <= 'z') ==> s[0] == tab[0]
  {
    [UpperCase(tab[0])] + tab[1..]
  }

  /** Capitalising a tab gives the name of its status, so the status the
      page asks for is one the backend accepts. */
  lemma ApiStatusOfTab(s: Status)
    ensures ApiStatus(TabOf(s)) == StatusName(s)
    ensures ParseStatus(ApiStatus(TabOf(s))) == Some(s)
  {
    ParseStatusName(s);
  }

  /** Every tab button asks for one of the three statuses, the three
      buttons ask for different ones, and each status has a button. */
  lemma {:induction false} TabsCoverStatuses()
    ensures forall i :: 0 <= i < |TABS| ==> IsTab(TABS[i].1) && ParseStatus(ApiStatus(TABS[i].1)).Some?
    ensures forall i, j :: 0 <= i < j < |TABS| ==> ApiStatus(TABS[i].1) != ApiStatus(TABS[j].1)
    ensures forall s: Status :: exists i :: 0 <= i < |TABS| && TABS[i].1 == TabOf(s)
  {
    ApiStatusOfTab(Pending);
    ApiStatusOfTab(Claimed);
    ApiStatusOfTab(Completed);
    assert TABS[0].1 == TabOf(Claimed) && TABS[1].1 == TabOf(Pending) && TABS[2].1 == TabOf(Completed);
    forall s: Status ensures exists i :: 0 <= i < |TABS| && TABS[i].1 == TabOf(s) {
      match s
      case Claimed => assert TABS[0].1 == TabOf(s);
      case Pending => assert TABS[1].1 == TabOf(s);
      case Completed => assert TABS[2].1 == TabOf(s);
    }
  }

  /** The buttons rendered beside each listed order. */
  function Actions(tab: string): (r: seq<string>)
    ensures "Claim" in r <==> tab == "pending"
    ensures "Mark as Delivered" in r <==> tab == "claimed"
    ensures |r| <= 1
  {
    (if tab == "pending" then ["Claim"] else []) + (if tab == "claimed" then ["Mark as Delivered"] else [])
  }

  /** The text shown when a tab lists no orders. */
  function EmptyMessage(tab: string): (m: string)
    ensures m == "No active orders" <==> tab == "claimed"
    ensures m == "No unclaimed orders" <==> tab == "pending"
    ensures m == "No delivered orders" <==> tab != "claimed" && tab != "pending"
  {
    if tab == "claimed" then "No active orders"
    else if tab == "pending" then "No unclaimed orders"
    else "No delivered orders"
  }

  /** Each tab has its own empty-list message. */
  lemma EmptyMessagesDistinct(a: string, b: string)
    requires IsTab(a) && IsTab(b) && a != b
    ensures EmptyMessage(a) != EmptyMessage(b)
  {
  }

  /** An order offered for claiming was listed as Pending, so a driver's
      claim of it is accepted unless the order changed in between. */
  lemma {:induction false} ClaimOfferedOnlyForPending(orders: map<int, OrderRow>, tab: string, user: Caller, id: int)
    requires tab != "" && "Claim" in Actions(tab)
    requires GetOrders(orders, ApiStatus(tab), user).Ok? && id in GetOrders(orders, ApiStatus(tab), user).value
    ensures id in orders && orders[id].status == Pending
  {
    assert tab == TabOf(Pending);
    ApiStatusOfTab(Pending);
    ApiStatusOfTab(orders[id].status);
  }

  /** An order offered for delivery was listed as Claimed. Completion then
      still needs the caller to be its driver: the claimed tab lists the
      orders every driver has claimed. */
  lemma {:induction false} DeliverOfferedOnlyForClaimed(orders: map<int, OrderRow>, tab: string, user: Caller, id: int)
    requires tab != "" && "Mark as Delivered" in Actions(tab)
    requires GetOrders(orders, ApiStatus(tab), user).Ok? && id in GetOrders(orders, ApiStatus(tab), user).value
    ensures id in orders && orders[id].status == Claimed
  {
    assert tab == TabOf(Claimed);
    ApiStatusOfTab(Claimed);
    ApiStatusOfTab(orders[id].status);
  }

  function OrdersPath(tab: string): string
    requires tab != ""
  {
    "/driver/orders?status=" + ApiStatus(tab)
  }

  function ClaimPath(orderId: int): string
  {
    "/driver/orders/" + IntToString(orderId) + "/claim"
  }

  function CompletePath(orderId: int): string
  {
    "/driver/orders/" + IntToString(orderId) + "/complete"
  }

  class DriverDashboard {
    const browser: Browser
    var token: string
    var tab: string
    var orders: map<int, OrderRow>
    var loading: bool

    /** The tab is always one of the three button values. */
    ghost predicate Valid()
      reads this
    {
      IsTab(tab)
    }

    constructor (b: Browser)
      ensures browser == b && token == "" && tab == "claimed" && orders == map[] && loading
      ensures Valid()
    {
      browser := b;
      token := "";
      tab := "claimed";
      orders := map[];
      loading := true;
    }

    /** `fetchOrders(status, token)`: ask for the orders of the tab's
        status and show what comes back. */
    method FetchOrders(status: string, listed: map<int, OrderRow>)
      requires status != ""
      modifies this`orders, this`loading, browser`sent
      ensures browser.sent == old(browser.sent) + [Get(OrdersPath(status))]
      ensures orders == listed && !loading
    {
      loading := true;
      browser.sent := browser.sent + [Get(OrdersPath(status))];
      orders := listed;
      loading := false;
    }

    /** The mount effect: without a token go to /login; otherwise ask /me
        for the role, send anyone but a driver to /feed, and fetch the
        current tab for a driver. `role` is the Role field of the /me
        reply (None when it has none). */
    method Mount(role: Option<string>, listed: map<int, OrderRow>)
      requires Valid()
      modifies this`token, this`orders, this`loading, browser`location, browser`sent
      ensures Valid()
      ensures !HasToken(browser.accessToken) ==>
        browser.location == "/login" && browser.sent == old(browser.sent) && token == old(token)
        && orders == old(orders)
      ensures HasToken(browser.accessToken) ==> token == browser.accessToken.value
      ensures HasToken(browser.accessToken) && role != Some(DRIVER) ==>
        browser.location == "/feed" && browser.sent == old(browser.sent) + [Get("/me")] && orders == old(orders)
      ensures HasToken(browser.accessToken) && role == Some(DRIVER) ==>
        browser.location == old(browser.location)
        && browser.sent == old(browser.sent) + [Get("/me"), Get(OrdersPath(tab))]
        && orders == listed && !loading
    {
      if !HasToken(browser.accessToken) {
        browser.location := "/login";
        return;
      }
      token := browser.accessToken.value;
      browser.sent := browser.sent + [Get("/me")];
      if role != Some(DRIVER) {
        browser.location := "/feed";
      } else {
        FetchOrders(tab, listed);
      }
    }

    /** A tab button: select that tab. */
    method SelectTab(t: string)
      requires IsTab(t)
      modifies this`tab
      ensures tab == t && Valid()
    {
      tab := t;
    }

    /** The effect that follows every change of tab: refetch when a token
        is held. */
    method TabChanged(listed: map<int, OrderRow>)
      requires Valid()
      modifies this`orders, this`loading, browser`sent
      ensures token != "" ==> browser.sent == old(browser.sent) + [Get(OrdersPath(tab))] && orders == listed
      ensures token == "" ==> browser.sent == old(browser.sent) && orders == old(orders)
    {
      if token != "" {
        FetchOrders(tab, listed);
      }
    }

    /** `claimOrder`: post the claim, refetch the pending tab, and switch
        to the claimed tab (whose effect then refetches it). */
    method ClaimOrder(orderId: int, listed: map<int, OrderRow>)
      modifies this`orders, this`loading, this`tab, browser`sent
      ensures tab == "claimed" && Valid()
      ensures browser.sent == old(browser.sent) + [Post(ClaimPath(orderId), NoBody), Get(OrdersPath("pending"))]
      ensures orders == listed
    {
      browser.sent := browser.sent + [Post(ClaimPath(orderId), NoBody)];
      FetchOrders("pending", listed);
      tab := "claimed";
    }

    /** `completeOrder`: post the completion, refetch the claimed tab, and
        switch to the completed tab. */
    method CompleteOrder(orderId: int, listed: map<int, OrderRow>)
      modifies this`orders, this`loading, this`tab, browser`sent
      ensures tab == "completed" && Valid()
      ensures browser.sent == old(browser.sent) + [Post(CompletePath(orderId), NoBody), Get(OrdersPath("claimed"))]
      ensures orders == listed
    {
      browser.sent := browser.sent + [Post(CompletePath(orderId), NoBody)];
      FetchOrders("claimed", listed);
      tab := "completed";
    }
  }
}
