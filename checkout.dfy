/** The checkout page: the cart folded into one group per kitchen, the
    grand total, and one order request per group with an all-or-nothing
    success policy. */
module Checkout {
  import opened Common
  import opened Wire
  import opened Session
  import opened Cart

  /** An entry of `Object.values(byKitchen)`. */
  datatype KitchenGroup = KitchenGroup(kitchenId: nat, kitchen: string, items: seq<OrderItem>, total: int)

  function Entry(l: CartLine): OrderItem
  {
    OrderItem(l.itemId, l.quantity)
  }

  // ---------------------------------------------------------------------
  // The reduce, as the fold it is

  /** One step of the reduce: create the group the first time its key is
      seen (named after that line's Kitchen), then push the line's entry
      and add its price times quantity. */
  function AddLine(acc: map<nat, KitchenGroup>, l: CartLine): map<nat, KitchenGroup>
  {
    var g := if l.kitchenId in acc then acc[l.kitchenId] else KitchenGroup(l.kitchenId, l.kitchen, [], 0);
    acc[l.kitchenId := g.(items := g.items + [Entry(l)], total := g.total + LineTotal(l))]
  }

  /** The dictionary the reduce builds, folding from the left. */
  function ByKitchen(c: seq<CartLine>): (r: map<nat, KitchenGroup>)
    ensures r.Keys == KitchenIds(c)
  {
    if c == [] then map[]
    else
      KitchenIdsSnoc(c);
      AddLine(ByKitchen(c[..|c| - 1]), c[|c| - 1])
  }

  // ---------------------------------------------------------------------
  // Reference definitions the fold is proved against

  function KitchenIds(c: seq<CartLine>): set<nat>
  {
    set l | l in c :: l.kitchenId
  }

  /** The lines of kitchen `k`, in cart order. */
  function LinesOf(c: seq<CartLine>, k: nat): seq<CartLine>
  {
    if c == [] then []
    else LinesOf(c[..|c| - 1], k) + (if c[|c| - 1].kitchenId == k then [c[|c| - 1]] else [])
  }

  function Entries(c: seq<CartLine>): seq<OrderItem>
  {
    if c == [] then [] else Entries(c[..|c| - 1]) + [Entry(c[|c| - 1])]
  }

  /** `g` is exactly kitchen `k`'s group of cart `c`: its items are one
      entry per line of that kitchen in cart order, its total is their
      price times quantity, and its name is the first such line's. */
  ghost predicate GroupOf(g: KitchenGroup, c: seq<CartLine>, k: nat)
  {
    && g.kitchenId == k
    && LinesOf(c, k) != []
    && g.items == Entries(LinesOf(c, k))
    && g.total == Total(LinesOf(c, k))
    && g.kitchen == LinesOf(c, k)[0].kitchen
  }

  lemma KitchenIdsSnoc(c: seq<CartLine>)
    requires c != []
    ensures KitchenIds(c) == KitchenIds(c[..|c| - 1]) + {c[|c| - 1].kitchenId}
  {
    assert c == c[..|c| - 1] + [c[|c| - 1]];
  }

  lemma {:induction false} LinesOfEmpty(c: seq<CartLine>, k: nat)
    ensures LinesOf(c, k) == [] <==> k !in KitchenIds(c)
  {
    if c != [] {
      LinesOfEmpty(c[..|c| - 1], k);
      KitchenIdsSnoc(c);
    }
  }

  lemma EntriesSnoc(a: seq<CartLine>, l: CartLine)
    ensures Entries(a + [l]) == Entries(a) + [Entry(l)]
  {
    assert (a + [l])[..|a|] == a;
  }

  lemma TotalSnoc(a: seq<CartLine>, l: CartLine)
    ensures Total(a + [l]) == Total(a) + LineTotal(l)
  {
    assert (a + [l])[..|a|] == a;
  }

  /** The fold builds exactly one group per kitchen of the cart, and each
      is that kitchen's group. */
  lemma {:induction false} ByKitchenCorrect(c: seq<CartLine>)
    ensures ByKitchen(c).Keys == KitchenIds(c)
    ensures forall k :: k in ByKitchen(c) ==> GroupOf(ByKitchen(c)[k], c, k)
  {
    if c != [] {
      var c', l := c[..|c| - 1], c[|c| - 1];
      ByKitchenCorrect(c');
      KitchenIdsSnoc(c);
      var acc', acc := ByKitchen(c'), ByKitchen(c);
      forall k | k in acc ensures GroupOf(acc[k], c, k) {
        if k == l.kitchenId {
          var a := LinesOf(c', k);
          assert LinesOf(c, k) == a + [l];
          EntriesSnoc(a, l);
          TotalSnoc(a, l);
          if k !in acc' {
            LinesOfEmpty(c', k);
            assert a == [];
          }
        } else {
          assert LinesOf(c, k) == LinesOf(c', k);
        }
      }
    }
  }

  // ---------------------------------------------------------------------
  // Object.values: non-negative integer keys enumerate in ascending order

  predicate Increasing(s: seq<nat>)
  {
    forall i, j :: 0 <= i < j < |s| ==> s[i] < s[j]
  }

  lemma HasMinimum(s: set<nat>)
    requires s != {}
    ensures exists m :: m in s && forall x :: x in s ==> m <= x
  {
    var x :| x in s;
    MinimumBelow(s, x);
  }

  /** Descending from any element reaches a least one. */
  lemma {:induction false} MinimumBelow(s: set<nat>, x: nat)
    requires x in s
    ensures exists m :: m in s && forall y :: y in s ==> m <= y
    decreases x
  {
    if y :| y in s && y < x {
      MinimumBelow(s, y);
    } else {
      assert forall y :: y in s ==> x <= y;
    }
  }



  /** The smallest element of a non-empty set. */
  function Least(s: set<nat>): (m: nat)
    requires s != {}
    ensures m in s && forall x :: x in s ==> m <= x
  {
    HasMinimum(s);
    var m :| m in s && forall x :: x in s ==> m <= x;
    m
  }

  /** The keys of a set of natural numbers in ascending order. */
  function Ascending(s: set<nat>): seq<nat>
    decreases |s|
  {
    if s == {} then [] else [Least(s)] + Ascending(s - {Least(s)})
  }

  lemma {:induction false} AscendingProperties(s: set<nat>)
    ensures Increasing(Ascending(s))
    ensures |Ascending(s)| == |s|
    ensures forall x :: x in s <==> x in Ascending(s)
    decreases |s|
  {
    if s != {} {
      var m := Least(s);
      var rest := s - {m};
      AscendingProperties(rest);
      assert Ascending(s) == [m] + Ascending(rest);
      PrependLeast(m, rest, Ascending(rest));
    }
  }

  /** Putting the least element in front of the ascending listing of the
      others keeps it increasing and lists the whole set. */
  lemma {:induction false} PrependLeast(m: nat, rest: set<nat>, t: seq<nat>)
    requires m !in rest && forall x :: x in rest ==> m < x
    requires Increasing(t) && |t| == |rest|
    requires forall x :: x in rest <==> x in t
    ensures Increasing([m] + t) && |[m] + t| == |rest + {m}|
    ensures forall x :: x in rest + {m} <==> x in [m] + t
  {
    var r := [m] + t;
    forall x ensures x in rest + {m} <==> x in r {
      assert x in r <==> x == m || x in t;
    }
    forall i, j | 0 <= i < j < |r| ensures r[i] < r[j] {
      assert r[j] == t[j - 1] && r[j] in rest;
      if i > 0 {
        assert r[i] == t[i - 1];
      }
    }
  }

  /** The groups of `acc` listed by `keys`. */
  function GroupsFor(acc: map<nat, KitchenGroup>, keys: seq<nat>): (r: seq<KitchenGroup>)
    requires forall i :: 0 <= i < |keys| ==> keys[i] in acc
    ensures |r| == |keys|
    ensures forall i :: 0 <= i < |keys| ==> r[i] == acc[keys[i]]
  {
    if keys == [] then [] else [acc[keys[0]]] + GroupsFor(acc, keys[1..])
  }

  /** `Object.values(acc)`. */
  function Values(acc: map<nat, KitchenGroup>): (r: seq<KitchenGroup>)
    ensures |r| == |acc.Keys|
  {
    AscendingProperties(acc.Keys);
    GroupsFor(acc, Ascending(acc.Keys))
  }

  /** The `groups` state of the page for cart `c`: one group per distinct
      KitchenID. */
  function Groups(c: seq<CartLine>): (r: seq<KitchenGroup>)
    ensures |r| == |KitchenIds(c)|
  {
    Values(ByKitchen(c))
  }

  /** The listed groups are those of the dictionary, by ascending key. */
  lemma {:induction false} GroupsAreByKitchen(c: seq<CartLine>)
    ensures Increasing(Ascending(ByKitchen(c).Keys))
    ensures |Groups(c)| == |KitchenIds(c)|
    ensures forall g :: 0 <= g < |Groups(c)| ==>
      Ascending(ByKitchen(c).Keys)[g] in ByKitchen(c) &&
      Groups(c)[g] == ByKitchen(c)[Ascending(ByKitchen(c).Keys)[g]]
    ensures forall k :: k in KitchenIds(c) <==> k in Ascending(ByKitchen(c).Keys)
    ensures forall k :: k in ByKitchen(c) ==> GroupOf(ByKitchen(c)[k], c, k)
  {
    ByKitchenCorrect(c);
    AscendingProperties(ByKitchen(c).Keys);
  }

  /** Group g is the group of the g-th key in ascending order. */
  lemma {:induction false} GroupsListKeys(c: seq<CartLine>)
    ensures |Groups(c)| == |Ascending(ByKitchen(c).Keys)|
    ensures forall g :: 0 <= g < |Groups(c)| ==>
      Groups(c)[g].kitchenId == Ascending(ByKitchen(c).Keys)[g] && GroupOf(Groups(c)[g], c, Groups(c)[g].kitchenId)
  {
    GroupsAreByKitchen(c);
    var acc := ByKitchen(c);
    var keys := Ascending(acc.Keys);
    var gs := Groups(c);
    forall g | 0 <= g < |gs| ensures gs[g].kitchenId == keys[g] && GroupOf(gs[g], c, gs[g].kitchenId) {
      assert gs[g] == acc[keys[g]];
    }
  }

  /** Grouping is a partition of the cart by KitchenID: one group per
      distinct id, each line's id names exactly one group, and every
      group is that kitchen's group. */
  lemma {:induction false} GroupsPartition(c: seq<CartLine>)
    ensures |Groups(c)| == |KitchenIds(c)|
    ensures forall g :: 0 <= g < |Groups(c)| ==> GroupOf(Groups(c)[g], c, Groups(c)[g].kitchenId)
    ensures forall i :: 0 <= i < |c| ==>
      exists g :: 0 <= g < |Groups(c)| && Groups(c)[g].kitchenId == c[i].kitchenId
    ensures forall g1, g2 ::
      (0 <= g1 < |Groups(c)| && 0 <= g2 < |Groups(c)| &&
       Groups(c)[g1].kitchenId == Groups(c)[g2].kitchenId) ==> g1 == g2
    ensures Groups(c) == [] <==> c == []
  {
    var acc := ByKitchen(c);
    var keys := Ascending(acc.Keys);
    var gs := Groups(c);
    GroupsListKeys(c);
    AscendingProperties(acc.Keys);
    forall i | 0 <= i < |c|
      ensures exists g :: 0 <= g < |gs| && gs[g].kitchenId == c[i].kitchenId
    {
      assert c[i].kitchenId in KitchenIds(c);
      var g :| 0 <= g < |keys| && keys[g] == c[i].kitchenId;
      assert gs[g].kitchenId == c[i].kitchenId;
    }
    forall g1, g2 | 0 <= g1 < |gs| && 0 <= g2 < |gs| && gs[g1].kitchenId == gs[g2].kitchenId
      ensures g1 == g2
    {
      assert keys[g1] == keys[g2];
    }
    if c != [] {
      assert c[0].kitchenId in KitchenIds(c);
    }
  }

  // ---------------------------------------------------------------------
  // Conservation of the total

  /** The grand total: the sum of the group totals. */
  function SumTotals(gs: seq<KitchenGroup>): (t: int)
    ensures gs == [] ==> t == 0
    ensures (forall i :: 0 <= i < |gs| ==> gs[i].total >= 0) ==> t >= 0
  {
    if gs == [] then 0 else gs[0].total + SumTotals(gs[1..])
  }

  predicate NoDuplicates(keys: seq<nat>)
  {
    forall i, j :: 0 <= i < j < |keys| ==> keys[i] != keys[j]
  }

  /** The totals of the lines of each kitchen listed in `keys`. */
  function SumOverKeys(keys: seq<nat>, c: seq<CartLine>): int
  {
    if keys == [] then 0 else Total(LinesOf(c, keys[0])) + SumOverKeys(keys[1..], c)
  }

  lemma {:induction false} SumOverKeysSnoc(keys: seq<nat>, c: seq<CartLine>, l: CartLine)
    requires NoDuplicates(keys)
    ensures SumOverKeys(keys, c + [l])
         == SumOverKeys(keys, c) + (if l.kitchenId in keys then LineTotal(l) else 0)
  {
    if keys != [] {
      var k := keys[0];
      assert (c + [l])[..|c|] == c;
      assert LinesOf(c + [l], k) == LinesOf(c, k) + (if l.kitchenId == k then [l] else []);
      if l.kitchenId == k {
        TotalSnoc(LinesOf(c, k), l);
      } else {
        assert LinesOf(c, k) + [] == LinesOf(c, k);
      }
      SumOverKeysSnoc(keys[1..], c, l);
      assert l.kitchenId in keys <==> l.kitchenId == k || l.kitchenId in keys[1..];
      assert l.kitchenId == k ==> l.kitchenId !in keys[1..];
    }
  }

  /** Summing the per-kitchen totals over any duplicate-free list of
      kitchens that covers the cart gives the cart's total. */
  lemma {:induction false} SumOverKeysIsTotal(keys: seq<nat>, c: seq<CartLine>)
    requires NoDuplicates(keys)
    requires forall k :: k in KitchenIds(c) ==> k in keys
    ensures SumOverKeys(keys, c) == Total(c)
  {
    if c == [] {
      SumOverKeysOfEmpty(keys);
    } else {
      var c', l := c[..|c| - 1], c[|c| - 1];
      KitchenIdsSnoc(c);
      SumOverKeysIsTotal(keys, c');
      assert c == c' + [l];
      SumOverKeysSnoc(keys, c', l);
    }
  }

  lemma {:induction false} SumOverKeysOfEmpty(keys: seq<nat>)
    ensures SumOverKeys(keys, []) == 0
  {
    if keys != [] {
      SumOverKeysOfEmpty(keys[1..]);
    }
  }

  lemma {:induction false} SumTotalsGroupsFor(c: seq<CartLine>, keys: seq<nat>)
    requires forall i :: 0 <= i < |keys| ==> keys[i] in ByKitchen(c)
    requires forall k :: k in ByKitchen(c) ==> GroupOf(ByKitchen(c)[k], c, k)
    ensures SumTotals(GroupsFor(ByKitchen(c), keys)) == SumOverKeys(keys, c)
  {
    if keys != [] {
      var gs := GroupsFor(ByKitchen(c), keys);
      assert gs[1..] == GroupsFor(ByKitchen(c), keys[1..]);
      SumTotalsGroupsFor(c, keys[1..]);
    }
  }

  /** The grand total, the sum of the group totals, is the sum of price
      times quantity over the whole cart. */
  lemma GrandTotalIsCartTotal(c: seq<CartLine>)
    ensures SumTotals(Groups(c)) == Total(c)
  {
    GroupsAreByKitchen(c);
    var keys := Ascending(ByKitchen(c).Keys);
    assert NoDuplicates(keys);
    SumTotalsGroupsFor(c, keys);
    SumOverKeysIsTotal(keys, c);
  }

  /** One more line of the cart is one more step of the fold. */
  lemma ByKitchenStep(c: seq<CartLine>, i: nat)
    requires i < |c|
    ensures ByKitchen(c[..i + 1]) == AddLine(ByKitchen(c[..i]), c[i])
  {
    assert c[..i + 1][..i] == c[..i] && c[..i + 1][i] == c[i];
  }

  /** The reduce at the top of the page, mutating its accumulator. */
  method GroupByKitchen(c: seq<CartLine>) returns (acc: map<nat, KitchenGroup>)
    ensures acc == ByKitchen(c)
    ensures acc.Keys == KitchenIds(c)
    ensures forall k :: k in acc ==> GroupOf(acc[k], c, k)
  {
    acc := map[];
    for i := 0 to |c|
      invariant acc == ByKitchen(c[..i])
    {
      var line := c[i];
      ByKitchenStep(c, i);
      acc := AddInPlace(acc, line);
    }
    assert c[..|c|] == c;
    ByKitchenCorrect(c);
  }

  /** One step of the reduce body: create the kitchen's entry if it is
      missing, push the line's item and add its price times quantity. */
  method AddInPlace(acc0: map<nat, KitchenGroup>, line: CartLine) returns (acc: map<nat, KitchenGroup>)
    ensures acc == AddLine(acc0, line)
  {
    acc := acc0;
    var key := line.kitchenId;
    if key !in acc {
      acc := acc[key := KitchenGroup(key, line.kitchen, [], 0)];
    }
    var g := acc[key];
    acc := acc[key := g.(items := g.items + [Entry(line)], total := g.total + line.price * line.quantity)];
  }

  // ---------------------------------------------------------------------
  // The order requests

  /** `Math.round(dollars)` for an amount in cents: the nearest whole
      dollar, halves rounding up. */
  function RoundToDollars(cents: int): (d: int)
    ensures 100 * d - 50 <= cents < 100 * d + 50
  {
    (cents + 50) / 100
  }

  /** The body posted for one group. */
  function OrderRequestOf(g: KitchenGroup, eta: string): (r: OrderRequest)
    ensures r.kitchenId == g.kitchenId && r.items == g.items && r.eta == eta
    ensures 100 * r.totalPrice - 50 <= g.total < 100 * r.totalPrice + 50
  {
    OrderRequest(g.kitchenId, g.items, eta, RoundToDollars(g.total))
  }

  /** The bodies `groups.map(...)` posts: one per group, in group order,
      all with the one ETA of this checkout. */
  function OrderRequests(gs: seq<KitchenGroup>, eta: string): (r: seq<OrderRequest>)
    ensures |r| == |gs|
    ensures forall i :: 0 <= i < |gs| ==>
      && r[i].kitchenId == gs[i].kitchenId
      && r[i].items == gs[i].items
      && r[i].eta == eta
      && 100 * r[i].totalPrice - 50 <= gs[i].total < 100 * r[i].totalPrice + 50
  {
    seq(|gs|, i requires 0 <= i < |gs| => OrderRequestOf(gs[i], eta))
  }

  function OrderPosts(rs: seq<OrderRequest>): (r: seq<Request>)
    ensures |r| == |rs|
    ensures forall i :: 0 <= i < |rs| ==> r[i] == Post("/order/", Order(rs[i]))
  {
    if rs == [] then [] else [Post("/order/", Order(rs[0]))] + OrderPosts(rs[1..])
  }

  /** Posting one more request extends the log by its post. */
  lemma {:induction false} OrderPostsStep(rs: seq<OrderRequest>, i: nat)
    requires i < |rs|
    ensures OrderPosts(rs[..i + 1]) == OrderPosts(rs[..i]) + [Post("/order/", Order(rs[i]))]
  {
  }

  /** The index of the first failed reply, if any: `Promise.all` rejects
      when some reply failed and resolves when all succeeded. */
  method FirstFailure(responses: seq<Reply<()>>) returns (failed: Option<nat>)
    ensures failed.None? <==> AllSucceeded(responses)
    ensures failed.Some? ==> failed.value < |responses| && responses[failed.value].Failure?
    ensures failed.Some? ==> forall j :: 0 <= j < failed.value ==> responses[j].Success?
  {
    failed := None;
    var i := 0;
    while i < |responses| && failed == None
      invariant 0 <= i <= |responses|
      invariant failed == None ==> forall j :: 0 <= j < i ==> responses[j].Success?
      invariant failed.Some? ==> failed.value == i - 1 && responses[failed.value].Failure?
      invariant failed.Some? ==> forall j :: 0 <= j < failed.value ==> responses[j].Success?
    {
      if responses[i].Failure? {
        failed := Some(i);
      }
      i := i + 1;
    }
  }

  /** The message thrown for a failed order: the response's detail, or a
      message naming the kitchen. */
  function FailureMessage(detail: Option<string>, kitchenId: nat): (m: string)
    ensures m != ""
    ensures detail.Some? && detail.value != "" ==> m == detail.value
    ensures detail.None? || detail.value == "" ==> m == "Order to kitchen " + NatToString(kitchenId) + " failed"
  {
    OrElse(detail, "Order to kitchen " + NatToString(kitchenId) + " failed")
  }

  predicate AllSucceeded(responses: seq<Reply<()>>)
  {
    forall j :: 0 <= j < |responses| ==> responses[j].Success?
  }

  class CheckoutPage {
    const browser: Browser
    var cart: seq<CartLine>
    var groups: seq<KitchenGroup>
    var address: string
    var loadingOrders: bool
    var error: Option<string>

    /** The grouping effect has run on the cart in memory. */
    ghost predicate Valid()
      reads this
    {
      groups == Groups(cart)
    }

    constructor (b: Browser)
      ensures browser == b && cart == [] && groups == [] && address == ""
      ensures !loadingOrders && error == None
      ensures Valid()
    {
      browser := b;
      cart := [];
      groups := [];
      address := "";
      loadingOrders := false;
      error := None;
      new;
      assert Groups([]) == [] by { GroupsPartition([]); }
    }

    /** The page renders only with a token in storage. */
    predicate Renders()
      reads this, browser
    {
      HasToken(browser.accessToken)
    }

    /** The mount effect: read the stored cart and group it. */
    method Load()
      modifies this`cart, this`groups
      ensures cart == LoadedCart(browser.storedCart)
      ensures Valid()
    {
      var c := LoadedCart(browser.storedCart);
      cart := c;
      var acc := GroupByKitchen(c);
      groups := Values(acc);
    }

    /** The address effect: `GET /me/` and keep the first address, or ""
        when there is none or the request fails (None). */
    method LoadAddress(addresses: Option<seq<string>>)
      modifies this`address, browser`sent
      ensures browser.sent == old(browser.sent) + [Get("/me/")]
      ensures addresses.Some? && |addresses.value| > 0 ==> address == addresses.value[0]
      ensures addresses.None? || |addresses.value| == 0 ==> address == ""
    {
      browser.sent := browser.sent + [Get("/me/")];
      if addresses.Some? && |addresses.value| > 0 {
        address := addresses.value[0];
      } else {
        address := "";
      }
    }

    /** `grandTotal`: the sum of the group totals. */
    function GrandTotal(): (r: int)
      reads this
      requires Valid()
      ensures r == Total(cart)
    {
      GrandTotalIsCartTotal(cart);
      SumTotals(groups)
    }

    /** The Place Orders button is rendered only when there are groups. */
    predicate PlaceOrdersOffered()
      reads this
      requires Valid()
      ensures PlaceOrdersOffered() <==> cart != []
    {
      GroupsPartition(cart);
      groups != []
    }

    /** `placeOrders`: post one order per group, each with the same ETA,
        then remove the stored cart and go to /feed if every response is
        ok; otherwise keep the cart and show one failing response's
        message. `responses[i]` is the response to the i-th post. */
    method PlaceOrders(eta: string, responses: seq<Reply<()>>) returns (requests: seq<OrderRequest>)
      requires |responses| == |groups|
      modifies this`loadingOrders, this`error, browser`storedCart, browser`location, browser`sent
      ensures requests == OrderRequests(groups, eta)
      ensures browser.sent == old(browser.sent) + OrderPosts(requests)
      ensures !loadingOrders
      ensures AllSucceeded(responses) ==>
        error == None && browser.storedCart == None && browser.location == "/feed"
      ensures !AllSucceeded(responses) ==>
        && browser.storedCart == old(browser.storedCart)
        && browser.location == old(browser.location)
        && error.Some?
        && exists j :: 0 <= j < |responses| && responses[j].Failure? &&
             error.value == FailureMessage(responses[j].detail, groups[j].kitchenId)
    {
      loadingOrders := true;
      error := None;
      requests := OrderRequests(groups, eta);
      for i := 0 to |requests|
        invariant browser.sent == old(browser.sent) + OrderPosts(requests[..i])
        invariant browser.storedCart == old(browser.storedCart)
        invariant browser.location == old(browser.location)
        invariant error == None
      {
        OrderPostsStep(requests, i);
        browser.sent := browser.sent + [Post("/order/", Order(requests[i]))];
      }
      assert requests[..|requests|] == requests;

      var failed := FirstFailure(responses);
      if failed == None {
        browser.storedCart := None;
        browser.location := "/feed";
      } else {
        var j := failed.value;
        error := Some(FailureMessage(responses[j].detail, groups[j].kitchenId));
      }
      loadingOrders := false;
    }
  }
}
