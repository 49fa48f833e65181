/** The cart page: quantity edits, line removal and the running total. */
module Cart {
  import opened Common
  import opened Wire
  import opened Session

  function LineTotal(l: CartLine): int
  {
    l.price * l.quantity
  }

  /** `cart.reduce((acc, i) => acc + i.price * i.quantity, 0)`, folding
      from the left as `reduce` does. */
  function Total(c: seq<CartLine>): (t: int)
    ensures c == [] ==> t == 0
    ensures (forall i :: 0 <= i < |c| ==> c[i].price >= 0 && c[i].quantity >= 0) ==> t >= 0
  {
    if c == [] then 0 else Total(c[..|c| - 1]) + LineTotal(c[|c| - 1])
  }

  lemma {:induction false} TotalAppend(a: seq<CartLine>, b: seq<CartLine>)
    ensures Total(a + b) == Total(a) + Total(b)
  {
    if b == [] {
      assert a + b == a;
    } else {
      assert (a + b)[..|a + b| - 1] == a + b[..|b| - 1];
      TotalAppend(a, b[..|b| - 1]);
    }
  }

  function Max(a: int, b: int): int
  {
    if a >= b then a else b
  }

  /** The cart after `updateQty(idx, delta)`: the quantity at `idx` becomes
      `Math.max(1, quantity + delta)`. */
  function WithQuantity(c: seq<CartLine>, idx: nat, delta: int): (r: seq<CartLine>)
    requires idx < |c|
    ensures |r| == |c|
    ensures r[idx].quantity >= 1 && r[idx].quantity >= c[idx].quantity + delta
    ensures r[idx].quantity == 1 || r[idx].quantity == c[idx].quantity + delta
    ensures r[idx] == c[idx].(quantity := r[idx].quantity)
    ensures forall j :: 0 <= j < |c| && j != idx ==> r[j] == c[j]
  {
    c[idx := c[idx].(quantity := Max(1, c[idx].quantity + delta))]
  }

  /** The cart after `copy.splice(idx, 1)`: the line at `idx` is gone; an
      index past the end removes nothing. */
  function Removed(c: seq<CartLine>, idx: nat): (r: seq<CartLine>)
    ensures idx < |c| ==> |r| == |c| - 1
    ensures idx < |c| ==> forall j :: 0 <= j < idx ==> r[j] == c[j]
    ensures idx < |c| ==> forall j :: idx <= j < |r| ==> r[j] == c[j + 1]
    ensures idx < |c| ==> multiset(r) + multiset{c[idx]} == multiset(c)
    ensures idx >= |c| ==> r == c
  {
    if idx < |c| then
      assert c == c[..idx] + [c[idx]] + c[idx + 1..];
      c[..idx] + c[idx + 1..]
    else c
  }

  /** Every line has a positive quantity. */
  ghost predicate QuantitiesPositive(c: seq<CartLine>)
  {
    forall j :: 0 <= j < |c| ==> c[j].quantity >= 1
  }

  lemma TotalSingleton(l: CartLine)
    ensures Total([l]) == LineTotal(l)
  {
    assert [l][..0] == [];
  }

  /** The total splits around any line. */
  lemma {:induction false} TotalAround(c: seq<CartLine>, idx: nat)
    requires idx < |c|
    ensures Total(c) == Total(c[..idx]) + LineTotal(c[idx]) + Total(c[idx + 1..])
  {
    assert c == (c[..idx] + [c[idx]]) + c[idx + 1..];
    TotalAppend(c[..idx] + [c[idx]], c[idx + 1..]);
    TotalAppend(c[..idx], [c[idx]]);
    TotalSingleton(c[idx]);
  }

  /** A quantity edit changes the total by exactly the edited line's change. */
  lemma {:induction false} TotalAfterQuantity(c: seq<CartLine>, idx: nat, delta: int)
    requires idx < |c|
    ensures Total(WithQuantity(c, idx, delta))
         == Total(c) - LineTotal(c[idx]) + LineTotal(WithQuantity(c, idx, delta)[idx])
  {
    var r := WithQuantity(c, idx, delta);
    assert r[..idx] == c[..idx];
    assert r[idx + 1..] == c[idx + 1..];
    TotalAround(c, idx);
    TotalAround(r, idx);
  }

  /** Removing a line takes exactly its price times quantity off the total. */
  lemma {:induction false} TotalAfterRemove(c: seq<CartLine>, idx: nat)
    requires idx < |c|
    ensures Total(Removed(c, idx)) == Total(c) - LineTotal(c[idx])
  {
    assert Removed(c, idx) == c[..idx] + c[idx + 1..];
    TotalAround(c, idx);
    TotalAppend(c[..idx], c[idx + 1..]);
  }

  class CartPage {
    const browser: Browser
    var cart: seq<CartLine>
    var total: int

    /** The total effect has run: the displayed total is the sum of
        price times quantity over the cart in memory. */
    ghost predicate Valid()
      reads this
    {
      total == Total(cart)
    }

    constructor (b: Browser)
      ensures browser == b && cart == [] && total == 0 && Valid()
    {
      browser := b;
      cart := [];
      total := 0;
    }

    /** The page renders only with a token in storage. */
    predicate Renders()
      reads this, browser
    {
      HasToken(browser.accessToken)
    }

    /** The mount effect reads the stored cart; the total effect follows. */
    method Load()
      modifies this`cart, this`total
      ensures cart == LoadedCart(browser.storedCart) && Valid()
    {
      cart := LoadedCart(browser.storedCart);
      total := Total(cart);
    }

    /** `updateQty(idx, delta)`: clamp the edited quantity at 1, store the
        new cart and recompute the total. */
    method UpdateQty(idx: nat, delta: int)
      requires Valid() && idx < |cart|
      modifies this`cart, this`total, browser`storedCart
      ensures cart == WithQuantity(old(cart), idx, delta)
      ensures cart[idx].quantity >= 1
      ensures QuantitiesPositive(old(cart)) ==> QuantitiesPositive(cart)
      ensures browser.storedCart == Some(cart)
      ensures Valid()
      ensures total == old(total) - LineTotal(old(cart)[idx]) + LineTotal(cart[idx])
    {
      var copy := cart;
      copy := copy[idx := copy[idx].(quantity := Max(1, copy[idx].quantity + delta))];
      assert copy == WithQuantity(cart, idx, delta);
      TotalAfterQuantity(cart, idx, delta);
      assert QuantitiesPositive(cart) ==> QuantitiesPositive(copy) by {
        if QuantitiesPositive(cart) {
          forall j | 0 <= j < |copy| ensures copy[j].quantity >= 1 {
            if j != idx { assert copy[j] == cart[j]; }
          }
        }
      }
      cart := copy;
      browser.storedCart := Some(copy);
      total := Total(cart);
    }

    /** `removeItem(idx)`: splice the line out, store the new cart and
        recompute the total. */
    method RemoveItem(idx: nat)
      requires Valid()
      modifies this`cart, this`total, browser`storedCart
      ensures cart == Removed(old(cart), idx)
      ensures QuantitiesPositive(old(cart)) ==> QuantitiesPositive(cart)
      ensures browser.storedCart == Some(cart)
      ensures Valid()
      ensures idx < |old(cart)| ==> total == old(total) - LineTotal(old(cart)[idx])
      ensures idx >= |old(cart)| ==> total == old(total)
    {
      var copy := Removed(cart, idx);
      if idx < |cart| {
        TotalAfterRemove(cart, idx);
      }
      cart := copy;
      browser.storedCart := Some(copy);
      total := Total(cart);
    }
  }
}
