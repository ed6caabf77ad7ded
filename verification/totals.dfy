/** The two aggregates the cart view shows (index.js, updateCartDisplay):
    the number of items and the total price, both left folds over the lines,
    and how each cart operation moves them. */
module Totals {
  import opened Wrappers
  import opened CartState
  import opened CartProperties

  /** The item count: the sum of the quantities, accumulated from the first
      line to the last. */
  function TotalItems(cart: Cart): (r: int)
    ensures PositiveQuantities(cart) ==> r >= |cart|
    ensures PositiveQuantities(cart) ==> (r == 0 <==> |cart| == 0)
  {
    if |cart| == 0 then 0
    else
      var init := cart[..|cart| - 1];
      assert forall i :: 0 <= i < |init| ==> init[i] == cart[i];
      TotalItems(init) + cart[|cart| - 1].quantity
  }

  /** Price of one line: unit price times quantity. */
  function Subtotal(item: LineItem): (r: real)
    ensures item.price >= 0.0 && item.quantity >= 0 ==> r >= 0.0
  {
    item.price * item.quantity as real
  }

  /** No negative price and no negative quantity. */
  predicate NonNegative(cart: Cart)
  {
    forall i :: 0 <= i < |cart| ==> cart[i].price >= 0.0 && cart[i].quantity >= 0
  }

  /** The total price: the sum of price times quantity over the lines,
      accumulated from the first line to the last. */
  function TotalPrice(cart: Cart): (r: real)
    ensures NonNegative(cart) ==> r >= 0.0
  {
    if |cart| == 0 then 0.0
    else
      var init := cart[..|cart| - 1];
      assert forall i :: 0 <= i < |init| ==> init[i] == cart[i];
      TotalPrice(init) + Subtotal(cart[|cart| - 1])
  }

  /** How many units of `name` the cart holds, over all of its lines. */
  function QuantityOf(cart: Cart, name: string): (r: int)
    ensures !HasName(cart, name) ==> r == 0
    ensures PositiveQuantities(cart) && HasName(cart, name) ==> r >= 1
  {
    if |cart| == 0 then 0
    else
      var init := cart[..|cart| - 1];
      assert forall i :: 0 <= i < |init| ==> init[i] == cart[i];
      var last := cart[|cart| - 1];
      assert HasName(cart, name) && last.name != name ==> HasName(init, name);
      QuantityOf(init, name) + (if last.name == name then last.quantity else 0)
  }

  /** Both folds computed together in one pass over the lines. The view runs
      two separate reductions instead; as neither step has side effects,
      they give the same two values. */
  method ComputeTotals(cart: Cart) returns (items: int, price: real)
    ensures items == TotalItems(cart)
    ensures price == TotalPrice(cart)
  {
    items, price := 0, 0.0;
    var i := 0;
    while i < |cart|
      invariant 0 <= i <= |cart|
      invariant items == TotalItems(cart[..i])
      invariant price == TotalPrice(cart[..i])
    {
      assert cart[..i + 1][..i] == cart[..i];
      items := items + cart[i].quantity;
      price := price + Subtotal(cart[i]);
      i := i + 1;
    }
    assert cart[..i] == cart;
  }

  /** Both folds split over a concatenation. */
  lemma {:induction false} ConcatTotals(a: Cart, b: Cart)
    ensures TotalItems(a + b) == TotalItems(a) + TotalItems(b)
    ensures TotalPrice(a + b) == TotalPrice(a) + TotalPrice(b)
    decreases |b|
  {
    if |b| == 0 {
      assert a + b == a;
    } else {
      var init := b[..|b| - 1];
      assert (a + b)[..|a + b| - 1] == a + init;
      ConcatTotals(a, init);
    }
  }

  /** So does the unit count of each name. */
  lemma {:induction false} ConcatUnits(a: Cart, b: Cart, name: string)
    ensures QuantityOf(a + b, name) == QuantityOf(a, name) + QuantityOf(b, name)
    decreases |b|
  {
    if |b| == 0 {
      assert a + b == a;
    } else {
      var init := b[..|b| - 1];
      assert (a + b)[..|a + b| - 1] == a + init;
      ConcatUnits(a, init, name);
    }
  }

  /** In a cart with unique names, the quantity of a name is the quantity on
      its one line. */
  lemma QuantityOfUnique(cart: Cart, i: int)
    requires UniqueNames(cart)
    requires 0 <= i < |cart|
    ensures QuantityOf(cart, cart[i].name) == cart[i].quantity
  {
    var name := cart[i].name;
    var pre, mid, post := cart[..i], [cart[i]], cart[i+1..];
    OthersLackName(cart, i);
    SingleLine(cart[i]);
    calc {
      QuantityOf(cart, name);
      { assert cart == (pre + mid) + post; }
      QuantityOf((pre + mid) + post, name);
      { ConcatUnits(pre + mid, post, name); }
      QuantityOf(pre + mid, name) + QuantityOf(post, name);
      { ConcatUnits(pre, mid, name); }
      QuantityOf(pre, name) + QuantityOf(mid, name) + QuantityOf(post, name);
    }
  }

  /** With unique names, no line before or after position `i` carries its
      name. */
  lemma OthersLackName(cart: Cart, i: int)
    requires UniqueNames(cart)
    requires 0 <= i < |cart|
    ensures !HasName(cart[..i], cart[i].name)
    ensures !HasName(cart[i+1..], cart[i].name)
  {
    var pre, post := cart[..i], cart[i+1..];
    forall k | 0 <= k < |pre|
      ensures pre[k].name != cart[i].name
    {
      assert pre[k] == cart[k];
    }
    forall k | 0 <= k < |post|
      ensures post[k].name != cart[i].name
    {
      assert post[k] == cart[i+1+k];
    }
  }

  /** Setting the quantity of one line moves the count and the total by the
      difference on that line alone. */
  lemma SetQuantityTotals(cart: Cart, i: int, q: int)
    requires 0 <= i < |cart|
    ensures var r := cart[i := cart[i].(quantity := q)];
      && TotalItems(r) == TotalItems(cart) - cart[i].quantity + q
      && TotalPrice(r) == TotalPrice(cart) - Subtotal(cart[i]) + Subtotal(r[i])
  {
    var r := cart[i := cart[i].(quantity := q)];
    var pre, post := cart[..i], cart[i+1..];
    assert cart == pre + [cart[i]] + post;
    assert r == pre + [r[i]] + post;
    ConcatTotals(pre + [cart[i]], post);
    ConcatTotals(pre, [cart[i]]);
    ConcatTotals(pre + [r[i]], post);
    ConcatTotals(pre, [r[i]]);
    assert [cart[i]][..0] == [] && [r[i]][..0] == [];
  }

  /** ... and moves the units of that line's name, and no other name's, by
      the same difference. */
  lemma SetQuantityUnits(cart: Cart, i: int, q: int, name: string)
    requires 0 <= i < |cart|
    ensures QuantityOf(cart[i := cart[i].(quantity := q)], name) ==
      QuantityOf(cart, name) + (if name == cart[i].name then q - cart[i].quantity else 0)
  {
    var r := cart[i := cart[i].(quantity := q)];
    var pre, post := cart[..i], cart[i+1..];
    assert cart == pre + [cart[i]] + post;
    assert r == pre + [r[i]] + post;
    ConcatUnits(pre + [cart[i]], post, name);
    ConcatUnits(pre, [cart[i]], name);
    ConcatUnits(pre + [r[i]], post, name);
    ConcatUnits(pre, [r[i]], name);
    assert [cart[i]][..0] == [] && [r[i]][..0] == [];
  }

  /** Every "Add to cart" click adds exactly one item to the count and the
      recorded unit price of that name to the total: the price already on
      the line for a name in the cart, the passed price for a new name. */
  lemma AddToCartTotals(cart: Cart, name: string, price: real)
    ensures var r := AddToCart(cart, name, price);
      && TotalItems(r) == TotalItems(cart) + 1
      && TotalPrice(r) == TotalPrice(cart) +
           (if HasName(cart, name) then cart[FindIndex(cart, name).value].price else price)
  {
    var found := FindIndex(cart, name);
    if found.Some? {
      var i := found.value;
      assert HasName(cart, name);
      AddExistingTotals(cart, i, price);
    } else {
      AddNewTotals(cart, name, price);
    }
  }

  /** ... and exactly one unit to that name, and none to any other. */
  lemma AddToCartUnits(cart: Cart, name: string, price: real, other: string)
    ensures QuantityOf(AddToCart(cart, name, price), other) ==
      QuantityOf(cart, other) + (if other == name then 1 else 0)
  {
    var found := FindIndex(cart, name);
    if found.Some? {
      var i := found.value;
      AddExistingBumps(cart, i, price);
      SetQuantityUnits(cart, i, cart[i].quantity + 1, other);
    } else {
      var x := LineItem(name, price, 1);
      assert AddToCart(cart, name, price) == cart + [x];
      ConcatUnits(cart, [x], other);
      assert [x][..0] == [];
    }
  }

  /** The count and total for a click on a name already in the cart,
      whatever price the click passes. */
  lemma AddExistingTotals(cart: Cart, i: int, price: real)
    requires 0 <= i < |cart| && IsFirst(cart, cart[i].name, i)
    ensures var r := AddToCart(cart, cart[i].name, price);
      && TotalItems(r) == TotalItems(cart) + 1
      && TotalPrice(r) == TotalPrice(cart) + cart[i].price
  {
    var bumped := cart[i].(quantity := cart[i].quantity + 1);
    var r := cart[i := bumped];
    AddExistingBumps(cart, i, price);
    var sub, sub' := Subtotal(cart[i]), Subtotal(bumped);
    assert TotalItems(r) == TotalItems(cart) + 1 && TotalPrice(r) == TotalPrice(cart) - sub + sub' by {
      SetQuantityTotals(cart, i, bumped.quantity);
      assert r[i] == bumped;
    }
    assert sub' == sub + cart[i].price by {
      OneMoreUnit(cart[i], bumped);
    }
  }

  /** A click on a name already in the cart changes only the quantity of
      its first line. */
  lemma AddExistingBumps(cart: Cart, i: int, price: real)
    requires 0 <= i < |cart| && IsFirst(cart, cart[i].name, i)
    ensures AddToCart(cart, cart[i].name, price) == cart[i := cart[i].(quantity := cart[i].quantity + 1)]
  {
    var found := FindIndex(cart, cart[i].name);
    assert found == Some(i) by {
      assert !(found.value < i) && !(i < found.value);
    }
  }

  /** The count and total for a click on a new name. */
  lemma AddNewTotals(cart: Cart, name: string, price: real)
    requires !HasName(cart, name)
    ensures var r := AddToCart(cart, name, price);
      && TotalItems(r) == TotalItems(cart) + 1
      && TotalPrice(r) == TotalPrice(cart) + price
  {
    var x := LineItem(name, price, 1);
    assert AddToCart(cart, name, price) == cart + [x];
    ConcatTotals(cart, [x]);
    SingleLine(x);
    OneUnit(x);
  }

  /** The folds over a cart of one line. */
  lemma SingleLine(x: LineItem)
    ensures TotalItems([x]) == x.quantity
    ensures TotalPrice([x]) == Subtotal(x)
    ensures forall name :: QuantityOf([x], name) == if x.name == name then x.quantity else 0
  {
    assert [x][..0] == [];
  }

  /** A line of one unit costs its unit price. */
  lemma OneUnit(x: LineItem)
    requires x.quantity == 1
    ensures Subtotal(x) == x.price
  {
    assert x.quantity as real == 1.0;
  }

  /** One more unit on a line adds its unit price to its subtotal. */
  lemma OneMoreUnit(item: LineItem, bumped: LineItem)
    requires bumped.price == item.price && bumped.quantity == item.quantity + 1
    ensures Subtotal(bumped) == Subtotal(item) + item.price
  {
    var q := item.quantity as real;
    assert bumped.quantity as real == q + 1.0;
    assert item.price * (q + 1.0) == item.price * q + item.price;
  }

  /** removeFromCart takes away from the count exactly the units the name
      held. */
  lemma {:induction false} RemoveFromCartTotals(cart: Cart, name: string)
    ensures TotalItems(RemoveFromCart(cart, name)) == TotalItems(cart) - QuantityOf(cart, name)
    decreases |cart|
  {
    if |cart| > 0 {
      var head, tail := [cart[0]], cart[1..];
      assert cart == head + tail;
      assert head[..0] == [];
      ConcatTotals(head, tail);
      ConcatUnits(head, tail, name);
      RemoveFromCartTotals(tail, name);
      if cart[0].name != name {
        ConcatTotals(head, RemoveFromCart(tail, name));
      }
    }
  }

  /** ... sets that name's units to 0 and leaves every other name's units
      alone. */
  lemma {:induction false} RemoveFromCartUnits(cart: Cart, name: string, other: string)
    ensures QuantityOf(RemoveFromCart(cart, name), other) ==
      (if other == name then 0 else QuantityOf(cart, other))
    decreases |cart|
  {
    if |cart| > 0 {
      var head, tail := [cart[0]], cart[1..];
      assert cart == head + tail;
      assert head[..0] == [];
      ConcatUnits(head, tail, other);
      RemoveFromCartUnits(tail, name, other);
      if cart[0].name != name {
        ConcatUnits(head, RemoveFromCart(tail, name), other);
      }
    }
  }

  /** The quantity buttons: on a cart with unique names, the name's units become
      `quantity + delta`, or 0 when that is not positive or the name is
      absent; the count moves by the same amount; other names keep theirs. */
  lemma UpdateQuantityTotals(cart: Cart, name: string, delta: int)
    requires UniqueNames(cart)
    ensures var r := UpdateQuantity(cart, name, delta);
      var q := QuantityOf(cart, name);
      var q' := if HasName(cart, name) && q + delta > 0 then q + delta else 0;
      && QuantityOf(r, name) == q'
      && TotalItems(r) == TotalItems(cart) - q + q'
      && forall other :: other != name ==> QuantityOf(r, other) == QuantityOf(cart, other)
  {
    var r := UpdateQuantity(cart, name, delta);
    var found := FindIndex(cart, name);
    if found.None? {
      assert r == cart;
      assert QuantityOf(cart, name) == 0;
    } else {
      var i := found.value;
      assert HasName(cart, name);
      QuantityOfUnique(cart, i);
      if cart[i].quantity + delta <= 0 {
        UpdateDropsTotals(cart, i, delta);
      } else {
        UpdateKeepsTotals(cart, i, delta);
      }
    }
  }

  /** The total price under the quantity buttons: the line's subtotal is
      replaced by its new one, or leaves the total when the line is removed.
      An absent name leaves the cart, and so the total, as it is. */
  lemma UpdateQuantityPrice(cart: Cart, i: int, delta: int)
    requires UniqueNames(cart)
    requires 0 <= i < |cart|
    ensures var q := cart[i].quantity + delta;
      TotalPrice(UpdateQuantity(cart, cart[i].name, delta)) ==
        TotalPrice(cart) - Subtotal(cart[i]) + (if q > 0 then Subtotal(cart[i].(quantity := q)) else 0.0)
  {
    if cart[i].quantity + delta <= 0 {
      UpdateDropsTotals(cart, i, delta);
    } else {
      UpdateKeepsTotals(cart, i, delta);
    }
  }

  /** With unique names, removing a name takes exactly its one line out of
      both folds. */
  lemma RemoveUniqueTotals(cart: Cart, i: int)
    requires UniqueNames(cart)
    requires 0 <= i < |cart|
    ensures TotalItems(RemoveFromCart(cart, cart[i].name)) == TotalItems(cart) - cart[i].quantity
    ensures TotalPrice(RemoveFromCart(cart, cart[i].name)) == TotalPrice(cart) - Subtotal(cart[i])
  {
    var x, pre, post := cart[i], cart[..i], cart[i+1..];
    assert RemoveFromCart(cart, x.name) == pre + post by {
      RemoveUniqueAt(cart, x.name, i);
    }
    assert cart == (pre + [x]) + post;
    assert TotalItems(pre + [x]) == TotalItems(pre) + x.quantity
        && TotalPrice(pre + [x]) == TotalPrice(pre) + Subtotal(x) by {
      ConcatTotals(pre, [x]);
      SingleLine(x);
    }
    ConcatTotals(pre + [x], post);
    ConcatTotals(pre, post);
  }

  /** The removal branch of the quantity buttons: the name's units all leave
      the count. */
  lemma UpdateDropsTotals(cart: Cart, i: int, delta: int)
    requires UniqueNames(cart)
    requires 0 <= i < |cart| && cart[i].quantity + delta <= 0
    ensures var r := UpdateQuantity(cart, cart[i].name, delta);
      && QuantityOf(r, cart[i].name) == 0
      && TotalItems(r) == TotalItems(cart) - cart[i].quantity
      && forall other :: other != cart[i].name ==> QuantityOf(r, other) == QuantityOf(cart, other)
    ensures TotalPrice(UpdateQuantity(cart, cart[i].name, delta)) == TotalPrice(cart) - Subtotal(cart[i])
  {
    var name := cart[i].name;
    UniqueIsFirst(cart, name, i);
    QuantityOfUnique(cart, i);
    var r := UpdateQuantity(cart, name, delta);
    assert r == RemoveFromCart(cart, name);
    RemoveUniqueTotals(cart, i);
    RemoveFromCartTotals(cart, name);
    forall other {
      RemoveFromCartUnits(cart, name, other);
    }
  }

  /** The branch that keeps the line: its units become quantity + delta. */
  lemma UpdateKeepsTotals(cart: Cart, i: int, delta: int)
    requires UniqueNames(cart)
    requires 0 <= i < |cart| && cart[i].quantity + delta > 0
    ensures var r := UpdateQuantity(cart, cart[i].name, delta);
      && QuantityOf(r, cart[i].name) == cart[i].quantity + delta
      && TotalItems(r) == TotalItems(cart) + delta
      && forall other :: other != cart[i].name ==> QuantityOf(r, other) == QuantityOf(cart, other)
    ensures TotalPrice(UpdateQuantity(cart, cart[i].name, delta)) ==
      TotalPrice(cart) - Subtotal(cart[i]) + Subtotal(cart[i].(quantity := cart[i].quantity + delta))
  {
    var name := cart[i].name;
    var q := cart[i].quantity + delta;
    UniqueIsFirst(cart, name, i);
    QuantityOfUnique(cart, i);
    var r := UpdateQuantity(cart, name, delta);
    assert r == cart[i := cart[i].(quantity := q)];
    SetQuantityTotals(cart, i, q);
    forall other {
      SetQuantityUnits(cart, i, q, other);
    }
  }

  /** A confirmed clear of a non-empty cart zeroes both aggregates; a
      declined one changes neither. */
  lemma ClearCartTotals(cart: Cart, confirmed: bool)
    ensures confirmed ==> TotalItems(ClearCart(cart, confirmed)) == 0
    ensures confirmed ==> TotalPrice(ClearCart(cart, confirmed)) == 0.0
    ensures !confirmed ==> TotalItems(ClearCart(cart, confirmed)) == TotalItems(cart)
    ensures !confirmed ==> TotalPrice(ClearCart(cart, confirmed)) == TotalPrice(cart)
  {
  }

  /** Ten dollars twice and three fifty once: 23.50 for 3 items. */
  lemma TotalsExample()
    ensures var cart := [LineItem("Lasagna", 10.00, 2), LineItem("Tiramisu", 3.50, 1)];
      TotalPrice(cart) == 23.50 && TotalItems(cart) == 3
  {
    var cart := [LineItem("Lasagna", 10.00, 2), LineItem("Tiramisu", 3.50, 1)];
    assert cart[..1] == [cart[0]] && cart[..1][..0] == [];
  }
}
