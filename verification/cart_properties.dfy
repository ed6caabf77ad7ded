/** Properties relating the cart operations to each other: the invariant
    they keep, the order `filter` preserves, and which operations undo
    which. */
module CartProperties {
  import opened Wrappers
  import opened CartState

  /** `filter` works piecewise: removing a name from two concatenated carts is
      concatenating the two filtered carts, so relative order is kept. */
  lemma {:induction false} RemoveConcat(a: Cart, b: Cart, name: string)
    ensures RemoveFromCart(a + b, name) == RemoveFromCart(a, name) + RemoveFromCart(b, name)
    decreases |a|
  {
    if |a| == 0 {
      assert a + b == b;
    } else {
      assert (a + b)[1..] == a[1..] + b;
      RemoveConcat(a[1..], b, name);
    }
  }

  /** Removing a name from a cart with unique names cuts out exactly the one
      line carrying it and leaves the lines before and after it in place. */
  lemma RemoveUniqueAt(cart: Cart, name: string, i: int)
    requires UniqueNames(cart)
    requires 0 <= i < |cart| && cart[i].name == name
    ensures RemoveFromCart(cart, name) == cart[..i] + cart[i+1..]
  {
    var pre, post := cart[..i], cart[i+1..];
    assert !HasName(pre, name);
    assert !HasName(post, name) by {
      forall k | 0 <= k < |post|
        ensures post[k].name != name
      {
        assert post[k] == cart[i+1+k];
      }
    }
    calc {
      RemoveFromCart(cart, name);
      { assert cart == pre + ([cart[i]] + post); }
      RemoveFromCart(pre + ([cart[i]] + post), name);
      { RemoveConcat(pre, [cart[i]] + post, name); }
      RemoveFromCart(pre, name) + RemoveFromCart([cart[i]] + post, name);
      { RemoveConcat([cart[i]], post, name); }
      pre + (RemoveFromCart([cart[i]], name) + post);
      { assert RemoveFromCart([cart[i]], name) == []; }
      pre + post;
    }
  }

  /** The tail of a valid cart is valid. */
  lemma TailValid(cart: Cart)
    requires Valid(cart) && |cart| > 0
    ensures Valid(cart[1..])
  {
    var tail := cart[1..];
    forall i, j | 0 <= i < j < |tail|
      ensures tail[i].name != tail[j].name
    {
      assert tail[i] == cart[i+1] && tail[j] == cart[j+1];
    }
  }

  /** Putting a line in front of a valid cart that does not carry its name
      gives a valid cart. */
  lemma ConsValid(x: LineItem, rest: Cart)
    requires Valid(rest) && x.quantity >= 1
    requires forall y :: y in rest ==> y.name != x.name
    ensures Valid([x] + rest)
  {
    var r := [x] + rest;
    forall i, j | 0 <= i < j < |r|
      ensures r[i].name != r[j].name
    {
      assert r[j] == rest[j-1];
      if i > 0 {
        assert r[i] == rest[i-1];
      } else {
        assert rest[j-1] in rest;
      }
    }
  }

  /** removeFromCart keeps both parts of the cart invariant. */
  lemma {:induction false} RemovePreservesValid(cart: Cart, name: string)
    requires Valid(cart)
    ensures Valid(RemoveFromCart(cart, name))
    decreases |cart|
  {
    if |cart| > 0 {
      var tail := cart[1..];
      TailValid(cart);
      RemovePreservesValid(tail, name);
      var rest := RemoveFromCart(tail, name);
      if cart[0].name != name {
        forall y | y in rest
          ensures y.name != cart[0].name
        {
          var k :| 0 <= k < |tail| && tail[k] == y;
          assert tail[k] == cart[k+1];
        }
        ConsValid(cart[0], rest);
      }
    }
  }

  /** Setting one line of a valid cart to a positive quantity keeps the cart
      valid. */
  lemma SetQuantityPreservesValid(cart: Cart, i: int, q: int)
    requires Valid(cart)
    requires 0 <= i < |cart| && q >= 1
    ensures Valid(cart[i := cart[i].(quantity := q)])
  {
    var r := cart[i := cart[i].(quantity := q)];
    assert forall j :: 0 <= j < |r| ==> r[j].name == cart[j].name;
  }

  /** updateQuantity keeps the cart invariant: a line whose quantity would
      reach zero or below is removed instead of kept. */
  lemma UpdatePreservesValid(cart: Cart, name: string, delta: int)
    requires Valid(cart)
    ensures Valid(UpdateQuantity(cart, name, delta))
  {
    match FindIndex(cart, name)
    case None =>
    case Some(i) =>
      if cart[i].quantity + delta <= 0 {
        RemovePreservesValid(cart, name);
      } else {
        SetQuantityPreservesValid(cart, i, cart[i].quantity + delta);
      }
  }

  /** Giving a line the negation of its quantity always takes its name out of
      the cart, exactly as removeFromCart would. */
  lemma UpdateToZeroRemoves(cart: Cart, i: int)
    requires UniqueNames(cart)
    requires 0 <= i < |cart|
    ensures UpdateQuantity(cart, cart[i].name, -cart[i].quantity) == RemoveFromCart(cart, cart[i].name)
    ensures !HasName(UpdateQuantity(cart, cart[i].name, -cart[i].quantity), cart[i].name)
  {
    UniqueIsFirst(cart, cart[i].name, i);
  }

  /** The first-match search looks only at names, so it finds the same line
      in two carts whose lines carry the same names. */
  lemma {:induction false} FindIndexSameNames(a: Cart, b: Cart, name: string)
    requires |a| == |b|
    requires forall j :: 0 <= j < |a| ==> a[j].name == b[j].name
    ensures FindIndex(a, name) == FindIndex(b, name)
  {
    var fa, fb := FindIndex(a, name), FindIndex(b, name);
    if fa.Some? && fb.Some? {
      assert !(fa.value < fb.value) && !(fb.value < fa.value);
    }
  }

  /** The "-" button undoes the "Add to cart" button: adding a name and then
      decrementing it gives back the cart, whether the name was new (the
      appended line is removed again) or already present (its quantity goes
      back down). Duplicate names do no harm: both steps act on the first
      line with the name. */
  lemma AddThenDecrement(cart: Cart, name: string, price: real)
    requires PositiveQuantities(cart)
    ensures UpdateQuantity(AddToCart(cart, name, price), name, -1) == cart
  {
    var added := AddToCart(cart, name, price);
    match FindIndex(cart, name)
    case Some(i) =>
      FindIndexSameNames(added, cart, name);
      assert added[i := added[i].(quantity := added[i].quantity - 1)] == cart;
    case None =>
      var x := LineItem(name, price, 1);
      assert added == cart + [x];
      assert FindIndex(added, name) == Some(|cart|);
      RemoveConcat(cart, [x], name);
      assert RemoveFromCart([x], name) == [];
  }

  /** Removing a name that was just added for the first time restores the
      cart. */
  lemma RemoveAfterAddNew(cart: Cart, name: string, price: real)
    requires !HasName(cart, name)
    ensures RemoveFromCart(AddToCart(cart, name, price), name) == cart
  {
    RemoveConcat(cart, [LineItem(name, price, 1)], name);
    assert RemoveFromCart([LineItem(name, price, 1)], name) == [];
    assert AddToCart(cart, name, price) == cart + [LineItem(name, price, 1)];
  }

  /** Raising a quantity by `delta` and lowering it by `delta` again is the
      identity whenever every quantity is at least 1. */
  lemma UpdateInverse(cart: Cart, name: string, delta: int)
    requires PositiveQuantities(cart) && delta >= 0
    ensures UpdateQuantity(UpdateQuantity(cart, name, delta), name, -delta) == cart
  {
    match FindIndex(cart, name)
    case None =>
    case Some(i) =>
      var up := UpdateQuantity(cart, name, delta);
      FindIndexSameNames(up, cart, name);
      assert up[i := up[i].(quantity := up[i].quantity - delta)] == cart;
  }

  /** clearCart keeps the invariant and, once confirmed, leaves nothing. */
  lemma ClearPreservesValid(cart: Cart, confirmed: bool)
    requires Valid(cart)
    ensures Valid(ClearCart(cart, confirmed))
    ensures confirmed ==> forall name :: !HasName(ClearCart(cart, confirmed), name)
  {
  }

  /** Entering the same name twice keeps the first price: the second call only
      bumps the quantity. */
  lemma SecondPriceIgnored(name: string, first: real, second: real)
    ensures AddToCart(AddToCart([], name, first), name, second) == [LineItem(name, first, 2)]
  {
    var once := AddToCart([], name, first);
    assert once == [LineItem(name, first, 1)];
    UniqueIsFirst(once, name, 0);
  }
}
