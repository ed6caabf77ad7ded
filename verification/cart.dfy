/** The cart of the ordering page: an ordered sequence of line items and the
    four operations that change it (index.js: addToCart, removeFromCart,
    updateQuantity, clearCart). Each operation is a pure function from the
    old cart to the new one. */
module CartState {
  import opened Wrappers

  /** One product line. `price` is the unit price recorded when the line was
      created, as an exact real number; `quantity` is an integer because a
      cart read back from storage may hold any number there. */
  datatype LineItem = LineItem(name: string, price: real, quantity: int)

  /** Lines in insertion order. */
  type Cart = seq<LineItem>

  predicate HasName(cart: Cart, name: string)
  {
    exists i :: 0 <= i < |cart| && cart[i].name == name
  }

  /** At most one line per name. */
  predicate UniqueNames(cart: Cart)
  {
    forall i, j :: 0 <= i < j < |cart| ==> cart[i].name != cart[j].name
  }

  /** No line with quantity zero or below. */
  predicate PositiveQuantities(cart: Cart)
  {
    forall i :: 0 <= i < |cart| ==> cart[i].quantity >= 1
  }

  /** The invariant every operation keeps. */
  predicate Valid(cart: Cart)
  {
    UniqueNames(cart) && PositiveQuantities(cart)
  }

  /** `i` is the position of the first line named `name`. */
  predicate IsFirst(cart: Cart, name: string, i: int)
  {
    && 0 <= i < |cart|
    && cart[i].name == name
    && forall j :: 0 <= j < i ==> cart[j].name != name
  }

  /** The index `findIndex`/`find` stop at: the first line with this name. */
  function FindIndex(cart: Cart, name: string): (r: Option<nat>)
    ensures r.None? <==> !HasName(cart, name)
    ensures r.Some? ==> IsFirst(cart, name, r.value)
  {
    FindFrom(cart, name, 0)
  }

  function FindFrom(cart: Cart, name: string, from: nat): (r: Option<nat>)
    requires from <= |cart|
    requires forall j :: 0 <= j < from ==> cart[j].name != name
    ensures r.None? <==> !HasName(cart, name)
    ensures r.Some? ==> from <= r.value && IsFirst(cart, name, r.value)
    decreases |cart| - from
  {
    if from == |cart| then None
    else if cart[from].name == name then Some(from)
    else FindFrom(cart, name, from + 1)
  }

  /** In a cart with unique names, the line carrying a name is the first one. */
  lemma UniqueIsFirst(cart: Cart, name: string, i: int)
    requires UniqueNames(cart)
    requires 0 <= i < |cart| && cart[i].name == name
    ensures FindIndex(cart, name) == Some(i)
  {
  }

  /** addToCart: a repeated name bumps the quantity of its first line by one
      and keeps that line's price; a new name is appended with quantity 1. */
  function AddToCart(cart: Cart, name: string, price: real): (r: Cart)
    ensures HasName(r, name)
    ensures HasName(cart, name) ==>
      && |r| == |cart|
      && var i := FindIndex(cart, name).value;
      && r[i].name == name
      && r[i].price == cart[i].price
      && r[i].quantity == cart[i].quantity + 1
      && forall j :: 0 <= j < |cart| && j != i ==> r[j] == cart[j]
    ensures !HasName(cart, name) ==>
      && |r| == |cart| + 1
      && r[..|cart|] == cart
      && r[|cart|] == LineItem(name, price, 1)
    ensures Valid(cart) ==> Valid(r)
  {
    match FindIndex(cart, name)
    case Some(i) => cart[i := cart[i].(quantity := cart[i].quantity + 1)]
    case None =>
      var r := cart + [LineItem(name, price, 1)];
      assert r[|cart|].name == name;
      r
  }

  /** removeFromCart: `filter` drops every line with this name and keeps the
      others in order. */
  function RemoveFromCart(cart: Cart, name: string): (r: Cart)
    ensures !HasName(r, name)
    ensures forall x :: x in r <==> x in cart && x.name != name
    ensures !HasName(cart, name) ==> r == cart
    ensures |r| <= |cart|
    ensures HasName(cart, name) ==> |r| < |cart|
  {
    if |cart| == 0 then []
    else
      var rest := RemoveFromCart(cart[1..], name);
      if cart[0].name == name then rest
      else
        assert cart == [cart[0]] + cart[1..];
        [cart[0]] + rest
  }

  /** updateQuantity: the first line with this name gets `delta` added to its
      quantity; if that leaves it at zero or below, the name is removed
      (through removeFromCart); an unknown name changes nothing. */
  function UpdateQuantity(cart: Cart, name: string, delta: int): (r: Cart)
    ensures !HasName(cart, name) ==> r == cart
    ensures HasName(cart, name) ==>
      var i := FindIndex(cart, name).value;
      if cart[i].quantity + delta <= 0 then
        r == RemoveFromCart(cart, name)
      else
        && |r| == |cart|
        && r[i] == LineItem(name, cart[i].price, cart[i].quantity + delta)
        && forall j :: 0 <= j < |cart| && j != i ==> r[j] == cart[j]
    ensures HasName(cart, name) ==> r != cart || delta == 0
  {
    match FindIndex(cart, name)
    case None => cart
    case Some(i) =>
      var q := cart[i].quantity + delta;
      if q <= 0 then RemoveFromCart(cart, name)
      else cart[i := cart[i].(quantity := q)]
  }

  /** clearCart: nothing happens on an empty cart; otherwise the cart is
      emptied exactly when the user confirms. */
  function ClearCart(cart: Cart, confirmed: bool): (r: Cart)
    ensures |cart| == 0 ==> r == cart
    ensures |cart| > 0 ==> (r == [] <==> confirmed)
    ensures r == [] || r == cart
  {
    if |cart| == 0 then cart
    else if confirmed then []
    else cart
  }
}
