/** A page session that only clicks "Add to cart", starting from an empty
    cart: what the cart holds after a sequence of addToCart calls. */
module AddSequence {
  import opened Wrappers
  import opened CartState
  import opened Totals

  /** One "Add to cart" click: the item name and the price on its button. */
  datatype AddCall = AddCall(name: string, price: real)

  /** The cart after performing `calls` in order on an empty cart. */
  function AddAll(calls: seq<AddCall>): (r: Cart)
    ensures |r| <= |calls|
  {
    if |calls| == 0 then []
    else
      var last := calls[|calls| - 1];
      AddToCart(AddAll(calls[..|calls| - 1]), last.name, last.price)
  }

  /** How many of the calls name `name`. */
  function Count(calls: seq<AddCall>, name: string): (r: nat)
    ensures r <= |calls|
  {
    if |calls| == 0 then 0
    else Count(calls[..|calls| - 1], name) + (if calls[|calls| - 1].name == name then 1 else 0)
  }

  /** The distinct names among the calls. */
  function CallNames(calls: seq<AddCall>): (r: set<string>)
    ensures forall i :: 0 <= i < |calls| ==> calls[i].name in r
  {
    set i | 0 <= i < |calls| :: calls[i].name
  }

  /** The price passed by the first call naming `name`, if any. */
  function FirstPrice(calls: seq<AddCall>, name: string): (r: Option<real>)
    ensures r.Some? ==> exists i :: 0 <= i < |calls| && calls[i] == AddCall(name, r.value)
  {
    if |calls| == 0 then None
    else
      var earlier := FirstPrice(calls[..|calls| - 1], name);
      if earlier.Some? then earlier
      else if calls[|calls| - 1].name == name then Some(calls[|calls| - 1].price)
      else None
  }

  /** The names of a longer call sequence are the earlier names plus the
      last one. */
  lemma CallNamesSnoc(calls: seq<AddCall>)
    requires |calls| > 0
    ensures CallNames(calls) == CallNames(calls[..|calls| - 1]) + {calls[|calls| - 1].name}
  {
    var init := calls[..|calls| - 1];
    forall n | n in CallNames(calls)
      ensures n in CallNames(init) + {calls[|calls| - 1].name}
    {
      var i :| 0 <= i < |calls| && calls[i].name == n;
      if i < |init| {
        assert init[i] == calls[i];
      }
    }
    forall n | n in CallNames(init)
      ensures n in CallNames(calls)
    {
      var i :| 0 <= i < |init| && init[i].name == n;
      assert calls[i] == init[i];
    }
  }

  /** A first price exists exactly for the names that were clicked. */
  lemma {:induction false} FirstPriceExists(calls: seq<AddCall>, name: string)
    ensures FirstPrice(calls, name).Some? <==> name in CallNames(calls)
    decreases |calls|
  {
    if |calls| > 0 {
      FirstPriceExists(calls[..|calls| - 1], name);
      CallNamesSnoc(calls);
    }
  }

  /** Any sequence of "Add to cart" clicks on an empty cart leaves it valid,
      with a line for exactly the names clicked. */
  lemma {:induction false} AddAllValid(calls: seq<AddCall>)
    ensures Valid(AddAll(calls))
    ensures forall name :: HasName(AddAll(calls), name) <==> name in CallNames(calls)
    decreases |calls|
  {
    if |calls| > 0 {
      AddAllValid(calls[..|calls| - 1]);
      CallNamesSnoc(calls);
      var last := calls[|calls| - 1];
      var before := AddAll(calls[..|calls| - 1]);
      var after := AddToCart(before, last.name, last.price);
      forall name | HasName(after, name)
        ensures HasName(before, name) || name == last.name
      {
        var k :| 0 <= k < |after| && after[k].name == name;
        if k < |before| {
          assert after[k].name == before[k].name;
        }
      }
      forall name | HasName(before, name)
        ensures HasName(after, name)
      {
        var k :| 0 <= k < |before| && before[k].name == name;
        assert after[k].name == before[k].name;
      }
    }
  }

  /** ... so it has as many lines as there are distinct names. */
  lemma {:induction false} AddAllLength(calls: seq<AddCall>)
    ensures |AddAll(calls)| == |CallNames(calls)|
    decreases |calls|
  {
    if |calls| > 0 {
      var init := calls[..|calls| - 1];
      var last := calls[|calls| - 1];
      var before := AddAll(init);
      AddAllLength(init);
      AddAllValid(init);
      CallNamesSnoc(calls);
      if HasName(before, last.name) {
        assert |AddAll(calls)| == |before|;
        assert CallNames(calls) == CallNames(init);
      } else {
        assert |AddAll(calls)| == |before| + 1;
        assert last.name !in CallNames(init);
        assert |CallNames(init) + {last.name}| == |CallNames(init)| + 1;
      }
    }
  }

  /** Each name's quantity is the number of clicks on it. */
  lemma {:induction false} AddAllQuantities(calls: seq<AddCall>, name: string)
    ensures QuantityOf(AddAll(calls), name) == Count(calls, name)
    decreases |calls|
  {
    if |calls| > 0 {
      var last := calls[|calls| - 1];
      AddAllQuantities(calls[..|calls| - 1], name);
      AddToCartUnits(AddAll(calls[..|calls| - 1]), last.name, last.price, name);
    }
  }

  /** Each line keeps the price of the first click on its name. */
  lemma {:induction false} AddAllPrices(calls: seq<AddCall>)
    ensures forall i :: 0 <= i < |AddAll(calls)| ==>
      FirstPrice(calls, AddAll(calls)[i].name) == Some(AddAll(calls)[i].price)
    decreases |calls|
  {
    if |calls| > 0 {
      var init := calls[..|calls| - 1];
      var last := calls[|calls| - 1];
      AddAllPrices(init);
      AddAllValid(init);
      var before := AddAll(init);
      var after := AddToCart(before, last.name, last.price);
      if !HasName(before, last.name) {
        FirstPriceExists(init, last.name);
      }
      forall i | 0 <= i < |after|
        ensures FirstPrice(calls, after[i].name) == Some(after[i].price)
      {
        if i < |before| {
          assert after[i].name == before[i].name && after[i].price == before[i].price;
        }
      }
    }
  }
}
