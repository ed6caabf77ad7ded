/** The page's cart together with its persisted copy. Every operation is the
    cart operation followed by saveCart when the source saves; localStorage is
    modelled as a slot that holds the last saved cart or nothing. */
module CartStore {
  import opened Wrappers
  import opened CartState
  import opened CartProperties

  /** The in-memory cart and the storage slot under the cart's fixed key. */
  datatype Store = Store(cart: Cart, slot: Option<Cart>)

  /** saveCart: overwrite the slot with the current cart. */
  function SaveCart(s: Store): (r: Store)
    ensures r.cart == s.cart
    ensures r.slot.Some? && r.slot.value == s.cart
  {
    s.(slot := Some(s.cart))
  }

  /** loadCart: replace the cart by the saved one when the slot holds one,
      otherwise leave the cart as it was. */
  function LoadCart(s: Store): (r: Store)
    ensures r.slot == s.slot
    ensures s.slot.Some? ==> r.cart == s.slot.value
    ensures s.slot.None? ==> r == s
  {
    match s.slot
    case Some(saved) => s.(cart := saved)
    case None => s
  }

  /** Opening the page: the cart starts empty and is then loaded. */
  function PageLoad(slot: Option<Cart>): (r: Store)
    ensures r.slot == slot
    ensures r.cart == slot.GetOr([])
  {
    LoadCart(Store([], slot))
  }

  /** Reopening the page now would show the cart the user sees now. */
  predicate Persisted(s: Store)
  {
    PageLoad(s.slot).cart == s.cart
  }

  /** Saving and then loading gives back the saved cart, whatever the
      in-memory cart became in between; loading from an empty slot is a
      no-op. */
  lemma LoadAfterSave(s: Store, meanwhile: Cart)
    ensures LoadCart(SaveCart(s).(cart := meanwhile)).cart == s.cart
    ensures LoadCart(Store(meanwhile, None)) == Store(meanwhile, None)
    ensures Persisted(SaveCart(s))
  {
  }

  /** addToCart with its save. */
  function Add(s: Store, name: string, price: real): (r: Store)
    ensures r.cart == AddToCart(s.cart, name, price)
    ensures r.slot == Some(r.cart)
  {
    SaveCart(s.(cart := AddToCart(s.cart, name, price)))
  }

  /** removeFromCart with its save; the save happens even for an unknown
      name. */
  function Remove(s: Store, name: string): (r: Store)
    ensures r.cart == RemoveFromCart(s.cart, name)
    ensures r.slot == Some(r.cart)
  {
    SaveCart(s.(cart := RemoveFromCart(s.cart, name)))
  }

  /** updateQuantity with its save: an unknown name neither changes the cart
      nor saves; a quantity reaching zero goes through removeFromCart, which
      saves. */
  function Update(s: Store, name: string, delta: int): (r: Store)
    ensures !HasName(s.cart, name) ==> r == s
    ensures HasName(s.cart, name) ==> r.slot == Some(r.cart)
    ensures r.cart == UpdateQuantity(s.cart, name, delta)
  {
    match FindIndex(s.cart, name)
    case None => s
    case Some(i) =>
      if s.cart[i].quantity + delta <= 0 then Remove(s, name)
      else SaveCart(s.(cart := s.cart[i := s.cart[i].(quantity := s.cart[i].quantity + delta)]))
  }

  /** clearCart with its save: an empty cart skips the prompt, a declined
      prompt changes nothing and saves nothing, a confirmed one empties the
      cart and saves the empty cart. */
  function Clear(s: Store, confirmed: bool): (r: Store)
    ensures |s.cart| == 0 || !confirmed ==> r == s
    ensures |s.cart| > 0 && confirmed ==> r == Store([], Some([]))
    ensures r.cart == ClearCart(s.cart, confirmed)
  {
    if |s.cart| == 0 then s
    else if confirmed then SaveCart(s.(cart := []))
    else s
  }

  /** The user actions that reach the cart. `ClearClicked` carries the answer
      to the confirmation prompt. */
  datatype Event =
    | AddClicked(name: string, price: real)
    | RemoveClicked(name: string)
    | QuantityClicked(name: string, delta: int)
    | ClearClicked(confirmed: bool)

  /** One event: it either changes nothing at all or leaves the slot holding
      the new cart. */
  function Apply(s: Store, e: Event): (r: Store)
    ensures r == s || r.slot == Some(r.cart)
  {
    match e
    case AddClicked(name, price) => Add(s, name, price)
    case RemoveClicked(name) => Remove(s, name)
    case QuantityClicked(name, delta) => Update(s, name, delta)
    case ClearClicked(confirmed) => Clear(s, confirmed)
  }

  /** The store after handling `events` in order. */
  function Run(s: Store, events: seq<Event>): (r: Store)
    ensures r == s || r.slot == Some(r.cart)
    decreases |events|
  {
    if |events| == 0 then s
    else Run(Apply(s, events[0]), events[1..])
  }

  /** The slot holds nothing or a valid cart. */
  predicate SlotValid(slot: Option<Cart>)
  {
    slot.None? || Valid(slot.value)
  }

  /** The store invariant: the cart is valid, the slot is, and the slot
      reproduces the cart on reload. */
  predicate Good(s: Store)
  {
    Valid(s.cart) && SlotValid(s.slot) && Persisted(s)
  }

  /** Opening the page on a slot holding nothing or a valid cart yields a
      good store. */
  lemma PageLoadGood(slot: Option<Cart>)
    requires SlotValid(slot)
    ensures Good(PageLoad(slot))
  {
  }

  /** Every user action keeps the store good. */
  lemma ApplyPreservesGood(s: Store, e: Event)
    requires Good(s)
    ensures Good(Apply(s, e))
  {
    match e
    case AddClicked(name, price) =>
    case RemoveClicked(name) => RemovePreservesValid(s.cart, name);
    case QuantityClicked(name, delta) => UpdatePreservesValid(s.cart, name, delta);
    case ClearClicked(confirmed) =>
  }

  /** Whatever the user does after opening the page, the cart stays valid and
      reopening the page at any point shows the same cart. */
  lemma {:induction false} RunPreservesGood(s: Store, events: seq<Event>)
    requires Good(s)
    ensures Good(Run(s, events))
    decreases |events|
  {
    if |events| > 0 {
      ApplyPreservesGood(s, events[0]);
      RunPreservesGood(Apply(s, events[0]), events[1..]);
    }
  }

  /** Every user action keeps the slot in sync with the cart, whatever the
      slot held when the page opened. */
  lemma ApplyPersisted(s: Store, e: Event)
    requires Persisted(s)
    ensures Persisted(Apply(s, e))
  {
  }

  lemma {:induction false} RunPersisted(s: Store, events: seq<Event>)
    requires Persisted(s)
    ensures Persisted(Run(s, events))
    decreases |events|
  {
    if |events| > 0 {
      ApplyPersisted(s, events[0]);
      RunPersisted(Apply(s, events[0]), events[1..]);
    }
  }

  /** After a page load on any slot and any sequence of actions, reopening
      the page shows the same cart. */
  lemma SessionReloadRestores(slot: Option<Cart>, events: seq<Event>)
    ensures PageLoad(Run(PageLoad(slot), events).slot).cart == Run(PageLoad(slot), events).cart
  {
    RunPersisted(PageLoad(slot), events);
  }

  /** From a page load on a slot that is empty or holds a valid cart, any
      sequence of actions leaves a valid cart and a valid slot. */
  lemma SessionStaysValid(slot: Option<Cart>, events: seq<Event>)
    requires SlotValid(slot)
    ensures Valid(Run(PageLoad(slot), events).cart)
    ensures SlotValid(Run(PageLoad(slot), events).slot)
  {
    PageLoadGood(slot);
    RunPreservesGood(PageLoad(slot), events);
  }
}
