# Restaurant cart: a Dafny model of the cart state machine

The ordering page keeps a cart, which is an ordered list of line items
`{name, price, quantity}`. Four operations change it: "Add to cart" (`addToCart`),
"Remove" (`removeFromCart`), the "+"/"-" buttons (`updateQuantity`) and
"Clear cart" (`clearCart`). The cart is saved to `localStorage` after every change
and loaded again when the page opens. The cart view shows two aggregates: the item
count and the total price.

This project models that logic as pure functions over an immutable `seq<LineItem>`
and proves four things:
- the cart invariant (unique names, quantities of at least 1) is kept;
- each operation changes only what it should;
- some operations undo others;
- when this page is the only writer of the storage slot, the slot reproduces the cart on reload.

Files:
- `wrappers.dfy`: `Option`.
- `cart.dfy` (module `CartState`): the line item, the cart, the invariant and the four operations.
- `cart_properties.dfy` (module `CartProperties`): invariant preservation, order, and inverse pairs.
- `totals.dfy` (module `Totals`): the two `reduce` aggregates, a per-name unit count (`QuantityOf`) used as an abstract view of the cart, and how each operation moves them.
- `add_sequence.dfy` (module `AddSequence`): what a run of "Add to cart" clicks on an empty cart produces.
- `store.dfy` (module `CartStore`): the cart plus its storage slot, each operation with its save, page load, and whole sessions of user events.

Modelling choices:
- Prices are exact `real` numbers, not JavaScript floats.
- Quantities are unbounded `int`s. A cart read back from storage may hold any whole number there, including zero or a negative one.
- The answer to the `confirm(...)` prompt is a `bool` parameter.
- `localStorage` under the cart's key is an `Option<Cart>` slot: `None` means nothing is saved. The JSON text is not modelled.
- `findIndex`/`find` stop at the first line with the name. `filter` drops every line with the name. The model keeps this difference. It only matters for a cart with duplicate names, which a valid cart never has.
- `updateQuantity` first adds the delta and then, if the result is 0 or less, calls `removeFromCart`. The net effect is the filter, and that is how it is modelled.

Loading follows `loadCart` exactly:
- `loadCart` (index.js:152-157) calls `JSON.parse` without a guard, so malformed stored text would throw. The model claims no fallback to an empty cart.
- For an absent value, `loadCart` leaves the cart as it was. At page open that is the empty array from index.js:2. `LoadCart` keeps the cart, and `PageLoad` starts from `[]`.

## Model

| member | source | states |
|---|---|---|
| CartState.FindIndex | index.js:13 | the result is None exactly when no line has the name; otherwise it is the first line carrying it |
| CartState.AddToCart | index.js:11-25 | a present name: same length, its first line's quantity goes up by exactly 1, its price is kept, every other line is unchanged; a new name: the old cart with `{name, price, 1}` appended at the end; validity is preserved; the name is present afterwards |
| CartState.RemoveFromCart | index.js:41-42 | no line with the name is left; an item is in the result iff it was in the cart under another name; an absent name leaves the cart unchanged; the cart shrinks iff the name was present |
| CartState.UpdateQuantity | index.js:48-61 | an absent name changes nothing; if quantity + delta <= 0 the result equals removeFromCart; otherwise only that line changes, to quantity + delta with name and price kept; a present name with a nonzero delta always changes the cart |
| CartState.ClearCart | index.js:65-74 | an empty cart is unchanged whatever the answer; a non-empty cart becomes empty iff confirmed; otherwise it is unchanged |
| CartState.UniqueIsFirst | index.js:13 | in a cart with unique names, the first-match search finds the one line with that name |
| CartProperties.RemoveConcat | index.js:42 | removal distributes over concatenation, so the relative order of the remaining lines is kept |
| CartProperties.RemoveUniqueAt | index.js:42 | with unique names, removing a present name cuts out exactly its line: `cart[..i] + cart[i+1..]` |
| CartProperties.RemovePreservesValid | index.js:41-42 | removeFromCart keeps names unique and quantities >= 1 |
| CartProperties.UpdatePreservesValid | index.js:48-61 | updateQuantity keeps names unique and never leaves a quantity <= 0 |
| CartProperties.UpdateToZeroRemoves | index.js:52-56 | on a cart with unique names, a delta of minus the line's quantity gives the same cart as removeFromCart, and the name is gone |
| CartProperties.AddThenDecrement | index.js:11-62 | when every quantity is at least 1, adding a name and then pressing "-" on it gives back the original cart, for both a new and an existing name, even with duplicate names |
| CartProperties.RemoveAfterAddNew | index.js:18-42 | adding a new name and then removing it gives back the original cart |
| CartProperties.UpdateInverse | index.js:48-61 | when every quantity is at least 1, a delta d >= 0 followed by -d gives back the original cart |
| CartProperties.ClearPreservesValid | index.js:65-74 | clearCart keeps validity; after a confirmed clear no name is present |
| CartProperties.SecondPriceIgnored | index.js:13-24 | adding a name twice with two prices gives one line with the first price and quantity 2 |
| Totals.TotalItems | index.js:84 | when every quantity is >= 1, the count is at least the number of lines and is 0 iff the cart is empty |
| Totals.TotalPrice | index.js:88 | with no negative price or quantity, the total is non-negative |
| Totals.ComputeTotals | index.js:84-88 | the one-pass left-to-right accumulation computes exactly the item-count and total-price folds |
| Totals.AddToCartTotals | index.js:13-24 | every add raises the count by exactly 1 and the total by the name's recorded price: the old price for an existing name, the passed price for a new one |
| Totals.AddToCartUnits | index.js:13-24 | every add raises the units of that name by exactly 1 and leaves every other name's units unchanged |
| Totals.RemoveFromCartTotals | index.js:42 | removal lowers the count by exactly the units the name held |
| Totals.RemoveFromCartUnits | index.js:42 | removal sets that name's units to 0 and leaves every other name's units alone |
| Totals.RemoveUniqueTotals | index.js:42 | on a cart with unique names, removing a line's name lowers the count by that line's quantity and the total price by its subtotal |
| Totals.UpdateQuantityTotals | index.js:49-61 | on a cart with unique names the name's units become quantity + delta, or 0 when that is not positive or the name is absent; the count moves by the same amount; other names are unaffected |
| Totals.UpdateDropsTotals | index.js:55-56 | when quantity + delta <= 0 on a cart with unique names, the name's units become 0, the count drops by the line's whole quantity and the total price by its subtotal; other names are unaffected |
| Totals.UpdateKeepsTotals | index.js:52-59 | when quantity + delta > 0 on a cart with unique names, the name's units become quantity + delta, the count moves by delta, and the line's old subtotal in the total price is replaced by its new one; other names are unaffected |
| Totals.UpdateQuantityPrice | index.js:49-61 | on a cart with unique names, the +/- buttons replace the line's subtotal in the total price by its new subtotal, or by nothing when the line is removed |
| Totals.ClearCartTotals | index.js:65-74 | a confirmed clear zeroes the count and the total; a declined one leaves both unchanged |
| Totals.TotalsExample | index.js:84-88 | `[{10.00, 2}, {3.50, 1}]` totals 23.50 for 3 items |
| AddSequence.AddAllValid | index.js:11-25 | any sequence of adds on an empty cart gives a valid cart whose names are exactly the names clicked |
| AddSequence.AddAllLength | index.js:13-24 | the number of lines equals the number of distinct names clicked |
| AddSequence.AddAllQuantities | index.js:13-24 | each name's quantity equals the number of add calls for it |
| AddSequence.AddAllPrices | index.js:13-24 | each line keeps the price of the first add call for its name |
| CartStore.SaveCart | index.js:147-149 | the slot is overwritten with the current cart, and the cart is untouched |
| CartStore.LoadCart | index.js:152-157 | a filled slot replaces the cart; an empty slot leaves the store as it was; the slot itself is never changed |
| CartStore.PageLoad | index.js:2-6 | opening the page shows the saved cart, or the empty cart when nothing is saved |
| CartStore.LoadAfterSave | index.js:147-156 | loading after saving restores the saved sequence, whatever happened to the in-memory cart in between; loading from an empty slot changes nothing |
| CartStore.Add | index.js:11-28 | the cart is the added cart and the slot holds it afterwards |
| CartStore.Remove | index.js:41-45 | the cart is the filtered cart and the slot holds it, even for an unknown name |
| CartStore.Update | index.js:48-62 | an unknown name changes neither the cart nor the slot; otherwise the slot holds the updated cart |
| CartStore.Clear | index.js:65-75 | an empty cart or a declined prompt changes neither the cart nor the slot; a confirmed clear leaves an empty cart and an empty saved cart |
| CartStore.PageLoadGood | index.js:152-157 | loading a slot that is empty or holds a valid cart gives a valid cart that a reload reproduces |
| CartStore.Apply | index.js:11-75 | every user action either changes nothing at all or leaves the slot holding the new cart |
| CartStore.Run | index.js:11-75 | after any sequence of actions, either nothing changed or the slot holds the current cart |
| CartStore.ApplyPersisted | index.js:11-75 | whatever the slot held at page load, every action keeps "reopening the page shows this cart" true |
| CartStore.RunPersisted | index.js:11-75 | the same holds over any sequence of actions |
| CartStore.ApplyPreservesGood | index.js:11-75 | every user action keeps the cart valid, the slot valid, and the slot in sync with the cart |
| CartStore.RunPreservesGood | index.js:11-75 | the same holds for any sequence of user actions |
| CartStore.SessionReloadRestores | index.js:147-157 | after a page load on any slot and any actions, reopening the page shows the same cart |
| CartStore.SessionStaysValid | index.js:11-75 | after a page load on a slot that is empty or holds a valid cart, and then any actions, the cart and the slot stay valid |

## Left out

- Rendering in `updateCartDisplay` (index.js:79-115): it builds HTML and formats money with `toFixed(2)`, which is presentation only. The two aggregates it computes are modelled.
- `toggleCart` and `showCart` (index.js:119-144): they only toggle CSS classes and page scrolling.
- `showAddedNotification` (index.js:160-217): it creates DOM elements and timers, and it does not touch the cart.
- The click-outside listener and the `DOMContentLoaded` wiring (index.js:5-8, 220-232): this is event plumbing. `PageLoad` models what the load handler does to the cart.
- `JSON.stringify`/`JSON.parse` and `localStorage` itself: these are browser calls. Storage is an abstract slot, so the model says nothing about malformed stored text. On such text the source would throw from `JSON.parse`.
- An empty-string value in storage, which `if (savedCart)` treats as absent, cannot be written by `saveCart`. The abstract slot does not represent it.
- JavaScript floating-point prices and non-integer quantities: prices are exact reals and quantities are integers.
- Totals.UpdateQuantityTotals: stated for carts with unique names only (positive quantities are not needed). With duplicate names the source changes only the first line but removes all of them, and per-name units no longer follow the simple formula.
- Totals.UpdateDropsTotals and Totals.UpdateKeepsTotals: the two branches of the statement above, stated for carts with unique names only for the same reason.
- CartProperties.AddThenDecrement and CartProperties.UpdateInverse: stated for carts whose quantities are all at least 1. A line with a quantity below 1, which only a hand-edited slot can hold, is removed by the decrement instead of being restored.
- CartProperties.AddThenDecrement, CartProperties.UpdateInverse and Totals.AddToCartTotals (and the other quantity lemmas): they describe quantities below 2^53. JavaScript quantities are doubles, so from 2^53 up `+= 1` (index.js:17) and `+= change` (index.js:52) are inexact: 2^53 + 1 is 2^53. Only a hand-edited slot can reach such a quantity. The model's integers are unbounded.
- Other tabs of the same site share the `localStorage` slot under `'bellaCucinaCart'` (index.js:148, 153), and index.js does not listen for `storage` events, so another tab may overwrite what this page saved. The model has one page as the slot's only writer. CartStore.Persisted, CartStore.RunPersisted and CartStore.SessionReloadRestores therefore describe a single tab.
- Totals.RemoveFromCartTotals: states how the item count moves on removal for any cart, not the total price. Totals.RemoveUniqueTotals states both for carts with unique names. With duplicate names every matching line leaves the total, and the model has no per-name price sum to state that with.
