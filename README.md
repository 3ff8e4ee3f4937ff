# Shopping-cart state of `CartProvider`

A Dafny model of the cart logic in `src/hooks/useCart.tsx` of a small React
storefront. The cart is an ordered sequence of line items
(`Product(id, name, price, imageUrl, amount)`); three operations change it:

- **addProduct** queries the stock service, fetches the product from the
  catalog, raises the amount of every item with that id or, when none matched,
  appends the fetched record with amount 1, installs the new cart and writes it
  to the local-storage slot `@RocketShoes:cart`.
- **removeProduct** keeps the items whose id differs; it writes nothing to
  storage.
- **updateProductAmount** rejects an amount of zero or less, otherwise sets the
  amount of the matching items; it writes nothing to storage.

The provider starts from the stored cart when the slot holds one and from the
empty cart otherwise.

Two files:

- `cart_model.dfy`, module `Cart`: the data types, the pure transformations
  (`Incremented`, `AfterAdd`, `Removed`, `WithAmount`, `Hydrate`), the stock
  check, and the lemmas about them. `WellFormed` is the intended cart
  invariant: ids unique, every amount at least 1.
- `cart_provider.dfy`, module `CartProvider`: the two `map` loops as methods
  proved against those functions, and the class `CartStore` whose fields are the
  React state `cart` and the storage slot `storage`, with one method per
  operation.

The outside world enters as inputs: the stock service's reply
(`Option<Stock>`), the catalog's reply (`Option<Product>`, `None` when the
request fails) and whether `localStorage.setItem` succeeds. Each operation
returns the notification it raises as a `Notice` tag.

### Behaviour of the code that the model follows

- **The stock guard never fires.** `hasStock` is `async`, so
  `!hasStock(productId)` (useCart.tsx:38 and :85) negates a Promise, which is
  truthy, and never aborts. `StockGuardAborts` models this with JavaScript
  truthiness and proves the guard is always false. The awaited comparison
  `amount != 0` is `HasStock`. A product with zero stock is therefore added or
  updated like any other.
- **The catalog is fetched on every add**, also for a product already in the
  cart. A failed fetch makes the whole add a no-op for cart and storage, even
  when the id was present.
- **Only addProduct persists.** After removeProduct or updateProductAmount the
  slot keeps the old cart. `ReloadLosesRemoval` and `ReloadLosesUpdate` show a
  reload would bring the old cart back.
- **Every item with the id is affected.** Bump, removal and amount update act
  on all items whose id matches, not just the first. With unique ids that is
  exactly one item (`AddExistingBumpsOnlyTarget`, `RemovePresentShrinksByOne`).
- **The storage write comes after the state update.** If `setItem` throws, the
  new cart is already installed, the slot keeps the old one, and the generic
  "add failed" notice is raised.

## Model

| member | source | states |
|---|---|---|
| `CartProvider.CartStore.constructor` | src/hooks/useCart.tsx:25-33 | the cart is the stored cart when the slot holds one, else empty; the store starts in sync with storage |
| `CartProvider.CartStore.AddProduct` | src/hooks/useCart.tsx:35-66 | a failed catalog fetch leaves cart and storage unchanged and raises the add-failed notice, whether or not the id was present; otherwise the cart becomes `AfterAdd` of the old cart; a successful write makes storage equal the new cart (reload reproduces it); a failing write leaves storage as it was and raises the add-failed notice; the stock answer has no effect |
| `CartProvider.CartStore.RemoveProduct` | src/hooks/useCart.tsx:68-74 | the cart becomes `Removed` of the old cart; storage is untouched, so a cart in sync with storage falls out of sync when a present id is removed |
| `CartProvider.CartStore.UpdateProductAmount` | src/hooks/useCart.tsx:76-98 | an amount of zero or less leaves the cart unchanged and raises the invalid-amount notice; a positive amount gives `WithAmount` of the old cart; storage is never written, so a changed amount falls out of sync with storage; the stock answer has no effect |
| `CartProvider.IncrementMatching` | src/hooks/useCart.tsx:45-53 | the loop builds exactly `Incremented(cart, productId)` and its flag is true iff some item has the id |
| `CartProvider.AssignAmounts` | src/hooks/useCart.tsx:90-93 | the loop builds exactly `WithAmount(cart, productId, amount)` |
| `Cart.Hydrate` | src/hooks/useCart.tsx:25-33 | definition, no contract of its own: the stored cart when the slot holds one, else the empty cart; its property is stated by `CartStore.constructor` and by `InSync()` in the contract of `CartStore.AddProduct` |
| `Cart.AfterAdd` | src/hooks/useCart.tsx:45-58 | definition of the cart a successful add installs: the length grows by one exactly when the id is absent; every old position holds the old item, with one more unit where the id matches; when absent, the last item is the fetched record with amount 1; `AddExistingBumpsOnlyTarget`, `AddAbsentAppends`, `AddPreservesWellFormed` and `CartStore.AddProduct` state its properties |
| `Cart.Incremented` | src/hooks/useCart.tsx:45-53 | same length; at every position the item with the id has its amount raised by one and every other item is unchanged |
| `Cart.AddExistingBumpsOnlyTarget` | src/hooks/useCart.tsx:45-53 | with unique ids and the id present, add keeps the length and order, raises exactly that item's amount by 1 and leaves every other item equal |
| `Cart.AddAbsentAppends` | src/hooks/useCart.tsx:55-58 | with the id absent, add grows the cart by exactly one, the old cart is the prefix, and the last item is the fetched record with amount 1 |
| `Cart.AddPreservesWellFormed` | src/hooks/useCart.tsx:45-58 | add keeps ids unique and amounts positive when the fetched record carries the requested id |
| `Cart.Removed` | src/hooks/useCart.tsx:70 | never longer than the cart; every item with the id is gone and every other item keeps its multiplicity |
| `Cart.RemovedIsSubsequence` | src/hooks/useCart.tsx:70 | the kept items appear in their original order |
| `Cart.RemovedIsTheOnlyFilter` | src/hooks/useCart.tsx:70 | any order-preserving subsequence of the cart that drops every item with the id and keeps every other item with its multiplicity equals `Removed`: with `RemovedIsSubsequence` and `Removed`'s own contract, removal is exactly the old items with another id, in order |
| `Cart.RemoveAbsentIsNoOp` | src/hooks/useCart.tsx:70 | removing an id the cart does not hold returns the cart unchanged |
| `Cart.RemoveIdempotent` | src/hooks/useCart.tsx:70 | removing an id twice equals removing it once |
| `Cart.RemovePresentShrinksByOne` | src/hooks/useCart.tsx:70 | with unique ids, removing a present id shortens the cart by exactly one |
| `Cart.RemovePreservesUniqueIds` | src/hooks/useCart.tsx:70 | removal keeps ids unique |
| `Cart.RemovePreservesWellFormed` | src/hooks/useCart.tsx:70 | removal keeps ids unique and amounts positive |
| `Cart.ReloadLosesRemoval` | src/hooks/useCart.tsx:68-74 | a stored cart holding the id differs from the cart after its removal, so reload restores the removed item |
| `Cart.WithAmount` | src/hooks/useCart.tsx:90-93 | same length; every item with the id gets exactly the requested amount and keeps its other fields; every other item is unchanged |
| `Cart.UpdatePreservesWellFormed` | src/hooks/useCart.tsx:81-93 | a positive amount keeps ids unique and amounts positive |
| `Cart.ReloadLosesUpdate` | src/hooks/useCart.tsx:90-94 | when a matching item's amount actually changes, the stored cart differs from the updated one, so reload restores the old amount |
| `Cart.HasStock` | src/hooks/useCart.tsx:102 | definition, no contract of its own: the comparison `amount != 0` at useCart.tsx:102, the value `hasStock` would yield if awaited |
| `Cart.HasStockCall` | src/hooks/useCart.tsx:100-101 | definition, no contract of its own: the un-awaited `async` call is a Promise whatever the stock service answers; its property is stated by `StockGuardAborts` |
| `Cart.StockGuardAborts` | src/hooks/useCart.tsx:100-103 | the guard `!hasStock(productId)` on an un-awaited Promise is false for every stock answer, zero stock and a failed stock request included |

## Left out

- React context, `useState`/`useContext` wiring and JSX (useCart.tsx:22, 105-118): UI framework plumbing. `setCart` is an assignment to `CartStore.cart`.
- `toast.error`: each operation returns the notice it would show as a `Notice` tag; the message texts are not modelled.
- `api.get` requests to the catalog and stock services: their replies are inputs. `hasStock` is called inside the `try`, but its Promise is never awaited, so a failed stock request becomes an unhandled rejection that the `catch` never sees; it has no effect on the cart either.
- `localStorage` and `JSON.parse`/`JSON.stringify`: the slot holds a cart value directly. A slot holding an empty string (treated as absent by the `if`) or malformed text (where `JSON.parse` would throw during initialization) is not modelled.
- Async interleaving: overlapping calls that read a stale `cart` and overwrite each other's updates are not modelled. Each operation runs to completion on the current state.
- Aliasing: addProduct and updateProductAmount mutate the item objects shared with the previous state (useCart.tsx:49, 91). Only the resulting sequence is modelled.
- Numbers: ids and amounts are unbounded integers. JavaScript numbers are doubles, so fractional or NaN amounts passed to updateProductAmount, and precision loss above 2^53, are not modelled. `===` and `==` compare numbers the same way here. `price` is a `real` that no operation reads.
- The layout of `Product` and `Stock` comes from `src/types`, which is not part of this model. The field names are the usual line-item fields: id, name, price, image URL and amount.
- An "intended" stock check that awaits `hasStock` is not modelled. The model follows the code, where the check never takes effect.

