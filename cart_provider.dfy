/**
  The state `CartProvider` (src/hooks/useCart.tsx) keeps and the three
  operations that change it. The React state `cart` and the local-storage slot
  `@RocketShoes:cart` are the two fields of CartStore; the catalog and stock
  services and the outcome of the storage write are inputs.
 */
module CartProvider {
  import opened Cart

  /** The `cart.map` pass of addProduct: every item with the given id gains
      one unit and `find` records whether any item matched. */
  method IncrementMatching(cart: seq<Product>, productId: int) returns (newCart: seq<Product>, find: bool)
    ensures newCart == Incremented(cart, productId)
    ensures find <==> Contains(cart, productId)
  {
    newCart, find := [], false;
    var i := 0;
    while i < |cart|
      invariant 0 <= i <= |cart|
      invariant |newCart| == i
      invariant forall k :: 0 <= k < i ==>
        newCart[k] == if cart[k].id == productId then cart[k].(amount := cart[k].amount + 1) else cart[k]
      invariant find <==> exists k :: 0 <= k < i && cart[k].id == productId
    {
      var item := cart[i];
      if item.id == productId {
        item := item.(amount := item.amount + 1);
        find := true;
      }
      newCart := newCart + [item];
      i := i + 1;
    }
  }

  /** The `cart.map` pass of updateProductAmount: every item with the given id
      gets the requested amount, every other item keeps its own. */
  method AssignAmounts(cart: seq<Product>, productId: int, amount: int) returns (newCart: seq<Product>)
    ensures newCart == WithAmount(cart, productId, amount)
  {
    newCart := [];
    var i := 0;
    while i < |cart|
      invariant 0 <= i <= |cart|
      invariant |newCart| == i
      invariant forall k :: 0 <= k < i ==>
        newCart[k] == if cart[k].id == productId then cart[k].(amount := amount) else cart[k]
    {
      var product := cart[i];
      product := product.(amount := if product.id == productId then amount else product.amount);
      newCart := newCart + [product];
      i := i + 1;
    }
  }

  class CartStore {
    /** The cart the provider exposes (its React state). */
    var cart: seq<Product>
    /** The local-storage slot; `None` while nothing was ever stored. */
    var storage: Option<seq<Product>>

    /** Reloading the page would reproduce the current cart. */
    predicate InSync()
      reads this
    {
      Hydrate(storage) == cart
    }

    /** The `useState` initializer: hydrate from the slot, or start empty. */
    constructor (slot: Option<seq<Product>>)
      ensures storage == slot
      ensures slot.None? ==> cart == []
      ensures slot.Some? ==> cart == slot.value
      ensures InSync()
    {
      cart := Hydrate(slot);
      storage := slot;
    }

    /** addProduct. `stockAnswer` is the stock service's reply to the query
        `hasStock` issues, `fetched` the catalog's reply (`None`: the request
        failed), `storageWritable` whether `localStorage.setItem` succeeds. */
    method AddProduct(productId: int, stockAnswer: Option<Stock>, fetched: Option<Product>, storageWritable: bool)
        returns (notice: Notice)
      modifies this
      ensures fetched.None? ==> cart == old(cart) && storage == old(storage) && notice == AddFailed
      ensures fetched.Some? ==> cart == AfterAdd(old(cart), productId, fetched.value)
      ensures fetched.Some? && storageWritable ==> storage == Some(cart) && InSync() && notice == Silent
      ensures fetched.Some? && !storageWritable ==> storage == old(storage) && notice == AddFailed
    {
      if StockGuardAborts(stockAnswer) {
        notice := OutOfStock;
        return;
      }
      if fetched.None? {
        notice := AddFailed;
        return;
      }
      var data := fetched.value;
      var newCart, find := IncrementMatching(cart, productId);
      if !find {
        newCart := newCart + [data.(amount := 1)];
      }
      cart := newCart;
      if !storageWritable {
        notice := AddFailed;
        return;
      }
      storage := Some(newCart);
      notice := Silent;
    }

    /** removeProduct: keep the items with another id; storage is not written,
        so removing a product the stored cart holds leaves the two apart. */
    method RemoveProduct(productId: int)
      modifies this
      ensures cart == Removed(old(cart), productId)
      ensures storage == old(storage)
      ensures old(InSync()) && Contains(old(cart), productId) ==> !InSync()
    {
      ReloadLosesRemoval(cart, productId);
      cart := Removed(cart, productId);
    }

    /** updateProductAmount: reject a non-positive amount, else set the amount
        of the matching items; storage is not written. */
    method UpdateProductAmount(productId: int, amount: int, stockAnswer: Option<Stock>) returns (notice: Notice)
      modifies this
      ensures storage == old(storage)
      ensures amount <= 0 ==> cart == old(cart) && notice == InvalidAmount
      ensures amount > 0 ==> cart == WithAmount(old(cart), productId, amount) && notice == Silent
      ensures amount > 0 && old(InSync()) &&
        (exists k :: 0 <= k < |old(cart)| && old(cart)[k].id == productId && old(cart)[k].amount != amount)
        ==> !InSync()
    {
      if amount <= 0 {
        notice := InvalidAmount;
        return;
      }
      if StockGuardAborts(stockAnswer) {
        notice := OutOfStock;
        return;
      }
      ReloadLosesUpdate(cart, productId, amount);
      cart := AssignAmounts(cart, productId, amount);
      notice := Silent;
    }
  }
}
