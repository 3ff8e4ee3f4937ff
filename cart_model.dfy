/**
  Values of the shopping cart kept by `CartProvider` (src/hooks/useCart.tsx):
  the line items, the cart as an ordered sequence of them, the pure
  transformations the three cart operations apply to it, and the stock check.
 */
module Cart {

  datatype Option<T> = None | Some(value: T)

  /** One line item of the cart. A catalog record has the same shape; its
      `amount` is overwritten when it enters the cart. */
  datatype Product = Product(id: int, name: string, price: real, imageUrl: string, amount: int)

  /** The stock service's record for one product; `hasStock` reads only its
      `amount`, so that is the one field kept. */
  datatype Stock = Stock(amount: int)

  /** The user-visible notification an operation raises, if any. */
  datatype Notice = Silent | OutOfStock | AddFailed | InvalidAmount

  predicate Contains(cart: seq<Product>, productId: int)
  {
    exists i :: 0 <= i < |cart| && cart[i].id == productId
  }

  /** No two line items share an id. */
  predicate UniqueIds(cart: seq<Product>)
  {
    forall i, j :: 0 <= i < j < |cart| ==> cart[i].id != cart[j].id
  }

  /** Every line item holds at least one unit. */
  predicate PositiveAmounts(cart: seq<Product>)
  {
    forall i :: 0 <= i < |cart| ==> cart[i].amount >= 1
  }

  /** The consistency rules a cart is meant to keep. */
  predicate WellFormed(cart: seq<Product>)
  {
    UniqueIds(cart) && PositiveAmounts(cart)
  }

  // ---------------------------------------------------------------------
  // Hydration: the cart the provider starts from, given the storage slot
  // ---------------------------------------------------------------------

  /** The initial cart: the stored cart if the slot holds one, else empty. */
  function Hydrate(slot: Option<seq<Product>>): seq<Product>
  {
    match slot
    case None => []
    case Some(stored) => stored
  }

  // ---------------------------------------------------------------------
  // addProduct
  // ---------------------------------------------------------------------

  /** The cart after `map` raises the amount of every item with the given id. */
  function Incremented(cart: seq<Product>, productId: int): (r: seq<Product>)
    ensures |r| == |cart|
    ensures forall i :: 0 <= i < |cart| ==>
      r[i] == if cart[i].id == productId then cart[i].(amount := cart[i].amount + 1) else cart[i]
  {
    if cart == [] then []
    else
      var head := if cart[0].id == productId then cart[0].(amount := cart[0].amount + 1) else cart[0];
      [head] + Incremented(cart[1..], productId)
  }

  /** The cart a successful addProduct installs: the matching items bumped,
      or, when no item matched, the fetched record appended with amount 1. */
  function AfterAdd(cart: seq<Product>, productId: int, data: Product): (r: seq<Product>)
    ensures |r| == if Contains(cart, productId) then |cart| else |cart| + 1
    ensures forall i :: 0 <= i < |cart| ==>
      r[i] == if cart[i].id == productId then cart[i].(amount := cart[i].amount + 1) else cart[i]
    ensures !Contains(cart, productId) ==> r[|cart|] == data.(amount := 1)
  {
    if Contains(cart, productId) then Incremented(cart, productId)
    else cart + [data.(amount := 1)]
  }

  /** An id already in a cart with unique ids: exactly that item gains one
      unit; the length, the order and every other item stay as they were. */
  lemma AddExistingBumpsOnlyTarget(cart: seq<Product>, productId: int, data: Product, k: int)
    requires UniqueIds(cart)
    requires 0 <= k < |cart| && cart[k].id == productId
    ensures |AfterAdd(cart, productId, data)| == |cart|
    ensures AfterAdd(cart, productId, data)[k] == cart[k].(amount := cart[k].amount + 1)
    ensures forall j :: 0 <= j < |cart| && j != k ==> AfterAdd(cart, productId, data)[j] == cart[j]
  {
  }

  /** An id not in the cart: the fetched record is appended with amount 1
      and the old cart is the untouched prefix. */
  lemma AddAbsentAppends(cart: seq<Product>, productId: int, data: Product)
    requires !Contains(cart, productId)
    ensures |AfterAdd(cart, productId, data)| == |cart| + 1
    ensures AfterAdd(cart, productId, data)[..|cart|] == cart
    ensures AfterAdd(cart, productId, data)[|cart|] == data.(amount := 1)
  {
  }

  /** addProduct keeps the cart well formed when the catalog answers with
      the record of the requested id. */
  lemma AddPreservesWellFormed(cart: seq<Product>, productId: int, data: Product)
    requires WellFormed(cart)
    requires data.id == productId
    ensures WellFormed(AfterAdd(cart, productId, data))
  {
  }

  // ---------------------------------------------------------------------
  // removeProduct
  // ---------------------------------------------------------------------

  /** The cart `filter` keeps: the items whose id differs from the given one. */
  function Removed(cart: seq<Product>, productId: int): (r: seq<Product>)
    ensures |r| <= |cart|
    ensures forall x :: multiset(r)[x] == if x.id == productId then 0 else multiset(cart)[x]
  {
    if cart == [] then []
    else
      assert cart == [cart[0]] + cart[1..];
      (if cart[0].id != productId then [cart[0]] else []) + Removed(cart[1..], productId)
  }

  /** `s` is `t` with some items left out, the rest in their original order. */
  ghost predicate Subsequence(s: seq<Product>, t: seq<Product>)
    decreases |t|
  {
    if s == [] then true
    else if t == [] then false
    else if s[0] == t[0] then Subsequence(s[1..], t[1..])
    else Subsequence(s, t[1..])
  }

  /** Removal keeps the surviving items in their original order. Together with
      the multiset clause of Removed this says the result is exactly the old
      items with another id, in order. */
  lemma {:induction false} RemovedIsSubsequence(cart: seq<Product>, productId: int)
    ensures Subsequence(Removed(cart, productId), cart)
  {
    if cart != [] {
      var s := Removed(cart, productId);
      RemovedIsSubsequence(cart[1..], productId);
      if cart[0].id != productId {
        assert s == [cart[0]] + Removed(cart[1..], productId);
        assert s[1..] == Removed(cart[1..], productId);
      } else {
        assert s == Removed(cart[1..], productId);
        if s != [] {
          assert multiset(s)[s[0]] > 0;
          assert s[0] != cart[0];
        }
      }
    }
  }

  /** A subsequence holds each item at most as often as the sequence does. */
  lemma {:induction false} SubsequenceMultiset(s: seq<Product>, t: seq<Product>)
    requires Subsequence(s, t)
    ensures multiset(s) <= multiset(t)
    decreases |t|
  {
    if s != [] {
      assert t == [t[0]] + t[1..];
      if s[0] == t[0] {
        assert s == [s[0]] + s[1..];
        SubsequenceMultiset(s[1..], t[1..]);
      } else {
        SubsequenceMultiset(s, t[1..]);
      }
    }
  }

  /** Order and multiplicities pin removal down: any subsequence of the cart
      that drops every item with the id and keeps every other item as often
      as the cart holds it is exactly `Removed(cart, productId)`. */
  lemma {:induction false} RemovedIsTheOnlyFilter(s: seq<Product>, cart: seq<Product>, productId: int)
    requires Subsequence(s, cart)
    requires forall x :: multiset(s)[x] == if x.id == productId then 0 else multiset(cart)[x]
    ensures s == Removed(cart, productId)
    decreases |cart|
  {
    if cart != [] {
      var c0, rest := cart[0], cart[1..];
      assert cart == [c0] + rest;
      if c0.id == productId {
        if s != [] {
          assert multiset(s)[s[0]] > 0;
          assert s[0] != c0;
        }
        assert Subsequence(s, rest);
        forall x: Product ensures multiset(s)[x] == if x.id == productId then 0 else multiset(rest)[x] {
          if x.id != productId {
            assert x != c0;
          }
        }
        RemovedIsTheOnlyFilter(s, rest, productId);
      } else {
        assert multiset(s)[c0] == multiset(rest)[c0] + 1;
        assert s != [];
        if s[0] == c0 {
          var tail := s[1..];
          assert s == [c0] + tail;
          assert Subsequence(tail, rest);
          forall x: Product ensures multiset(tail)[x] == if x.id == productId then 0 else multiset(rest)[x] {
          }
          RemovedIsTheOnlyFilter(tail, rest, productId);
        } else {
          assert Subsequence(s, rest);
          SubsequenceMultiset(s, rest);
          assert false;
        }
      }
    }
  }

  /** Removing an id the cart does not hold leaves the cart unchanged. */
  lemma {:induction false} RemoveAbsentIsNoOp(cart: seq<Product>, productId: int)
    requires !Contains(cart, productId)
    ensures Removed(cart, productId) == cart
  {
    if cart != [] {
      assert cart[0].id != productId;
      assert !Contains(cart[1..], productId) by {
        forall i | 0 <= i < |cart| - 1 ensures cart[1..][i].id != productId {
          assert cart[1..][i] == cart[i + 1];
        }
      }
      RemoveAbsentIsNoOp(cart[1..], productId);
      assert cart == [cart[0]] + cart[1..];
    }
  }

  /** Removing the same id twice is the same as removing it once. */
  lemma RemoveIdempotent(cart: seq<Product>, productId: int)
    ensures Removed(Removed(cart, productId), productId) == Removed(cart, productId)
  {
    var r := Removed(cart, productId);
    assert !Contains(r, productId) by {
      forall i | 0 <= i < |r| ensures r[i].id != productId {
        assert multiset(r)[r[i]] > 0;
      }
    }
    RemoveAbsentIsNoOp(r, productId);
  }

  /** In a cart with unique ids, removing a present id drops exactly one item. */
  lemma {:induction false} RemovePresentShrinksByOne(cart: seq<Product>, productId: int, k: int)
    requires UniqueIds(cart)
    requires 0 <= k < |cart| && cart[k].id == productId
    ensures |Removed(cart, productId)| == |cart| - 1
  {
    var rest := cart[1..];
    TailUniqueIds(cart);
    if k == 0 {
      RemoveAbsentIsNoOp(rest, productId);
    } else {
      assert rest[k - 1] == cart[k];
      RemovePresentShrinksByOne(rest, productId, k - 1);
    }
  }

  /** Every item removal keeps is an item of the old cart. */
  lemma RemovedItemIsOld(cart: seq<Product>, productId: int, i: int)
    requires 0 <= i < |Removed(cart, productId)|
    ensures Removed(cart, productId)[i] in cart
  {
    var r := Removed(cart, productId);
    assert multiset(r)[r[i]] > 0;
  }

  /** An id absent from the cart is absent after a removal too. */
  lemma RemovedKeepsAbsence(cart: seq<Product>, productId: int, other: int)
    requires !Contains(cart, other)
    ensures !Contains(Removed(cart, productId), other)
  {
  }

  /** The tail of a cart with unique ids has unique ids and lacks the head's id. */
  lemma TailUniqueIds(cart: seq<Product>)
    requires UniqueIds(cart) && cart != []
    ensures UniqueIds(cart[1..]) && !Contains(cart[1..], cart[0].id)
  {
  }

  /** Putting an item with a fresh id in front keeps the ids unique. */
  lemma ConsUniqueIds(x: Product, tail: seq<Product>)
    requires UniqueIds(tail) && !Contains(tail, x.id)
    ensures UniqueIds([x] + tail)
  {
  }

  /** Removal keeps the ids unique. */
  lemma {:induction false} RemovePreservesUniqueIds(cart: seq<Product>, productId: int)
    requires UniqueIds(cart)
    ensures UniqueIds(Removed(cart, productId))
  {
    if cart != [] {
      var rest := cart[1..];
      TailUniqueIds(cart);
      RemovePreservesUniqueIds(rest, productId);
      if cart[0].id != productId {
        RemovedKeepsAbsence(rest, productId, cart[0].id);
        ConsUniqueIds(cart[0], Removed(rest, productId));
      }
    }
  }

  /** Removal keeps the cart well formed. */
  lemma RemovePreservesWellFormed(cart: seq<Product>, productId: int)
    requires WellFormed(cart)
    ensures WellFormed(Removed(cart, productId))
  {
    RemovePreservesUniqueIds(cart, productId);
    var r := Removed(cart, productId);
    forall i | 0 <= i < |r| ensures r[i].amount >= 1 {
      RemovedItemIsOld(cart, productId, i);
    }
  }

  /** removeProduct does not write the storage slot, so once a present id is
      removed the stored cart no longer matches: reloading brings it back. */
  lemma ReloadLosesRemoval(cart: seq<Product>, productId: int)
    ensures Contains(cart, productId) ==> Hydrate(Some(cart)) != Removed(cart, productId)
  {
  }

  // ---------------------------------------------------------------------
  // updateProductAmount
  // ---------------------------------------------------------------------

  /** The cart after `map` sets the amount of every item with the given id. */
  function WithAmount(cart: seq<Product>, productId: int, amount: int): (r: seq<Product>)
    ensures |r| == |cart|
    ensures forall i :: 0 <= i < |cart| ==>
      r[i] == if cart[i].id == productId then cart[i].(amount := amount) else cart[i]
  {
    if cart == [] then []
    else
      var head := cart[0].(amount := if cart[0].id == productId then amount else cart[0].amount);
      [head] + WithAmount(cart[1..], productId, amount)
  }

  /** A positive amount keeps the cart well formed. */
  lemma UpdatePreservesWellFormed(cart: seq<Product>, productId: int, amount: int)
    requires WellFormed(cart)
    requires amount > 0
    ensures WellFormed(WithAmount(cart, productId, amount))
  {
  }

  /** updateProductAmount does not write the storage slot either: a changed
      amount is lost on reload. */
  lemma ReloadLosesUpdate(cart: seq<Product>, productId: int, amount: int)
    ensures (exists k :: 0 <= k < |cart| && cart[k].id == productId && cart[k].amount != amount) ==>
      Hydrate(Some(cart)) != WithAmount(cart, productId, amount)
  {
  }

  // ---------------------------------------------------------------------
  // The stock check
  // ---------------------------------------------------------------------

  /** The part of JavaScript's value space the stock guard touches. */
  datatype JsValue = Bool(b: bool) | Promise(settlesTo: Option<bool>)

  /** JavaScript truthiness: a boolean is its own value; every object,
      a pending Promise included, is truthy. */
  predicate Truthy(v: JsValue)
  {
    match v
    case Bool(b) => b
    case Promise(_) => true
  }

  /** What awaiting `hasStock` would yield: whether any unit is available. */
  function HasStock(stock: Stock): bool
  {
    stock.amount != 0
  }

  /** The value of the call `hasStock(productId)`: being `async`, it yields a
      Promise, whatever the stock service answers (`None`: the request fails). */
  function HasStockCall(answer: Option<Stock>): JsValue
  {
    Promise(match answer case Some(stock) => Some(HasStock(stock)) case None => None)
  }

  /** The guard `!hasStock(productId)` in addProduct and updateProductAmount
      negates that Promise without awaiting it, so it never aborts, even for
      a product whose stock is zero. */
  function StockGuardAborts(answer: Option<Stock>): (aborts: bool)
    ensures !aborts
  {
    !Truthy(HasStockCall(answer))
  }
}
