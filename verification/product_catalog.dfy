/** The B2B catalog's cart: products added one unit at a time, quantities
    moved by +/- with entries dropping out at zero, and an estimated total at
    a placeholder price of 100 per unit. */
module ProductCatalog {
  import opened CartItems
  import Seqs

  /** Every entry holds at least one unit: the cart never shows an empty entry. */
  predicate AllPositive(cart: seq<Item>) {
    forall i :: 0 <= i < |cart| ==> cart[i].quantity > 0
  }

  /** `addToCart` is the shared add-one step; it keeps the cart free of
      empty entries and of repeated products. */
  lemma AddToCartKeepsInvariant(cart: seq<Item>, p: Records.Product)
    requires AllPositive(cart) && UniqueProducts(cart)
    ensures AllPositive(AddOne(cart, p)) && UniqueProducts(AddOne(cart, p))
  {
    AddOneKeepsUnique(cart, p);
    var a := AddOne(cart, p);
    forall i | 0 <= i < |a|
      ensures a[i].quantity > 0
    {
      if i < |cart| && HasProduct(cart, p.id) {
        assert a[i] == Increment(cart[i], p.id);
      } else if i < |cart| {
        assert a[i] == cart[i];
      }
    }
  }

  /** The product's entry moved by `delta`, floored at zero. */
  function Adjust(it: Item, productId: string, delta: int): Item {
    if it.product.id == productId then it.(quantity := Max(0, it.quantity + delta)) else it
  }

  function Adjusted(cart: seq<Item>, productId: string, delta: int): (r: seq<Item>)
    ensures |r| == |cart|
  {
    seq(|cart|, i requires 0 <= i < |cart| => Adjust(cart[i], productId, delta))
  }

  predicate Positive(it: Item) {
    it.quantity > 0
  }

  /** `updateQuantity(productId, delta)`: the product's entries move by
      `delta` (not below zero) and every entry left at zero is dropped. */
  function UpdateQuantity(cart: seq<Item>, productId: string, delta: int): (r: seq<Item>)
    ensures AllPositive(r)
  {
    Seqs.Filter(Adjusted(cart, productId, delta), Positive)
  }

  /** Dropping empty entries loses no weight that empty entries do not carry. */
  lemma {:induction false} DropEmptyKeepsWeight(s: seq<Item>, w: Item -> int)
    requires forall i :: 0 <= i < |s| ==> s[i].quantity > 0 || w(s[i]) == 0
    ensures Seqs.SumInt(Seqs.Filter(s, Positive), w) == Seqs.SumInt(s, w)
  {
    if s != [] {
      var head := if Positive(s[0]) then [s[0]] else [];
      assert Seqs.Filter(s, Positive) == head + Seqs.Filter(s[1..], Positive);
      Seqs.SumIntAppend(head, Seqs.Filter(s[1..], Positive), w);
      if head != [] {
        assert head[1..] == [];
      }
      DropEmptyKeepsWeight(s[1..], w);
    }
  }

  /** Dropping entries cannot make a product appear twice. */
  lemma {:induction false} DropEmptyKeepsUnique(s: seq<Item>)
    requires UniqueProducts(s)
    ensures UniqueProducts(Seqs.Filter(s, Positive))
  {
    if s != [] {
      var tail := Seqs.Filter(s[1..], Positive);
      DropEmptyKeepsUnique(s[1..]);
      if Positive(s[0]) {
        var r := [s[0]] + tail;
        assert Seqs.Filter(s, Positive) == r;
        forall i, j | 0 <= i < j < |r|
          ensures r[i].product.id != r[j].product.id
        {
          if i == 0 {
            assert r[j] == tail[j - 1];
            var k :| 0 <= k < |s[1..]| && s[1..][k] == r[j];
            assert s[k + 1] == r[j];
          } else {
            assert r[i] == tail[i - 1] && r[j] == tail[j - 1];
          }
        }
      } else {
        assert Seqs.Filter(s, Positive) == tail;
      }
    }
  }

  /** With unique entries, adjusting a listed product changes only its entry. */
  lemma AdjustedUpdatesEntry(cart: seq<Item>, productId: string, delta: int, k: nat)
    requires UniqueProducts(cart)
    requires k < |cart| && cart[k].product.id == productId
    ensures Adjusted(cart, productId, delta) == cart[k := Adjust(cart[k], productId, delta)]
  {
  }

  /** Adjusting a product that is not in the cart changes nothing. */
  lemma AdjustedAbsent(cart: seq<Item>, productId: string, delta: int)
    requires !HasProduct(cart, productId)
    ensures Adjusted(cart, productId, delta) == cart
  {
  }

  /** Updating keeps products unique. */
  lemma UpdateQuantityKeepsUnique(cart: seq<Item>, productId: string, delta: int)
    requires UniqueProducts(cart)
    ensures UniqueProducts(UpdateQuantity(cart, productId, delta))
  {
    var m := Adjusted(cart, productId, delta);
    forall i, j | 0 <= i < j < |m|
      ensures m[i].product.id != m[j].product.id
    {
      assert m[i].product == cart[i].product && m[j].product == cart[j].product;
    }
    DropEmptyKeepsUnique(m);
  }

  /** The product's quantity becomes its old quantity plus `delta`, floored
      at zero (and stays zero when it was not in the cart); every other
      product keeps its quantity. */
  lemma UpdateQuantityQuantities(cart: seq<Item>, productId: string, delta: int, q: string)
    requires UniqueProducts(cart) && AllPositive(cart)
    ensures QuantityOf(UpdateQuantity(cart, productId, delta), q) ==
            if q != productId then QuantityOf(cart, q)
            else if HasProduct(cart, productId) then Max(0, QuantityOf(cart, productId) + delta)
            else 0
  {
    var m := Adjusted(cart, productId, delta);
    DropEmptyKeepsWeight(m, QuantityWeight(q));
    if HasProduct(cart, productId) {
      var k :| 0 <= k < |cart| && cart[k].product.id == productId;
      AdjustedUpdatesEntry(cart, productId, delta, k);
      Seqs.SumIntUpdate(cart, k, Adjust(cart[k], productId, delta), QuantityWeight(q));
      UniqueQuantity(cart, k);
    } else {
      AdjustedAbsent(cart, productId, delta);
      if q == productId {
        AbsentQuantity(cart, productId);
      }
    }
  }

  /** The cart's unit count moves exactly as the product's quantity does. */
  lemma UpdateQuantityCount(cart: seq<Item>, productId: string, delta: int)
    requires UniqueProducts(cart) && AllPositive(cart)
    ensures Count(UpdateQuantity(cart, productId, delta)) ==
            Count(cart) - QuantityOf(cart, productId) + QuantityOf(UpdateQuantity(cart, productId, delta), productId)
  {
    var m := Adjusted(cart, productId, delta);
    DropEmptyKeepsWeight(m, ItemQuantity);
    UpdateQuantityQuantities(cart, productId, delta, productId);
    if HasProduct(cart, productId) {
      var k :| 0 <= k < |cart| && cart[k].product.id == productId;
      AdjustedUpdatesEntry(cart, productId, delta, k);
      Seqs.SumIntUpdate(cart, k, Adjust(cart[k], productId, delta), ItemQuantity);
      UniqueQuantity(cart, k);
    } else {
      AdjustedAbsent(cart, productId, delta);
      AbsentQuantity(cart, productId);
    }
  }

  /** The placeholder unit price of the estimated total. */
  const PlaceholderPrice: int := 100

  function PlaceholderAmount(it: Item): int {
    PlaceholderPrice * it.quantity
  }

  /** `cartTotal`. */
  function CartTotal(cart: seq<Item>): int {
    Seqs.SumInt(cart, PlaceholderAmount)
  }

  /** The estimated total is the placeholder price times the unit count. */
  lemma {:induction false} CartTotalIsPlaceholderTimesCount(cart: seq<Item>)
    ensures CartTotal(cart) == PlaceholderPrice * Count(cart)
  {
    if cart != [] {
      CartTotalIsPlaceholderTimesCount(cart[1..]);
    }
  }

  /** The checkout button is enabled for a non-empty cart. */
  predicate CheckoutEnabled(cart: seq<Item>) {
    |cart| != 0
  }

  /** A cart without empty entries has a positive unit count exactly when
      checkout is enabled. */
  lemma {:induction false} CheckoutEnabledIffUnits(cart: seq<Item>)
    requires AllPositive(cart)
    ensures CheckoutEnabled(cart) <==> Count(cart) > 0
    ensures Count(cart) >= |cart|
  {
    if cart != [] {
      CheckoutEnabledIffUnits(cart[1..]);
    }
  }
}
