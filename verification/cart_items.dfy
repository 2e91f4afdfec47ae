/** The product lists that the quote form and the catalog cart edit: one
    entry per product with an integer quantity, where adding a product that
    is already listed raises its quantity by one. */
module CartItems {
  import opened Records
  import Seqs

  datatype Item = Item(product: Product, quantity: int)

  predicate HasProduct(items: seq<Item>, productId: string) {
    exists i :: 0 <= i < |items| && items[i].product.id == productId
  }

  /** No product is listed twice. */
  predicate UniqueProducts(items: seq<Item>) {
    forall i, j :: 0 <= i < j < |items| ==> items[i].product.id != items[j].product.id
  }

  /** The weight of one entry towards the quantity of `productId`. */
  function QuantityWeight(productId: string): Item -> int {
    (it: Item) => if it.product.id == productId then it.quantity else 0
  }

  /** How many units of a product the list holds, summed over its entries. */
  function QuantityOf(items: seq<Item>, productId: string): int {
    Seqs.SumInt(items, QuantityWeight(productId))
  }

  /** `Math.max(a, b)`, which floors quantities on the +/- buttons. */
  function Max(a: int, b: int): int {
    if a < b then b else a
  }

  function ItemQuantity(it: Item): int {
    it.quantity
  }

  /** `items.reduce((sum, item) => sum + item.quantity, 0)`. */
  function Count(items: seq<Item>): int {
    Seqs.SumInt(items, ItemQuantity)
  }

  /** A list in which the product does not appear holds none of it. */
  lemma {:induction false} AbsentQuantity(items: seq<Item>, productId: string)
    requires !HasProduct(items, productId)
    ensures QuantityOf(items, productId) == 0
  {
    if items != [] {
      forall i | 0 <= i < |items[1..]|
        ensures items[1..][i].product.id != productId
      {
        assert items[1..][i] == items[i + 1];
      }
      AbsentQuantity(items[1..], productId);
    }
  }

  /** In a list without repeats, the quantity of a listed product is that of
      its one entry. */
  lemma {:induction false} UniqueQuantity(items: seq<Item>, k: nat)
    requires UniqueProducts(items)
    requires k < |items|
    ensures QuantityOf(items, items[k].product.id) == items[k].quantity
  {
    var id := items[k].product.id;
    if k == 0 {
      forall i | 0 <= i < |items[1..]|
        ensures items[1..][i].product.id != id
      {
        assert items[1..][i] == items[i + 1];
      }
      AbsentQuantity(items[1..], id);
    } else {
      assert items[0].product.id != items[k].product.id;
      assert items[1..][k - 1] == items[k];
      UniqueQuantity(items[1..], k - 1);
    }
  }

  /** One more unit of the entry if it is for `productId`. */
  function Increment(it: Item, productId: string): Item {
    if it.product.id == productId then it.(quantity := it.quantity + 1) else it
  }

  /** `addItem` / `addToCart`: a listed product's entry gains one unit (the
      entry keeps the product record it was added with); a new product is
      appended with quantity one. */
  function AddOne(items: seq<Item>, p: Product): (r: seq<Item>)
    ensures HasProduct(items, p.id) ==> |r| == |items|
    ensures !HasProduct(items, p.id) ==> |r| == |items| + 1 && r[..|items|] == items && r[|items|] == Item(p, 1)
  {
    if HasProduct(items, p.id) then
      seq(|items|, i requires 0 <= i < |items| => Increment(items[i], p.id))
    else
      items + [Item(p, 1)]
  }

  /** With unique entries, adding a listed product changes only its entry. */
  lemma AddOneUpdatesEntry(items: seq<Item>, p: Product, k: nat)
    requires UniqueProducts(items)
    requires k < |items| && items[k].product.id == p.id
    ensures AddOne(items, p) == items[k := items[k].(quantity := items[k].quantity + 1)]
  {
  }

  /** Adding keeps every product on a single entry. */
  lemma AddOneKeepsUnique(items: seq<Item>, p: Product)
    requires UniqueProducts(items)
    ensures UniqueProducts(AddOne(items, p))
  {
    var r := AddOne(items, p);
    forall i, j | 0 <= i < j < |r|
      ensures r[i].product.id != r[j].product.id
    {
      if HasProduct(items, p.id) {
        assert r[i].product.id == items[i].product.id && r[j].product.id == items[j].product.id;
      } else if j == |items| {
        assert r[i] == items[i];
      } else {
        assert r[i] == items[i] && r[j] == items[j];
      }
    }
  }

  /** Adding a product raises its quantity by one, leaves every other
      product's quantity alone, and raises the item count by one. */
  lemma AddOneQuantities(items: seq<Item>, p: Product, q: string)
    requires UniqueProducts(items)
    ensures QuantityOf(AddOne(items, p), q) == QuantityOf(items, q) + (if q == p.id then 1 else 0)
    ensures Count(AddOne(items, p)) == Count(items) + 1
  {
    var n := Item(p, 1);
    if HasProduct(items, p.id) {
      var k :| 0 <= k < |items| && items[k].product.id == p.id;
      var x := items[k].(quantity := items[k].quantity + 1);
      AddOneUpdatesEntry(items, p, k);
      Seqs.SumIntUpdate(items, k, x, QuantityWeight(q));
      Seqs.SumIntUpdate(items, k, x, ItemQuantity);
    } else {
      Seqs.SumIntAppend(items, [n], QuantityWeight(q));
      Seqs.SumIntAppend(items, [n], ItemQuantity);
      assert [n][1..] == [];
    }
  }
}
