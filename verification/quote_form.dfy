/** The quote form: a client and a list of catalog products, each priced at
    the product's sales price, saved as a sales order in status `quote`. */
module QuoteForm {
  import opened Wrappers
  import opened Records
  import opened DocumentNumbers
  import opened SalesDocuments
  import opened CartItems
  import Seqs
  import Decimal

  /** Every entry holds at least one unit, which is what the quantity
      buttons maintain. */
  predicate AtLeastOneEach(items: seq<Item>) {
    forall i :: 0 <= i < |items| ==> items[i].quantity >= 1
  }

  /** `updateQuantity(index, delta)` from the +/- buttons of a rendered row:
      the quantity moves by `delta` but never below one. */
  function UpdateQuantity(items: seq<Item>, index: nat, delta: int): (r: seq<Item>)
    requires index < |items|
    ensures |r| == |items|
    ensures r[index].product == items[index].product
    ensures r[index].quantity >= 1
    ensures items[index].quantity + delta >= 1 ==> r[index].quantity == items[index].quantity + delta
    ensures forall j :: 0 <= j < |items| && j != index ==> r[j] == items[j]
  {
    items[index := items[index].(quantity := Max(1, items[index].quantity + delta))]
  }

  /** Every editing step keeps each entry at one unit or more and keeps
      products unique. */
  lemma EditsKeepInvariant(items: seq<Item>, p: Product, index: nat, delta: int)
    requires AtLeastOneEach(items) && UniqueProducts(items)
    ensures AtLeastOneEach(AddOne(items, p)) && UniqueProducts(AddOne(items, p))
    ensures index < |items| ==> AtLeastOneEach(UpdateQuantity(items, index, delta)) && UniqueProducts(UpdateQuantity(items, index, delta))
    ensures AtLeastOneEach(Seqs.RemoveAt(items, index)) && UniqueProducts(Seqs.RemoveAt(items, index))
  {
    AddOneKeepsUnique(items, p);
    var a := AddOne(items, p);
    forall i | 0 <= i < |a|
      ensures a[i].quantity >= 1
    {
      if i < |items| && HasProduct(items, p.id) {
        assert a[i] == Increment(items[i], p.id);
      } else if i < |items| {
        assert a[i] == items[i];
      }
    }
    if index < |items| {
      var u := UpdateQuantity(items, index, delta);
      forall i, j | 0 <= i < j < |u|
        ensures u[i].product.id != u[j].product.id
      {
        assert u[i].product == items[i].product && u[j].product == items[j].product;
      }
      var r := Seqs.RemoveAt(items, index);
      forall i, j | 0 <= i < j < |r|
        ensures r[i].product.id != r[j].product.id
      {
        var i' := if i < index then i else i + 1;
        var j' := if j < index then j else j + 1;
        assert r[i] == items[i'] && r[j] == items[j'];
      }
    }
  }

  /** `product.sales_price || 0`. */
  function PriceOrZero(p: Product): real {
    match p.salesPrice
    case Some(price) => price
    case None => 0.0
  }

  function ItemAmount(it: Item): real {
    PriceOrZero(it.product) * it.quantity as real
  }

  /** `calculateTotal`. */
  function Total(items: seq<Item>): real {
    Seqs.SumReal(items, ItemAmount)
  }

  /** A quantity change moves the total by the product's price times the
      units actually added or taken away. */
  lemma UpdateQuantityTotal(items: seq<Item>, index: nat, delta: int)
    requires index < |items|
    ensures var r := UpdateQuantity(items, index, delta);
            Total(r) == Total(items) + PriceOrZero(items[index].product) * (r[index].quantity - items[index].quantity) as real
  {
    var it := items[index];
    var x := it.(quantity := Max(1, it.quantity + delta));
    Seqs.SumRealUpdate(items, index, x, ItemAmount);
  }

  /** `removeItem(index)` is `Seqs.RemoveAt`: removing an entry takes its
      amount off the total. */
  lemma RemoveItemTotal(items: seq<Item>, index: nat)
    requires index < |items|
    ensures Total(Seqs.RemoveAt(items, index)) == Total(items) - ItemAmount(items[index])
  {
    Seqs.SumRealRemoveAt(items, index, ItemAmount);
  }

  /** The save button is enabled only with a client and at least one entry. */
  predicate CanSubmit(clientId: string, items: seq<Item>) {
    clientId != "" && items != []
  }

  datatype QuoteError = SubmitDisabled | InsertFailed

  /** The `sales_order_lines` row of an entry: the unit price is the sales
      price or 0 and the line total is that price times the quantity; tax
      and discount are left to the table. */
  function QuoteLine(it: Item, orderId: string): SalesOrderLine {
    SalesOrderLine(orderId, it.product.id, it.quantity as real, PriceOrZero(it.product),
                   PriceOrZero(it.product) * it.quantity as real, None, None)
  }

  function QuoteLines(items: seq<Item>, orderId: string): (r: seq<SalesOrderLine>)
    ensures |r| == |items|
  {
    seq(|items|, i requires 0 <= i < |items| => QuoteLine(items[i], orderId))
  }

  function LineTotalPrice(l: SalesOrderLine): real {
    l.totalPrice
  }

  lemma {:induction false} QuoteLinesSum(items: seq<Item>, orderId: string)
    ensures Seqs.SumReal(QuoteLines(items, orderId), LineTotalPrice) == Total(items)
  {
    if items != [] {
      assert QuoteLines(items, orderId)[1..] == QuoteLines(items[1..], orderId);
      QuoteLinesSum(items[1..], orderId);
    }
  }

  /** `handleSubmit` behind its button: a quote numbered `COT-` and four
      digits from `u = Math.random()` is inserted with the form's total and
      no warehouse, tax, discount or currency, under the id the database
      assigns (`newId`; an id already taken makes the insert fail), followed
      by one line per entry. */
  function SubmitQuote(st: SalesStore, clientId: string, items: seq<Item>, u: real,
                       nowIso: string, user: Option<string>, newId: string): (r: Result<SalesStore, QuoteError>)
    requires 0.0 <= u < 1.0
    ensures r == Err(SubmitDisabled) <==> !CanSubmit(clientId, items)
    ensures r == Err(InsertFailed) <==> CanSubmit(clientId, items) && IdTaken(st.orders, newId)
  {
    if !CanSubmit(clientId, items) then Err(SubmitDisabled)
    else if IdTaken(st.orders, newId) then Err(InsertFailed)
    else
      var quote := SalesOrder(newId, QuoteNumber(u), clientId, None, Quote, nowIso, Total(items), None, None, None, user);
      Ok(SalesStore(st.orders + [quote], st.lines + QuoteLines(items, newId)))
  }

  /** A saved quote is the last order, in status `quote` for the client with
      the form's total; its number reads back as the random serial below
      10000; its lines carry its id, one per entry, and add up to its total. */
  lemma SubmitQuoteRecords(st: SalesStore, clientId: string, items: seq<Item>, u: real,
                           nowIso: string, user: Option<string>, newId: string)
    requires 0.0 <= u < 1.0
    requires SubmitQuote(st, clientId, items, u, nowIso, user, newId).Ok?
    ensures var r := SubmitQuote(st, clientId, items, u, nowIso, user, newId).value;
            var o := r.orders[|st.orders|];
            && |r.orders| == |st.orders| + 1
            && r.orders[..|st.orders|] == st.orders
            && o.id == newId && o.clientId == clientId && o.status == Quote
            && o.totalAmount == Total(items)
            && o.orderNumber[..4] == "COT-"
            && Decimal.DecimalValue(o.orderNumber[4..]) == RandomBelow(u, 10000)
            && RandomBelow(u, 10000) < 10000
            && r.lines[..|st.lines|] == st.lines
            && |r.lines| == |st.lines| + |items|
            && (forall i :: |st.lines| <= i < |r.lines| ==> r.lines[i].salesOrderId == newId)
            && Seqs.SumReal(r.lines[|st.lines|..], LineTotalPrice) == o.totalAmount
  {
    var r := SubmitQuote(st, clientId, items, u, nowIso, user, newId).value;
    assert r.lines[|st.lines|..] == QuoteLines(items, newId);
    QuoteLinesSum(items, newId);
    QuoteNumberFormat(u);
  }

  /** A saved quote is listed on the quotes tab as "Cotización" and not on
      the receipts tab. */
  lemma SubmittedQuoteIsListed(st: SalesStore, clientId: string, items: seq<Item>, u: real,
                               nowIso: string, user: Option<string>, newId: string)
    requires 0.0 <= u < 1.0
    requires UniqueIds(st.orders)
    requires SubmitQuote(st, clientId, items, u, nowIso, user, newId).Ok?
    ensures var r := SubmitQuote(st, clientId, items, u, nowIso, user, newId).value;
            var o := r.orders[|st.orders|];
            && UniqueIds(r.orders)
            && o in QuotesTab(r.orders)
            && o !in ReceiptsTab(r.orders)
            && StatusLabel(o.status) == "Cotización"
  {
    var r := SubmitQuote(st, clientId, items, u, nowIso, user, newId).value;
    var o := r.orders[|st.orders|];
    InsertKeepsIdsUnique(st.orders, o);
    TabsPartition(r.orders, o);
  }
}
