/** The sales order form: a list of product lines merged by product, priced
    per line, and submitted as a confirmed order with 16% tax on top of the
    lines' total. */
module SalesOrderForm {
  import opened Wrappers
  import opened Records
  import opened DocumentNumbers
  import opened SalesDocuments
  import Seqs

  /** A line of the order being edited. */
  datatype OrderLine = OrderLine(productId: string, quantity: real, unitPrice: real)

  /** The product and quantity waiting to be added. */
  datatype PendingLine = PendingLine(productId: string, quantity: real)

  /** What the pending line resets to after an add. */
  const FreshPending: PendingLine := PendingLine("", 1.0)

  datatype Editor = Editor(lines: seq<OrderLine>, pending: PendingLine)

  /** No product appears on two lines. */
  predicate UniqueProducts(lines: seq<OrderLine>) {
    forall i, j :: 0 <= i < j < |lines| ==> lines[i].productId != lines[j].productId
  }

  /** `lines.findIndex(l => l.product_id === id)`. */
  function FindLine(lines: seq<OrderLine>, productId: string): (r: Option<nat>)
    ensures r.Some? ==> r.value < |lines| && lines[r.value].productId == productId
    ensures r.Some? ==> forall j :: 0 <= j < r.value ==> lines[j].productId != productId
    ensures r.None? ==> forall j :: 0 <= j < |lines| ==> lines[j].productId != productId
  {
    if lines == [] then None
    else if lines[0].productId == productId then Some(0)
    else match FindLine(lines[1..], productId)
      case None => None
      case Some(i) => Some(i + 1)
  }

  predicate InCatalog(catalog: seq<Product>, productId: string) {
    exists i :: 0 <= i < |catalog| && catalog[i].id == productId
  }

  /** `addLine`: nothing happens without a pending product or when the product
      is not in the loaded catalog; otherwise the quantity is added to the
      product's line, or a line priced at 0 is appended, and the pending line
      resets. */
  function AddLine(e: Editor, catalog: seq<Product>): (r: Editor)
    ensures e.pending.productId == "" || !InCatalog(catalog, e.pending.productId) ==> r == e
    ensures e.pending.productId != "" && InCatalog(catalog, e.pending.productId) ==> r.pending == FreshPending
  {
    var p := e.pending;
    if p.productId == "" || !InCatalog(catalog, p.productId) then e
    else
      match FindLine(e.lines, p.productId)
      case Some(i) => Editor(e.lines[i := e.lines[i].(quantity := e.lines[i].quantity + p.quantity)], FreshPending)
      case None => Editor(e.lines + [OrderLine(p.productId, p.quantity, 0.0)], FreshPending)
  }

  /** The line of a product already present grows by the pending quantity and
      nothing else changes; a new product is appended with the pending
      quantity at price 0. Either way product ids stay unique. */
  lemma AddLineMerges(e: Editor, catalog: seq<Product>)
    requires e.pending.productId != "" && InCatalog(catalog, e.pending.productId)
    requires UniqueProducts(e.lines)
    ensures var r := AddLine(e, catalog);
            var p := e.pending;
            && UniqueProducts(r.lines)
            && (forall i :: 0 <= i < |e.lines| && e.lines[i].productId == p.productId ==>
                  r.lines == e.lines[i := e.lines[i].(quantity := e.lines[i].quantity + p.quantity)])
            && ((forall i :: 0 <= i < |e.lines| ==> e.lines[i].productId != p.productId) ==>
                  r.lines == e.lines + [OrderLine(p.productId, p.quantity, 0.0)])
  {
    var r := AddLine(e, catalog);
    var p := e.pending;
    match FindLine(e.lines, p.productId)
    case Some(k) =>
      forall i, j | 0 <= i < j < |r.lines|
        ensures r.lines[i].productId != r.lines[j].productId
      {
        assert r.lines[i].productId == e.lines[i].productId;
        assert r.lines[j].productId == e.lines[j].productId;
      }
    case None =>
      forall i, j | 0 <= i < j < |r.lines|
        ensures r.lines[i].productId != r.lines[j].productId
      {
        if j == |e.lines| {
          assert r.lines[i] == e.lines[i];
        } else {
          assert r.lines[i] == e.lines[i] && r.lines[j] == e.lines[j];
        }
      }
  }

  /** The amount of one line: quantity times unit price. */
  function LineAmount(l: OrderLine): real {
    l.quantity * l.unitPrice
  }

  /** `calculateTotal`. */
  function Total(lines: seq<OrderLine>): real {
    Seqs.SumReal(lines, LineAmount)
  }

  /** Adding grows the total by the pending quantity at the line's price when
      the product is present, and leaves it unchanged for a new product, whose
      price starts at 0. */
  lemma AddLineTotal(e: Editor, catalog: seq<Product>)
    requires e.pending.productId != "" && InCatalog(catalog, e.pending.productId)
    ensures var r := AddLine(e, catalog);
            match FindLine(e.lines, e.pending.productId)
            case Some(i) => Total(r.lines) == Total(e.lines) + e.pending.quantity * e.lines[i].unitPrice
            case None => Total(r.lines) == Total(e.lines)
  {
    var p := e.pending;
    match FindLine(e.lines, p.productId)
    case Some(i) =>
      var l := e.lines[i];
      Seqs.SumRealUpdate(e.lines, i, l.(quantity := l.quantity + p.quantity), LineAmount);
      assert (l.quantity + p.quantity) * l.unitPrice == l.quantity * l.unitPrice + p.quantity * l.unitPrice;
    case None =>
      var n := OrderLine(p.productId, p.quantity, 0.0);
      Seqs.SumRealAppend(e.lines, [n], LineAmount);
      assert [n][1..] == [];
  }

  /** `updateLinePrice(index, price)`, called from a rendered line. */
  function UpdateLinePrice(lines: seq<OrderLine>, index: nat, price: real): (r: seq<OrderLine>)
    requires index < |lines|
    ensures |r| == |lines|
    ensures r[index].unitPrice == price
    ensures r[index].productId == lines[index].productId && r[index].quantity == lines[index].quantity
    ensures forall j :: 0 <= j < |lines| && j != index ==> r[j] == lines[j]
  {
    lines[index := lines[index].(unitPrice := price)]
  }

  /** Repricing a line moves the total by its quantity times the price change. */
  lemma UpdateLinePriceTotal(lines: seq<OrderLine>, index: nat, price: real)
    requires index < |lines|
    ensures Total(UpdateLinePrice(lines, index, price)) == Total(lines) + lines[index].quantity * (price - lines[index].unitPrice)
  {
    Seqs.SumRealUpdate(lines, index, lines[index].(unitPrice := price), LineAmount);
  }

  /** `removeLine(index)` is `Seqs.RemoveAt`: removing a line takes its amount
      off the total and keeps products unique. */
  lemma RemoveLineTotal(lines: seq<OrderLine>, index: nat)
    requires index < |lines|
    ensures Total(Seqs.RemoveAt(lines, index)) == Total(lines) - LineAmount(lines[index])
    ensures UniqueProducts(lines) ==> UniqueProducts(Seqs.RemoveAt(lines, index))
  {
    Seqs.SumRealRemoveAt(lines, index, LineAmount);
    var r := Seqs.RemoveAt(lines, index);
    if UniqueProducts(lines) {
      forall i, j | 0 <= i < j < |r|
        ensures r[i].productId != r[j].productId
      {
        var i' := if i < index then i else i + 1;
        var j' := if j < index then j else j + 1;
        assert r[i] == lines[i'] && r[j] == lines[j'];
      }
    }
  }

  datatype SubmitError = MissingFields | InsertFailed

  /** The `sales_order_lines` row of an order line: its total is quantity
      times unit price, at 16% tax and no discount. */
  function PersistedLine(l: OrderLine, orderId: string): SalesOrderLine {
    SalesOrderLine(orderId, l.productId, l.quantity, l.unitPrice, l.quantity * l.unitPrice, Some(TaxRate), Some(0.0))
  }

  function PersistedLines(lines: seq<OrderLine>, orderId: string): (r: seq<SalesOrderLine>)
    ensures |r| == |lines|
  {
    seq(|lines|, i requires 0 <= i < |lines| => PersistedLine(lines[i], orderId))
  }

  function LineTotalPrice(l: SalesOrderLine): real {
    l.totalPrice
  }

  /** The persisted line totals add up to the form's total. */
  lemma {:induction false} PersistedLinesSum(lines: seq<OrderLine>, orderId: string)
    ensures Seqs.SumReal(PersistedLines(lines, orderId), LineTotalPrice) == Total(lines)
  {
    if lines != [] {
      assert PersistedLines(lines, orderId)[1..] == PersistedLines(lines[1..], orderId);
      PersistedLinesSum(lines[1..], orderId);
    }
  }

  /** `handleSubmit`: without a client, a warehouse or any line nothing is
      written; otherwise a confirmed order numbered from the clock is inserted
      under the id the database assigns (`newId`; an id already taken makes the
      insert fail), followed by its lines. */
  function Submit(st: SalesStore, clientId: string, warehouseId: string, lines: seq<OrderLine>,
                  nowMillis: nat, nowIso: string, user: Option<string>, newId: string): (r: Result<SalesStore, SubmitError>)
    ensures r == Err(MissingFields) <==> clientId == "" || warehouseId == "" || lines == []
    ensures r == Err(InsertFailed) <==> clientId != "" && warehouseId != "" && lines != [] && IdTaken(st.orders, newId)
  {
    if clientId == "" || warehouseId == "" || lines == [] then Err(MissingFields)
    else if IdTaken(st.orders, newId) then Err(InsertFailed)
    else
      var total := Total(lines);
      var order := SalesOrder(newId, SalesOrderNumber(nowMillis), clientId, Some(warehouseId), Confirmed, nowIso,
                              total, Some(TaxRate * total), Some(0.0), Some("MXN"), user);
      Ok(SalesStore(st.orders + [order], st.lines + PersistedLines(lines, newId)))
  }

  /** A successful submission appends one confirmed order for the client and
      warehouse, whose total is the form's total and whose tax is 16% of it,
      numbered `ORD-` and the last six digits of the clock; its lines carry
      the order id and their totals add up to the order's total. */
  lemma SubmitRecords(st: SalesStore, clientId: string, warehouseId: string, lines: seq<OrderLine>,
                      nowMillis: nat, nowIso: string, user: Option<string>, newId: string)
    requires Submit(st, clientId, warehouseId, lines, nowMillis, nowIso, user, newId).Ok?
    ensures var r := Submit(st, clientId, warehouseId, lines, nowMillis, nowIso, user, newId).value;
            var o := r.orders[|st.orders|];
            && |r.orders| == |st.orders| + 1
            && r.orders[..|st.orders|] == st.orders
            && o.id == newId && o.clientId == clientId && o.warehouseId == Some(warehouseId)
            && o.status == Confirmed
            && o.totalAmount == Total(lines)
            && o.taxAmount == Some(TaxRate * o.totalAmount)
            && o.orderNumber == SalesOrderNumber(nowMillis)
            && r.lines[..|st.lines|] == st.lines
            && |r.lines| == |st.lines| + |lines|
            && (forall i :: |st.lines| <= i < |r.lines| ==> r.lines[i].salesOrderId == newId)
            && Seqs.SumReal(r.lines[|st.lines|..], LineTotalPrice) == o.totalAmount
  {
    var r := Submit(st, clientId, warehouseId, lines, nowMillis, nowIso, user, newId).value;
    assert r.lines[|st.lines|..] == PersistedLines(lines, newId);
    PersistedLinesSum(lines, newId);
  }

  /** A submitted order keeps row ids unique, is listed on the receipts tab
      as "Pedido/Remisión" and can be invoiced. */
  lemma SubmittedOrderIsReceipt(st: SalesStore, clientId: string, warehouseId: string, lines: seq<OrderLine>,
                                nowMillis: nat, nowIso: string, user: Option<string>, newId: string)
    requires UniqueIds(st.orders)
    requires Submit(st, clientId, warehouseId, lines, nowMillis, nowIso, user, newId).Ok?
    ensures var r := Submit(st, clientId, warehouseId, lines, nowMillis, nowIso, user, newId).value;
            var o := r.orders[|st.orders|];
            && UniqueIds(r.orders)
            && o in ReceiptsTab(r.orders)
            && o !in QuotesTab(r.orders)
            && StatusLabel(o.status) == "Pedido/Remisión"
  {
    var r := Submit(st, clientId, warehouseId, lines, nowMillis, nowIso, user, newId).value;
    var o := r.orders[|st.orders|];
    InsertKeepsIdsUnique(st.orders, o);
    TabsPartition(r.orders, o);
  }
}
