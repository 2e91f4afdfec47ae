/** The invoice form: pick a client, pick one of its confirmed, delivered or
    shipped orders, and mark it invoiced; the summary splits the order's
    total into a subtotal and 16% IVA. */
module InvoiceForm {
  import opened Records
  import opened SalesDocuments
  import Seqs

  /** The statuses the form offers for invoicing. */
  predicate Invoiceable(status: string) {
    status in {Confirmed, Delivered, Shipped}
  }

  /** `fetchOrders` behind the client selector: no client lists nothing;
      otherwise the client's orders that can be invoiced, in table order. */
  function InvoiceableOrders(orders: seq<SalesOrder>, clientId: string): (r: seq<SalesOrder>)
    ensures clientId == "" ==> r == []
    ensures forall i :: 0 <= i < |r| ==> r[i].clientId == clientId && Invoiceable(r[i].status)
  {
    if clientId == "" then []
    else Seqs.Filter(orders, (o: SalesOrder) => o.clientId == clientId && Invoiceable(o.status))
  }

  /** An order is offered for a client exactly when it is that client's and
      it is confirmed, delivered or shipped. */
  lemma InvoiceableOrdersIff(orders: seq<SalesOrder>, clientId: string, o: SalesOrder)
    requires o in orders
    ensures o in InvoiceableOrders(orders, clientId) <==> clientId != "" && o.clientId == clientId && Invoiceable(o.status)
  {
    var r := InvoiceableOrders(orders, clientId);
    if o in r {
      var i :| 0 <= i < |r| && r[i] == o;
    }
  }

  /** Whatever the form offers is on the receipts tab and is not yet invoiced. */
  lemma OfferedOrdersAreUninvoicedReceipts(orders: seq<SalesOrder>, clientId: string, o: SalesOrder)
    requires o in InvoiceableOrders(orders, clientId)
    ensures o in ReceiptsTab(orders)
    ensures o.status != Invoiced && StatusLabel(o.status) == "Pedido/Remisión"
  {
    var r := InvoiceableOrders(orders, clientId);
    var i :| 0 <= i < |r| && r[i] == o;
    TabsPartition(orders, o);
  }

  /** The status written to the chosen order. */
  function MarkInvoiced(o: SalesOrder, orderId: string): SalesOrder {
    if o.id == orderId then o.(status := Invoiced) else o
  }

  /** `handleGenerateInvoice`: without a chosen order nothing happens;
      otherwise the rows with that id are set to `invoiced`. */
  function GenerateInvoice(orders: seq<SalesOrder>, orderId: string): (r: seq<SalesOrder>)
    ensures orderId == "" ==> r == orders
    ensures |r| == |orders|
  {
    if orderId == "" then orders
    else seq(|orders|, i requires 0 <= i < |orders| => MarkInvoiced(orders[i], orderId))
  }

  /** Invoicing changes only the status of the chosen order: ids and every
      other field stay, other orders are untouched, and row ids stay unique. */
  lemma GenerateInvoiceFrame(orders: seq<SalesOrder>, orderId: string)
    requires orderId != ""
    ensures var r := GenerateInvoice(orders, orderId);
            && (forall i :: 0 <= i < |orders| ==> r[i].(status := orders[i].status) == orders[i])
            && (forall i :: 0 <= i < |orders| && orders[i].id != orderId ==> r[i] == orders[i])
            && (forall i :: 0 <= i < |orders| && orders[i].id == orderId ==> r[i].status == Invoiced)
            && (UniqueIds(orders) ==> UniqueIds(r))
  {
    var r := GenerateInvoice(orders, orderId);
    if UniqueIds(orders) {
      forall i, j | 0 <= i < j < |r|
        ensures r[i].id != r[j].id
      {
        assert r[i].id == orders[i].id && r[j].id == orders[j].id;
      }
    }
  }

  /** Invoicing twice is invoicing once. */
  lemma GenerateInvoiceIdempotent(orders: seq<SalesOrder>, orderId: string)
    ensures GenerateInvoice(GenerateInvoice(orders, orderId), orderId) == GenerateInvoice(orders, orderId)
  {
  }

  /** An invoiced order moves to "Facturado" on the receipts tab and is no
      longer offered for invoicing to any client. */
  lemma InvoicedOrderLeavesTheForm(orders: seq<SalesOrder>, orderId: string, k: nat, clientId: string)
    requires orderId != ""
    requires k < |orders| && orders[k].id == orderId
    ensures var r := GenerateInvoice(orders, orderId);
            && r[k] in ReceiptsTab(r)
            && StatusLabel(r[k].status) == "Facturado"
            && r[k] !in InvoiceableOrders(r, clientId)
  {
    var r := GenerateInvoice(orders, orderId);
    assert r[k] == orders[k].(status := Invoiced);
    TabsPartition(r, r[k]);
    InvoiceableOrdersIff(r, clientId, r[k]);
  }

  /** The IVA divisor: the summary treats the total as tax-inclusive. */
  const IvaDivisor: real := 1.16

  /** The summary's "Subtotal": `total / 1.16`. */
  function Subtotal(total: real): (r: real)
    ensures r + TaxRate * r == total
  {
    total / IvaDivisor
  }

  /** The summary's "IVA (16%)": the total minus the subtotal, which is 16%
      of the subtotal. */
  function Iva(total: real): (r: real)
    ensures r == TaxRate * Subtotal(total)
  {
    total - Subtotal(total)
  }

  /** The sales order form stores the lines' sum as the order total and 16%
      of it as tax, while the invoice summary reads the same total as
      tax-inclusive: for any non-zero total the IVA shown is not the tax the
      order stores. */
  lemma IvaDiffersFromStoredTax(total: real)
    requires total != 0.0
    ensures Iva(total) != TaxRate * total
    ensures Iva(total) * IvaDivisor == TaxRate * total
  {
  }
}
