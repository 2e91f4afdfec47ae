/** Sales documents share one table: quotes, sales orders and invoices are
    `sales_orders` rows told apart by their status string. This module holds
    the status vocabulary, the two tabs of the billing screen and the label
    each status is shown under. */
module SalesDocuments {
  import opened Records
  import Seqs

  const Draft: string := "draft"
  const Quote: string := "quote"
  const Confirmed: string := "confirmed"
  const Shipped: string := "shipped"
  const Delivered: string := "delivered"
  const Invoiced: string := "invoiced"
  const Cancelled: string := "cancelled"

  /** The tax rate every sales form applies: 16% IVA. */
  const TaxRate: real := 0.16

  /** The sales tables: orders (with their row ids) and their lines. */
  datatype SalesStore = SalesStore(orders: seq<SalesOrder>, lines: seq<SalesOrderLine>)

  /** Row ids are unique. */
  predicate UniqueIds(orders: seq<SalesOrder>) {
    forall i, j :: 0 <= i < j < |orders| ==> orders[i].id != orders[j].id
  }

  predicate IdTaken(orders: seq<SalesOrder>, id: string) {
    exists i :: 0 <= i < |orders| && orders[i].id == id
  }

  /** Inserting a row under an id no row has keeps ids unique. */
  lemma InsertKeepsIdsUnique(orders: seq<SalesOrder>, o: SalesOrder)
    requires UniqueIds(orders)
    requires !IdTaken(orders, o.id)
    ensures UniqueIds(orders + [o])
  {
    var r := orders + [o];
    forall i, j | 0 <= i < j < |r|
      ensures r[i].id != r[j].id
    {
      if j == |orders| {
        assert r[i] == orders[i];
      } else {
        assert r[i] == orders[i] && r[j] == orders[j];
      }
    }
  }

  /** Statuses listed on the receipts tab. */
  predicate ReceiptStatus(status: string) {
    status in {Confirmed, Delivered, Invoiced, Shipped}
  }

  /** The quotes tab: `status = 'quote'`. */
  function QuotesTab(orders: seq<SalesOrder>): (r: seq<SalesOrder>)
    ensures forall i :: 0 <= i < |r| ==> r[i].status == Quote
  {
    Seqs.Filter(orders, (o: SalesOrder) => o.status == Quote)
  }

  /** The receipts tab: confirmed, delivered, invoiced or shipped. */
  function ReceiptsTab(orders: seq<SalesOrder>): (r: seq<SalesOrder>)
    ensures forall i :: 0 <= i < |r| ==> ReceiptStatus(r[i].status)
  {
    Seqs.Filter(orders, (o: SalesOrder) => ReceiptStatus(o.status))
  }

  /** Each document of the table shows up on the tab its status selects: the
      tabs are disjoint, and drafts and cancelled orders appear on neither. */
  lemma TabsPartition(orders: seq<SalesOrder>, o: SalesOrder)
    requires o in orders
    ensures o in QuotesTab(orders) <==> o.status == Quote
    ensures o in ReceiptsTab(orders) <==> ReceiptStatus(o.status)
    ensures !(o in QuotesTab(orders) && o in ReceiptsTab(orders))
    ensures o.status == Draft || o.status == Cancelled ==> o !in QuotesTab(orders) && o !in ReceiptsTab(orders)
  {
    var q, rc := QuotesTab(orders), ReceiptsTab(orders);
    if o in q {
      var i :| 0 <= i < |q| && q[i] == o;
    }
    if o in rc {
      var i :| 0 <= i < |rc| && rc[i] == o;
    }
  }

  /** The badge a document is shown with. */
  function StatusLabel(status: string): string {
    if status == Quote then "Cotización"
    else if status == Invoiced then "Facturado"
    else "Pedido/Remisión"
  }

  /** On the receipts tab, invoiced documents read "Facturado" and every other
      receipt "Pedido/Remisión"; on the quotes tab every document reads
      "Cotización". */
  lemma TabLabels(status: string)
    ensures status == Quote ==> StatusLabel(status) == "Cotización"
    ensures ReceiptStatus(status) ==> (StatusLabel(status) == "Facturado" <==> status == Invoiced)
    ensures ReceiptStatus(status) && status != Invoiced ==> StatusLabel(status) == "Pedido/Remisión"
  {
  }
}
