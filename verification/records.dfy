/** The rows the application reads and writes, one datatype per table of the
    backing store (`src/lib/supabase.ts`). Columns filled in by database
    defaults (`created_at`, `updated_at`, generated row ids of append-only
    tables) are not represented; nullable columns are `Option`s. */
module Records {
  import opened Wrappers
  import Seqs

  /** `products`; `productType` is the free-text `type` column
      (`raw_material`, `packaging`, `finished_product`). */
  datatype Product = Product(
    id: string,
    sku: string,
    name: string,
    productType: string,
    unitOfMeasure: string,
    reorderPoint: real,
    isActive: bool,
    salesPrice: Option<real>)

  const FinishedProduct: string := "finished_product"

  /** `bom_headers`. */
  datatype BomHeader = BomHeader(
    id: string,
    productId: string,
    version: nat,
    name: string,
    batchSize: real,
    isActive: bool)

  /** `bom_lines`: one material of a recipe, per batch. */
  datatype BomLine = BomLine(
    bomId: string,
    productId: string,
    quantity: real,
    unitOfMeasure: string,
    notes: string)

  /** The status strings a production order takes. */
  datatype OrderStatus = Draft | Scheduled | InProgress | Completed | Cancelled

  /** `production_orders`. Timestamps are the ISO strings the browser produced. */
  datatype ProductionOrder = ProductionOrder(
    orderNumber: string,
    bomId: string,
    productId: string,
    warehouseId: string,
    plannedQuantity: real,
    producedQuantity: real,
    wasteQuantity: real,
    status: OrderStatus,
    scheduledStart: Option<string>,
    scheduledEnd: Option<string>,
    actualStart: Option<string>,
    actualEnd: Option<string>,
    createdBy: Option<string>)

  /** `inventory_lots`; the expiry date is kept as the millisecond timestamp
      `new Date(expiry_date).getTime()` denotes. */
  datatype Lot = Lot(
    lotNumber: string,
    productId: string,
    productionDate: string,
    expiryMillis: Option<int>,
    initialQuantity: real)

  /** `inventory_movements`: a signed quantity change (negative = outflow). */
  datatype Movement = Movement(
    movementType: string,
    warehouseId: string,
    productId: string,
    lotId: Option<string>,
    quantity: real,
    referenceType: Option<string>,
    referenceId: Option<string>,
    createdBy: Option<string>)

  const ProductionConsume: string := "production_consume"
  const ProductionOutput: string := "production_output"
  const ProductionOrderReference: string := "production_order"

  /** The identity of an `inventory_stock` row: warehouse, product and lot (or no lot). */
  datatype StockKey = StockKey(warehouseId: string, productId: string, lotId: Option<string>)

  /** The production and inventory tables, keyed by row id where rows are
      looked up by id; `bomLines` is a table searched by `bom_id`. */
  datatype Store = Store(
    bomHeaders: map<string, BomHeader>,
    bomLines: seq<BomLine>,
    orders: map<string, ProductionOrder>,
    lots: map<string, Lot>,
    movements: seq<Movement>,
    stock: map<StockKey, real>)

  /** The lines stored for a BOM, as `select * from bom_lines where bom_id = id`. */
  function LinesOf(lines: seq<BomLine>, bomId: string): seq<BomLine>
  {
    Seqs.Filter(lines, (l: BomLine) => l.bomId == bomId)
  }

  /** `sales_orders`. The status is a free string: the code also writes `'quote'`,
      which the declared status union does not list. */
  datatype SalesOrder = SalesOrder(
    id: string,
    orderNumber: string,
    clientId: string,
    warehouseId: Option<string>,
    status: string,
    orderDate: string,
    totalAmount: real,
    taxAmount: Option<real>,
    discountAmount: Option<real>,
    currency: Option<string>,
    createdBy: Option<string>)

  /** `sales_order_lines`. */
  datatype SalesOrderLine = SalesOrderLine(
    salesOrderId: string,
    productId: string,
    quantity: real,
    unitPrice: real,
    totalPrice: real,
    taxRate: Option<real>,
    discountRate: Option<real>)
}
