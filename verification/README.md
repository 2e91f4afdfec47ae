# Production and inventory ledger of ADOBOMARIETAS, in Dafny

ADOBOMARIETAS is an operations application for a packaged-food producer.
This project models its production and inventory ledger, together with the
list editors and document-status helpers around it:

- Bills of materials (BOM headers and lines) are edited and saved.
- Production orders are created as `scheduled`.
- Starting an order consumes each material in proportion to `planned_quantity / batch_size`.
  - Each consumption is recorded as a `production_consume` movement.
  - Each consumption also decrements the lot-less stock row for that material, when the row exists.
- Completing an order mints a lot `LOT-YYYYMMDD-<order id prefix>`.
  - It records a `production_output` movement.
  - It upserts the stock row of (warehouse, product, lot).
- The inventory screens classify the stored data:
  - lots by days to expiry;
  - stock rows as low or not;
  - movements by direction, label and sign.
- The sales side has its own pieces:
  - the sales order form, the quote form and the B2B catalog cart merge lines by product and total them;
  - the invoice form marks orders `invoiced` and splits totals into subtotal and IVA;
  - the quotes/invoices screen sorts documents into tabs by status.

Every database call becomes a step on an immutable in-memory store:

- `Records.Store` holds:
  - BOM headers (a map);
  - BOM lines (a table filtered by recipe id, as the database does);
  - production orders;
  - lots;
  - the append-only movement log;
  - the stock map keyed by (warehouse, product, optional lot).
- `SalesDocuments.SalesStore` holds sales orders and their lines.
- Ids the database assigns are parameters. An id that is already taken models a failed insert, after which nothing is written.
- The clock and `Math.random()` are parameters:
  - `Production.Clock` (an ISO timestamp plus the local calendar date);
  - `nowMillis`;
  - `u` in [0, 1).

Modules, one per source component:

| module | file | models |
|---|---|---|
| `Records` | records.dfy | the row shapes of `src/lib/supabase.ts` and the store |
| `Ledger` | ledger.dfy | movement sums per stock key, the two stock-write patterns, the ledger invariant |
| `Production` | production.dfy | `updateOrderStatus`, `consumeMaterials`, `generateOutput`, the row action buttons |
| `BomForm` | bom_form.dfy | the BOM line editor, product choices, `handleSubmit` |
| `OrderForm` | order_form.dfy | `generateOrderNumber`, `handleSubmit` of the production order form |
| `DocumentNumbers` | document_numbers.dfy | order, lot, quote and sales-order numbers, with parsers |
| `LotTracking`, `StockView`, `MovementsView` | lot_tracking.dfy, stock_view.dfy, movements_view.dfy | the read-side classifiers |
| `SalesOrderForm`, `QuoteForm`, `CartItems`, `ProductCatalog` | sales_order_form.dfy, quote_form.dfy, cart_items.dfy, product_catalog.dfy | line and cart editors and record construction |
| `InvoiceForm`, `SalesDocuments` | invoice_form.dfy, sales_documents.dfy | invoicing, tabs and status labels |
| `Seqs`, `Decimal`, `Wrappers` | seqs.dfy, decimal.dfy, wrappers.dfy | filtering, sums, decimal text, `Option`/`Result` |

### Where the code departs from the intended design

The model follows the code.

- `updateOrderStatus` checks no transition. Any status can be written to any order.
  - The lifecycle is enforced only by which buttons each row renders.
  - `Production.Click` models a button press. It is proved to follow the lifecycle.
  - `Production.UpdateOrderStatus` itself accepts any target.
- Consumption never creates a stock row. When the lot-less row for a material is missing:
  - the movement is still logged;
  - the stock map and the movement log disagree for that key (`Production.StartWithoutStockRowDiverges`).
  - The ledger invariant (`Ledger.Consistent`) is therefore stated over the rows that exist: each existing row equals the sum of its key's movements.
- Lot numbers are unique only up to the local date and the first eight characters of the order id (`DocumentNumbers.LotNumberCollision`).
- A lot that expired less than a day ago rounds up to 0 days, so it shows as "expiring soon", not "expired" (`LotTracking.StatusInMillis`).
- The `status` union of `SalesOrder` in `src/lib/supabase.ts:164` has no `'quote'`, yet the quote form writes it. The model keeps sales statuses as strings.
- Saving an edit for a recipe id with no header row updates no header but still replaces the lines (`BomForm.SaveBomMissingHeader`).
- The two sales screens disagree about tax:
  - the sales order form stores the lines' sum as `total_amount` and 16% of it as `tax_amount`;
  - the invoice summary treats `total_amount` as tax-inclusive (`total / 1.16`);
  - so the IVA it shows is not the tax the order stores (`InvoiceForm.IvaDiffersFromStoredTax`).

## Model

| member | source | states |
|---|---|---|
| Production.Required | src/components/Production/ProductionOrders.tsx:80 | the material needed for a line, times the batch size, is the line quantity times the planned quantity |
| Production.ConsumeMovementsPerLine | src/components/Production/ProductionOrders.tsx:79-90 | starting logs one `production_consume` movement per BOM line, in line order, at the order's warehouse, without lot, referencing the order, whose quantity is minus the line scaled by planned/batch |
| Production.ConsumptionTotal | src/components/Production/ProductionOrders.tsx:79-90 | the consumed quantities add up to minus planned/batch times the sum of the recipe's line quantities |
| Production.ConsumeLines | src/components/Production/ProductionOrders.tsx:79-106 | the consumption loop appends exactly the per-line movements; every existing stock row moves by the sum of those movements on its key; no row is created and orders, lots and recipes are untouched |
| Production.ConsumeLinesPreserves | src/components/Production/ProductionOrders.tsx:79-106 | the consumption loop keeps every existing stock row equal to its key's movement sum and keeps lot references valid |
| Production.ConsumeMaterials | src/components/Production/ProductionOrders.tsx:67-110 | consumption only appends to the movement log and never changes orders, lots or recipes |
| Production.StartAppendsConsumption | src/components/Production/ProductionOrders.tsx:37-110 | starting an order with a resolvable recipe appends exactly the consumption movements, moves each existing stock row by its key's share, and leaves lots alone |
| Production.StartWithoutStockRowDiverges | src/components/Production/ProductionOrders.tsx:92-105 | when the material's lot-less row is missing, starting logs a non-zero movement for that key but creates no row, so stock and log disagree |
| Production.StartWithoutBomOnlyWritesStatus | src/components/Production/ProductionOrders.tsx:54-55 | starting an order whose recipe is missing writes the status and nothing else |
| Production.ConsumptionIgnoresOutputFields | src/components/Production/ProductionOrders.tsx:75-80 | consumption does not depend on the produced or waste quantity of the order |
| Production.ConsumeMovementsReadPlanned | src/components/Production/ProductionOrders.tsx:80-84 | consumption movements depend only on the order's warehouse and planned quantity |
| Production.ConsumeLinesLedger | src/components/Production/ProductionOrders.tsx:79-106 | the loop's effect on the log and the stock depends only on the log, the stock and the order's warehouse and planned quantity |
| Production.CompleteMintsLot | src/components/Production/ProductionOrders.tsx:122-133 | completion adds exactly one lot under the new id, numbered from the local date and order id, for the order's product, dated by the UTC date part, with the produced quantity as initial quantity |
| Production.CompleteRecordsOutput | src/components/Production/ProductionOrders.tsx:135-167 | completion appends one `production_output` movement of the produced quantity tagged with the new lot, and the stock of (warehouse, product, lot) grows by it, starting from 0 if the row was missing |
| Production.CompleteWithTakenLotIdOnlyWritesStatus | src/components/Production/ProductionOrders.tsx:124-135 | when the lot insert fails, completion writes the status and no movement, stock or lot |
| Production.CompletionIgnoresWaste | src/components/Production/ProductionOrders.tsx:112-172 | the waste quantity never reaches a movement, a stock row or a lot |
| Production.OutputPreserves | src/components/Production/ProductionOrders.tsx:112-172 | completion only appends to the log, keeps existing lots, orders and recipes, and keeps the ledger consistent |
| Production.UpdateOrderStatus | src/components/Production/ProductionOrders.tsx:37-65 | a status change for an unknown order changes nothing; the orders end as the status write leaves them whatever the side effects do; recipes are never touched |
| Production.UpdateOrderStatusWritesOrder | src/components/Production/ProductionOrders.tsx:39-50 | only the chosen order changes: its status, `actual_start` set on start, `actual_end` set on completion, every other field kept |
| Production.UpdateOrderStatusLedger | src/components/Production/ProductionOrders.tsx:37-65 | every status change keeps the log append-only, keeps existing lots, and keeps the ledger consistent; cancelling and other writes touch no movement, stock or lot |
| Production.OfferedActionsFollowLifecycle | src/components/Production/ProductionOrders.tsx:286-312 | a row offers an action exactly when the lifecycle has the edge from its status to the action's target |
| Production.TerminalStatusesOfferNothing | src/components/Production/ProductionOrders.tsx:286-312 | exactly completed and cancelled orders offer no action |
| Production.Click | src/components/Production/ProductionOrders.tsx:286-312 | a button press either changes nothing or moves the order along a lifecycle edge, and only offered actions change anything |
| Production.IsoDate | src/components/Production/ProductionOrders.tsx:129 | the production date is the part of the ISO timestamp before the `T` |
| Ledger.RecordIfRowExists | src/components/Production/ProductionOrders.tsx:82-105 | the consumption write appends the movement and moves only its key's row, and only when that row exists |
| Ledger.RecordUpsert | src/components/Production/ProductionOrders.tsx:136-167 | the output write appends the movement and sets its key's row to the old quantity (or 0) plus the movement |
| Ledger.RecordIfRowExistsPreserves | src/components/Production/ProductionOrders.tsx:82-105 | the consumption write keeps existing rows equal to their movement sums |
| Ledger.RecordUpsertPreserves | src/components/Production/ProductionOrders.tsx:136-167 | the output write keeps the ledger consistent when a missing row's key had no movements |
| Ledger.RowlessStepDiverges | src/components/Production/ProductionOrders.tsx:100-105 | a non-zero movement on a key without a row leaves no row while its movement sum changes |
| Ledger.MovementSumConcat | src/components/Production/ProductionOrders.tsx:82-90 | the net quantity of a key over two stretches of the log is the sum over each |
| BomForm.AddLine | src/components/Production/BOMForm.tsx:62-69 | adding appends one blank line (no product, quantity 0, unit kg, no notes) and keeps the existing lines |
| BomForm.RemoveLine | src/components/Production/BOMForm.tsx:71-73 | removing an index loses exactly that line and the remaining lines keep their order; an index outside the list removes nothing |
| BomForm.RemoveUndoesAdd | src/components/Production/BOMForm.tsx:62-73 | removing the line just added restores the list |
| BomForm.UpdateLine | src/components/Production/BOMForm.tsx:75-79 | an edit sets the chosen field of the chosen line and changes no other field or line |
| BomForm.UpdateLineIdempotent | src/components/Production/BOMForm.tsx:75-79 | an edit to the value already there changes nothing, and a second edit of the same field overrides the first |
| BomForm.ChoicesPartitionActiveProducts | src/components/Production/BOMForm.tsx:34-41 | an active product is a target choice exactly when it is finished and a material choice exactly when it is not |
| BomForm.TargetChoices | src/components/Production/BOMForm.tsx:183 | target choices are active finished products |
| BomForm.MaterialChoices | src/components/Production/BOMForm.tsx:241 | material choices are active products that are not finished products |
| BomForm.SaveBom | src/components/Production/BOMForm.tsx:81-141 | a save fails exactly when a new header's id is taken; it never touches orders, lots, movements or stock |
| BomForm.SaveBomHeader | src/components/Production/BOMForm.tsx:88-117 | the saved header carries the submitted name, product, batch size and active flag, keeps the edited recipe's id and version, gives a new recipe version 1, and leaves other headers alone |
| BomForm.SaveBomMissingHeader | src/components/Production/BOMForm.tsx:88-101 | editing an id without a header changes no header yet still saves the lines |
| BomForm.SaveBomLinesRoundTrip | src/components/Production/BOMForm.tsx:101-133 | after a save the recipe's stored lines are exactly the form's lines in order (none for an empty form), and loading them back yields the form's lines |
| BomForm.SaveBomKeepsOtherLines | src/components/Production/BOMForm.tsx:101-133 | a save leaves every other recipe's lines as they were |
| OrderForm.CreateOrder | src/components/Production/ProductionOrderForm.tsx:51-83 | creation fails exactly for a recipe that is not among the active ones or a taken id; on success only the new order is added |
| OrderForm.CreatedOrder | src/components/Production/ProductionOrderForm.tsx:56-73 | the new order is scheduled, takes its product from the recipe, keeps the entered quantities, stores an empty schedule field as null and a non-empty one unchanged, and its number parses back to the local date and a serial below 1000 |
| OrderForm.CreatedOrderOffers | src/components/Production/ProductionOrderForm.tsx:69 | a new order can only be started or cancelled |
| OrderForm.NullIfEmpty | src/components/Production/ProductionOrderForm.tsx:70-71 | an empty field becomes null and any other is kept |
| DocumentNumbers.ProductionOrderNumberRoundTrip | src/components/Production/ProductionOrderForm.tsx:42-49 | an order number parses back to its date and its random serial, which is below 1000 |
| DocumentNumbers.DateStampInjective | src/components/Production/ProductionOrderForm.tsx:43-46 | two valid dates share a zero-padded stamp only when they are the same date |
| DocumentNumbers.RandomBelow | src/components/Production/ProductionOrderForm.tsx:47 | `Math.floor(u * m)` is the integer below m that `u * m` rounds down to |
| DocumentNumbers.LotNumberRoundTrip | src/components/Production/ProductionOrders.tsx:122 | a lot number parses back to the local date and the first eight characters of the order id |
| DocumentNumbers.LotNumberCollision | src/components/Production/ProductionOrders.tsx:122 | two lot numbers coincide exactly when the dates and the eight-character id prefixes do |
| DocumentNumbers.QuoteNumberFormat | src/components/Finance/QuoteForm.tsx:91 | a quote number is `COT-` and four digits reading back as the random serial |
| DocumentNumbers.SalesOrderNumberFormat | src/components/Sales/SalesOrderForm.tsx:104 | a sales order number is `ORD-` and the clock's digits modulo one million |
| LotTracking.DaysToExpiry | src/components/Inventory/LotTracking.tsx:32-39 | no expiry gives no count; otherwise the count is the ceiling of the millisecond difference in days |
| LotTracking.StatusBands | src/components/Inventory/LotTracking.tsx:41-47 | N/A, expired, expiring soon and current each hold for exactly their band of the day count |
| LotTracking.StatusInMillis | src/components/Inventory/LotTracking.tsx:32-47 | a lot is expired once a full day past expiry, expiring soon from then to seven days ahead, and current beyond |
| LotTracking.AlertsAreExpiredOrExpiring | src/components/Inventory/LotTracking.tsx:49-54 | a lot is on the alert list exactly when it is expired or expiring soon |
| LotTracking.HintShownIffNotExpired | src/components/Inventory/LotTracking.tsx:144 | the remaining-days hint shows exactly when the lot expires strictly in the future |
| LotTracking.RemainingDaysHint | src/components/Inventory/LotTracking.tsx:144 | the hint shows only a positive day count |
| StockView.VisibleStockSelects | src/components/Inventory/StockView.tsx:34-36 | with "all" every row is shown, otherwise exactly the selected warehouse's rows |
| StockView.VisibleStockOnlySelected | src/components/Inventory/StockView.tsx:34-36 | a selected warehouse shows no other warehouse's rows |
| StockView.LowStockFlagAgrees | src/components/Inventory/StockView.tsx:49-51 | a row is in the low-stock list exactly when its row flag is set |
| StockView.AtReorderPointIsLow | src/components/Inventory/StockView.tsx:133 | in any stock list, every row exactly at its reorder point is on the low-stock list |
| StockView.LowStockItems | src/components/Inventory/StockView.tsx:50 | the low-stock list is no longer than the stock list |
| MovementsView.DirectionOf | src/components/Inventory/InventoryMovements.tsx:34-41 | inbound exactly for output and purchase, outbound exactly for consumption |
| MovementsView.OtherTypesNeutral | src/components/Inventory/InventoryMovements.tsx:40 | transfers, adjustments and unknown types are neutral |
| MovementsView.TypeLabel | src/components/Inventory/InventoryMovements.tsx:43-52 | a type is shown under its own name exactly when it is not one of the five known types |
| MovementsView.TypeLabelsDistinguish | src/components/Inventory/InventoryMovements.tsx:43-52 | distinct known types have distinct labels and an unknown type is labelled by itself |
| MovementsView.SignPrefix | src/components/Inventory/InventoryMovements.tsx:126-127 | a `+` appears exactly for positive quantities |
| MovementsView.ProductionMovementsDisplay | src/components/Inventory/InventoryMovements.tsx:34-41 | production consumption shows as outbound without a `+`, production output as inbound with a `+` exactly when something was produced |
| SalesOrderForm.AddLine | src/components/Sales/SalesOrderForm.tsx:55-79 | an add without a product or with a product outside the catalog changes nothing; otherwise the pending line resets |
| SalesOrderForm.AddLineMerges | src/components/Sales/SalesOrderForm.tsx:63-76 | a listed product's line grows by the pending quantity, a new one is appended at price 0, and product ids stay unique |
| SalesOrderForm.AddLineTotal | src/components/Sales/SalesOrderForm.tsx:63-93 | adding raises the total by the pending quantity at the line's price, or not at all for a new line |
| SalesOrderForm.FindLine | src/components/Sales/SalesOrderForm.tsx:64 | the index found is the first line with the product, and none means no line has it |
| SalesOrderForm.UpdateLinePrice | src/components/Sales/SalesOrderForm.tsx:81-85 | repricing sets only the chosen line's price |
| SalesOrderForm.UpdateLinePriceTotal | src/components/Sales/SalesOrderForm.tsx:81-93 | repricing moves the total by the line's quantity times the price change |
| SalesOrderForm.RemoveLineTotal | src/components/Sales/SalesOrderForm.tsx:87-93 | removing a line takes its amount off the total and keeps products unique |
| SalesOrderForm.Submit | src/components/Sales/SalesOrderForm.tsx:95-136 | submission stops before any write exactly when client, warehouse or lines are missing, and fails exactly on a taken id |
| SalesOrderForm.SubmitRecords | src/components/Sales/SalesOrderForm.tsx:104-136 | the new order is confirmed, for the client and warehouse, totals the lines with 16% tax; its lines carry its id and their totals sum to its total |
| SalesOrderForm.SubmittedOrderIsReceipt | src/components/Sales/SalesOrderForm.tsx:114 | a submitted order is listed among receipts as "Pedido/Remisión" and row ids stay unique |
| SalesOrderForm.PersistedLinesSum | src/components/Sales/SalesOrderForm.tsx:128-136 | the persisted line totals add up to the form's total |
| CartItems.AddOne | src/components/Finance/QuoteForm.tsx:45-62 | adding a listed product keeps the list length; a new product is appended with quantity one |
| CartItems.AddOneKeepsUnique | src/components/Finance/QuoteForm.tsx:45-62 | adding keeps each product on a single entry |
| CartItems.AddOneQuantities | src/components/B2B/ProductCatalog.tsx:38-50 | adding raises that product's quantity and the unit count by one and leaves every other product's quantity alone |
| CartItems.UniqueQuantity | src/components/B2B/ProductCatalog.tsx:38-50 | with unique entries a product's quantity is that of its one entry |
| QuoteForm.UpdateQuantity | src/components/Finance/QuoteForm.tsx:64-71 | the chosen item moves by delta but not below one; other items are untouched |
| QuoteForm.EditsKeepInvariant | src/components/Finance/QuoteForm.tsx:45-78 | adding, changing quantities and removing keep every item at one unit or more and products unique |
| QuoteForm.UpdateQuantityTotal | src/components/Finance/QuoteForm.tsx:64-82 | a quantity change moves the total by the price (or 0) times the units actually changed |
| QuoteForm.RemoveItemTotal | src/components/Finance/QuoteForm.tsx:73-82 | removing an item takes its amount off the total |
| QuoteForm.SubmitQuote | src/components/Finance/QuoteForm.tsx:84-130 | saving is refused exactly without a client or items and fails exactly on a taken id |
| QuoteForm.SubmitQuoteRecords | src/components/Finance/QuoteForm.tsx:90-115 | the quote has status `quote`, the client and the form's total, a number that reads back as the random serial, and lines whose totals sum to its total |
| QuoteForm.SubmittedQuoteIsListed | src/components/Finance/QuoteForm.tsx:98 | a saved quote is on the quotes tab as "Cotización" and not among receipts |
| ProductCatalog.AddToCartKeepsInvariant | src/components/B2B/ProductCatalog.tsx:38-50 | adding keeps the cart free of empty entries and repeated products |
| ProductCatalog.UpdateQuantity | src/components/B2B/ProductCatalog.tsx:52-60 | after an update every cart entry holds at least one unit |
| ProductCatalog.UpdateQuantityQuantities | src/components/B2B/ProductCatalog.tsx:52-60 | the product's quantity moves by delta floored at zero and every other product keeps its quantity |
| ProductCatalog.UpdateQuantityCount | src/components/B2B/ProductCatalog.tsx:52-63 | the unit count moves exactly as the product's quantity does |
| ProductCatalog.UpdateQuantityKeepsUnique | src/components/B2B/ProductCatalog.tsx:52-60 | an update keeps products unique |
| ProductCatalog.CartTotalIsPlaceholderTimesCount | src/components/B2B/ProductCatalog.tsx:62-63 | the estimated total is 100 times the unit count |
| ProductCatalog.CheckoutEnabledIffUnits | src/components/B2B/ProductCatalog.tsx:183 | checkout is enabled exactly when the cart holds units |
| InvoiceForm.InvoiceableOrders | src/components/Finance/InvoiceForm.tsx:24-30 | no client lists nothing; listed orders are the client's and confirmed, delivered or shipped |
| InvoiceForm.InvoiceableOrdersIff | src/components/Finance/InvoiceForm.tsx:45-58 | an order is listed exactly when it is the selected client's and confirmed, delivered or shipped |
| InvoiceForm.OfferedOrdersAreUninvoicedReceipts | src/components/Finance/InvoiceForm.tsx:50-52 | every order offered for invoicing is a receipt not yet invoiced |
| InvoiceForm.GenerateInvoice | src/components/Finance/InvoiceForm.tsx:60-74 | with no order chosen nothing changes |
| InvoiceForm.GenerateInvoiceFrame | src/components/Finance/InvoiceForm.tsx:68-74 | invoicing changes only the chosen order's status, to invoiced, and keeps ids unique |
| InvoiceForm.GenerateInvoiceIdempotent | src/components/Finance/InvoiceForm.tsx:68-74 | invoicing twice is invoicing once |
| InvoiceForm.InvoicedOrderLeavesTheForm | src/components/Finance/InvoiceForm.tsx:68-74 | an invoiced order is shown as "Facturado" among receipts and is no longer offered for invoicing |
| InvoiceForm.Subtotal | src/components/Finance/InvoiceForm.tsx:197 | the subtotal plus 16% of it is the total |
| InvoiceForm.Iva | src/components/Finance/InvoiceForm.tsx:201 | the IVA shown is 16% of the subtotal |
| InvoiceForm.IvaDiffersFromStoredTax | src/components/Finance/InvoiceForm.tsx:197-201 | for a non-zero total the IVA shown differs from the 16% tax the sales order form stores |
| SalesDocuments.TabsPartition | src/components/Finance/QuotesInvoices.tsx:37-42 | a document is on the quotes tab exactly when it is a quote, on the receipts tab exactly when confirmed, delivered, invoiced or shipped, never on both, and drafts and cancelled ones on neither |
| SalesDocuments.TabLabels | src/components/Finance/QuotesInvoices.tsx:138-139 | quotes read "Cotización", invoiced receipts "Facturado", other receipts "Pedido/Remisión" |
| SalesDocuments.InsertKeepsIdsUnique | src/components/Sales/SalesOrderForm.tsx:108-123 | inserting under a fresh id keeps row ids unique |
| Seqs.RemoveAt | src/components/Finance/QuoteForm.tsx:73-78 | `filter((_, i) => i !== index)`, as in every list editor, drops exactly the element at the index and keeps the others in order; an index outside the list removes nothing |
| Seqs.FilterAppend | src/components/Production/BOMForm.tsx:101 | filtering keeps relative order across concatenation |

## Left out

- The Supabase client and all query plumbing. Each call becomes a step on the in-memory store.
  - Every query's rows are taken in insertion order, including every `.order(..., { ascending: false })` list: the production orders, the lots, the movement history, the quotes and receipts tabs and the invoice list are not reversed.
  - Foreign keys and database defaults are not modelled. Columns an insert omits are `None`.
- Insert and update failures, other than a taken id for a new header, order, lot or sales order:
  - a failed BOM line insert after a saved header;
  - a failed sales or quote line insert after a saved order.
  In the code these leave partial writes behind. The model writes all or nothing.
- Concurrency. The read-then-write stock updates race across users; the model runs them as sequential steps.
- Time and randomness. The clock, the local calendar date and `Math.random()` are parameters. Date parsing of stored expiry dates is not modelled: expiry is a millisecond timestamp or nothing.
- Floating point.
  - Quantities and money are exact reals. JS float error in `× 0.16` and `/ 1.16`, `toLocaleString` formatting, `NaN` and `Infinity` are not modelled.
  - `Production.ConsumeMaterials`, `Production.UpdateOrderStatus` and the lemmas about starting an order: require a positive batch size for an order whose recipe exists. A zero batch size, which the form accepts and which makes JS divide by zero, is excluded.
- `Production.ConsumeMaterials`: also does not model a failed movement insert. The code ignores that insert's error and carries on, so an existing lot-less stock row is still decremented with no matching `production_consume` movement, which breaks the row/log agreement `Ledger.Consistent` states. The model always logs the movement.
- `BomForm.UpdateLine`: requires an index inside the list; the code is only called from a rendered row.
- `SalesOrderForm.UpdateLinePrice`: requires an index inside the list, for the same reason.
- `QuoteForm.UpdateQuantity`: requires an index inside the list, for the same reason.
- `ProductCatalog.UpdateQuantity`: entries are compared by product id and quantity. Keeping each entry's product record in order is not stated beyond per-product quantities.
- `handleCheckout` of the catalog cart only shows an alert. It leaves the cart as it was, so there is nothing to model.
- Search filters over product names and SKUs. They rely on JS Unicode `toLowerCase`.
- The `labels[type]` lookup. JS also finds inherited object keys such as `constructor`; the model only knows the five labels.
- Movement ids and `created_at`. The log's order stands in for `created_at`.
- The loading flags, `alert` and `console.error`; `onSave`/`onClose` navigation.
- The other screens: client management, routes, warehouses, product management, the BOM list, receipts printing, dashboards, navigation and authentication.
