/** The new production order form: it resolves the chosen recipe among the
    active ones, numbers the order and inserts it as scheduled. Nothing is
    consumed or produced until the order is started. */
module OrderForm {
  import opened Wrappers
  import opened Records
  import opened DocumentNumbers
  import Production

  /** The fields the form submits; empty schedule fields mean "not scheduled". */
  datatype OrderFields = OrderFields(
    bomId: string,
    warehouseId: string,
    plannedQuantity: real,
    producedQuantity: real,
    wasteQuantity: real,
    scheduledStart: string,
    scheduledEnd: string)

  datatype CreateError = BomNotFound | InsertFailed

  /** `value || null` for a text field. */
  function NullIfEmpty(text: string): (r: Option<string>)
    ensures r.None? <==> text == ""
    ensures r.Some? ==> r.value == text
  {
    if text == "" then None else Some(text)
  }

  /** The recipes the form loads: `bom_headers where is_active`. */
  predicate ActiveBom(s: Store, bomId: string) {
    bomId in s.bomHeaders && s.bomHeaders[bomId].isActive
  }

  /** `handleSubmit`: the recipe must be one of the active ones, the order
      takes its product from the recipe, its number from the local date and
      `u = Math.random()`, and is inserted under the id the database assigns
      (`newId`; an id already taken makes the insert fail). */
  function CreateOrder(s: Store, f: OrderFields, today: CalendarDate, u: real, user: Option<string>, newId: string): (r: Result<Store, CreateError>)
    requires 0.0 <= u < 1.0
    ensures r == Err(BomNotFound) <==> !ActiveBom(s, f.bomId)
    ensures r == Err(InsertFailed) <==> ActiveBom(s, f.bomId) && newId in s.orders
    ensures r.Ok? ==> r.value.orders.Keys == s.orders.Keys + {newId} && newId !in s.orders
    ensures r.Ok? ==> forall id :: id in s.orders ==> r.value.orders[id] == s.orders[id]
    ensures r.Ok? ==> r.value.(orders := s.orders) == s
  {
    if !ActiveBom(s, f.bomId) then Err(BomNotFound)
    else if newId in s.orders then Err(InsertFailed)
    else
      var o := ProductionOrder(
        ProductionOrderNumber(today, u), f.bomId, s.bomHeaders[f.bomId].productId, f.warehouseId,
        f.plannedQuantity, f.producedQuantity, f.wasteQuantity, Scheduled,
        NullIfEmpty(f.scheduledStart), NullIfEmpty(f.scheduledEnd), None, None, user);
      Ok(s.(orders := s.orders[newId := o]))
  }

  /** The inserted order: scheduled, for the recipe's product, with the
      quantities and schedule as entered, not yet started or ended, and
      numbered `OP-<date>-<serial>` where the number reads back as the local
      date and a serial below 1000. */
  lemma CreatedOrder(s: Store, f: OrderFields, today: CalendarDate, u: real, user: Option<string>, newId: string)
    requires 0.0 <= u < 1.0
    requires ValidDate(today)
    requires CreateOrder(s, f, today, u, user, newId).Ok?
    ensures var o := CreateOrder(s, f, today, u, user, newId).value.orders[newId];
            && o.status == Scheduled
            && o.bomId == f.bomId
            && o.productId == s.bomHeaders[f.bomId].productId
            && o.warehouseId == f.warehouseId
            && o.plannedQuantity == f.plannedQuantity
            && o.producedQuantity == f.producedQuantity
            && o.wasteQuantity == f.wasteQuantity
            && o.scheduledStart == NullIfEmpty(f.scheduledStart)
            && o.scheduledEnd == NullIfEmpty(f.scheduledEnd)
            && o.actualStart.None? && o.actualEnd.None?
            && o.createdBy == user
            && ParseProductionOrderNumber(o.orderNumber) == Some(OrderNumberParts(today, RandomBelow(u, 1000)))
            && RandomBelow(u, 1000) < 1000
  {
    ProductionOrderNumberRoundTrip(today, u);
  }

  /** A new order can only be started or cancelled. */
  lemma CreatedOrderOffers(s: Store, f: OrderFields, today: CalendarDate, u: real, user: Option<string>, newId: string)
    requires 0.0 <= u < 1.0
    requires CreateOrder(s, f, today, u, user, newId).Ok?
    ensures Production.OfferedActions(CreateOrder(s, f, today, u, user, newId).value.orders[newId].status)
            == {Production.Start, Production.Cancel}
  {
  }
}
