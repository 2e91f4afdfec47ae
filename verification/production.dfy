/** The production order lifecycle of the production orders screen: the status
    write, material consumption when an order starts, lot creation and output
    when it completes, and the per-status actions the screen offers. The
    screen's handler itself checks no transition: the only guard is which
    buttons are rendered, modelled by `OfferedActions` and `Click`. */
module Production {
  import opened Wrappers
  import opened Records
  import opened Ledger
  import opened DocumentNumbers
  import Decimal
  import Seqs

  /** The moment of a transition: `new Date().toISOString()` and the local
      calendar date `new Date()` reports. */
  datatype Clock = Clock(iso: string, local: CalendarDate)

  /** `new Date().toISOString().split('T')[0]`: the text before the first `T`. */
  function IsoDate(iso: string): (r: string)
    ensures r <= iso
    ensures forall i :: 0 <= i < |r| ==> r[i] != 'T'
    ensures |r| < |iso| ==> iso[|r|] == 'T'
  {
    match Decimal.IndexOf(iso, 'T')
    case None => iso
    case Some(i) => iso[..i]
  }

  /** The BOM resolver for one line: the per-batch quantity scaled to the
      planned quantity, `line.quantity * planned / batch_size`. */
  function Required(line: BomLine, planned: real, batchSize: real): (q: real)
    requires 0.0 < batchSize
    ensures q * batchSize == line.quantity * planned
  {
    line.quantity * planned / batchSize
  }

  /** The `production_consume` movement written for one BOM line. */
  function ConsumeMovement(o: ProductionOrder, orderId: string, line: BomLine, batchSize: real, user: Option<string>): Movement
    requires 0.0 < batchSize
  {
    Movement(ProductionConsume, o.warehouseId, line.productId, None,
             -Required(line, o.plannedQuantity, batchSize),
             Some(ProductionOrderReference), Some(orderId), user)
  }

  /** The consumption movements of a whole line list, in line order. */
  function ConsumeMovements(o: ProductionOrder, orderId: string, lines: seq<BomLine>, batchSize: real, user: Option<string>): seq<Movement>
    requires 0.0 < batchSize
  {
    seq(|lines|, i requires 0 <= i < |lines| => ConsumeMovement(o, orderId, lines[i], batchSize, user))
  }

  /** The loop of `consumeMaterials`: for each line, append its movement, then
      decrement the lot-less stock row of that material if one exists. */
  function ConsumeLines(s: Store, o: ProductionOrder, orderId: string, lines: seq<BomLine>, batchSize: real, user: Option<string>): (r: Store)
    requires 0.0 < batchSize
    ensures r.movements == s.movements + ConsumeMovements(o, orderId, lines, batchSize, user)
    ensures r.stock.Keys == s.stock.Keys
    ensures forall k :: k in s.stock ==> r.stock[k] == s.stock[k] + MovementSum(ConsumeMovements(o, orderId, lines, batchSize, user), k)
    ensures r.bomHeaders == s.bomHeaders && r.bomLines == s.bomLines
    ensures r.orders == s.orders && r.lots == s.lots
    decreases |lines|
  {
    if lines == [] then
      s
    else
      var m := ConsumeMovement(o, orderId, lines[0], batchSize, user);
      ConsumeStep(s, m, o, orderId, lines, batchSize, user);
      ConsumeLines(RecordIfRowExists(s, m), o, orderId, lines[1..], batchSize, user)
  }

  /** The bookkeeping that links one iteration of the loop to the whole loop. */
  lemma ConsumeStep(s: Store, m: Movement, o: ProductionOrder, orderId: string, lines: seq<BomLine>, batchSize: real, user: Option<string>)
    requires 0.0 < batchSize
    requires lines != []
    requires m == ConsumeMovement(o, orderId, lines[0], batchSize, user)
    ensures ConsumeMovements(o, orderId, lines, batchSize, user) == [m] + ConsumeMovements(o, orderId, lines[1..], batchSize, user)
    ensures forall k :: MovementSum(ConsumeMovements(o, orderId, lines, batchSize, user), k)
                        == MovementSum([m], k) + MovementSum(ConsumeMovements(o, orderId, lines[1..], batchSize, user), k)
    ensures forall k :: MovementSum([m], k) == (if KeyOf(m) == k then m.quantity else 0.0)
  {
    var all, rest := ConsumeMovements(o, orderId, lines, batchSize, user), ConsumeMovements(o, orderId, lines[1..], batchSize, user);
    assert all == [m] + rest;
    forall k
      ensures MovementSum(all, k) == MovementSum([m], k) + MovementSum(rest, k)
      ensures MovementSum([m], k) == (if KeyOf(m) == k then m.quantity else 0.0)
    {
      MovementSumConcat([m], rest, k);
      MovementSumAppend([], m, k);
      assert [] + [m] == [m];
    }
  }

  /** Consumption keeps every existing row in agreement with the log: each
      step adjusts exactly the row its movement belongs to, and consumption
      movements name no lot. */
  lemma {:induction false} ConsumeLinesPreserves(s: Store, o: ProductionOrder, orderId: string, lines: seq<BomLine>, batchSize: real, user: Option<string>)
    requires 0.0 < batchSize
    requires Consistent(s)
    ensures Consistent(ConsumeLines(s, o, orderId, lines, batchSize, user))
    decreases |lines|
  {
    if lines != [] {
      var m := ConsumeMovement(o, orderId, lines[0], batchSize, user);
      RecordIfRowExistsPreserves(s, m);
      ConsumeLinesPreserves(RecordIfRowExists(s, m), o, orderId, lines[1..], batchSize, user);
    }
  }

  /** Consumption needs a positive batch size for the order's BOM, when both exist. */
  predicate ConsumptionResolvable(s: Store, orderId: string) {
    orderId in s.orders && s.orders[orderId].bomId in s.bomHeaders
    ==> 0.0 < s.bomHeaders[s.orders[orderId].bomId].batchSize
  }

  /** `consumeMaterials`: a missing order or BOM writes nothing. */
  function ConsumeMaterials(s: Store, orderId: string, user: Option<string>): (r: Store)
    requires ConsumptionResolvable(s, orderId)
    ensures |s.movements| <= |r.movements| && r.movements[..|s.movements|] == s.movements
    ensures r.orders == s.orders && r.lots == s.lots
    ensures r.bomHeaders == s.bomHeaders && r.bomLines == s.bomLines
  {
    if orderId !in s.orders then s
    else
      var o := s.orders[orderId];
      if o.bomId !in s.bomHeaders then s
      else ConsumeLines(s, o, orderId, LinesOf(s.bomLines, o.bomId), s.bomHeaders[o.bomId].batchSize, user)
  }

  /** The `production_output` movement written on completion. */
  function OutputMovement(o: ProductionOrder, orderId: string, lotId: string, user: Option<string>): Movement
  {
    Movement(ProductionOutput, o.warehouseId, o.productId, Some(lotId), o.producedQuantity,
             Some(ProductionOrderReference), Some(orderId), user)
  }

  /** The lot minted on completion. */
  function OutputLot(o: ProductionOrder, orderId: string, clock: Clock): Lot
  {
    Lot(LotNumber(clock.local, orderId), o.productId, IsoDate(clock.iso), None, o.producedQuantity)
  }

  /** `generateOutput`: insert the lot under the id the database assigns
      (`lotId`; an id already taken makes the insert fail and nothing follows),
      append the output movement and upsert the stock row of the new lot. */
  function GenerateOutput(s: Store, orderId: string, clock: Clock, lotId: string, user: Option<string>): (r: Store)
    ensures r.orders == s.orders
    ensures r.bomHeaders == s.bomHeaders && r.bomLines == s.bomLines
  {
    if orderId !in s.orders || lotId in s.lots then s
    else
      var o := s.orders[orderId];
      RecordUpsert(s.(lots := s.lots[lotId := OutputLot(o, orderId, clock)]), OutputMovement(o, orderId, lotId, user))
  }

  /** The order row after the status write: the status, plus `actual_start`
      when starting or `actual_end` when completing. */
  function StatusWritten(o: ProductionOrder, status: OrderStatus, now: string): ProductionOrder
  {
    o.(status := status,
       actualStart := if status == InProgress then Some(now) else o.actualStart,
       actualEnd := if status == Completed then Some(now) else o.actualEnd)
  }

  /** The `production_orders` update; an unknown id matches no row. */
  function SetStatus(s: Store, orderId: string, status: OrderStatus, now: string): (r: Store)
    ensures orderId !in s.orders ==> r == s
    ensures orderId in s.orders ==> r.orders == s.orders[orderId := StatusWritten(s.orders[orderId], status, now)]
    ensures r.movements == s.movements && r.stock == s.stock && r.lots == s.lots
    ensures r.bomHeaders == s.bomHeaders && r.bomLines == s.bomLines
  {
    if orderId in s.orders
    then s.(orders := s.orders[orderId := StatusWritten(s.orders[orderId], status, now)])
    else s
  }

  /** `updateOrderStatus`: the status write comes first; then starting consumes
      materials and completing generates output. No transition is refused, and a
      side effect that writes nothing leaves the new status in place. */
  function UpdateOrderStatus(s: Store, orderId: string, status: OrderStatus, clock: Clock, lotId: string, user: Option<string>): (r: Store)
    requires status == InProgress ==> ConsumptionResolvable(s, orderId)
    ensures orderId !in s.orders ==> r == s
    ensures r.orders == SetStatus(s, orderId, status, clock.iso).orders
    ensures r.bomHeaders == s.bomHeaders && r.bomLines == s.bomLines
  {
    var s1 := SetStatus(s, orderId, status, clock.iso);
    if status == InProgress then ConsumeMaterials(s1, orderId, user)
    else if status == Completed then GenerateOutput(s1, orderId, clock, lotId, user)
    else s1
  }

  /** The order row after any status change: the new status, `actual_start`
      stamped only when starting and `actual_end` only when completing, every
      other field and every other order as before. */
  lemma UpdateOrderStatusWritesOrder(s: Store, orderId: string, status: OrderStatus, clock: Clock, lotId: string, user: Option<string>)
    requires status == InProgress ==> ConsumptionResolvable(s, orderId)
    requires orderId in s.orders
    ensures var r := UpdateOrderStatus(s, orderId, status, clock, lotId, user);
            var o := s.orders[orderId];
            && r.orders.Keys == s.orders.Keys
            && (forall id :: id in s.orders && id != orderId ==> r.orders[id] == s.orders[id])
            && r.orders[orderId].status == status
            && r.orders[orderId].actualStart == (if status == InProgress then Some(clock.iso) else o.actualStart)
            && r.orders[orderId].actualEnd == (if status == Completed then Some(clock.iso) else o.actualEnd)
            && r.orders[orderId].(status := o.status, actualStart := o.actualStart, actualEnd := o.actualEnd) == o
  {
  }

  /** Completion keeps the ledger consistent: the new lot's key has no row and
      no movement, so inserting its row agrees with the log. */
  lemma OutputPreserves(s: Store, orderId: string, clock: Clock, lotId: string, user: Option<string>)
    ensures |s.movements| <= |GenerateOutput(s, orderId, clock, lotId, user).movements|
    ensures GenerateOutput(s, orderId, clock, lotId, user).movements[..|s.movements|] == s.movements
    ensures forall id :: id in s.lots ==>
      (id in GenerateOutput(s, orderId, clock, lotId, user).lots && GenerateOutput(s, orderId, clock, lotId, user).lots[id] == s.lots[id])
    ensures GenerateOutput(s, orderId, clock, lotId, user).bomHeaders == s.bomHeaders
    ensures GenerateOutput(s, orderId, clock, lotId, user).bomLines == s.bomLines
    ensures GenerateOutput(s, orderId, clock, lotId, user).orders == s.orders
    ensures Consistent(s) ==> Consistent(GenerateOutput(s, orderId, clock, lotId, user))
  {
    if orderId in s.orders && lotId !in s.lots {
      var o := s.orders[orderId];
      var s1 := s.(lots := s.lots[lotId := OutputLot(o, orderId, clock)]);
      var m := OutputMovement(o, orderId, lotId, user);
      assert (s.movements + [m])[..|s.movements|] == s.movements;
      if Consistent(s) {
        AddLotPreserves(s, lotId, OutputLot(o, orderId, clock));
        assert KeyOf(m) !in s1.stock;
        assert forall i :: 0 <= i < |s1.movements| ==> KeyOf(s1.movements[i]) != KeyOf(m);
        UntouchedKeySumsToZero(s1.movements, KeyOf(m));
        RecordUpsertPreserves(s1, m);
      }
    }
  }

  /** What a status change does to the ledger: the movement log only grows,
      existing lots never change, a cancellation or any other status touches
      neither log, stock nor lots, and consistency of rows with the log is kept. */
  lemma UpdateOrderStatusLedger(s: Store, orderId: string, status: OrderStatus, clock: Clock, lotId: string, user: Option<string>)
    requires status == InProgress ==> ConsumptionResolvable(s, orderId)
    ensures var r := UpdateOrderStatus(s, orderId, status, clock, lotId, user);
      |s.movements| <= |r.movements| && r.movements[..|s.movements|] == s.movements
    ensures var r := UpdateOrderStatus(s, orderId, status, clock, lotId, user);
      forall id :: id in s.lots ==> id in r.lots && r.lots[id] == s.lots[id]
    ensures var r := UpdateOrderStatus(s, orderId, status, clock, lotId, user);
      status != InProgress && status != Completed ==> r.movements == s.movements && r.stock == s.stock && r.lots == s.lots
    ensures Consistent(s) ==> Consistent(UpdateOrderStatus(s, orderId, status, clock, lotId, user))
  {
    var s1 := SetStatus(s, orderId, status, clock.iso);
    var r := UpdateOrderStatus(s, orderId, status, clock, lotId, user);
    assert Consistent(s) ==> Consistent(s1);
    if status == InProgress {
      assert r == ConsumeMaterials(s1, orderId, user);
      if Consistent(s1) && orderId in s1.orders && s1.orders[orderId].bomId in s1.bomHeaders {
        var o1 := s1.orders[orderId];
        ConsumeLinesPreserves(s1, o1, orderId, LinesOf(s1.bomLines, o1.bomId), s1.bomHeaders[o1.bomId].batchSize, user);
      }
    } else if status == Completed {
      assert r == GenerateOutput(s1, orderId, clock, lotId, user);
      OutputPreserves(s1, orderId, clock, lotId, user);
    } else {
      assert r == s1;
    }
  }

  function MovementQuantity(m: Movement): real {
    m.quantity
  }

  function LineQuantity(l: BomLine): real {
    l.quantity
  }

  /** Consumption reads only the order's warehouse and planned quantity. */
  lemma ConsumeMovementsReadPlanned(o1: ProductionOrder, o2: ProductionOrder, orderId: string, lines: seq<BomLine>, batchSize: real, user: Option<string>)
    requires 0.0 < batchSize
    requires o1.warehouseId == o2.warehouseId
    requires o1.plannedQuantity == o2.plannedQuantity
    ensures ConsumeMovements(o1, orderId, lines, batchSize, user) == ConsumeMovements(o2, orderId, lines, batchSize, user)
  {
  }

  /** One `production_consume` movement per BOM line, in line order: at the
      order's warehouse, for the line's material, without a lot, referencing
      the order, for minus the line's per-batch quantity scaled to the plan. */
  lemma ConsumeMovementsPerLine(o: ProductionOrder, orderId: string, lines: seq<BomLine>, batchSize: real, user: Option<string>)
    requires 0.0 < batchSize
    ensures var added := ConsumeMovements(o, orderId, lines, batchSize, user);
            && |added| == |lines|
            && (forall i :: 0 <= i < |lines| ==>
                  && added[i].movementType == ProductionConsume
                  && added[i].warehouseId == o.warehouseId
                  && added[i].productId == lines[i].productId
                  && added[i].lotId == None
                  && added[i].quantity * batchSize == -(lines[i].quantity * o.plannedQuantity)
                  && added[i].referenceType == Some(ProductionOrderReference)
                  && added[i].referenceId == Some(orderId))
  {
    var added := ConsumeMovements(o, orderId, lines, batchSize, user);
    forall i | 0 <= i < |lines|
      ensures added[i].quantity * batchSize == -(lines[i].quantity * o.plannedQuantity)
    {
      var q := Required(lines[i], o.plannedQuantity, batchSize);
      assert added[i].quantity == -q;
      assert -q * batchSize == -(q * batchSize);
    }
  }

  /** Conservation: the consumption movements of an order net to minus the
      planned quantity over the batch size, times the BOM's total per batch. */
  lemma {:induction false} ConsumptionTotal(o: ProductionOrder, orderId: string, lines: seq<BomLine>, batchSize: real, user: Option<string>)
    requires 0.0 < batchSize
    ensures Seqs.SumReal(ConsumeMovements(o, orderId, lines, batchSize, user), MovementQuantity)
            == -(o.plannedQuantity / batchSize) * Seqs.SumReal(lines, LineQuantity)
  {
    if lines != [] {
      var ms := ConsumeMovements(o, orderId, lines, batchSize, user);
      var rest := ConsumeMovements(o, orderId, lines[1..], batchSize, user);
      ConsumeStep(Store(map[], [], map[], map[], [], map[]), ms[0], o, orderId, lines, batchSize, user);
      assert ms[1..] == rest;
      ConsumptionTotal(o, orderId, lines[1..], batchSize, user);
      assert ms[0].quantity == -(o.plannedQuantity / batchSize) * lines[0].quantity;
    }
  }

  /** Starting an order with a BOM appends its consumption movements to the
      log, moves every existing stock row by exactly the net quantity those
      movements record for its key, creates no row and touches no lot. */
  lemma StartAppendsConsumption(s: Store, orderId: string, clock: Clock, lotId: string, user: Option<string>)
    requires orderId in s.orders
    requires s.orders[orderId].bomId in s.bomHeaders
    requires 0.0 < s.bomHeaders[s.orders[orderId].bomId].batchSize
    ensures var o := s.orders[orderId];
            var added := ConsumeMovements(o, orderId, LinesOf(s.bomLines, o.bomId), s.bomHeaders[o.bomId].batchSize, user);
            var r := UpdateOrderStatus(s, orderId, InProgress, clock, lotId, user);
            && r.movements == s.movements + added
            && r.stock.Keys == s.stock.Keys
            && (forall k :: k in s.stock ==> r.stock[k] == s.stock[k] + MovementSum(added, k))
            && r.lots == s.lots
  {
    var o := s.orders[orderId];
    var s1 := SetStatus(s, orderId, InProgress, clock.iso);
    var o1 := s1.orders[orderId];
    var batch := s.bomHeaders[o.bomId].batchSize;
    var lines := LinesOf(s.bomLines, o.bomId);
    var r := UpdateOrderStatus(s, orderId, InProgress, clock, lotId, user);
    assert r == ConsumeLines(s1, o1, orderId, lines, batch, user);
    ConsumeMovementsReadPlanned(o1, o, orderId, lines, batch, user);
  }

  /** Without a lot-less stock row for a material, starting records its
      consumption in the log but creates no row: for a one-line BOM the row
      stays missing while the log's net quantity for that key moves. */
  lemma StartWithoutStockRowDiverges(s: Store, orderId: string, clock: Clock, lotId: string, user: Option<string>)
    requires orderId in s.orders
    requires s.orders[orderId].bomId in s.bomHeaders
    requires 0.0 < s.bomHeaders[s.orders[orderId].bomId].batchSize
    requires |LinesOf(s.bomLines, s.orders[orderId].bomId)| == 1
    requires LinesOf(s.bomLines, s.orders[orderId].bomId)[0].quantity != 0.0
    requires s.orders[orderId].plannedQuantity != 0.0
    requires StockKey(s.orders[orderId].warehouseId, LinesOf(s.bomLines, s.orders[orderId].bomId)[0].productId, None) !in s.stock
    ensures var k := StockKey(s.orders[orderId].warehouseId, LinesOf(s.bomLines, s.orders[orderId].bomId)[0].productId, None);
            var r := UpdateOrderStatus(s, orderId, InProgress, clock, lotId, user);
            k !in r.stock && MovementSum(r.movements, k) != MovementSum(s.movements, k)
  {
    var o := s.orders[orderId];
    var lines := LinesOf(s.bomLines, o.bomId);
    var batch := s.bomHeaders[o.bomId].batchSize;
    StartAppendsConsumption(s, orderId, clock, lotId, user);
    var added := ConsumeMovements(o, orderId, lines, batch, user);
    assert added == [added[0]];
    var k := KeyOf(added[0]);
    MovementSumAppend(s.movements, added[0], k);
    assert added[0].quantity != 0.0 by {
      assert Required(lines[0], o.plannedQuantity, batch) * batch == lines[0].quantity * o.plannedQuantity;
    }
  }

  /** A missing BOM makes starting write nothing to the ledger, yet the order
      is left `in_progress`. */
  lemma StartWithoutBomOnlyWritesStatus(s: Store, orderId: string, clock: Clock, lotId: string, user: Option<string>)
    requires orderId in s.orders
    requires s.orders[orderId].bomId !in s.bomHeaders
    ensures var r := UpdateOrderStatus(s, orderId, InProgress, clock, lotId, user);
            && r.movements == s.movements && r.stock == s.stock && r.lots == s.lots
            && r.orders[orderId].status == InProgress
  {
  }

  /** Consumption depends only on the order's BOM, warehouse and planned
      quantity, never on its produced or waste quantities. */
  lemma ConsumptionIgnoresOutputFields(s: Store, orderId: string, o': ProductionOrder, user: Option<string>)
    requires orderId in s.orders
    requires ConsumptionResolvable(s, orderId)
    requires o' == s.orders[orderId].(producedQuantity := o'.producedQuantity, wasteQuantity := o'.wasteQuantity)
    ensures var r := ConsumeMaterials(s, orderId, user);
            var r' := ConsumeMaterials(s.(orders := s.orders[orderId := o']), orderId, user);
            r'.movements == r.movements && r'.stock == r.stock && r'.lots == r.lots
  {
    var o := s.orders[orderId];
    var s' := s.(orders := s.orders[orderId := o']);
    if o.bomId in s.bomHeaders {
      var batch := s.bomHeaders[o.bomId].batchSize;
      var lines := LinesOf(s.bomLines, o.bomId);
      ConsumeLinesLedger(s, s', o, o', orderId, lines, batch, user);
    }
  }

  /** Two runs of the consumption loop over the same log and rows, for orders
      with the same warehouse and planned quantity, write the same ledger. */
  lemma ConsumeLinesLedger(s: Store, s': Store, o: ProductionOrder, o': ProductionOrder, orderId: string, lines: seq<BomLine>, batchSize: real, user: Option<string>)
    requires 0.0 < batchSize
    requires s'.movements == s.movements && s'.stock == s.stock
    requires o'.warehouseId == o.warehouseId && o'.plannedQuantity == o.plannedQuantity
    ensures ConsumeLines(s', o', orderId, lines, batchSize, user).movements == ConsumeLines(s, o, orderId, lines, batchSize, user).movements
    ensures ConsumeLines(s', o', orderId, lines, batchSize, user).stock == ConsumeLines(s, o, orderId, lines, batchSize, user).stock
  {
    ConsumeMovementsReadPlanned(o, o', orderId, lines, batchSize, user);
    var r, r' := ConsumeLines(s, o, orderId, lines, batchSize, user), ConsumeLines(s', o', orderId, lines, batchSize, user);
    assert forall k :: k in r.stock ==> r.stock[k] == r'.stock[k];
  }

  /** Completing an order mints one lot for its product, numbered from the
      completion date and the order id, dated with the UTC date of the
      transition, without expiry, holding the order's produced quantity. The
      handler does this whatever the order's current status is. */
  lemma CompleteMintsLot(s: Store, orderId: string, clock: Clock, lotId: string, user: Option<string>)
    requires orderId in s.orders
    requires lotId !in s.lots
    ensures var o := s.orders[orderId];
            var r := UpdateOrderStatus(s, orderId, Completed, clock, lotId, user);
            r.lots == s.lots[lotId := Lot(LotNumber(clock.local, orderId), o.productId, IsoDate(clock.iso), None, o.producedQuantity)]
  {
    var s1 := SetStatus(s, orderId, Completed, clock.iso);
    assert UpdateOrderStatus(s, orderId, Completed, clock, lotId, user) == GenerateOutput(s1, orderId, clock, lotId, user);
  }

  /** Completing appends one `production_output` movement of the produced
      quantity tagged with the new lot, and adds that quantity to the stock row
      of (warehouse, product, lot), creating the row when it is missing. */
  lemma CompleteRecordsOutput(s: Store, orderId: string, clock: Clock, lotId: string, user: Option<string>)
    requires orderId in s.orders
    requires lotId !in s.lots
    ensures var o := s.orders[orderId];
            var k := StockKey(o.warehouseId, o.productId, Some(lotId));
            var r := UpdateOrderStatus(s, orderId, Completed, clock, lotId, user);
            && r.movements == s.movements + [Movement(ProductionOutput, o.warehouseId, o.productId, Some(lotId), o.producedQuantity,
                                                      Some(ProductionOrderReference), Some(orderId), user)]
            && r.stock == s.stock[k := (if k in s.stock then s.stock[k] else 0.0) + o.producedQuantity]
  {
    var s1 := SetStatus(s, orderId, Completed, clock.iso);
    assert UpdateOrderStatus(s, orderId, Completed, clock, lotId, user) == GenerateOutput(s1, orderId, clock, lotId, user);
  }

  /** A lot id already taken makes the lot insert fail: completion then writes
      nothing beyond the status. */
  lemma CompleteWithTakenLotIdOnlyWritesStatus(s: Store, orderId: string, clock: Clock, lotId: string, user: Option<string>)
    requires lotId in s.lots
    ensures var r := UpdateOrderStatus(s, orderId, Completed, clock, lotId, user);
            r.movements == s.movements && r.stock == s.stock && r.lots == s.lots
  {
  }

  /** Completion records the produced quantity and never the waste quantity. */
  lemma CompletionIgnoresWaste(s: Store, orderId: string, waste: real, clock: Clock, lotId: string, user: Option<string>)
    requires orderId in s.orders
    ensures var s' := s.(orders := s.orders[orderId := s.orders[orderId].(wasteQuantity := waste)]);
            var r := GenerateOutput(s, orderId, clock, lotId, user);
            var r' := GenerateOutput(s', orderId, clock, lotId, user);
            r'.movements == r.movements && r'.stock == r.stock && r'.lots == r.lots
  {
    var o := s.orders[orderId];
    var o' := o.(wasteQuantity := waste);
    assert OutputLot(o', orderId, clock) == OutputLot(o, orderId, clock);
    assert OutputMovement(o', orderId, lotId, user) == OutputMovement(o, orderId, lotId, user);
  }

  /** The buttons rendered in an order's row. */
  datatype Action = Start | Complete | Cancel

  /** The status each button writes. */
  function TargetStatus(a: Action): OrderStatus {
    match a
    case Start => InProgress
    case Complete => Completed
    case Cancel => Cancelled
  }

  /** Start only for scheduled orders, complete only for orders in progress,
      cancel for drafts and scheduled orders. */
  function OfferedActions(status: OrderStatus): set<Action> {
    (if status == Scheduled then {Start} else {})
    + (if status == InProgress then {Complete} else {})
    + (if status == Draft || status == Scheduled then {Cancel} else {})
  }

  /** The order lifecycle as designed: scheduled -> in progress -> completed,
      with cancellation from draft or scheduled. */
  predicate LifecycleEdge(from: OrderStatus, to: OrderStatus) {
    || (from == Scheduled && to == InProgress)
    || (from == InProgress && to == Completed)
    || (from == Draft && to == Cancelled)
    || (from == Scheduled && to == Cancelled)
  }

  /** The buttons offer exactly the lifecycle's edges: every offered action
      follows an edge, and every edge out of a status has its button. */
  lemma OfferedActionsFollowLifecycle(status: OrderStatus, a: Action)
    ensures a in OfferedActions(status) <==> LifecycleEdge(status, TargetStatus(a))
  {
  }

  /** Completed and cancelled orders offer no action; every other status offers one. */
  lemma TerminalStatusesOfferNothing(status: OrderStatus)
    ensures OfferedActions(status) == {} <==> status == Completed || status == Cancelled
  {
    if status == Draft {
      assert Cancel in OfferedActions(status);
    } else if status == Scheduled {
      assert Start in OfferedActions(status);
    } else if status == InProgress {
      assert Complete in OfferedActions(status);
    }
  }

  /** Pressing a button of an order's row: only rendered buttons can be
      pressed, so an order's status moves along a lifecycle edge or not at all. */
  function Click(s: Store, orderId: string, a: Action, clock: Clock, lotId: string, user: Option<string>): (r: Store)
    requires a == Start ==> ConsumptionResolvable(s, orderId)
    ensures r == s || (orderId in s.orders && orderId in r.orders
                       && LifecycleEdge(s.orders[orderId].status, r.orders[orderId].status))
    ensures r != s ==> a in OfferedActions(s.orders[orderId].status)
  {
    if orderId in s.orders && a in OfferedActions(s.orders[orderId].status) then
      OfferedActionsFollowLifecycle(s.orders[orderId].status, a);
      UpdateOrderStatus(s, orderId, TargetStatus(a), clock, lotId, user)
    else
      s
  }
}
