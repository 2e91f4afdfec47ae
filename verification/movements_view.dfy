/** The movement history screen: the direction icon, the type label and the
    signed quantity of each movement. */
module MovementsView {
  import opened Wrappers
  import opened Records
  import Production

  datatype Direction = Inbound | Outbound | Neutral

  const Purchase: string := "purchase"
  const Transfer: string := "transfer"
  const Adjustment: string := "adjustment"

  /** `getMovementIcon`. */
  function DirectionOf(movementType: string): (d: Direction)
    ensures d == Inbound <==> movementType == ProductionOutput || movementType == Purchase
    ensures d == Outbound <==> movementType == ProductionConsume
  {
    if movementType == ProductionOutput || movementType == Purchase then Inbound
    else if movementType == ProductionConsume then Outbound
    else Neutral
  }

  /** `getMovementTypeLabel`: the five known types have Spanish labels, any
      other type is shown as it is. */
  function TypeLabel(movementType: string): (r: string)
    ensures r == movementType <==> !KnownType(movementType)
  {
    if movementType == Purchase then "Compra"
    else if movementType == ProductionConsume then "Consumo en Producción"
    else if movementType == ProductionOutput then "Salida de Producción"
    else if movementType == Transfer then "Transferencia"
    else if movementType == Adjustment then "Ajuste"
    else movementType
  }

  predicate KnownType(movementType: string) {
    movementType in {Purchase, ProductionConsume, ProductionOutput, Transfer, Adjustment}
  }

  /** Distinct known types get distinct labels, and an unknown type is shown
      under its own name. */
  lemma TypeLabelsDistinguish(t1: string, t2: string)
    ensures KnownType(t1) && KnownType(t2) && t1 != t2 ==> TypeLabel(t1) != TypeLabel(t2)
    ensures !KnownType(t1) ==> TypeLabel(t1) == t1
  {
  }

  /** The sign shown before the quantity. */
  function SignPrefix(quantity: real): (p: string)
    ensures p == "+" <==> 0.0 < quantity
    ensures p == "" <==> quantity <= 0.0
  {
    if quantity > 0.0 then "+" else ""
  }

  /** Transfers and adjustments, which carry either sign, are neutral. */
  lemma OtherTypesNeutral(movementType: string)
    ensures movementType == Transfer || movementType == Adjustment ==> DirectionOf(movementType) == Neutral
    ensures !KnownType(movementType) ==> DirectionOf(movementType) == Neutral
  {
  }

  /** The movements production writes are displayed consistently with their
      sign: a consumption is outbound and, for non-negative recipe and
      planned quantities, shown without a plus; an output is inbound and shows
      a plus exactly when something was produced. */
  lemma ProductionMovementsDisplay(o: ProductionOrder, orderId: string, line: BomLine, batchSize: real, lotId: string, user: Option<string>)
    requires 0.0 < batchSize
    ensures var m := Production.ConsumeMovement(o, orderId, line, batchSize, user);
            DirectionOf(m.movementType) == Outbound
            && (0.0 <= line.quantity && 0.0 <= o.plannedQuantity ==> SignPrefix(m.quantity) == "")
    ensures var m := Production.OutputMovement(o, orderId, lotId, user);
            DirectionOf(m.movementType) == Inbound && (SignPrefix(m.quantity) == "+" <==> 0.0 < o.producedQuantity)
  {
    var m := Production.ConsumeMovement(o, orderId, line, batchSize, user);
    if 0.0 <= line.quantity && 0.0 <= o.plannedQuantity {
      var q := Production.Required(line, o.plannedQuantity, batchSize);
      assert 0.0 <= q * batchSize;
      assert 0.0 <= q;
    }
  }
}
