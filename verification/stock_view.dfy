/** The stock screen: the warehouse filter on the stock rows and the
    low-stock flag against each product's reorder point. */
module StockView {
  import opened Records
  import Seqs

  /** A stock row joined with its product's reorder point. */
  datatype StockRow = StockRow(key: StockKey, quantity: real, reorderPoint: real)

  /** The selector value that keeps every warehouse. */
  const AllWarehouses: string := "all"

  /** `isLowStock`: at or below the reorder point. */
  predicate IsLowStock(row: StockRow) {
    row.quantity <= row.reorderPoint
  }

  /** `loadStock`: every row for "all", otherwise the rows of that warehouse. */
  function VisibleStock(rows: seq<StockRow>, selected: string): (r: seq<StockRow>)
    ensures |r| <= |rows|
  {
    if selected == AllWarehouses then rows
    else Seqs.Filter(rows, (row: StockRow) => row.key.warehouseId == selected)
  }

  /** The filter keeps everything for "all" and, for any other value, exactly
      the rows of that warehouse. */
  lemma VisibleStockSelects(rows: seq<StockRow>, selected: string, row: StockRow)
    requires row in rows
    ensures row in VisibleStock(rows, selected) <==> selected == AllWarehouses || row.key.warehouseId == selected
  {
    var r := VisibleStock(rows, selected);
    if selected != AllWarehouses && row in r {
      var i :| 0 <= i < |r| && r[i] == row;
    } else {
      var i :| 0 <= i < |rows| && rows[i] == row;
    }
  }

  /** A rendered list only shows rows of the selected warehouse. */
  lemma VisibleStockOnlySelected(rows: seq<StockRow>, selected: string)
    requires selected != AllWarehouses
    ensures forall i :: 0 <= i < |VisibleStock(rows, selected)| ==> VisibleStock(rows, selected)[i].key.warehouseId == selected
  {
  }

  /** `getLowStockItems`: the low rows, in their order. */
  function LowStockItems(rows: seq<StockRow>): (r: seq<StockRow>)
    ensures |r| <= |rows|
  {
    Seqs.Filter(rows, IsLowStock)
  }

  /** The row highlight and the low-stock list agree: a row is listed exactly
      when it is flagged, and an empty list means no row is flagged. */
  lemma LowStockFlagAgrees(rows: seq<StockRow>, row: StockRow)
    requires row in rows
    ensures row in LowStockItems(rows) <==> IsLowStock(row)
    ensures LowStockItems(rows) == [] ==> !IsLowStock(row)
  {
    var r := LowStockItems(rows);
    if row in r {
      var i :| 0 <= i < |r| && r[i] == row;
    } else {
      var i :| 0 <= i < |rows| && rows[i] == row;
    }
  }

  /** Every row exactly at its reorder point is listed as low. */
  lemma AtReorderPointIsLow(rows: seq<StockRow>)
    ensures forall i :: 0 <= i < |rows| && rows[i].quantity == rows[i].reorderPoint ==> rows[i] in LowStockItems(rows)
  {
    forall i | 0 <= i < |rows| && rows[i].quantity == rows[i].reorderPoint
      ensures rows[i] in LowStockItems(rows)
    {
      LowStockFlagAgrees(rows, rows[i]);
    }
  }
}
