/** The stock ledger: the append-only movement log and the `inventory_stock`
    rows kept beside it. The two write patterns the production code uses are
    modelled as steps on a `Store`, together with the invariant they keep:
    every existing stock row holds the sum of the movements for its key. */
module Ledger {
  import opened Wrappers
  import opened Records

  /** The stock row a movement belongs to. */
  function KeyOf(m: Movement): StockKey {
    StockKey(m.warehouseId, m.productId, m.lotId)
  }

  /** The net quantity the movement log records for one stock key. */
  function MovementSum(ms: seq<Movement>, k: StockKey): real
  {
    if ms == [] then 0.0
    else MovementSum(ms[..|ms| - 1], k) + (if KeyOf(ms[|ms| - 1]) == k then ms[|ms| - 1].quantity else 0.0)
  }

  /** Appending one movement moves exactly its own key's sum, by its quantity. */
  lemma MovementSumAppend(ms: seq<Movement>, m: Movement, k: StockKey)
    ensures MovementSum(ms + [m], k) == MovementSum(ms, k) + (if KeyOf(m) == k then m.quantity else 0.0)
  {
    assert (ms + [m])[..|ms|] == ms;
  }

  /** The net quantity of a concatenated log is the sum of its parts'. */
  lemma {:induction false} MovementSumConcat(a: seq<Movement>, b: seq<Movement>, k: StockKey)
    ensures MovementSum(a + b, k) == MovementSum(a, k) + MovementSum(b, k)
  {
    if b == [] {
      assert a + b == a;
    } else {
      var b' := b[..|b| - 1];
      assert (a + b)[..|a + b| - 1] == a + b';
      assert (a + b)[|a + b| - 1] == b[|b| - 1];
      MovementSumConcat(a, b', k);
    }
  }

  /** A key no movement touches has a net quantity of zero. */
  lemma {:induction false} UntouchedKeySumsToZero(ms: seq<Movement>, k: StockKey)
    requires forall i :: 0 <= i < |ms| ==> KeyOf(ms[i]) != k
    ensures MovementSum(ms, k) == 0.0
  {
    if ms != [] {
      UntouchedKeySumsToZero(ms[..|ms| - 1], k);
    }
  }

  /** Every existing stock row agrees with the movement log. */
  ghost predicate RowsAgree(s: Store) {
    forall k :: k in s.stock ==> s.stock[k] == MovementSum(s.movements, k)
  }

  /** Movements and stock rows only name lots that exist. */
  ghost predicate LotsKnown(s: Store) {
    && (forall i :: 0 <= i < |s.movements| && s.movements[i].lotId.Some? ==> s.movements[i].lotId.value in s.lots)
    && (forall k :: k in s.stock && k.lotId.Some? ==> k.lotId.value in s.lots)
  }

  ghost predicate Consistent(s: Store) {
    RowsAgree(s) && LotsKnown(s)
  }

  /** A movement may be appended when the lot it names, if any, exists. */
  predicate LotExists(s: Store, m: Movement) {
    m.lotId.Some? ==> m.lotId.value in s.lots
  }

  /** The consumption pattern: append the movement, then adjust the row for its
      key by the movement's quantity only if such a row already exists. */
  function RecordIfRowExists(s: Store, m: Movement): (r: Store)
    ensures r.movements == s.movements + [m]
    ensures r.stock.Keys == s.stock.Keys
    ensures KeyOf(m) in s.stock ==> r.stock[KeyOf(m)] == s.stock[KeyOf(m)] + m.quantity
    ensures forall k :: k in s.stock && k != KeyOf(m) ==> r.stock[k] == s.stock[k]
    ensures r.bomHeaders == s.bomHeaders && r.bomLines == s.bomLines
    ensures r.orders == s.orders && r.lots == s.lots
  {
    var k := KeyOf(m);
    s.(movements := s.movements + [m],
       stock := if k in s.stock then s.stock[k := s.stock[k] + m.quantity] else s.stock)
  }

  /** The output pattern: append the movement, then add its quantity to the row
      for its key, inserting the row with that quantity if it does not exist. */
  function RecordUpsert(s: Store, m: Movement): (r: Store)
    ensures r.movements == s.movements + [m]
    ensures r.stock.Keys == s.stock.Keys + {KeyOf(m)}
    ensures r.stock[KeyOf(m)] == (if KeyOf(m) in s.stock then s.stock[KeyOf(m)] else 0.0) + m.quantity
    ensures forall k :: k in s.stock && k != KeyOf(m) ==> r.stock[k] == s.stock[k]
    ensures r.bomHeaders == s.bomHeaders && r.bomLines == s.bomLines
    ensures r.orders == s.orders && r.lots == s.lots
  {
    var k := KeyOf(m);
    s.(movements := s.movements + [m],
       stock := if k in s.stock then s.stock[k := s.stock[k] + m.quantity] else s.stock[k := m.quantity])
  }

  lemma RecordIfRowExistsPreserves(s: Store, m: Movement)
    requires Consistent(s)
    requires LotExists(s, m)
    ensures Consistent(RecordIfRowExists(s, m))
  {
    var r := RecordIfRowExists(s, m);
    forall k | k in r.stock
      ensures r.stock[k] == MovementSum(r.movements, k)
    {
      MovementSumAppend(s.movements, m, k);
    }
  }

  /** The upsert keeps the rows in agreement as long as a missing row stands
      for a key whose movements net to zero (for example a brand-new lot). */
  lemma RecordUpsertPreserves(s: Store, m: Movement)
    requires Consistent(s)
    requires LotExists(s, m)
    requires KeyOf(m) !in s.stock ==> MovementSum(s.movements, KeyOf(m)) == 0.0
    ensures Consistent(RecordUpsert(s, m))
  {
    var r := RecordUpsert(s, m);
    forall k | k in r.stock
      ensures r.stock[k] == MovementSum(r.movements, k)
    {
      MovementSumAppend(s.movements, m, k);
    }
  }

  /** Without a row for its key, a consumption-style step changes the net
      quantity the log records while no stock row reflects it. */
  lemma RowlessStepDiverges(s: Store, m: Movement)
    requires KeyOf(m) !in s.stock
    requires m.quantity != 0.0
    ensures KeyOf(m) !in RecordIfRowExists(s, m).stock
    ensures MovementSum(RecordIfRowExists(s, m).movements, KeyOf(m)) != MovementSum(s.movements, KeyOf(m))
  {
    MovementSumAppend(s.movements, m, KeyOf(m));
  }

  /** Registering a new lot keeps every existing reference valid. */
  lemma AddLotPreserves(s: Store, lotId: string, lot: Lot)
    requires Consistent(s)
    ensures Consistent(s.(lots := s.lots[lotId := lot]))
  {
  }
}
