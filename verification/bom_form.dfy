/** The bill-of-materials editor: the list of material lines being edited,
    the product choices offered for the recipe's target and its materials,
    and the save, which rewrites the header and replaces every line of the
    recipe with the edited list. */
module BomForm {
  import opened Wrappers
  import opened Records
  import Seqs

  /** One row of the editor: a material line not yet tied to a recipe. */
  datatype LineForm = LineForm(productId: string, quantity: real, unitOfMeasure: string, notes: string)

  /** The row `addLine` appends: no material, zero quantity, kilograms, no notes. */
  const BlankLine: LineForm := LineForm("", 0.0, "kg", "")

  /** The header fields the editor submits. */
  datatype HeaderForm = HeaderForm(name: string, productId: string, batchSize: real, isActive: bool)

  /** `addLine`: one blank row at the end. */
  function AddLine(lines: seq<LineForm>): (r: seq<LineForm>)
    ensures |r| == |lines| + 1
    ensures r[..|lines|] == lines
    ensures r[|lines|] == BlankLine
  {
    lines + [BlankLine]
  }

  /** `removeLine(index)`: the row at `index` goes, the others keep their order. */
  function RemoveLine(lines: seq<LineForm>, index: nat): (r: seq<LineForm>)
    ensures index < |lines| ==> |r| == |lines| - 1
    ensures index < |lines| ==> multiset(r) + multiset{lines[index]} == multiset(lines)
    ensures index < |lines| ==> forall j :: 0 <= j < index ==> r[j] == lines[j]
    ensures index < |lines| ==> forall j :: index <= j < |r| ==> r[j] == lines[j + 1]
    ensures |lines| <= index ==> r == lines
  {
    if index < |lines| then
      Seqs.RemoveAtMultiset(lines, index);
      Seqs.RemoveAt(lines, index)
    else
      lines
  }

  /** Removing the row just added gives back the list as it was. */
  lemma RemoveUndoesAdd(lines: seq<LineForm>)
    ensures RemoveLine(AddLine(lines), |lines|) == lines
  {
    assert AddLine(lines)[..|lines|] == lines;
  }

  /** The field `updateLine` writes and its new value. */
  datatype LineEdit = SetProduct(productId: string) | SetQuantity(quantity: real)
                    | SetUnit(unit: string) | SetNotes(notes: string)

  function ApplyEdit(l: LineForm, e: LineEdit): LineForm {
    match e
    case SetProduct(p) => l.(productId := p)
    case SetQuantity(q) => l.(quantity := q)
    case SetUnit(u) => l.(unitOfMeasure := u)
    case SetNotes(n) => l.(notes := n)
  }

  /** The field an edit targets, read from a row. */
  predicate EditHolds(l: LineForm, e: LineEdit) {
    match e
    case SetProduct(p) => l.productId == p
    case SetQuantity(q) => l.quantity == q
    case SetUnit(u) => l.unitOfMeasure == u
    case SetNotes(n) => l.notes == n
  }

  /** Two rows agree on every field the edit does not target. */
  predicate SameOutside(a: LineForm, b: LineForm, e: LineEdit) {
    && (e.SetProduct? || a.productId == b.productId)
    && (e.SetQuantity? || a.quantity == b.quantity)
    && (e.SetUnit? || a.unitOfMeasure == b.unitOfMeasure)
    && (e.SetNotes? || a.notes == b.notes)
  }

  /** Two edits that write the same field. */
  predicate SameField(e: LineEdit, e': LineEdit) {
    || (e.SetProduct? && e'.SetProduct?)
    || (e.SetQuantity? && e'.SetQuantity?)
    || (e.SetUnit? && e'.SetUnit?)
    || (e.SetNotes? && e'.SetNotes?)
  }

  /** `updateLine(index, field, value)`, called from the row being edited. */
  function UpdateLine(lines: seq<LineForm>, index: nat, e: LineEdit): (r: seq<LineForm>)
    requires index < |lines|
    ensures |r| == |lines|
    ensures EditHolds(r[index], e)
    ensures SameOutside(r[index], lines[index], e)
    ensures forall j :: 0 <= j < |lines| && j != index ==> r[j] == lines[j]
  {
    lines[index := ApplyEdit(lines[index], e)]
  }

  /** Writing the value a row already holds changes nothing, and writing a
      field twice keeps only the second value. */
  lemma UpdateLineIdempotent(lines: seq<LineForm>, index: nat, e: LineEdit, e': LineEdit)
    requires index < |lines|
    ensures EditHolds(lines[index], e) ==> UpdateLine(lines, index, e) == lines
    ensures SameField(e, e') ==> UpdateLine(UpdateLine(lines, index, e), index, e') == UpdateLine(lines, index, e')
  {
  }

  /** The products the target select offers: active finished products. */
  function TargetChoices(products: seq<Product>): (r: seq<Product>)
    ensures forall i :: 0 <= i < |r| ==> r[i].isActive && r[i].productType == FinishedProduct
  {
    Seqs.Filter(ActiveProducts(products), (p: Product) => p.productType == FinishedProduct)
  }

  /** The products a material select offers: every other active product. */
  function MaterialChoices(products: seq<Product>): (r: seq<Product>)
    ensures forall i :: 0 <= i < |r| ==> r[i].isActive && r[i].productType != FinishedProduct
  {
    Seqs.Filter(ActiveProducts(products), (p: Product) => p.productType != FinishedProduct)
  }

  /** `products where is_active`. */
  function ActiveProducts(products: seq<Product>): (r: seq<Product>)
    ensures forall i :: 0 <= i < |r| ==> r[i].isActive
  {
    Seqs.Filter(products, (p: Product) => p.isActive)
  }

  /** Every active product is offered in exactly one of the two selects:
      the recipe's target or its materials. */
  lemma ChoicesPartitionActiveProducts(products: seq<Product>, p: Product)
    requires p in products
    ensures p in TargetChoices(products) <==> p.isActive && p.productType == FinishedProduct
    ensures p in MaterialChoices(products) <==> p.isActive && p.productType != FinishedProduct
  {
    var i :| 0 <= i < |products| && products[i] == p;
    if p.isActive {
      var active := ActiveProducts(products);
      assert p in active;
      var j :| 0 <= j < |active| && active[j] == p;
    }
  }

  /** The `bom_lines` row inserted for an editor row. */
  function LineRow(l: LineForm, bomId: string): BomLine {
    BomLine(bomId, l.productId, l.quantity, l.unitOfMeasure, l.notes)
  }

  /** The rows inserted for the whole editor list, in order. */
  function LineRows(lines: seq<LineForm>, bomId: string): (r: seq<BomLine>)
    ensures |r| == |lines|
    ensures forall i :: 0 <= i < |r| ==> r[i].bomId == bomId
  {
    seq(|lines|, i requires 0 <= i < |lines| => LineRow(lines[i], bomId))
  }

  /** `loadBOMLines`: the stored rows as editor rows. */
  function LoadLines(rows: seq<BomLine>): (r: seq<LineForm>)
    ensures |r| == |rows|
  {
    seq(|rows|, i requires 0 <= i < |rows| => LineForm(rows[i].productId, rows[i].quantity, rows[i].unitOfMeasure, rows[i].notes))
  }

  /** The write that failed when saving a new recipe. */
  datatype SaveError = HeaderInsertFailed

  /** `handleSubmit`. Editing (`editing == Some(id)`) updates the header's name,
      product, batch size and active flag in place (an id with no row updates
      nothing), deletes every line of the recipe and inserts the edited list.
      Creating inserts a header with version 1 under the id the database
      assigns (`newId`; an id already taken makes the insert fail and nothing
      is written), then the lines. */
  function SaveBom(s: Store, editing: Option<string>, header: HeaderForm, lines: seq<LineForm>, newId: string): (r: Result<Store, SaveError>)
    ensures r.Err? <==> editing.None? && newId in s.bomHeaders
    ensures r.Ok? ==> r.value.orders == s.orders && r.value.lots == s.lots
    ensures r.Ok? ==> r.value.movements == s.movements && r.value.stock == s.stock
  {
    match editing
    case Some(id) =>
      var headers :=
        if id in s.bomHeaders
        then s.bomHeaders[id := s.bomHeaders[id].(name := header.name, productId := header.productId,
                                                 batchSize := header.batchSize, isActive := header.isActive)]
        else s.bomHeaders;
      var kept := Seqs.Filter(s.bomLines, (l: BomLine) => l.bomId != id);
      Ok(s.(bomHeaders := headers, bomLines := kept + LineRows(lines, id)))
    case None =>
      if newId in s.bomHeaders then Err(HeaderInsertFailed)
      else
        var h := BomHeader(newId, header.productId, 1, header.name, header.batchSize, header.isActive);
        Ok(s.(bomHeaders := s.bomHeaders[newId := h], bomLines := s.bomLines + LineRows(lines, newId)))
  }

  /** The id of the recipe a save writes. */
  function SavedId(editing: Option<string>, newId: string): string {
    match editing
    case Some(id) => id
    case None => newId
  }

  /** The header a successful save leaves: the submitted fields, with the
      edited recipe's id and version kept, or version 1 for a new recipe. Every
      other recipe's header is untouched. */
  lemma SaveBomHeader(s: Store, editing: Option<string>, header: HeaderForm, lines: seq<LineForm>, newId: string)
    requires SaveBom(s, editing, header, lines, newId).Ok?
    requires SavedId(editing, newId) in s.bomHeaders || editing.None?
    ensures var r := SaveBom(s, editing, header, lines, newId).value;
            var id := SavedId(editing, newId);
            && r.bomHeaders.Keys == s.bomHeaders.Keys + {id}
            && r.bomHeaders[id].name == header.name
            && r.bomHeaders[id].productId == header.productId
            && r.bomHeaders[id].batchSize == header.batchSize
            && r.bomHeaders[id].isActive == header.isActive
            && r.bomHeaders[id].id == (if editing.Some? then s.bomHeaders[id].id else newId)
            && r.bomHeaders[id].version == (if editing.Some? then s.bomHeaders[id].version else 1)
            && (forall other :: other in s.bomHeaders && other != id ==> r.bomHeaders[other] == s.bomHeaders[other])
  {
  }

  /** Editing a recipe id that has no header row updates no header, yet its
      lines are still replaced. */
  lemma SaveBomMissingHeader(s: Store, id: string, header: HeaderForm, lines: seq<LineForm>, newId: string)
    requires id !in s.bomHeaders
    ensures var r := SaveBom(s, Some(id), header, lines, newId);
            r.Ok? && r.value.bomHeaders == s.bomHeaders && |r.value.bomLines| >= |lines|
  {
  }

  /** After a save, the recipe's stored lines are exactly the edited list, in
      order, and reopening the editor loads that list back. */
  lemma SaveBomLinesRoundTrip(s: Store, editing: Option<string>, header: HeaderForm, lines: seq<LineForm>, newId: string)
    requires SaveBom(s, editing, header, lines, newId).Ok?
    requires editing.None? ==> LinesOf(s.bomLines, newId) == []
    ensures var r := SaveBom(s, editing, header, lines, newId).value;
            var id := SavedId(editing, newId);
            && LinesOf(r.bomLines, id) == LineRows(lines, id)
            && LoadLines(LinesOf(r.bomLines, id)) == lines
  {
    var r := SaveBom(s, editing, header, lines, newId).value;
    var id := SavedId(editing, newId);
    var p := (l: BomLine) => l.bomId == id;
    var rows := LineRows(lines, id);
    Seqs.FilterAll(rows, p);
    if editing.Some? {
      var kept := Seqs.Filter(s.bomLines, (l: BomLine) => l.bomId != id);
      assert r.bomLines == kept + rows;
      Seqs.FilterAppend(kept, rows, p);
      Seqs.FilterNone(kept, p);
    } else {
      assert r.bomLines == s.bomLines + rows;
      Seqs.FilterAppend(s.bomLines, rows, p);
      assert Seqs.Filter(s.bomLines, p) == LinesOf(s.bomLines, id);
    }
    assert LinesOf(r.bomLines, id) == rows;
  }

  /** A save never changes another recipe's lines. */
  lemma SaveBomKeepsOtherLines(s: Store, editing: Option<string>, header: HeaderForm, lines: seq<LineForm>, newId: string, other: string)
    requires SaveBom(s, editing, header, lines, newId).Ok?
    requires other != SavedId(editing, newId)
    ensures LinesOf(SaveBom(s, editing, header, lines, newId).value.bomLines, other) == LinesOf(s.bomLines, other)
  {
    var r := SaveBom(s, editing, header, lines, newId).value;
    var id := SavedId(editing, newId);
    var p := (l: BomLine) => l.bomId == other;
    var rows := LineRows(lines, id);
    Seqs.FilterNone(rows, p);
    if editing.Some? {
      var q := (l: BomLine) => l.bomId != id;
      var kept := Seqs.Filter(s.bomLines, q);
      assert r.bomLines == kept + rows;
      Seqs.FilterAppend(kept, rows, p);
      Seqs.FilterNarrower(s.bomLines, q, p);
    } else {
      assert r.bomLines == s.bomLines + rows;
      Seqs.FilterAppend(s.bomLines, rows, p);
    }
    assert Seqs.Filter(r.bomLines, p) == Seqs.Filter(s.bomLines, p);
  }
}
