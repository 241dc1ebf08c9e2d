/**
 * The product view set's own logic: the column-mapping suggestion of `preview_import`, the
 * row loop of `import_products`, the three `bulk_update` actions, and the rows of
 * `export_products`. Reading the file, the serializer's own validation of a product and the
 * CSV writer are not part of this model; the validation enters as a parameter.
 */
module ProductViews {
  import opened Wrappers
  import opened Text
  import opened Json
  import opened Entities
  import opened Lists
  import opened Db
  import opened Serializers

  // ---- preview_import: the suggested mapping ----

  const ModelFields: seq<string> := ["name", "sku", "description", "barcode", "unit_price", "purchase_price"]

  /** `h.lower() == field.lower()`. */
  function ExactMatch(field: string): string -> bool {
    h => Lower(h) == Lower(field)
  }

  /** `field.lower() in h.lower()`. */
  function PartialMatch(field: string): string -> bool {
    h => IsInfix(Lower(field), Lower(h))
  }

  /** The header suggested for `field`: the first exact match in header order, else the first partial one. */
  function SuggestedHeader(headers: seq<string>, field: string): (r: Option<string>)
    ensures r.Some? ==> r.value in headers
  {
    match FirstIndex(headers, ExactMatch(field), true)
    case Some(i) => Some(headers[i])
    case None =>
      match FirstIndex(headers, PartialMatch(field), true)
      case Some(i) => Some(headers[i])
      case None => None
  }

  /** There is no suggestion exactly when no header contains the field's name, ignoring case. */
  lemma NoSuggestionIffNoPartialMatch(headers: seq<string>, field: string)
    ensures SuggestedHeader(headers, field).None? <==> forall i :: 0 <= i < |headers| ==> !PartialMatch(field)(headers[i])
  {
    match FirstIndex(headers, ExactMatch(field), true)
    case Some(i) =>
      assert PartialMatch(field)(headers[i]) by { assert OccursAt(Lower(field), Lower(headers[i]), 0); }
    case None =>
  }

  /** An exact match wins over any partial match, and among several the first header wins. */
  lemma ExactMatchPreferred(headers: seq<string>, field: string, i: nat)
    requires i < |headers| && ExactMatch(field)(headers[i])
    requires forall j :: 0 <= j < i ==> !ExactMatch(field)(headers[j])
    ensures SuggestedHeader(headers, field) == Some(headers[i])
  {
  }

  /** Without an exact match, the first header that contains the field's name is taken. */
  lemma PartialMatchFallback(headers: seq<string>, field: string, i: nat)
    requires forall j :: 0 <= j < |headers| ==> !ExactMatch(field)(headers[j])
    requires i < |headers| && PartialMatch(field)(headers[i])
    requires forall j :: 0 <= j < i ==> !PartialMatch(field)(headers[j])
    ensures SuggestedHeader(headers, field) == Some(headers[i])
  {
  }

  /** A header cell `h.lower()` can be called on: a string. */
  predicate IsText(c: Cell) {
    c.Value? && c.v.JString?
  }

  /** The header row's strings, or nothing when some cell is not a string (`NaN`, a number, a boolean). */
  function HeaderTexts(cells: seq<Cell>): (r: Option<seq<string>>)
    ensures r.Some? <==> forall i :: 0 <= i < |cells| ==> IsText(cells[i])
    ensures r.Some? ==> |r.value| == |cells| && forall i :: 0 <= i < |cells| ==> cells[i] == Value(JString(r.value[i]))
  {
    if cells == [] then Some([])
    else if !IsText(cells[0]) then None
    else
      match HeaderTexts(cells[1..])
      case None => None
      case Some(rest) => Some([cells[0].v.s] + rest)
  }

  /**
   * The loop of `preview_import`: for each model field, the first header of the exact
   * matches, else the first of the partial matches, else nothing. The first comprehension
   * already calls `h.lower()` on every header, so the first cell that is not a string raises
   * `AttributeError`, and the view answers 400 without any suggestion; the error is that cell.
   */
  method SuggestMapping(headers: seq<Cell>) returns (r: Result<map<string, string>, Cell>)
    ensures r.Err? <==> exists i :: 0 <= i < |headers| && !IsText(headers[i])
    ensures r.Err? ==> exists i :: (0 <= i < |headers| && r.error == headers[i] && !IsText(r.error) &&
      forall j :: 0 <= j < i ==> IsText(headers[j]))
    ensures r.Ok? ==> forall f :: f in r.value <==> f in ModelFields && SuggestedHeader(HeaderTexts(headers).value, f).Some?
    ensures r.Ok? ==> forall f :: f in r.value ==> r.value[f] == SuggestedHeader(HeaderTexts(headers).value, f).value
    ensures r.Ok? ==> forall f :: f in r.value ==> Value(JString(r.value[f])) in headers
  {
    var bad := FirstIndex(headers, (c: Cell) => !IsText(c), true);
    if bad.Some? {
      return Err(headers[bad.value]);
    }
    var texts := HeaderTexts(headers).value;
    var mapping := SuggestFields(texts, ModelFields);
    forall f | f in mapping ensures Value(JString(mapping[f])) in headers {
      var i :| 0 <= i < |texts| && texts[i] == mapping[f];
      assert headers[i] == Value(JString(mapping[f]));
    }
    r := Ok(mapping);
  }

  // ---- preview_import: the header line ----

  /** The file as lines of cells, its first line included. */
  type Sheet = seq<seq<Cell>>

  /**
   * The column names `import_products` reads: `skiprows=header_row` drops the lines before
   * line `header_row`, and pandas takes that line as the column names.
   */
  function ImportColumns(sheet: Sheet, headerRow: nat): Option<seq<Cell>> {
    if headerRow < |sheet| then Some(sheet[headerRow]) else None
  }

  /**
   * The headers of `preview_import` as written: pandas has already taken line 0 as the column
   * names, so `df.iloc[header_row]` is line `header_row + 1`, the import's data, not its header.
   */
  function PreviewHeadersAsWritten(sheet: Sheet, headerRow: nat): (r: Option<seq<Cell>>)
    ensures r == ImportColumns(sheet, headerRow + 1)
  {
    if headerRow + 1 < |sheet| then Some(sheet[headerRow + 1]) else None
  }

  /**
   * With the default `header_row` of 0, a file whose header line is `name` and whose one
   * product is `Pen` previews `Pen` as its header: the import's own column `name` is not
   * suggested for the field `name`.
   */
  lemma PreviewAsWrittenReadsDataLine()
    ensures var sheet := [[Value(JString("name"))], [Value(JString("Pen"))]];
      PreviewHeadersAsWritten(sheet, 0) == Some([Value(JString("Pen"))]) &&
      ImportColumns(sheet, 0) == Some([Value(JString("name"))]) &&
      SuggestedHeader(["Pen"], "name") == None && SuggestedHeader(["name"], "name") == Some("name")
  {
    assert ExactMatch("name")("name");
    assert !ExactMatch("name")("Pen") by { assert |Lower("Pen")| != |Lower("name")|; }
    NoSuggestionIffNoPartialMatch(["Pen"], "name");
  }

  /** Why a preview gives no mapping: the header line is past the end of the file, or a header is not a string. */
  datatype PreviewError = HeaderOutOfRange | NotText(cell: Cell)

  /**
   * `preview_import` with the header taken from the line the import reads as column names:
   * an out-of-range `iloc` is an `IndexError`, and every suggestion names one of those columns.
   */
  method PreviewImport(sheet: Sheet, headerRow: nat) returns (r: Result<map<string, string>, PreviewError>)
    ensures r == Err(HeaderOutOfRange) <==> ImportColumns(sheet, headerRow).None?
    ensures r.Err? && r.error.NotText? ==> r.error.cell in ImportColumns(sheet, headerRow).value && !IsText(r.error.cell)
    ensures r.Ok? ==> forall f :: f in r.value ==> f in ModelFields && Value(JString(r.value[f])) in ImportColumns(sheet, headerRow).value
  {
    var headers := ImportColumns(sheet, headerRow);
    if headers.None? {
      return Err(HeaderOutOfRange);
    }
    var m := SuggestMapping(headers.value);
    match m
    case Err(c) => r := Err(NotText(c));
    case Ok(mapping) => r := Ok(mapping);
  }

  /** The loop over the fields, for any list of fields. */
  method SuggestFields(headers: seq<string>, fields: seq<string>) returns (mapping: map<string, string>)
    ensures forall f :: f in mapping <==> f in fields && SuggestedHeader(headers, f).Some?
    ensures forall f :: f in mapping ==> mapping[f] == SuggestedHeader(headers, f).value
  {
    mapping := map[];
    for k := 0 to |fields|
      invariant forall f :: f in mapping <==> f in fields[..k] && SuggestedHeader(headers, f).Some?
      invariant forall f :: f in mapping ==> mapping[f] == SuggestedHeader(headers, f).value
    {
      var field := fields[k];
      var header := SuggestFor(headers, field);
      if header.Some? {
        mapping := mapping[field := header.value];
      }
      assert fields[..k + 1] == fields[..k] + [field];
    }
    assert fields[..|fields|] == fields;
  }

  /** The body of the loop for one field: the two list comprehensions and their first elements. */
  method SuggestFor(headers: seq<string>, field: string) returns (header: Option<string>)
    ensures header == SuggestedHeader(headers, field)
  {
    var matches := Filter(headers, ExactMatch(field));
    FilterHeadIsFirst(headers, ExactMatch(field));
    if matches != [] {
      return Some(matches[0]);
    }
    matches := Filter(headers, PartialMatch(field));
    FilterHeadIsFirst(headers, PartialMatch(field));
    if matches != [] {
      return Some(matches[0]);
    }
    return None;
  }

  // ---- import_products: the row loop ----

  /** A cell of the sheet; pandas' missing value is `NaN`. */
  datatype Cell = NaN | Value(v: Json)

  /** A row of the sheet, by column name. */
  type Row = map<string, Cell>

  /** `None if pd.isna(value) else value`. */
  function CellValue(c: Cell): Json {
    if c.NaN? then JNull else c.v
  }

  /** `product_data`: each mapped field whose column exists, with the row's value in that column. */
  function ProductData(row: Row, mapping: map<string, string>): (d: map<string, Json>)
    ensures forall f :: f in d <==> f in mapping && mapping[f] in row
    ensures forall f :: f in d ==> d[f] == CellValue(row[mapping[f]])
  {
    map f | f in mapping && mapping[f] in row :: CellValue(row[mapping[f]])
  }

  /** The counters, the error text and the products saved so far. */
  datatype ImportTally = ImportTally(processed: nat, failed: nat, errorMessage: string, saved: seq<map<string, Json>>)

  /**
   * `ProductSerializer(data=product_data).is_valid()`: whether a row's product is accepted,
   * given the products this import has saved before it. The catalog as it stood before the
   * import is part of the validator, so a SKU clash with it or with an earlier row is a
   * rejection the validator can express.
   */
  type Validator = (seq<map<string, Json>>, map<string, Json>) -> bool

  /** `serializer.errors` for a rejected row, in the same circumstances. */
  type ErrorText = (seq<map<string, Json>>, map<string, Json>) -> string

  /** `f"Row {index}: {errors}\n"`. */
  function ErrorLine(index: int, errors: string): string {
    "Row " + IntToString(index) + ": " + errors + "\n"
  }

  /** An error line is `Row `, the index in digits that read back as the index, `: `, the errors, and a newline. */
  lemma ErrorLineShape(index: int, errors: string)
    ensures var line, digits := ErrorLine(index, errors), IntToString(index);
      |line| == 4 + |digits| + 2 + |errors| + 1 &&
      line[..4] == "Row " && line[4..4 + |digits|] == digits && ParseInt(line[4..4 + |digits|]) == index &&
      line[4 + |digits|..6 + |digits|] == ": " && line[6 + |digits|..|line| - 1] == errors && line[|line| - 1] == '\n'
  {
    var line, digits := ErrorLine(index, errors), IntToString(index);
    assert line == "Row " + digits + ": " + errors + "\n";
    assert line[..4] == "Row ";
    assert line[4..4 + |digits|] == digits;
    assert line[4 + |digits|..6 + |digits|] == ": ";
    assert line[6 + |digits|..|line| - 1] == errors;
    ParseIntToString(index);
  }

  /**
   * The loop over the kept rows, the row with position `k` carrying the index label
   * `firstLabel + k`; `isValid` and `errorsOf` stand for `ProductSerializer`.
   */
  function ImportFold(rows: seq<Row>, firstLabel: int, mapping: map<string, string>,
                      isValid: Validator, errorsOf: ErrorText): ImportTally
    decreases |rows|
  {
    if rows == [] then ImportTally(0, 0, "", [])
    else
      var t := ImportFold(rows[..|rows| - 1], firstLabel, mapping, isValid, errorsOf);
      var data := ProductData(rows[|rows| - 1], mapping);
      if isValid(t.saved, data) then t.(processed := t.processed + 1, saved := t.saved + [data])
      else t.(failed := t.failed + 1, errorMessage := t.errorMessage + ErrorLine(firstLabel + |rows| - 1, errorsOf(t.saved, data)))
  }

  /**
   * Each row counts exactly once, a saved product per processed row, and the error text is
   * empty exactly when no row failed.
   */
  lemma {:induction false} ImportTallyConsistent(rows: seq<Row>, firstLabel: int, mapping: map<string, string>,
                                                 isValid: Validator, errorsOf: ErrorText)
    ensures var t := ImportFold(rows, firstLabel, mapping, isValid, errorsOf);
      t.processed + t.failed == |rows| && |t.saved| == t.processed && (t.errorMessage == "" <==> t.failed == 0)
    decreases |rows|
  {
    if rows != [] {
      ImportTallyConsistent(rows[..|rows| - 1], firstLabel, mapping, isValid, errorsOf);
    }
  }

  /** Each product of `saved` passes the validator against the products saved before it. */
  predicate EachPassed(saved: seq<map<string, Json>>, isValid: Validator) {
    forall k :: 0 <= k < |saved| ==> isValid(saved[..k], saved[k])
  }

  /** Each saved product passed the validator against the products saved before it. */
  lemma {:induction false} ImportSavesOnlyValid(rows: seq<Row>, firstLabel: int, mapping: map<string, string>,
                                                isValid: Validator, errorsOf: ErrorText)
    ensures EachPassed(ImportFold(rows, firstLabel, mapping, isValid, errorsOf).saved, isValid)
    decreases |rows|
  {
    if rows != [] {
      var init := rows[..|rows| - 1];
      ImportSavesOnlyValid(init, firstLabel, mapping, isValid, errorsOf);
      var t := ImportFold(init, firstLabel, mapping, isValid, errorsOf);
      var r := ImportFold(rows, firstLabel, mapping, isValid, errorsOf);
      var data := ProductData(rows[|rows| - 1], mapping);
      if isValid(t.saved, data) {
        assert r.saved == t.saved + [data];
        forall k | 0 <= k < |r.saved| ensures isValid(r.saved[..k], r.saved[k]) {
          if k < |t.saved| {
            assert r.saved[..k] == t.saved[..k] && r.saved[k] == t.saved[k];
          } else {
            assert r.saved[..k] == t.saved && r.saved[k] == data;
          }
        }
      } else {
        assert r.saved == t.saved;
      }
    }
  }

  /**
   * A validator that enforces the unique SKU of the product table rejects a row whose SKU an
   * earlier row of the same import already saved: the saved products' SKUs are distinct.
   */
  lemma ImportSkusDistinct(rows: seq<Row>, firstLabel: int, mapping: map<string, string>,
                           isValid: Validator, errorsOf: ErrorText)
    requires forall saved, data :: isValid(saved, data) ==>
      "sku" in data && forall d :: d in saved && "sku" in d ==> d["sku"] != data["sku"]
    ensures var t := ImportFold(rows, firstLabel, mapping, isValid, errorsOf);
      forall i, j :: 0 <= i < j < |t.saved| ==>
        "sku" in t.saved[i] && "sku" in t.saved[j] && t.saved[i]["sku"] != t.saved[j]["sku"]
  {
    var t := ImportFold(rows, firstLabel, mapping, isValid, errorsOf);
    ImportSavesOnlyValid(rows, firstLabel, mapping, isValid, errorsOf);
    assert EachPassed(t.saved, isValid);
    forall i, j | 0 <= i < j < |t.saved|
      ensures "sku" in t.saved[i] && "sku" in t.saved[j] && t.saved[i]["sku"] != t.saved[j]["sku"]
    {
      assert isValid(t.saved[..i], t.saved[i]) && isValid(t.saved[..j], t.saved[j]);
      assert t.saved[i] in t.saved[..j];
    }
  }

  /** The response body of a completed import. */
  datatype ImportResponse = ImportResponse(processed: nat, failed: nat, errors: Option<string>)

  /**
   * `import_products` after validation and reading: the data rows from the start row on are
   * tried one by one; the history record ends COMPLETED with the tally.
   */
  method ImportProducts(req: ValidatedImport, rows: seq<Row>,
                        isValid: Validator, errorsOf: ErrorText)
    returns (response: ImportResponse, history: UploadRecord, saved: seq<map<string, Json>>)
    requires req.headerRow < req.dataStartRow
    ensures var offset := req.dataStartRow - req.headerRow - 1;
      var kept := if offset <= |rows| then rows[offset..] else [];
      var t := ImportFold(kept, offset, ColumnMapping(req.columnMapping), isValid, errorsOf);
      history == UploadRecord(Completed, t.processed, t.failed, t.errorMessage) && saved == t.saved &&
      response == ImportResponse(t.processed, t.failed, if t.errorMessage != "" then Some(t.errorMessage) else None)
    ensures response.processed + response.failed == (if req.dataStartRow - req.headerRow - 1 <= |rows|
      then |rows| - (req.dataStartRow - req.headerRow - 1) else 0)
    ensures response.errors.None? <==> response.failed == 0
  {
    var offset := req.dataStartRow - req.headerRow - 1;
    var kept := if offset <= |rows| then rows[offset..] else [];
    var mapping := ColumnMapping(req.columnMapping);
    history, saved := ImportRows(kept, offset, mapping, isValid, errorsOf);
    ImportTallyConsistent(kept, offset, mapping, isValid, errorsOf);
    history := history.(status := Completed);
    response := ImportResponse(history.recordsProcessed, history.recordsFailed,
                               if history.errorMessage != "" then Some(history.errorMessage) else None);
  }

  /** The row loop of `import_products`, updating the PROCESSING history record row by row. */
  method ImportRows(kept: seq<Row>, offset: int, mapping: map<string, string>,
                    isValid: Validator, errorsOf: ErrorText)
    returns (history: UploadRecord, saved: seq<map<string, Json>>)
    ensures var t := ImportFold(kept, offset, mapping, isValid, errorsOf);
      history == UploadRecord(Processing, t.processed, t.failed, t.errorMessage) && saved == t.saved
  {
    history := UploadRecord(Processing, 0, 0, "");
    saved := [];
    for k := 0 to |kept|
      invariant var t := ImportFold(kept[..k], offset, mapping, isValid, errorsOf);
        history == UploadRecord(Processing, t.processed, t.failed, t.errorMessage) && saved == t.saved
    {
      assert kept[..k + 1][..k] == kept[..k];
      var data := ProductData(kept[k], mapping);
      if isValid(saved, data) {
        saved := saved + [data];
        history := history.(recordsProcessed := history.recordsProcessed + 1);
      } else {
        history := history.(recordsFailed := history.recordsFailed + 1,
                            errorMessage := history.errorMessage + ErrorLine(offset + k, errorsOf(saved, data)));
      }
    }
    assert kept[..|kept|] == kept;
  }

  /** The (field, column) pairs of the request's mapping whose column names are strings. */
  function ColumnMapping(m: map<string, Json>): (r: map<string, string>)
    ensures forall f :: f in r <==> f in m && m[f].JString?
  {
    map f | f in m && m[f].JString? :: m[f].s
  }

  // ---- bulk_update ----

  /** `update_price`, one product: the new price, everywhere the product is selected. */
  function Repriced(products: seq<ProductRow>, ids: seq<int>, price: int): (r: seq<ProductRow>)
    ensures |r| == |products|
    ensures forall i :: 0 <= i < |products| ==>
      r[i] == if products[i].id in ids then products[i].(unitPrice := price) else products[i]
  {
    seq(|products|, i requires 0 <= i < |products| =>
      if products[i].id in ids then products[i].(unitPrice := price) else products[i])
  }

  /** The price-history rows `update_price` creates, one per selected product in table order. */
  function PriceChanges(products: seq<ProductRow>, ids: seq<int>, price: int, user: int): seq<PriceChange>
    decreases |products|
  {
    if products == [] then []
    else
      var p := products[|products| - 1];
      PriceChanges(products[..|products| - 1], ids, price, user) +
        (if p.id in ids then [PriceChange(p.id, "SALE", p.unitPrice, price, Some(user))] else [])
  }

  /** Every recorded change is a SALE change of a selected product, from its price before the update to the new one. */
  lemma {:induction false} PriceChangesRecordOldPrice(products: seq<ProductRow>, ids: seq<int>, price: int, user: int)
    ensures forall c :: c in PriceChanges(products, ids, price, user) ==>
      c.priceType == "SALE" && c.newPrice == price && c.changedBy == Some(user) && c.product in ids &&
      exists i :: 0 <= i < |products| && products[i].id == c.product && products[i].unitPrice == c.oldPrice
    decreases |products|
  {
    if products != [] {
      var init := products[..|products| - 1];
      PriceChangesRecordOldPrice(init, ids, price, user);
      forall c | c in PriceChanges(init, ids, price, user)
        ensures exists i :: 0 <= i < |products| && products[i].id == c.product && products[i].unitPrice == c.oldPrice
      {
        var i :| 0 <= i < |init| && init[i].id == c.product && init[i].unitPrice == c.oldPrice;
        assert products[i] == init[i];
      }
    }
  }

  /** One change is recorded for each selected product. */
  lemma {:induction false} PriceChangesCount(products: seq<ProductRow>, ids: seq<int>, price: int, user: int)
    ensures |PriceChanges(products, ids, price, user)| == |Filter(products, (p: ProductRow) => p.id in ids)|
    decreases |products|
  {
    if products != [] {
      var init, last := products[..|products| - 1], products[|products| - 1];
      PriceChangesCount(init, ids, price, user);
      assert products == init + [last];
      FilterConcat(init, [last], (p: ProductRow) => p.id in ids);
      assert Filter([last], (p: ProductRow) => p.id in ids) == Filter([last][1..], (p: ProductRow) => p.id in ids) + (if last.id in ids then [last] else []) by {
        assert [last][1..] == [];
      }
    }
  }

  /** `update_stock`, one product: its first stock is set to the target and the delta is recorded. */
  datatype StockTables = StockTables(stocks: seq<Stock>, movements: seq<MovementRow>)

  /** `f'BULK-ADJ-{product.id}'`. */
  function BulkReference(product: int): string { "BULK-ADJ-" + IntToString(product) }

  function BulkStockStep(t: StockTables, p: ProductRow, target: int, user: int): (r: StockTables)
    ensures FirstStock(t.stocks, p.id).None? ==> r == t
    ensures FirstStock(t.stocks, p.id).Some? ==> (var i := FirstStock(t.stocks, p.id).value;
      |r.movements| == |t.movements| + 1 && r.movements[..|t.movements|] == t.movements &&
      r.stocks == t.stocks[i := t.stocks[i].(quantity := target)] &&
      t.stocks[i].quantity + r.movements[|t.movements|].quantity == r.stocks[i].quantity &&
      r.movements[|t.movements|].movementType == Adjust &&
      r.movements[|t.movements|].referenceNumber == BulkReference(p.id) &&
      r.movements[|t.movements|].performedBy == Some(user))
  {
    match FirstStock(t.stocks, p.id)
    case None => t
    case Some(i) =>
      var m := MovementRow(p.id, p.name, Adjust, target - t.stocks[i].quantity, BulkReference(p.id), Some(user), "");
      StockTables(t.stocks[i := t.stocks[i].(quantity := target)], t.movements + [m])
  }

  /** After the step, the product's `current_stock` is the target. */
  lemma BulkStepSetsCurrentStock(t: StockTables, p: ProductRow, target: int, user: int)
    requires FirstStock(t.stocks, p.id).Some?
    ensures CurrentStock(BulkStockStep(t, p, target, user).stocks, p.id) == target
  {
    CurrentStockReadsFirstStock(t.stocks, p.id, target);
  }

  /**
   * The recorded delta is not what the adjustment task would apply: replaying that ADJUST
   * movement through `process_stock_adjustment` would set the stock to the delta.
   */
  lemma BulkDeltaIsNotAnAbsoluteAdjust(t: StockTables, p: ProductRow, target: int, user: int)
    requires FirstStock(t.stocks, p.id).Some?
    requires t.stocks[FirstStock(t.stocks, p.id).value].quantity != 0
    ensures var r := BulkStockStep(t, p, target, user);
      r.movements[|t.movements|].quantity != r.stocks[FirstStock(t.stocks, p.id).value].quantity
  {
  }

  /** The `update_stock` loop over the products in table order. */
  function BulkStockFold(products: seq<ProductRow>, ids: seq<int>, start: StockTables, target: int, user: int): StockTables
    decreases |products|
  {
    if products == [] then start
    else
      var t := BulkStockFold(products[..|products| - 1], ids, start, target, user);
      var p := products[|products| - 1];
      if p.id in ids then BulkStockStep(t, p, target, user) else t
  }

  /** Each stock either stays or is a selected product's stock set to the target. */
  predicate StocksOnlySetToTarget(before: seq<Stock>, after: seq<Stock>, ids: seq<int>, target: int) {
    |after| == |before| &&
    forall i :: 0 <= i < |before| ==>
      after[i] == before[i] || (before[i].product in ids && after[i] == before[i].(quantity := target))
  }

  /**
   * The loop changes only the first stocks of selected products, and only to the target;
   * the movement log only grows.
   */
  lemma {:induction false} BulkStockFoldTouchesOnlyTargets(products: seq<ProductRow>, ids: seq<int>, start: StockTables, target: int, user: int)
    ensures StocksOnlySetToTarget(start.stocks, BulkStockFold(products, ids, start, target, user).stocks, ids, target)
    ensures var r := BulkStockFold(products, ids, start, target, user);
      |r.movements| >= |start.movements| && r.movements[..|start.movements|] == start.movements
    decreases |products|
  {
    if products != [] {
      var init := products[..|products| - 1];
      BulkStockFoldTouchesOnlyTargets(init, ids, start, target, user);
      var t := BulkStockFold(init, ids, start, target, user);
      var p := products[|products| - 1];
      if p.id in ids && FirstStock(t.stocks, p.id).Some? {
        var r := BulkStockStep(t, p, target, user);
        assert r.movements[..|start.movements|] == t.movements[..|start.movements|];
      }
    }
  }

  /** The action, as `BulkProductUpdateSerializer` restricts it. */
  datatype BulkAction = UpdatePrice | UpdateStock | Deactivate | Activate

  /** `products.update(is_active=...)`. */
  function WithActive(products: seq<ProductRow>, ids: seq<int>, active: bool): (r: seq<ProductRow>)
    ensures |r| == |products|
    ensures forall i :: 0 <= i < |products| ==>
      r[i].isActive == (if products[i].id in ids then active else products[i].isActive) &&
      r[i].(isActive := products[i].isActive) == products[i]
  {
    seq(|products|, i requires 0 <= i < |products| =>
      if products[i].id in ids then products[i].(isActive := active) else products[i])
  }

  /**
   * `bulk_update` after validation: `price` and `quantity` are `value.get(...)`, `None` when
   * missing or null; a missing one makes its action do nothing.
   */
  method BulkUpdate(db: Database, ids: seq<int>, action: BulkAction, price: Option<int>, quantity: Option<int>, user: int)
    modifies db`products, db`priceHistory, db`stocks, db`movements
    ensures action == UpdatePrice && price.Some? ==> (
      db.products == Repriced(old(db.products), ids, price.value) &&
      db.priceHistory == old(db.priceHistory) + PriceChanges(old(db.products), ids, price.value, user) &&
      db.stocks == old(db.stocks) && db.movements == old(db.movements))
    ensures action == UpdateStock && quantity.Some? ==> (
      StockTables(db.stocks, db.movements) ==
        BulkStockFold(old(db.products), ids, StockTables(old(db.stocks), old(db.movements)), quantity.value, user) &&
      db.products == old(db.products) && db.priceHistory == old(db.priceHistory))
    ensures action in {Activate, Deactivate} ==> (
      db.products == WithActive(old(db.products), ids, action == Activate) &&
      db.priceHistory == old(db.priceHistory) && db.stocks == old(db.stocks) && db.movements == old(db.movements))
    ensures (action == UpdatePrice && price.None?) || (action == UpdateStock && quantity.None?) ==> (
      db.products == old(db.products) && db.priceHistory == old(db.priceHistory) &&
      db.stocks == old(db.stocks) && db.movements == old(db.movements))
  {
    if action == UpdatePrice {
      if price.Some? {
        UpdatePrices(db, ids, price.value, user);
      }
    } else if action == UpdateStock {
      if quantity.Some? {
        UpdateStocks(db, ids, quantity.value, user);
      }
    } else {
      db.products := WithActive(db.products, ids, action == Activate);
    }
  }

  /** The `update_price` loop. */
  method UpdatePrices(db: Database, ids: seq<int>, price: int, user: int)
    modifies db`products, db`priceHistory
    ensures db.products == Repriced(old(db.products), ids, price)
    ensures db.priceHistory == old(db.priceHistory) + PriceChanges(old(db.products), ids, price, user)
  {
    ghost var before := db.products;
    for k := 0 to |db.products|
      invariant |db.products| == |before|
      invariant db.products[..k] == Repriced(before, ids, price)[..k]
      invariant db.products[k..] == before[k..]
      invariant db.priceHistory == old(db.priceHistory) + PriceChanges(before[..k], ids, price, user)
    {
      var p := db.products[k];
      assert p == before[k];
      assert before[..k + 1][..k] == before[..k];
      if p.id in ids {
        db.priceHistory := db.priceHistory + [PriceChange(p.id, "SALE", p.unitPrice, price, Some(user))];
        db.products := db.products[k := p.(unitPrice := price)];
      }
    }
    assert before[..|before|] == before;
  }

  /** The `update_stock` loop. */
  method UpdateStocks(db: Database, ids: seq<int>, target: int, user: int)
    modifies db`stocks, db`movements
    ensures StockTables(db.stocks, db.movements) ==
      BulkStockFold(db.products, ids, StockTables(old(db.stocks), old(db.movements)), target, user)
  {
    for k := 0 to |db.products|
      invariant StockTables(db.stocks, db.movements) ==
        BulkStockFold(db.products[..k], ids, StockTables(old(db.stocks), old(db.movements)), target, user)
    {
      var p := db.products[k];
      assert db.products[..k + 1][..k] == db.products[..k];
      if p.id in ids {
        ghost var t := StockTables(db.stocks, db.movements);
        var stock := FirstStock(db.stocks, p.id);
        if stock.Some? {
          var i := stock.value;
          db.movements := db.movements +
            [MovementRow(p.id, p.name, Adjust, target - db.stocks[i].quantity, BulkReference(p.id), Some(user), "")];
          db.stocks := db.stocks[i := db.stocks[i].(quantity := target)];
        }
        assert StockTables(db.stocks, db.movements) == BulkStockStep(t, p, target, user);
      }
    }
    assert db.products[..|db.products|] == db.products;
  }

  // ---- export_products ----

  const ExportHeaders: seq<string> := ["ID", "Name", "SKU", "Barcode", "Unit Price", "Current Stock", "Status"]

  /** A product as `ProductListSerializer` renders it; the price is DRF's decimal string. */
  datatype ListedProduct = ListedProduct(id: int, name: string, sku: string, barcode: string, unitPrice: string,
                                         currentStock: int, isActive: bool)

  /**
   * The serializer's view of a product row: the identifying fields as stored, the price as a
   * decimal text that reads back as the stored price, and `current_stock` from the product's
   * first stock, 0 when it has none.
   */
  function Listed(p: ProductRow, stocks: seq<Stock>): (r: ListedProduct)
    ensures r.id == p.id && r.name == p.name && r.sku == p.sku && r.barcode == p.barcode && r.isActive == p.isActive
    ensures IsDecimalText(r.unitPrice) && ReadDecimal(r.unitPrice) == p.unitPrice
    ensures FirstStock(stocks, p.id).None? ==> r.currentStock == 0
    ensures FirstStock(stocks, p.id).Some? ==> r.currentStock == stocks[FirstStock(stocks, p.id).value].quantity
  {
    ListedProduct(p.id, p.name, p.sku, p.barcode, DecimalText(p.unitPrice), CurrentStock(stocks, p.id), p.isActive)
  }

  /** An optional '-', at least one digit, a '.', and exactly two digits. */
  predicate IsDecimalText(s: string) {
    |s| >= 4 && s[|s| - 3] == '.' && '0' <= s[|s| - 2] <= '9' && '0' <= s[|s| - 1] <= '9' &&
    var start := if s[0] == '-' then 1 else 0;
    start < |s| - 3 && AllDigits(s[start..|s| - 3])
  }

  /** The value in hundredths of a decimal text. */
  function ReadDecimal(s: string): int
    requires IsDecimalText(s)
  {
    var start := if s[0] == '-' then 1 else 0;
    var v := ParseNat(s[start..|s| - 3]) * 100 + DigitValue(s[|s| - 2]) * 10 + DigitValue(s[|s| - 1]);
    if s[0] == '-' then -v else v
  }

  lemma HundredthsSplit(a: nat)
    ensures a / 100 * 100 + a % 100 / 10 * 10 + a % 10 == a
  {
    var q, r := a / 100, a % 100;
    assert a == 100 * q + r && 0 <= r < 100;
    var d1, d0 := r / 10, r % 10;
    assert r == 10 * d1 + d0 && 0 <= d0 < 10;
    LastDigit(a, 10 * q + d1, d0);
  }

  /** Euclidean division by ten is unique. */
  lemma LastDigit(a: nat, m: int, d: int)
    requires a == 10 * m + d && 0 <= d < 10
    ensures a % 10 == d
  {
  }

  /** A two-place decimal held in hundredths, as `str(Decimal)` writes it: the text reads back as the value. */
  function DecimalText(hundredths: int): (s: string)
    ensures IsDecimalText(s) && ReadDecimal(s) == hundredths
  {
    var a: nat := if hundredths < 0 then -hundredths else hundredths;
    var sign := if hundredths < 0 then "-" else "";
    var whole := NatToString(a / 100);
    var s := sign + whole + "." + [DigitChar(a % 100 / 10), DigitChar(a % 10)];
    assert s[|sign|..|s| - 3] == whole;
    assert |sign| == 0 ==> s[0] == whole[0];
    ParseNatToString(a / 100);
    HundredthsSplit(a);
    s
  }

  /** One CSV row, in the order of the header row. */
  function ExportRow(p: ListedProduct): (r: seq<string>)
    ensures |r| == |ExportHeaders|
    ensures r[1] == p.name && r[2] == p.sku && r[3] == p.barcode && r[4] == p.unitPrice
    ensures r[6] == "Active" <==> p.isActive
    ensures r[6] == "Inactive" <==> !p.isActive
  {
    [IntToString(p.id), p.name, p.sku, p.barcode, p.unitPrice, IntToString(p.currentStock),
     if p.isActive then "Active" else "Inactive"]
  }

  /** The numeric cells read back as the id and the current stock they were written from. */
  lemma ExportNumbersReadBack(p: ListedProduct)
    ensures ParseInt(ExportRow(p)[0]) == p.id
    ensures ParseInt(ExportRow(p)[5]) == p.currentStock
  {
    ParseIntToString(p.id);
    ParseIntToString(p.currentStock);
  }

  /** The whole sheet: the header row, then one row per product in queryset order. */
  function ExportTable(products: seq<ListedProduct>): (t: seq<seq<string>>)
    ensures |t| == |products| + 1 && t[0] == ExportHeaders
    ensures forall k :: 0 <= k < |products| ==> t[k + 1] == ExportRow(products[k])
  {
    [ExportHeaders] + seq(|products|, k requires 0 <= k < |products| => ExportRow(products[k]))
  }
}
