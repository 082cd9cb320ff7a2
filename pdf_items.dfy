/**
 * The item side of the PDF bill-of-materials reader: reading one table
 * cell with a confidence, turning a table row into a BOM item, and the
 * reader object whose item list is validated and de-duplicated, filled
 * in from same-page constraints, checked for fragmented text and listed
 * by profile reference.
 */
module PdfItems {
  import opened Wrappers
  import opened Strings
  import opened Numerals
  import opened Dicts
  import opened Folds
  import opened Patterns
  import opened Pdf

  // ---------------------------------------------------------------------
  // One cell

  /** What `_parse_cell_value` hands back: `None`, a float, or the stripped text. */
  datatype CellValue = NoValue | Num(x: real) | Text(s: string)

  /** The fields read as numbers. */
  const NumericFields: set<string> := {"quantity", "length", "width", "height", "thickness", "weight", "price"}

  /**
   * The characters a clean cell may hold: ASCII, the listed currency and
   * measurement signs, the Latin-1 letters from U+00C0 on, and white space.
   */
  predicate AllowedChar(c: char) {
    c <= '\U{7f}' || c == '\U{20ac}' || c == '\U{a3}' || c == '\U{a5}' || c == '\U{b0}' || c == '\U{b1}'
    || c == '\U{b2}' || c == '\U{b3}' || c == '\U{b5}' || c == '\U{b6}' || c == '\U{b7}' || c == '\U{b9}'
    || c == '\U{ba}' || ('\U{c0}' <= c <= '\U{ff}') || IsSpace(c)
  }

  /** The OCR-damage test: some character outside the allowed set. */
  predicate HasUnusualChar(s: string) {
    exists i :: 0 <= i < |s| && !AllowedChar(s[i])
  }

  /**
   * `_parse_cell_value`: an empty cell is `(None, 0.0)`; otherwise the
   * confidence starts at 1.0, loses 0.2 for an unusual character and, in a
   * numeric field, 0.3 more when no number can be read; numeric fields give
   * the number read (floored at 0 in confidence), other fields the stripped text.
   */
  function ParseCellValue(cell: Option<string>, fieldType: string): (r: (CellValue, real))
    ensures 0.0 <= r.1 <= 1.0
    ensures r.1 == 0.0 <==> !Present(cell)
    ensures r.1 == 1.0 <==> Present(cell) && !HasUnusualChar(Strip(cell.value))
                            && (fieldType in NumericFields ==> ExtractNumberText(Strip(cell.value)).Some?)
    ensures r.0 == NoValue <==> !Present(cell) || (fieldType in NumericFields && ExtractNumberText(Strip(cell.value)).None?)
    ensures fieldType in NumericFields ==> !r.0.Text?
    ensures fieldType !in NumericFields ==> !r.0.Num?
    ensures r.0.Num? ==> r.0.x >= 0.0 && Some(r.0.x) == ExtractNumberText(Strip(cell.value))
    ensures r.0.Text? ==> r.0.s == Strip(cell.value)
  {
    if !Present(cell) then (NoValue, 0.0)
    else
      var cellStr := Strip(cell.value);
      var confidence := 1.0 - (if HasUnusualChar(cellStr) then 0.2 else 0.0);
      if fieldType in NumericFields then
        var num := ExtractNumberText(cellStr);
        var c := confidence - (if num.None? then 0.3 else 0.0);
        (if num.None? then NoValue else Num(num.value), MaxReal(0.0, c))
      else
        (Text(cellStr), confidence)
  }

  /**
   * `_extract_number` on a value already parsed from a cell: nothing for
   * `None`, the text reading for a string, and for a float the reading of
   * its `str`, which is the float itself only in positional form.
   */
  function ExtractNumber(v: CellValue): (r: Option<real>)
    ensures v.Text? ==> r == ExtractNumberText(v.s)
    ensures v == NoValue ==> r.None?
    ensures v.Num? && v.x >= 0.0 && PositionalFloat(v.x) ==> r == Some(v.x)
    ensures v.Num? && !PositionalFloat(v.x) ==> r.Some? && 1.0 <= r.value < 10.0
  {
    match v
    case NoValue => None
    case Num(x) => Some(FloatReadBack(x))
    case Text(s) => ExtractNumberText(s)
  }

  /**
   * Reading a number back from a parsed numeric cell re-reads the `str` of
   * the cell's text reading: the same value when that reading lies in
   * [1e-4, 1e16) or is 0, and its mantissa otherwise.
   */
  lemma ExtractParsedNumber(cell: Option<string>, fieldType: string)
    requires fieldType in NumericFields
    ensures var t := if Present(cell) then ExtractNumberText(Strip(cell.value)) else None;
      ExtractNumber(ParseCellValue(cell, fieldType).0) == (if t.Some? then Some(FloatReadBack(t.value)) else None)
    ensures var t := if Present(cell) then ExtractNumberText(Strip(cell.value)) else None;
      t.Some? && PositionalFloat(t.value) ==> ExtractNumber(ParseCellValue(cell, fieldType).0) == t
  {
  }

  /**
   * A quantity cell `0.00005` is parsed to 5e-05, whose `str` is written in
   * exponent form, so the row reads its quantity back as 5.
   */
  lemma ExponentFormReadBack()
    ensures ParseCellValue(Some("0.00005"), "quantity").0 == Num(0.00005)
    ensures ExtractNumber(ParseCellValue(Some("0.00005"), "quantity").0) == Some(5.0)
  {
    TinyQuantityText();
    FiveMillionthsReadBack();
  }

  // ---------------------------------------------------------------------
  // One row

  /** Python truthiness of `data.get(k)`: a missing key, `None`, `0.0` and `""` are falsy. */
  predicate Truthy(v: Option<CellValue>) {
    match v
    case None => false
    case Some(NoValue) => false
    case Some(Num(x)) => x != 0.0
    case Some(Text(s)) => s != ""
  }

  /** `data` after the cells before column `n`: each header column assigns its field, later columns overwriting earlier ones. */
  function RowData(row: seq<Option<string>>, headers: map<nat, string>, n: nat): Dict<CellValue>
    requires n <= |row|
  {
    if n == 0 then []
    else
      var idx: nat := n - 1;
      var d := RowData(row, headers, idx);
      if idx in headers then Put(d, headers[idx], ParseCellValue(row[idx], headers[idx]).0) else d
  }

  /** `confidence_scores` after the cells before column `n`: one score per header column, in column order. */
  function RowConfidences(row: seq<Option<string>>, headers: map<nat, string>, n: nat): seq<real>
    requires n <= |row|
  {
    if n == 0 then []
    else
      var idx: nat := n - 1;
      var cs := RowConfidences(row, headers, idx);
      if idx in headers then cs + [ParseCellValue(row[idx], headers[idx]).1] else cs
  }

  /** The first cell, from column `from` on, whose stripped text is not empty. */
  function FirstNonEmptyCell(row: seq<Option<string>>, from: nat): (r: Option<string>)
    requires from <= |row|
    ensures r.None? <==> forall i :: from <= i < |row| ==> !(Present(row[i]) && Strip(row[i].value) != "")
    ensures r.Some? ==> r.value != "" && exists i :: from <= i < |row| && Present(row[i]) && r.value == Strip(row[i].value)
    decreases |row| - from
  {
    if from == |row| then None
    else if Present(row[from]) && Strip(row[from].value) != "" then Some(Strip(row[from].value))
    else FirstNonEmptyCell(row, from + 1)
  }

  /** The row's fields once a row with neither reference nor description has borrowed its first non-empty cell as description. */
  function RowFields(row: seq<Option<string>>, headers: map<nat, string>): Dict<CellValue> {
    WithFallbackDescription(RowData(row, headers, |row|), row)
  }

  function WithFallbackDescription(data: Dict<CellValue>, row: seq<Option<string>>): Dict<CellValue> {
    if !Identified(data) then
      match FirstNonEmptyCell(row, 0)
      case Some(s) => Put(data, "description", Text(s))
      case None => data
    else data
  }

  /** After the fallback the fields identify the item exactly when they did before or the row has a non-empty cell. */
  lemma FallbackIdentified(data: Dict<CellValue>, row: seq<Option<string>>)
    ensures Identified(WithFallbackDescription(data, row)) <==> Identified(data) || FirstNonEmptyCell(row, 0).Some?
  {
    var first := FirstNonEmptyCell(row, 0);
    if !Identified(data) && first.Some? {
      BorrowedDescription(data, first.value);
    }
  }

  /** A non-empty description identifies the item. */
  lemma BorrowedDescription(data: Dict<CellValue>, s: string)
    requires s != ""
    ensures Identified(Put(data, "description", Text(s)))
  {
    GetPut(data, "description", Text(s), "description");
  }

  /**
   * `str(data.get(k, default)).strip()` for a text field. As written, a
   * field whose cell was empty holds `None` and reads as the text "None";
   * the corrected reading gives the default instead. A text field never
   * holds a number (`RowFieldsShapes`).
   */
  function TextField(v: Option<CellValue>, default: string, asWritten: bool): string {
    match v
    case None => default
    case Some(NoValue) => if asWritten then "None" else default
    case Some(Text(s)) => Strip(s)
    case Some(Num(_)) => default
  }

  /** `data.get(k)` for the material and finish fields: the text, or nothing. */
  function TextOf(v: Option<CellValue>): (r: Option<string>)
    ensures r.Some? <==> v.Some? && v.value.Text?
  {
    if v.Some? && v.value.Text? then Some(v.value.s) else None
  }

  function RealId(x: real): real { x }

  /** The mean of the cell confidences, or 0.5 for a row with no header column. */
  function MeanConfidence(confs: seq<real>): real {
    if confs == [] then 0.5 else Sum(confs, RealId) / |confs| as real
  }

  /**
   * `_parse_row_to_item`: the item a table row describes, or nothing when
   * the row names neither a reference nor a description and has no
   * non-empty cell to borrow. A missing, unreadable or non-positive
   * quantity is 1.
   */
  function RowItem(row: seq<Option<string>>, headers: map<nat, string>, page: int, rowId: int, asWritten: bool): (r: Option<BomItem>)
    ensures r.Some? ==> r.value.quantity > 0.0 && r.value.rowId == rowId && r.value.sourcePage == page && r.value.rawRow == row
  {
    var data := RowFields(row, headers);
    if !Identified(data) then None
    else Some(ItemFromFields(data, RowConfidences(row, headers, |row|), page, rowId, row, asWritten))
  }

  /** Some reference or some description: `data.get('reference') or data.get('description')`. */
  predicate Identified(data: Dict<CellValue>) {
    Truthy(Get(data, "reference")) || Truthy(Get(data, "description"))
  }

  /** The `BOMItem(...)` built from the row's fields and cell confidences. */
  function ItemFromFields(data: Dict<CellValue>, confs: seq<real>, page: int, rowId: int, row: seq<Option<string>>, asWritten: bool): (item: BomItem)
    ensures item.quantity > 0.0 && item.rowId == rowId && item.sourcePage == page && item.rawRow == row
  {
    var q := ExtractNumber(Get(data, "quantity").GetOr(Text("1")));
    var unit := TextField(Get(data, "unit"), "un", asWritten);
    BomItem(
      rowId,
      TextField(Get(data, "reference"), "", asWritten),
      TextField(Get(data, "description"), "", asWritten),
      if q.None? || q.value <= 0.0 then 1.0 else q.value,
      if unit == "" then "un" else unit,
      ExtractNumber(Get(data, "length").GetOr(NoValue)),
      ExtractNumber(Get(data, "width").GetOr(NoValue)),
      ExtractNumber(Get(data, "height").GetOr(NoValue)),
      ExtractNumber(Get(data, "thickness").GetOr(NoValue)),
      TextOf(Get(data, "material")),
      TextOf(Get(data, "finish")),
      TextField(Get(data, "notes"), "", asWritten),
      MeanConfidence(confs),
      page,
      row)
  }

  /** The row reading with empty text cells read as their defaults. */
  function RowToItem(row: seq<Option<string>>, headers: map<nat, string>, page: int, rowId: int): Option<BomItem> {
    RowItem(row, headers, page, rowId, false)
  }

  /** The row reading as written, where an empty text cell becomes the text "None". */
  function RowToItemAsWritten(row: seq<Option<string>>, headers: map<nat, string>, page: int, rowId: int): Option<BomItem> {
    RowItem(row, headers, page, rowId, true)
  }

  /** A row is dropped exactly when it has no reference, no description and no non-empty cell at all. */
  lemma RowItemNoneIff(row: seq<Option<string>>, headers: map<nat, string>, page: int, rowId: int, asWritten: bool)
    ensures RowItem(row, headers, page, rowId, asWritten).None? <==>
      !Identified(RowData(row, headers, |row|)) && FirstNonEmptyCell(row, 0).None?
  {
    FallbackIdentified(RowData(row, headers, |row|), row);
  }

  lemma StripStable(s: string)
    ensures Strip(Strip(s)) == Strip(s)
  {
    var t := Strip(s);
    if t == [] {
      assert LStrip(t) == [];
    } else {
      StripTrimmed(t);
    }
  }

  /** What the entries of `data` can hold: numeric fields never hold text, other fields never hold a number, and every text is stripped. */
  predicate WellShaped(e: (string, CellValue)) {
    (e.0 in NumericFields ==> !e.1.Text?) && (e.0 !in NumericFields ==> !e.1.Num?) && (e.1.Text? ==> Strip(e.1.s) == e.1.s)
  }

  /** The text fields are not among the numeric ones. */
  lemma TextFieldsNotNumeric()
    ensures "reference" !in NumericFields && "description" !in NumericFields && "unit" !in NumericFields
    ensures "notes" !in NumericFields && "material" !in NumericFields && "finish" !in NumericFields
  {
    assert |"reference"| == 9 && |"description"| == 11 && |"unit"| == 4;
    assert |"notes"| == 5 && |"material"| == 8 && |"finish"| == 6;
    assert "notes" != "width" && "notes" != "price" by {
      assert "notes"[0] != "width"[0] && "notes"[0] != "price"[0];
    }
    assert "material" != "quantity" by {
      assert "material"[0] != "quantity"[0];
    }
    assert "finish" != "length" && "finish" != "height" && "finish" != "weight" by {
      assert "finish"[0] != "length"[0] && "finish"[0] != "height"[0] && "finish"[0] != "weight"[0];
    }
  }

  predicate AllWellShaped(d: Dict<CellValue>) {
    forall e :: e in d ==> WellShaped(e)
  }

  /** Assigning a well-shaped entry keeps every entry well shaped. */
  lemma PutWellShaped(d: Dict<CellValue>, k: string, v: CellValue)
    requires AllWellShaped(d) && WellShaped((k, v))
    ensures AllWellShaped(Put(d, k, v))
  {
    forall e | e in Put(d, k, v) ensures WellShaped(e) {
      PutEntries(d, k, v, e);
    }
  }

  /** A parsed cell stored under its own field is well shaped. */
  lemma ParsedCellWellShaped(cell: Option<string>, field: string)
    ensures WellShaped((field, ParseCellValue(cell, field).0))
  {
    if ParseCellValue(cell, field).0.Text? {
      StripStable(cell.value);
    }
  }

  lemma {:induction false} RowDataShapes(row: seq<Option<string>>, headers: map<nat, string>, n: nat)
    requires n <= |row|
    ensures AllWellShaped(RowData(row, headers, n))
    decreases n
  {
    if n > 0 {
      var idx: nat := n - 1;
      RowDataShapes(row, headers, idx);
      if idx in headers {
        ParsedCellWellShaped(row[idx], headers[idx]);
        PutWellShaped(RowData(row, headers, idx), headers[idx], ParseCellValue(row[idx], headers[idx]).0);
      }
    }
  }

  lemma FallbackShapes(data: Dict<CellValue>, row: seq<Option<string>>)
    requires AllWellShaped(data)
    ensures AllWellShaped(WithFallbackDescription(data, row))
  {
    var first := FirstNonEmptyCell(row, 0);
    if !Identified(data) && first.Some? {
      BorrowedCellStripped(row, 0);
      TextFieldsNotNumeric();
      PutWellShaped(data, "description", Text(first.value));
    }
  }

  /** The borrowed cell text is already stripped. */
  lemma {:induction false} BorrowedCellStripped(row: seq<Option<string>>, from: nat)
    requires from <= |row| && FirstNonEmptyCell(row, from).Some?
    ensures Strip(FirstNonEmptyCell(row, from).value) == FirstNonEmptyCell(row, from).value
    decreases |row| - from
  {
    if Present(row[from]) && Strip(row[from].value) != "" {
      StripStable(row[from].value);
    } else {
      BorrowedCellStripped(row, from + 1);
    }
  }

  /** What `data.get(k)` returns is an entry of `data`. */
  lemma GetWellShaped(d: Dict<CellValue>, k: string)
    requires AllWellShaped(d)
    ensures Get(d, k).Some? ==> WellShaped((k, Get(d, k).value))
  {
    if Get(d, k).Some? {
      var i :| 0 <= i < |d| && d[i] == (k, Get(d, k).value);
      assert d[i] in d;
    }
  }

  /** Every field the row reading sees is well shaped; in particular a text field never holds a number. */
  lemma RowFieldsShapes(row: seq<Option<string>>, headers: map<nat, string>, k: string)
    ensures Get(RowFields(row, headers), k).Some? ==> WellShaped((k, Get(RowFields(row, headers), k).value))
  {
    RowDataShapes(row, headers, |row|);
    FallbackShapes(RowData(row, headers, |row|), row);
    GetWellShaped(RowFields(row, headers), k);
  }

  /** The item a kept row gives is the one built from its fields. */
  lemma RowItemFromFields(row: seq<Option<string>>, headers: map<nat, string>, page: int, rowId: int, asWritten: bool)
    requires RowItem(row, headers, page, rowId, asWritten).Some?
    ensures RowItem(row, headers, page, rowId, asWritten).value
         == ItemFromFields(RowFields(row, headers), RowConfidences(row, headers, |row|), page, rowId, row, asWritten)
  {
  }

  /** A text field reads as empty exactly when it is falsy, once an empty cell reads as the default. */
  lemma TextFieldEmptyIff(v: Option<CellValue>, k: string)
    requires k !in NumericFields && (v.Some? ==> WellShaped((k, v.value)))
    ensures TextField(v, "", false) == "" <==> !Truthy(v)
  {
  }

  /** Corrected reading: an item's reference is empty exactly when the row gave no reference. */
  lemma RowToItemReference(row: seq<Option<string>>, headers: map<nat, string>, page: int, rowId: int)
    requires RowToItem(row, headers, page, rowId).Some?
    ensures RowToItem(row, headers, page, rowId).value.reference == "" <==> !Truthy(Get(RowFields(row, headers), "reference"))
  {
    var data := RowFields(row, headers);
    RowItemFromFields(row, headers, page, rowId, false);
    RowFieldsShapes(row, headers, "reference");
    TextFieldsNotNumeric();
    TextFieldEmptyIff(Get(data, "reference"), "reference");
  }

  /** The two columns of the example row: an empty reference cell and a description. */
  predicate ReferenceThenDescription(row: seq<Option<string>>, headers: map<nat, string>) {
    |row| == 2 && row[0] == Some("") && Present(row[1]) && Strip(row[1].value) == row[1].value
    && 0 in headers && headers[0] == "reference" && 1 in headers && headers[1] == "description"
  }

  /**
   * As written: a reference column whose cell is empty gives the reference
   * "None" — for instance the row `["", "Bracket"]` under the headers
   * reference, description.
   */
  lemma EmptyReferenceReadsNone(row: seq<Option<string>>, headers: map<nat, string>)
    requires ReferenceThenDescription(row, headers)
    ensures var r := RowToItemAsWritten(row, headers, 1, 1);
            r.Some? && r.value.reference == "None"
  {
    TwoCellRowData(row, headers);
    TwoFieldRow(row[1].value);
    RowItemFromFields(row, headers, 1, 1, true);
  }

  /** The same row read with the correction has an empty reference. */
  lemma EmptyReferenceReadsEmpty(row: seq<Option<string>>, headers: map<nat, string>)
    requires ReferenceThenDescription(row, headers)
    ensures var r := RowToItem(row, headers, 1, 1);
            r.Some? && r.value.reference == ""
  {
    TwoCellRowData(row, headers);
    TwoFieldRow(row[1].value);
    RowItemFromFields(row, headers, 1, 1, false);
  }

  lemma TwoCellRowData(row: seq<Option<string>>, headers: map<nat, string>)
    requires ReferenceThenDescription(row, headers)
    ensures RowData(row, headers, 2) == [("reference", NoValue), ("description", Text(row[1].value))]
  {
    var d1 := [("reference", NoValue)];
    assert RowData(row, headers, 1) == d1 by {
      RowDataStep(row, headers, 0);
      assert ParseCellValue(row[0], "reference").0 == NoValue;
    }
    RowDataStep(row, headers, 1);
    TextCell(row[1].value, "description");
    assert Put(d1, "description", Text(row[1].value)) == d1 + [("description", Text(row[1].value))] by {
      DescriptionIsNotReference();
      assert "description" !in Keys(d1);
    }
  }

  /** One more column: the dict after column `idx` is the dict before it with that column's field assigned. */
  lemma RowDataStep(row: seq<Option<string>>, headers: map<nat, string>, idx: nat)
    requires idx < |row|
    ensures RowData(row, headers, idx + 1)
         == if idx in headers then Put(RowData(row, headers, idx), headers[idx], ParseCellValue(row[idx], headers[idx]).0)
            else RowData(row, headers, idx)
  {
  }

  /** A non-empty cell of a text field reads as its stripped text. */
  lemma TextCell(c: string, field: string)
    requires c != "" && field in {"description", "reference"}
    ensures ParseCellValue(Some(c), field).0 == Text(Strip(c))
  {
    TextFieldsNotNumeric();
  }

  lemma DescriptionIsNotReference()
    ensures "description" != "reference"
  {
    assert |"description"| != |"reference"|;
  }

  /** A row naming no reference but a description is identified by the description. */
  lemma TwoFieldRow(desc: string)
    requires desc != ""
    ensures var d := [("reference", NoValue), ("description", Text(desc))];
            Get(d, "reference") == Some(NoValue) && Get(d, "description") == Some(Text(desc)) && Identified(d)
  {
    DescriptionIsNotReference();
  }

  /** The mean of confidences in [0, 1] lies in [0, 1]. */
  lemma {:induction false} SumUnit(confs: seq<real>)
    requires forall i :: 0 <= i < |confs| ==> 0.0 <= confs[i] <= 1.0
    ensures 0.0 <= Sum(confs, RealId) <= |confs| as real
    decreases |confs|
  {
    if confs != [] {
      SumUnit(confs[..|confs| - 1]);
    }
  }

  lemma MeanConfidenceUnit(confs: seq<real>)
    requires forall i :: 0 <= i < |confs| ==> 0.0 <= confs[i] <= 1.0
    ensures 0.0 <= MeanConfidence(confs) <= 1.0
  {
    SumUnit(confs);
    if confs != [] {
      var n := |confs| as real;
      var t := Sum(confs, RealId);
      assert t / n <= 1.0 by {
        assert t <= n;
      }
    }
  }

  lemma {:induction false} RowConfidencesUnit(row: seq<Option<string>>, headers: map<nat, string>, n: nat)
    requires n <= |row|
    ensures forall i :: 0 <= i < |RowConfidences(row, headers, n)| ==> 0.0 <= RowConfidences(row, headers, n)[i] <= 1.0
    decreases n
  {
    if n > 0 {
      RowConfidencesUnit(row, headers, n - 1);
    }
  }

  /** An item's confidence lies in [0, 1]. */
  lemma RowItemConfidence(row: seq<Option<string>>, headers: map<nat, string>, page: int, rowId: int, asWritten: bool)
    requires RowItem(row, headers, page, rowId, asWritten).Some?
    ensures 0.0 <= RowItem(row, headers, page, rowId, asWritten).value.confidence <= 1.0
  {
    RowItemFromFields(row, headers, page, rowId, asWritten);
    RowConfidencesUnit(row, headers, |row|);
    MeanConfidenceUnit(RowConfidences(row, headers, |row|));
  }
}
