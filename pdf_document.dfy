/**
 * The PDF reader's document state and the passes `parse` runs over it once
 * the pages have been read: table rows become BOM items, invalid and
 * repeated items are dropped and the rest renumbered, material and finish
 * gaps are filled from the constraints of the same page, the profile
 * references are listed, and the text is checked for the scattering typical
 * of CAD drawings.
 */
module PdfDocument {
  import opened Wrappers
  import opened Strings
  import opened Dicts
  import opened Patterns
  import opened Pdf
  import opened PdfItems

  // ---------------------------------------------------------------------
  // Table rows

  /** `not row or all(not cell for cell in row)`: a row with no non-empty cell is skipped before parsing. */
  predicate BlankRow(row: seq<Option<string>>) {
    forall i :: 0 <= i < |row| ==> !Present(row[i])
  }

  /** The BOM list after `_extract_bom_from_table` has read `rows` of one table, each new item numbered after the list so far. */
  function TableItems(bom: seq<BomItem>, rows: seq<seq<Option<string>>>, headers: map<nat, string>, page: int): seq<BomItem>
    decreases |rows|
  {
    if rows == [] then bom
    else AppendRow(TableItems(bom, rows[..|rows| - 1], headers, page), rows[|rows| - 1], headers, page)
  }

  /** One row of the table: skipped when blank, else appended when it reads as an item. */
  function AppendRow(bom: seq<BomItem>, row: seq<Option<string>>, headers: map<nat, string>, page: int): seq<BomItem> {
    if BlankRow(row) then bom
    else
      match RowToItem(row, headers, page, |bom| + 1)
      case Some(item) => bom + [item]
      case None => bom
  }

  /** A non-blank row adds the item it reads as, if any. */
  lemma AppendParsedRow(bom: seq<BomItem>, row: seq<Option<string>>, headers: map<nat, string>, page: int, item: Option<BomItem>)
    requires !BlankRow(row) && item == RowToItem(row, headers, page, |bom| + 1)
    ensures AppendRow(bom, row, headers, page) == if item.Some? then bom + [item.value] else bom
  {
  }

  lemma TableItemsStep(bom: seq<BomItem>, rows: seq<seq<Option<string>>>, i: nat, headers: map<nat, string>, page: int)
    requires i < |rows|
    ensures TableItems(bom, rows[..i + 1], headers, page) == AppendRow(TableItems(bom, rows[..i], headers, page), rows[i], headers, page)
  {
    assert rows[..i + 1][..i] == rows[..i];
  }

  /** Items numbered 1, 2, ... in list order. */
  predicate NumberedFromOne(items: seq<BomItem>) {
    forall i :: 0 <= i < |items| ==> items[i].rowId == i + 1
  }

  /**
   * Reading a table appends to the list and keeps it numbered: the items
   * already there are untouched, every new item comes from this page, and
   * a list numbered 1..n stays numbered 1..m.
   */
  lemma {:induction false} TableItemsExtend(bom: seq<BomItem>, rows: seq<seq<Option<string>>>, headers: map<nat, string>, page: int)
    ensures var r := TableItems(bom, rows, headers, page);
            bom <= r && |r| <= |bom| + |rows|
            && (forall i :: |bom| <= i < |r| ==> r[i].sourcePage == page && r[i].quantity > 0.0)
            && (NumberedFromOne(bom) ==> NumberedFromOne(r))
    decreases |rows|
  {
    if rows != [] {
      var prev := TableItems(bom, rows[..|rows| - 1], headers, page);
      TableItemsExtend(bom, rows[..|rows| - 1], headers, page);
      AppendRowShape(prev, rows[|rows| - 1], headers, page);
    }
  }

  /** One row leaves the list as it was or appends one item from this page, numbered next. */
  lemma AppendRowShape(bom: seq<BomItem>, row: seq<Option<string>>, headers: map<nat, string>, page: int)
    ensures var r := AppendRow(bom, row, headers, page);
            r == bom
            || (r == bom + [r[|bom|]] && r[|bom|].sourcePage == page && r[|bom|].quantity > 0.0 && r[|bom|].rowId == |bom| + 1)
  {
  }

  /** The cell loop of `_parse_row_to_item`: each header column assigns its parsed cell and records its confidence. */
  method ReadRowCells(row: seq<Option<string>>, headers: map<nat, string>) returns (data: Dict<CellValue>, confidenceScores: seq<real>)
    ensures data == RowData(row, headers, |row|)
    ensures confidenceScores == RowConfidences(row, headers, |row|)
  {
    data := [];
    confidenceScores := [];
    var idx := 0;
    while idx < |row|
      invariant 0 <= idx <= |row|
      invariant data == RowData(row, headers, idx)
      invariant confidenceScores == RowConfidences(row, headers, idx)
    {
      if idx in headers {
        var field := headers[idx];
        var parsed := ParseCellValue(row[idx], field);
        data := Put(data, field, parsed.0);
        confidenceScores := confidenceScores + [parsed.1];
      }
      idx := idx + 1;
    }
  }

  /** The fallback of `_parse_row_to_item`: an unidentified row takes its first non-empty cell as description. */
  method BorrowDescription(data: Dict<CellValue>, row: seq<Option<string>>) returns (filled: Dict<CellValue>)
    requires !Identified(data)
    ensures filled == WithFallbackDescription(data, row)
  {
    filled := data;
    var k := 0;
    while k < |row|
      invariant 0 <= k <= |row|
      invariant FirstNonEmptyCell(row, k) == FirstNonEmptyCell(row, 0)
    {
      if Present(row[k]) && Strip(row[k].value) != "" {
        filled := Put(data, "description", Text(Strip(row[k].value)));
        return;
      }
      k := k + 1;
    }
  }

  // ---------------------------------------------------------------------
  // De-duplication

  /** `(reference.lower(), description.lower()[:50], quantity, source_page)` */
  datatype DedupKey = DedupKey(reference: string, description: string, quantity: real, page: int)

  function KeyOf(item: BomItem): DedupKey {
    DedupKey(Lower(item.reference), Take(Lower(item.description), 50), item.quantity, item.sourcePage)
  }

  function KeySet(items: seq<BomItem>): set<DedupKey> {
    set i | 0 <= i < |items| :: KeyOf(items[i])
  }

  /** The keys of the valid items. */
  function ValidKeys(items: seq<BomItem>, isValid: BomItem -> bool): set<DedupKey> {
    set i | 0 <= i < |items| && isValid(items[i]) :: KeyOf(items[i])
  }

  /** The items the pass keeps, in order: each valid item whose key no item kept before it has. */
  function Kept(items: seq<BomItem>, isValid: BomItem -> bool): seq<BomItem>
    decreases |items|
  {
    if items == [] then []
    else
      var prev := Kept(items[..|items| - 1], isValid);
      var item := items[|items| - 1];
      if isValid(item) && KeyOf(item) !in KeySet(prev) then prev + [item] else prev
  }

  /** Position `i` holds a valid item and no valid item before it has its key. */
  predicate FirstOfKey(items: seq<BomItem>, isValid: BomItem -> bool, i: nat)
    requires i < |items|
  {
    isValid(items[i]) && forall j :: 0 <= j < i ==> !(isValid(items[j]) && KeyOf(items[j]) == KeyOf(items[i]))
  }

  /** The items at the positions among the first `n` that are first of their key, in order. */
  function FirstsOfKeys(items: seq<BomItem>, isValid: BomItem -> bool, n: nat): seq<BomItem>
    requires n <= |items|
  {
    if n == 0 then []
    else FirstsOfKeys(items, isValid, n - 1) + (if FirstOfKey(items, isValid, n - 1) then [items[n - 1]] else [])
  }

  /** The `seen` set of the pass: the keys kept are exactly the keys of the valid items met so far. */
  lemma {:induction false} KeptKeys(items: seq<BomItem>, isValid: BomItem -> bool)
    ensures KeySet(Kept(items, isValid)) == ValidKeys(items, isValid)
    decreases |items|
  {
    if items != [] {
      var init := items[..|items| - 1];
      var item := items[|items| - 1];
      KeptKeys(init, isValid);
      var prev := Kept(init, isValid);
      KeySetSnoc(prev, item);
      ValidKeysSnoc(init, item, isValid);
      assert init + [item] == items;
    }
  }

  lemma KeySetSnoc(s: seq<BomItem>, item: BomItem)
    ensures KeySet(s + [item]) == KeySet(s) + {KeyOf(item)}
  {
    var t := s + [item];
    assert t[|s|] == item;
    forall k | k in KeySet(t) ensures k in KeySet(s) + {KeyOf(item)} {
      var i :| 0 <= i < |t| && KeyOf(t[i]) == k;
      if i < |s| {
        assert t[i] == s[i];
      }
    }
    forall k | k in KeySet(s) ensures k in KeySet(t) {
      var i :| 0 <= i < |s| && KeyOf(s[i]) == k;
      assert t[i] == s[i];
    }
  }

  lemma ValidKeysSnoc(s: seq<BomItem>, item: BomItem, isValid: BomItem -> bool)
    ensures ValidKeys(s + [item], isValid) == ValidKeys(s, isValid) + (if isValid(item) then {KeyOf(item)} else {})
  {
    var t := s + [item];
    assert t[|s|] == item;
    forall k | k in ValidKeys(t, isValid) ensures k in ValidKeys(s, isValid) + (if isValid(item) then {KeyOf(item)} else {}) {
      var i :| 0 <= i < |t| && isValid(t[i]) && KeyOf(t[i]) == k;
      if i < |s| {
        assert t[i] == s[i];
      }
    }
    forall k | k in ValidKeys(s, isValid) ensures k in ValidKeys(t, isValid) {
      var i :| 0 <= i < |s| && isValid(s[i]) && KeyOf(s[i]) == k;
      assert t[i] == s[i];
    }
  }

  /**
   * The pass keeps exactly the first valid item of every key, in the order
   * of the list: the running `seen` set agrees with the positional reading.
   */
  lemma {:induction false} KeptIsFirstsOfKeys(items: seq<BomItem>, isValid: BomItem -> bool, n: nat)
    requires n <= |items|
    ensures Kept(items[..n], isValid) == FirstsOfKeys(items, isValid, n)
    decreases n
  {
    if n > 0 {
      var init := items[..n - 1];
      assert items[..n][..n - 1] == init;
      KeptIsFirstsOfKeys(items, isValid, n - 1);
      KeptKeys(init, isValid);
      var item := items[n - 1];
      if isValid(item) {
        if KeyOf(item) in ValidKeys(init, isValid) {
          var j :| 0 <= j < |init| && isValid(init[j]) && KeyOf(init[j]) == KeyOf(item);
          assert items[j] == init[j];
          assert !FirstOfKey(items, isValid, n - 1);
        } else {
          forall j | 0 <= j < n - 1 ensures !(isValid(items[j]) && KeyOf(items[j]) == KeyOf(item)) {
            assert items[j] == init[j];
          }
        }
      }
    }
  }

  /** No two kept items share a key, and every kept item is valid and comes from the list. */
  lemma {:induction false} KeptDistinct(items: seq<BomItem>, isValid: BomItem -> bool)
    ensures var r := Kept(items, isValid);
            (forall i, j :: 0 <= i < j < |r| ==> KeyOf(r[i]) != KeyOf(r[j]))
            && (forall i :: 0 <= i < |r| ==> isValid(r[i]) && r[i] in items)
            && |r| <= |items|
    decreases |items|
  {
    if items != [] {
      var init := items[..|items| - 1];
      KeptDistinct(init, isValid);
      var prev := Kept(init, isValid);
      var item := items[|items| - 1];
      if isValid(item) && KeyOf(item) !in KeySet(prev) {
        var r := prev + [item];
        forall i, j | 0 <= i < j < |r| ensures KeyOf(r[i]) != KeyOf(r[j]) {
          if j == |prev| {
            assert KeyOf(r[i]) in KeySet(prev) by { assert r[i] == prev[i]; }
          }
        }
      }
      forall x | x in init ensures x in items {
        var k :| 0 <= k < |init| && init[k] == x;
        assert items[k] == x;
      }
    }
  }

  // ---------------------------------------------------------------------
  // Gap filling from constraints

  /** `[c for c in constraints if c.source_page == page]` */
  function PageConstraints(cs: seq<TechnicalConstraint>, page: int): (r: seq<TechnicalConstraint>)
    ensures forall c :: c in r <==> c in cs && c.sourcePage == page
    ensures |r| <= |cs|
    decreases |cs|
  {
    if cs == [] then []
    else
      var rest := PageConstraints(cs[1..], page);
      assert forall c :: c in cs <==> c == cs[0] || c in cs[1..];
      if cs[0].sourcePage == page then [cs[0]] + rest else rest
  }

  /** One constraint applied to an item: a grade fills a missing material, else a treatment fills a missing finish. */
  function FillFromConstraint(item: BomItem, c: TechnicalConstraint): BomItem {
    if c.constraintType == "material_grade" && !Present(item.material) then item.(material := Some(c.value))
    else if c.constraintType == "surface_treatment" && !Present(item.finish) then item.(finish := Some(c.value))
    else item
  }

  /** The constraints applied in list order. */
  function FillFromConstraints(item: BomItem, cs: seq<TechnicalConstraint>): BomItem
    decreases |cs|
  {
    if cs == [] then item else FillFromConstraint(FillFromConstraints(item, cs[..|cs| - 1]), cs[|cs| - 1])
  }

  /** A constraint of kind `kind` carrying a non-empty value. */
  predicate Supplies(c: TechnicalConstraint, kind: string) {
    c.constraintType == kind && c.value != ""
  }

  /** The constraint at `j` is the first to supply `kind`. */
  predicate FirstSupplier(cs: seq<TechnicalConstraint>, kind: string, j: int) {
    0 <= j < |cs| && Supplies(cs[j], kind) && forall k :: 0 <= k < j ==> !Supplies(cs[k], kind)
  }

  /** Filling changes the material and the finish and no other field. */
  lemma {:induction false} FillTouchesOnlyMaterialAndFinish(item: BomItem, cs: seq<TechnicalConstraint>)
    ensures var r := FillFromConstraints(item, cs);
            r == item.(material := r.material, finish := r.finish)
    decreases |cs|
  {
    if cs != [] {
      FillTouchesOnlyMaterialAndFinish(item, cs[..|cs| - 1]);
    }
  }

  /** The field a kind of constraint fills: the material for a grade, the finish for a treatment. */
  function Slot(item: BomItem, kind: string): Option<string> {
    if kind == "material_grade" then item.material else item.finish
  }

  predicate FillingKind(kind: string) {
    kind == "material_grade" || kind == "surface_treatment"
  }

  lemma KindsDiffer()
    ensures "material_grade" != "surface_treatment"
  {
    assert |"material_grade"| != |"surface_treatment"|;
  }

  /** One constraint fills the field of its own kind when that field is missing, and leaves the other field alone. */
  lemma FillStepSlot(x: BomItem, c: TechnicalConstraint, kind: string)
    requires FillingKind(kind)
    ensures Slot(FillFromConstraint(x, c), kind)
         == if c.constraintType == kind && !Present(Slot(x, kind)) then Some(c.value) else Slot(x, kind)
  {
    KindsDiffer();
  }

  /**
   * A filled field after all the constraints: a present value is never
   * overwritten; a missing one takes the value of the first constraint of
   * its kind with a non-empty value, and stays missing (absent or empty)
   * when there is none.
   */
  lemma FillSlot(item: BomItem, cs: seq<TechnicalConstraint>, kind: string)
    requires FillingKind(kind)
    ensures var v := Slot(FillFromConstraints(item, cs), kind);
            (Present(Slot(item, kind)) ==> v == Slot(item, kind))
            && (!Present(Slot(item, kind)) ==> forall j :: FirstSupplier(cs, kind, j) ==> v == Some(cs[j].value))
            && (Present(v) <==> Present(Slot(item, kind)) || exists j :: 0 <= j < |cs| && Supplies(cs[j], kind))
  {
    FillSlotValue(item, cs, kind);
    FillSlotPresence(item, cs, kind);
  }

  /** A present field is kept; a missing one takes the first supplier's value. */
  lemma {:induction false} FillSlotValue(item: BomItem, cs: seq<TechnicalConstraint>, kind: string)
    requires FillingKind(kind)
    ensures var v := Slot(FillFromConstraints(item, cs), kind);
            (Present(Slot(item, kind)) ==> v == Slot(item, kind))
            && (!Present(Slot(item, kind)) ==> forall j :: FirstSupplier(cs, kind, j) ==> v == Some(cs[j].value))
    decreases |cs|
  {
    if cs != [] {
      var init := cs[..|cs| - 1];
      var c := cs[|cs| - 1];
      assert init + [c] == cs;
      FillSlotValue(item, init, kind);
      FillSlotPresence(item, init, kind);
      FillStepSlot(FillFromConstraints(item, init), c, kind);
      SuppliersSnoc(init, c, kind);
    }
  }

  /** The field ends up present exactly when it was, or some constraint supplies it. */
  lemma {:induction false} FillSlotPresence(item: BomItem, cs: seq<TechnicalConstraint>, kind: string)
    requires FillingKind(kind)
    ensures Present(Slot(FillFromConstraints(item, cs), kind))
            <==> Present(Slot(item, kind)) || exists j :: 0 <= j < |cs| && Supplies(cs[j], kind)
    decreases |cs|
  {
    if cs != [] {
      var init := cs[..|cs| - 1];
      var c := cs[|cs| - 1];
      assert init + [c] == cs;
      FillSlotPresence(item, init, kind);
      FillStepSlot(FillFromConstraints(item, init), c, kind);
      SuppliersSnoc(init, c, kind);
    }
  }

  /** The suppliers of `cs + [c]`: those of `cs`, then `c` when it supplies and `cs` has none. */
  lemma SuppliersSnoc(cs: seq<TechnicalConstraint>, c: TechnicalConstraint, kind: string)
    ensures var t := cs + [c];
            ((exists j :: 0 <= j < |t| && Supplies(t[j], kind)) <==> (exists j :: 0 <= j < |cs| && Supplies(cs[j], kind)) || Supplies(c, kind))
            && (forall j :: FirstSupplier(t, kind, j) ==> (j < |cs| && FirstSupplier(cs, kind, j)) || (j == |cs| && Supplies(c, kind) && forall k :: 0 <= k < |cs| ==> !Supplies(cs[k], kind)))
  {
    var t := cs + [c];
    assert t[|cs|] == c;
    if exists j :: 0 <= j < |t| && Supplies(t[j], kind) {
      var j :| 0 <= j < |t| && Supplies(t[j], kind);
      if j < |cs| {
        assert cs[j] == t[j];
      }
    }
    if exists j :: 0 <= j < |cs| && Supplies(cs[j], kind) {
      var j :| 0 <= j < |cs| && Supplies(cs[j], kind);
      assert t[j] == cs[j];
    }
    forall j | FirstSupplier(t, kind, j)
      ensures (j < |cs| && FirstSupplier(cs, kind, j)) || (j == |cs| && Supplies(c, kind) && forall k :: 0 <= k < |cs| ==> !Supplies(cs[k], kind))
    {
      forall k | 0 <= k < j && k < |cs| ensures !Supplies(cs[k], kind) {
        assert cs[k] == t[k];
      }
      if j < |cs| {
        assert cs[j] == t[j];
      }
    }
  }

  /** The material after filling: kept when present, else the first non-empty grade, else still missing. */
  lemma FillMaterial(item: BomItem, cs: seq<TechnicalConstraint>)
    ensures var r := FillFromConstraints(item, cs);
            (Present(item.material) ==> r.material == item.material)
            && (!Present(item.material) ==> forall j :: FirstSupplier(cs, "material_grade", j) ==> r.material == Some(cs[j].value))
            && (Present(r.material) <==> Present(item.material) || exists j :: 0 <= j < |cs| && Supplies(cs[j], "material_grade"))
  {
    FillSlot(item, cs, "material_grade");
  }

  /** The finish after filling: kept when present, else the first non-empty treatment, else still missing. */
  lemma FillFinish(item: BomItem, cs: seq<TechnicalConstraint>)
    ensures var r := FillFromConstraints(item, cs);
            (Present(item.finish) ==> r.finish == item.finish)
            && (!Present(item.finish) ==> forall j :: FirstSupplier(cs, "surface_treatment", j) ==> r.finish == Some(cs[j].value))
            && (Present(r.finish) <==> Present(item.finish) || exists j :: 0 <= j < |cs| && Supplies(cs[j], "surface_treatment"))
  {
    KindsDiffer();
    FillSlot(item, cs, "surface_treatment");
  }

  /** An item whose page has no constraints comes out unchanged. */
  lemma NoPageConstraints(item: BomItem, cs: seq<TechnicalConstraint>)
    requires forall c :: c in cs ==> c.sourcePage != item.sourcePage
    ensures FillFromConstraints(item, PageConstraints(cs, item.sourcePage)) == item
  {
  }

  // ---------------------------------------------------------------------
  // Fragmented text

  /** The counts `_check_if_text_fragmented` accumulates over the text blocks. */
  datatype TextTotals = TextTotals(chars: nat, newlines: nat, lines: nat, shortLines: nat)

  /** `sum(1 for l in lines if len(l.strip()) <= 1)` */
  function ShortLines(lines: seq<string>): (n: nat)
    ensures n <= |lines|
    decreases |lines|
  {
    if lines == [] then 0 else (if |Strip(lines[0])| <= 1 then 1 else 0) + ShortLines(lines[1..])
  }

  function BlockTotals(blocks: seq<string>): TextTotals
    decreases |blocks|
  {
    if blocks == [] then TextTotals(0, 0, 0, 0)
    else
      var t := BlockTotals(blocks[..|blocks| - 1]);
      var content := blocks[|blocks| - 1];
      var lines := SplitOn(content, '\n');
      TextTotals(t.chars + |content|, t.newlines + CountChar(content, '\n'), t.lines + |lines|, t.shortLines + ShortLines(lines))
  }

  /** The source's test on the totals, with its ratios over the reals. */
  predicate IsFragmented(blocks: seq<string>) {
    if blocks == [] then false else FragmentedTotals(BlockTotals(blocks))
  }

  predicate FragmentedTotals(t: TextTotals) {
    if t.chars == 0 || t.lines == 0 then false
    else
      var newlineRatio := t.newlines as real / (if t.chars >= 1 then t.chars else 1) as real;
      var shortRatio := t.shortLines as real / (if t.lines >= 1 then t.lines else 1) as real;
      newlineRatio > 0.15 || shortRatio > 0.3
  }

  lemma {:induction false} CountCharBound(s: string, c: char)
    ensures CountChar(s, c) <= |s|
    decreases |s|
  {
    if s != [] {
      CountCharBound(s[1..], c);
    }
  }

  /** Every block gives one line more than it has newlines, no more newlines than characters, and at most one short line per line. */
  lemma {:induction false} BlockTotalsShape(blocks: seq<string>)
    ensures var t := BlockTotals(blocks);
            t.lines == t.newlines + |blocks| && t.newlines <= t.chars && t.shortLines <= t.lines
    decreases |blocks|
  {
    if blocks != [] {
      BlockTotalsShape(blocks[..|blocks| - 1]);
      CountCharBound(blocks[|blocks| - 1], '\n');
    }
  }

  /**
   * The test in whole numbers: the text is fragmented exactly when it has
   * characters and more than 15 newlines per 100 characters or more than
   * 3 short lines in 10. A line count of 0 cannot happen once there is a block.
   */
  lemma FragmentedIff(blocks: seq<string>)
    ensures var t := BlockTotals(blocks);
            IsFragmented(blocks) <==> t.chars > 0 && (20 * t.newlines > 3 * t.chars || 10 * t.shortLines > 3 * t.lines)
  {
    var t := BlockTotals(blocks);
    BlockTotalsShape(blocks);
    if blocks != [] {
      FragmentedTotalsIff(t);
    }
  }

  lemma FragmentedTotalsIff(t: TextTotals)
    requires t.lines >= 1
    ensures FragmentedTotals(t) <==> t.chars > 0 && (20 * t.newlines > 3 * t.chars || 10 * t.shortLines > 3 * t.lines)
  {
    if t.chars > 0 {
      RatioAbove(t.newlines, t.chars, 20, 3);
      RatioAbove(t.shortLines, t.lines, 10, 3);
      assert 0.15 == 3 as real / 20 as real && 0.3 == 3 as real / 10 as real;
    }
  }

  /** `a / b > num / den` over the reals exactly when `den * a > num * b` over the integers. */
  lemma RatioAbove(a: nat, b: nat, den: nat, num: nat)
    requires b > 0 && den > 0
    ensures a as real / b as real > num as real / den as real <==> den * a > num * b
  {
    var x := a as real / b as real;
    var y := num as real / den as real;
    assert x * b as real == a as real;
    assert y * den as real == num as real;
    assert (den * a) as real == den as real * a as real;
    assert (num * b) as real == num as real * b as real;
    if x > y {
      assert den as real * b as real * x > den as real * b as real * y;
    }
    if den * a > num * b {
      assert den as real * b as real * x > den as real * b as real * y;
    }
  }

  // ---------------------------------------------------------------------
  // Profile references

  /** `[A-Z]{1,3}[\-_]?\d{2,4}` under `re.IGNORECASE` */
  const ReferencePattern: Pattern := [Atom(AnyCaseLetter, 1, Some(3)), Opt(Chars("-_")), Between(Digit, 2, 4)]

  /** The reference a constraint names: for a grade or dimension constraint, the first match in its value, upper-cased. */
  function ConstraintReference(c: TechnicalConstraint): Option<string> {
    if c.constraintType == "material_grade" || c.constraintType == "dimension_spec" then
      match SearchText(ReferencePattern, c.value)
      case Some(m) => Some(Upper(m))
      case None => None
    else None
  }

  /** The reference an item names: its non-empty reference, upper-cased and cleaned. */
  function ItemReference(item: BomItem): Option<string> {
    if item.reference != "" then Some(Clean(Upper(item.reference))) else None
  }

  /** The names `f` gives the first `n` elements, gathered into a set. */
  function Collected<T>(s: seq<T>, f: T -> Option<string>, n: nat): set<string>
    requires n <= |s|
  {
    if n == 0 then {}
    else Collected(s, f, n - 1) + (if f(s[n - 1]).Some? then {f(s[n - 1]).value} else {})
  }

  lemma {:induction false} CollectedMembers<T>(s: seq<T>, f: T -> Option<string>, n: nat)
    requires n <= |s|
    ensures forall x :: x in Collected(s, f, n) <==> exists i :: 0 <= i < n && f(s[i]) == Some(x)
    decreases n
  {
    if n > 0 {
      CollectedMembers(s, f, n - 1);
    }
  }

  /** The references of the document: those of the items and those of the constraints. */
  function ReferenceSet(items: seq<BomItem>, cs: seq<TechnicalConstraint>): set<string> {
    Collected(items, ItemReference, |items|) + Collected(cs, ConstraintReference, |cs|)
  }

  /**
   * The document's references are exactly the cleaned, upper-cased
   * non-empty item references and the upper-cased first pattern match in
   * the value of each grade or dimension constraint.
   */
  lemma ReferenceSetMembers(items: seq<BomItem>, cs: seq<TechnicalConstraint>, x: string)
    ensures x in ReferenceSet(items, cs) <==>
              (exists i :: 0 <= i < |items| && items[i].reference != "" && x == Clean(Upper(items[i].reference)))
              || (exists j :: 0 <= j < |cs| && (cs[j].constraintType == "material_grade" || cs[j].constraintType == "dimension_spec")
                             && SearchText(ReferencePattern, cs[j].value).Some? && x == Upper(SearchText(ReferencePattern, cs[j].value).value))
  {
    CollectedMembers(items, ItemReference, |items|);
    CollectedMembers(cs, ConstraintReference, |cs|);
  }

  function Identity(s: string): string { s }

  predicate NoRepeats(s: seq<string>) {
    forall i, j :: 0 <= i < j < |s| ==> s[i] != s[j]
  }

  /** A sorted list without repeats is fixed by its members: `sorted(list(references))` has only one answer. */
  lemma {:induction false} SortedListingUnique(a: seq<string>, b: seq<string>)
    requires SortedBy(a, Identity) && SortedBy(b, Identity) && NoRepeats(a) && NoRepeats(b)
    requires forall x :: x in a <==> x in b
    ensures a == b
    decreases |a|
  {
    if a != [] {
      assert a[0] in b;
      assert b != [];
      assert b[0] in a;
      var i :| 0 <= i < |a| && a[i] == b[0];
      var j :| 0 <= j < |b| && b[j] == a[0];
      if a[0] != b[0] {
        assert 0 < i && 0 < j;
        assert StrLe(a[0], a[i]);
        assert StrLe(b[0], b[j]);
        StrLeAntisym(a[0], b[0]);
      }
      forall x ensures x in a[1..] <==> x in b[1..] {
        if x in a[1..] {
          var k :| 1 <= k < |a| && a[k] == x;
          assert x in b;
          var m :| 0 <= m < |b| && b[m] == x;
          assert m != 0;
          assert b[1..][m - 1] == x;
        }
        if x in b[1..] {
          var k :| 1 <= k < |b| && b[k] == x;
          assert x in a;
          var m :| 0 <= m < |a| && a[m] == x;
          assert m != 0;
          assert a[1..][m - 1] == x;
        }
      }
      SortedListingUnique(a[1..], b[1..]);
      assert a == [a[0]] + a[1..] && b == [b[0]] + b[1..];
    } else if |b| > 0 {
      HeadIsMember(b);
      assert false;
    }
  }

  lemma HeadIsMember(s: seq<string>)
    requires |s| > 0
    ensures s[0] in s
  {
  }

  /** A list in which every element occurs once has no repeats. */
  lemma MultisetOnce(s: seq<string>)
    requires forall x :: multiset(s)[x] <= 1
    ensures NoRepeats(s)
  {
    forall i, j | 0 <= i < j < |s| ensures s[i] != s[j] {
      assert s == s[..j] + s[j..];
      assert s[i] in multiset(s[..j]) by { assert s[..j][i] == s[i]; }
      assert s[j] in multiset(s[j..]) by { assert s[j..][0] == s[j]; }
      assert multiset(s) == multiset(s[..j]) + multiset(s[j..]);
      assert multiset(s)[s[i]] <= 1 && multiset(s)[s[j]] <= 1;
    }
  }

  /** `sorted(list(names))`: the names in order, each once. */
  method SortedListing(names: set<string>) returns (listing: seq<string>)
    ensures SortedBy(listing, Identity) && NoRepeats(listing)
    ensures forall x :: x in listing <==> x in names
  {
    listing := [];
    var rest := names;
    while rest != {}
      invariant rest <= names
      invariant forall x :: multiset(listing)[x] == (if x in names - rest then 1 else 0)
      invariant SortedBy(listing, Identity)
      decreases |rest|
    {
      var r :| r in rest;
      var longer := InsertSorted(r, listing, Identity);
      forall x ensures multiset(longer)[x] == (if x in names - (rest - {r}) then 1 else 0) {
        assert multiset(longer)[x] == multiset(listing)[x] + (if x == r then 1 else 0);
      }
      listing := longer;
      rest := rest - {r};
    }
    MultisetOnce(listing);
    forall x ensures x in listing <==> x in names {
      assert x in listing <==> x in multiset(listing);
    }
  }

  /**
   * The item loop of `_extract_all_profile_references`: the names `f` gives
   * the elements of `s`, gathered one element at a time.
   */
  method CollectNames<T>(s: seq<T>, f: T -> Option<string>) returns (names: set<string>)
    ensures names == Collected(s, f, |s|)
  {
    names := {};
    var i := 0;
    while i < |s|
      invariant 0 <= i <= |s|
      invariant names == Collected(s, f, i)
    {
      var named := f(s[i]);
      if named.Some? {
        names := names + {named.value};
      }
      i := i + 1;
    }
  }

  /** The constraint loop of `_extract_all_profile_references`. */
  method ConstraintReferencesOf(cs: seq<TechnicalConstraint>) returns (references: set<string>)
    ensures references == Collected(cs, ConstraintReference, |cs|)
  {
    references := {};
    var j := 0;
    while j < |cs|
      invariant 0 <= j <= |cs|
      invariant references == Collected(cs, ConstraintReference, j)
    {
      var constraint := cs[j];
      if constraint.constraintType == "material_grade" || constraint.constraintType == "dimension_spec" {
        var refMatch := SearchText(ReferencePattern, constraint.value);
        if refMatch.Some? {
          references := references + {Upper(refMatch.value)};
        }
      }
      j := j + 1;
    }
  }

  /** The accumulation loop of `_check_if_text_fragmented`. */
  method AccumulateTotals(blocks: seq<string>) returns (totalChars: nat, totalNewlines: nat, totalLines: nat, shortLines: nat)
    ensures BlockTotals(blocks) == TextTotals(totalChars, totalNewlines, totalLines, shortLines)
  {
    totalChars, totalNewlines, totalLines, shortLines := 0, 0, 0, 0;
    var i := 0;
    while i < |blocks|
      invariant 0 <= i <= |blocks|
      invariant BlockTotals(blocks[..i]) == TextTotals(totalChars, totalNewlines, totalLines, shortLines)
    {
      var content := blocks[i];
      assert blocks[..i + 1][..i] == blocks[..i];
      totalChars := totalChars + |content|;
      totalNewlines := totalNewlines + CountChar(content, '\n');
      var lines := SplitOn(content, '\n');
      totalLines := totalLines + |lines|;
      shortLines := shortLines + ShortLines(lines);
      i := i + 1;
    }
    assert blocks[..i] == blocks;
  }

  // ---------------------------------------------------------------------
  // The reader

  class PdfReader {
    /** `bom_items`: the items read so far. */
    var bomItems: seq<BomItem>
    /** `constraints`: the requirements found in the text. */
    var constraints: seq<TechnicalConstraint>
    /** The `content` of each entry of `all_text_content`. */
    var textBlocks: seq<string>

    /** The reader as page reading leaves it: the items, constraints and text blocks found on the pages. */
    constructor (items: seq<BomItem>, found: seq<TechnicalConstraint>, blocks: seq<string>)
      ensures bomItems == items && constraints == found && textBlocks == blocks
    {
      bomItems := items;
      constraints := found;
      textBlocks := blocks;
    }

    /** `_parse_row_to_item`: the row read into an item numbered after the items so far. */
    method ParseRowToItem(row: seq<Option<string>>, headers: map<nat, string>, page: int) returns (item: Option<BomItem>)
      ensures item == RowToItem(row, headers, page, |bomItems| + 1)
    {
      var data, confidenceScores := ReadRowCells(row, headers);
      if !Identified(data) {
        data := BorrowDescription(data, row);
      }
      if !Identified(data) {
        return None;
      }
      item := Some(ItemFromFields(data, confidenceScores, page, |bomItems| + 1, row, false));
    }

    /** `_extract_bom_from_table`: every non-blank row that reads as an item is appended. */
    method ExtractBomFromTable(rows: seq<seq<Option<string>>>, headers: map<nat, string>, page: int)
      modifies this
      ensures bomItems == TableItems(old(bomItems), rows, headers, page)
      ensures constraints == old(constraints) && textBlocks == old(textBlocks)
    {
      var i := 0;
      while i < |rows|
        invariant 0 <= i <= |rows|
        invariant bomItems == TableItems(old(bomItems), rows[..i], headers, page)
        invariant constraints == old(constraints) && textBlocks == old(textBlocks)
      {
        var row := rows[i];
        TableItemsStep(old(bomItems), rows, i, headers, page);
        if !BlankRow(row) {
          var item := ParseRowToItem(row, headers, page);
          AppendParsedRow(bomItems, row, headers, page, item);
          if item.Some? {
            bomItems := bomItems + [item.value];
          }
        }
        i := i + 1;
      }
      assert rows[..i] == rows;
    }

    /**
     * `_validate_and_dedupe_bom_items`: keep the first valid item of each
     * key, in order, and number the kept items 1..n. `isValid` stands for
     * `_is_valid_bom_item`.
     */
    method ValidateAndDedupeBomItems(isValid: BomItem -> bool)
      modifies this
      ensures var kept := Kept(old(bomItems), isValid);
              |bomItems| == |kept| && forall i :: 0 <= i < |bomItems| ==> bomItems[i] == kept[i].(rowId := i + 1)
      ensures constraints == old(constraints) && textBlocks == old(textBlocks)
    {
      var seen: set<DedupKey> := {};
      var validItems: seq<BomItem> := [];
      var i := 0;
      while i < |bomItems|
        invariant 0 <= i <= |bomItems|
        invariant validItems == Kept(bomItems[..i], isValid)
        invariant seen == KeySet(validItems)
        invariant bomItems == old(bomItems) && constraints == old(constraints) && textBlocks == old(textBlocks)
      {
        var item := bomItems[i];
        assert bomItems[..i + 1][..i] == bomItems[..i];
        if isValid(item) {
          var key := DedupKey(Lower(item.reference), Take(Lower(item.description), 50), item.quantity, item.sourcePage);
          if key !in seen {
            KeySetSnoc(validItems, item);
            seen := seen + {key};
            validItems := validItems + [item];
          }
        }
        i := i + 1;
      }
      assert bomItems[..i] == bomItems;
      ghost var kept := validItems;
      var j := 0;
      while j < |validItems|
        invariant 0 <= j <= |validItems| == |kept|
        invariant forall k :: 0 <= k < j ==> validItems[k] == kept[k].(rowId := k + 1)
        invariant forall k :: j <= k < |validItems| ==> validItems[k] == kept[k]
        invariant kept == Kept(old(bomItems), isValid)
        invariant constraints == old(constraints) && textBlocks == old(textBlocks)
      {
        validItems := validItems[j := validItems[j].(rowId := j + 1)];
        j := j + 1;
      }
      bomItems := validItems;
    }

    /**
     * `_correlate_constraints_with_items`: each item takes the constraints
     * of its own page in order, a grade filling a missing material and a
     * treatment a missing finish.
     */
    method CorrelateConstraintsWithItems()
      modifies this
      ensures |bomItems| == |old(bomItems)|
      ensures forall i :: 0 <= i < |bomItems| ==>
                bomItems[i] == FillFromConstraints(old(bomItems)[i], PageConstraints(constraints, old(bomItems)[i].sourcePage))
      ensures constraints == old(constraints) && textBlocks == old(textBlocks)
    {
      var i := 0;
      while i < |bomItems|
        invariant 0 <= i <= |bomItems| == |old(bomItems)|
        invariant constraints == old(constraints) && textBlocks == old(textBlocks)
        invariant forall k :: 0 <= k < i ==>
                    bomItems[k] == FillFromConstraints(old(bomItems)[k], PageConstraints(constraints, old(bomItems)[k].sourcePage))
        invariant forall k :: i <= k < |bomItems| ==> bomItems[k] == old(bomItems)[k]
      {
        var item := bomItems[i];
        var pageConstraints := PageConstraints(constraints, item.sourcePage);
        var j := 0;
        while j < |pageConstraints|
          invariant 0 <= j <= |pageConstraints|
          invariant item == FillFromConstraints(bomItems[i], pageConstraints[..j])
        {
          var constraint := pageConstraints[j];
          assert pageConstraints[..j + 1][..j] == pageConstraints[..j];
          if constraint.constraintType == "material_grade" && !Present(item.material) {
            item := item.(material := Some(constraint.value));
          } else if constraint.constraintType == "surface_treatment" && !Present(item.finish) {
            item := item.(finish := Some(constraint.value));
          }
          j := j + 1;
        }
        assert pageConstraints[..j] == pageConstraints;
        bomItems := bomItems[i := item];
        i := i + 1;
      }
    }

    /** `_extract_all_profile_references`: the document's references, sorted, each once. */
    method ExtractAllProfileReferences() returns (refs: seq<string>)
      ensures SortedBy(refs, Identity) && NoRepeats(refs)
      ensures forall r :: r in refs <==> r in ReferenceSet(bomItems, constraints)
    {
      var fromItems := CollectNames(bomItems, ItemReference);
      var fromConstraints := ConstraintReferencesOf(constraints);
      refs := SortedListing(fromItems + fromConstraints);
    }

    /** `_check_if_text_fragmented` */
    method CheckIfTextFragmented() returns (fragmented: bool)
      ensures fragmented == IsFragmented(textBlocks)
    {
      if textBlocks == [] {
        return false;
      }
      var totalChars, totalNewlines, totalLines, shortLines := AccumulateTotals(textBlocks);
      if totalChars == 0 || totalLines == 0 {
        return false;
      }
      var newlineRatio := totalNewlines as real / (if totalChars >= 1 then totalChars else 1) as real;
      var shortRatio := shortLines as real / (if totalLines >= 1 then totalLines else 1) as real;
      fragmented := newlineRatio > 0.15 || shortRatio > 0.3;
    }
  }
}
