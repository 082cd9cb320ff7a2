/**
 * The table-reading side of the PDF bill-of-materials reader: header
 * normalisation, number and cell parsing, turning a table row into a BOM
 * item, and the bookkeeping the reader does on its item list (validation
 * and de-duplication, gap-filling from same-page constraints, the
 * fragmented-text test and the sorted list of profile references).
 */
module Pdf {
  import opened Wrappers
  import opened Strings
  import opened Numerals
  import opened Dicts
  import opened Folds
  import opened Patterns

  /** One bill-of-materials line; `rawRow` keeps the cells it came from (`None` for an empty cell). */
  datatype BomItem = BomItem(
    rowId: int,
    reference: string,
    description: string,
    quantity: real,
    unit: string,
    lengthMm: Option<real>,
    widthMm: Option<real>,
    heightMm: Option<real>,
    thicknessMm: Option<real>,
    material: Option<string>,
    finish: Option<string>,
    notes: string,
    confidence: real,
    sourcePage: int,
    rawRow: seq<Option<string>>)

  /** A requirement found in the prose of the document (a grade, a treatment, a dimension, ...). */
  datatype TechnicalConstraint = TechnicalConstraint(
    constraintType: string,
    value: string,
    context: string,
    sourcePage: int,
    importance: string)

  // ---------------------------------------------------------------------
  // Header normalisation

  // Header spellings (English and Portuguese) and the standard field each one names, by field.

  const QuantityHeaders: Dict<string> := [
    ("qty", "quantity"), ("quant", "quantity"), ("quant.", "quantity"), ("quantidade", "quantity"),
    ("qtd", "quantity"), ("qtd.", "quantity"), ("un", "quantity"), ("units", "quantity"),
    ("pcs", "quantity"), ("amount", "quantity"), ("count", "quantity"), ("qte", "quantity"),
    ("no.", "quantity"), ("n.", "quantity"), ("numero", "quantity")
  ]

  const ReferenceHeaders: Dict<string> := [
    ("ref", "reference"), ("ref.", "reference"), ("refer\U{ea}ncia", "reference"), ("code", "reference"),
    ("c\U{f3}digo", "reference"), ("item", "reference"), ("part", "reference"), ("part no", "reference"),
    ("part no.", "reference"), ("profile", "reference"), ("perfil", "reference"), ("cod", "reference"),
    ("cod.", "reference"), ("artigo", "reference"), ("art", "reference"), ("pos", "reference"),
    ("pos.", "reference"), ("position", "reference")
  ]

  const DescriptionHeaders: Dict<string> := [
    ("desc", "description"), ("desc.", "description"), ("descri\U{e7}\U{e3}o", "description"), ("name", "description"),
    ("nome", "description"), ("designa\U{e7}\U{e3}o", "description"), ("designation", "description"), ("item description", "description"),
    ("descricao", "description"), ("produto", "description"), ("product", "description"), ("componente", "description"),
    ("component", "description")
  ]

  const LengthHeaders: Dict<string> := [
    ("length", "length"), ("len", "length"), ("l", "length"), ("comprimento", "length"),
    ("comp", "length"), ("comp.", "length"), ("lgth", "length"), ("long", "length"),
    ("c", "length")
  ]

  const WidthHeaders: Dict<string> := [
    ("width", "width"), ("w", "width"), ("largura", "width"), ("larg", "width"),
    ("larg.", "width"), ("l.", "width")
  ]

  const HeightHeaders: Dict<string> := [
    ("height", "height"), ("h", "height"), ("altura", "height"), ("alt", "height"),
    ("alt.", "height")
  ]

  const ThicknessHeaders: Dict<string> := [
    ("thickness", "thickness"), ("esp", "thickness"), ("espessura", "thickness"), ("th", "thickness"),
    ("thk", "thickness"), ("e", "thickness")
  ]

  const MaterialHeaders: Dict<string> := [
    ("material", "material"), ("mat", "material"), ("mat.", "material"), ("alloy", "material"),
    ("liga", "material"), ("tipo", "material")
  ]

  const FinishHeaders: Dict<string> := [
    ("finish", "finish"), ("acabamento", "finish"), ("acabam", "finish"), ("treatment", "finish"),
    ("tratamento", "finish"), ("trat", "finish"), ("coating", "finish"), ("revestimento", "finish"),
    ("cor", "finish"), ("color", "finish"), ("colour", "finish")
  ]

  const UnitHeaders: Dict<string> := [
    ("unit", "unit"), ("un.", "unit"), ("unidade", "unit"), ("uom", "unit"),
    ("u/m", "unit"), ("unid", "unit")
  ]

  const WeightHeaders: Dict<string> := [
    ("weight", "weight"), ("peso", "weight"), ("kg", "weight"), ("mass", "weight"),
    ("massa", "weight")
  ]

  const PriceHeaders: Dict<string> := [
    ("price", "price"), ("pre\U{e7}o", "price"), ("preco", "price"), ("valor", "price"),
    ("cost", "price"), ("custo", "price"), ("\U{20ac}", "price"), ("eur", "price")
  ]

  const NotesHeaders: Dict<string> := [
    ("notes", "notes"), ("obs", "notes"), ("obs.", "notes"), ("observa\U{e7}\U{f5}es", "notes"),
    ("remarks", "notes"), ("notas", "notes"), ("comments", "notes"), ("coment\U{e1}rios", "notes")
  ]

  /** The header table, in its insertion order. */
  const HeaderMappings: Dict<string> :=
    QuantityHeaders + ReferenceHeaders + DescriptionHeaders + LengthHeaders + WidthHeaders + HeightHeaders + ThicknessHeaders + MaterialHeaders + FinishHeaders + UnitHeaders + WeightHeaders + PriceHeaders + NotesHeaders

  /** `re.sub(r'\s+', ' ', str(header).lower().strip())` */
  function CleanHeader(h: string): (r: string)
    ensures IsClean(r)
  {
    Clean(Lower(h))
  }

  /** `pattern in header_clean or header_clean in pattern` */
  predicate PartialMatch(headerClean: string, pattern: string) {
    Contains(headerClean, pattern) || Contains(pattern, headerClean)
  }

  /** Position `j` holds the first key of `table` that overlaps `headerClean`. */
  predicate FirstPartialAt(table: Dict<string>, headerClean: string, j: nat) {
    j < |table| && PartialMatch(headerClean, table[j].0)
    && forall k :: 0 <= k < j ==> !PartialMatch(headerClean, table[k].0)
  }

  /** The `for pattern, standard in HEADER_MAPPINGS.items()` scan: the first overlapping key, if any. */
  function FirstPartial(table: Dict<string>, headerClean: string): (r: Option<nat>)
    ensures r.Some? ==> FirstPartialAt(table, headerClean, r.value)
    ensures r.None? ==> forall j :: 0 <= j < |table| ==> !PartialMatch(headerClean, table[j].0)
  {
    FirstKeyWhere(table, k => PartialMatch(headerClean, k), 0)
  }

  /** Only one position can hold the first overlapping key. */
  lemma FirstPartialUnique(table: Dict<string>, headerClean: string, j: nat)
    requires FirstPartialAt(table, headerClean, j)
    ensures FirstPartial(table, headerClean) == Some(j)
  {
  }

  /** The field name of one non-empty header cell under `table`. */
  function NormalizeHeaderIn(table: Dict<string>, h: string): string {
    var hc := CleanHeader(h);
    match Get(table, hc)
    case Some(f) => f
    case None =>
      match FirstPartial(table, hc)
      case Some(j) => table[j].1
      case None => hc
  }

  /**
   * The header cascade: the mapping of the cleaned header when it is a key
   * of the table, else the field of the first key (in table order) that
   * contains it or is contained in it, else the cleaned header itself.
   */
  lemma NormalizeHeaderCascade(table: Dict<string>, h: string, hc: string)
    requires hc == CleanHeader(h)
    ensures hc in Keys(table) ==> NormalizeHeaderIn(table, h) == Get(table, hc).value
    ensures hc !in Keys(table) ==> forall j: nat :: FirstPartialAt(table, hc, j) ==> NormalizeHeaderIn(table, h) == table[j].1
    ensures (forall j :: 0 <= j < |table| ==> !PartialMatch(hc, table[j].0)) && hc !in Keys(table)
      ==> NormalizeHeaderIn(table, h) == hc
  {
    forall j: nat | hc !in Keys(table) && FirstPartialAt(table, hc, j) ensures NormalizeHeaderIn(table, h) == table[j].1 {
      FirstPartialUnique(table, hc, j);
    }
  }

  /** The field `_normalize_headers` gives a non-empty header cell. */
  function NormalizeHeader(h: string): string {
    NormalizeHeaderIn(HeaderMappings, h)
  }

  /**
   * The header map `_normalize_headers` builds under `table` as written: every
   * column whose header cell is not `None` or `""`, with its field.
   */
  function HeaderMap(table: Dict<string>, headerRow: seq<Option<string>>): map<nat, string> {
    map idx: nat | idx < |headerRow| && Present(headerRow[idx]) :: NormalizeHeaderIn(table, headerRow[idx].value)
  }

  /** The body of the `_normalize_headers` loop for one non-empty cell: a direct lookup, else a scan for a partial match. */
  method NormalizeOneHeader(table: Dict<string>, header: string) returns (field: string)
    ensures field == NormalizeHeaderIn(table, header)
  {
    var headerClean := CleanHeader(header);
    var direct := Get(table, headerClean);
    if direct.Some? {
      return direct.value;
    }
    var j := 0;
    while j < |table| && !PartialMatch(headerClean, table[j].0)
      invariant 0 <= j <= |table|
      invariant forall k :: 0 <= k < j ==> !PartialMatch(headerClean, table[k].0)
    {
      j := j + 1;
    }
    if j < |table| {
      FirstPartialUnique(table, headerClean, j);
      field := table[j].1;
    } else {
      field := headerClean;
    }
  }

  /**
   * `_normalize_headers` over `table`, with blank header cells skipped like
   * empty ones: every header cell with visible text, by column index.
   */
  method NormalizeHeadersIn(table: Dict<string>, headerRow: seq<Option<string>>) returns (normalized: map<nat, string>)
    ensures normalized == VisibleHeaderMap(table, headerRow)
  {
    normalized := map[];
    for idx := 0 to |headerRow|
      invariant normalized == VisibleHeaderMap(table, headerRow[..idx])
    {
      VisibleHeaderMapSnoc(table, headerRow[..idx], headerRow[idx]);
      assert headerRow[..idx + 1] == headerRow[..idx] + [headerRow[idx]];
      if Present(headerRow[idx]) && CleanHeader(headerRow[idx].value) != "" {
        var field := NormalizeOneHeader(table, headerRow[idx].value);
        normalized := normalized[idx := field];
      }
    }
    assert headerRow[..|headerRow|] == headerRow;
  }

  /** One more header cell adds its column exactly when it has visible text. */
  lemma VisibleHeaderMapSnoc(table: Dict<string>, cells: seq<Option<string>>, cell: Option<string>)
    ensures VisibleHeaderMap(table, cells + [cell]) ==
      if VisibleCell(cell) then VisibleHeaderMap(table, cells)[|cells| := NormalizeHeaderIn(table, cell.value)]
      else VisibleHeaderMap(table, cells)
  {
    ColumnsSnoc(cells, cell, VisibleCell, c => HeaderName(table, c));
  }

  /** `_normalize_headers` with the reader's own table, blank header cells skipped. */
  method NormalizeHeaders(headerRow: seq<Option<string>>) returns (normalized: map<nat, string>)
    ensures normalized == VisibleHeaderMap(HeaderMappings, headerRow)
  {
    normalized := NormalizeHeadersIn(HeaderMappings, headerRow);
  }

  const ImportantFields: set<string> := {"quantity", "reference", "description", "length", "material"}

  /** `_is_valid_header_row`: the header values meet the important fields. */
  predicate IsValidHeaderRow(headers: map<nat, string>) {
    |headers.Values * ImportantFields| >= 1
  }

  /** A header row is accepted exactly when some column names one of the five important fields. */
  lemma IsValidHeaderRowIff(headers: map<nat, string>)
    ensures IsValidHeaderRow(headers) <==> exists idx :: idx in headers && headers[idx] in ImportantFields
  {
    var common := headers.Values * ImportantFields;
    if IsValidHeaderRow(headers) {
      var f :| f in common;
      var idx :| idx in headers && headers[idx] == f;
    } else {
      assert common == {};
    }
  }

  predicate NonEmptyKeys(d: Dict<string>) {
    forall i :: 0 <= i < |d| ==> d[i].0 != ""
  }

  lemma NonEmptyKeysAppend(a: Dict<string>, b: Dict<string>)
    requires NonEmptyKeys(a) && NonEmptyKeys(b)
    ensures NonEmptyKeys(a + b)
  {
    forall i | |a| <= i < |a + b| ensures (a + b)[i].0 != "" {
      assert (a + b)[i] == b[i - |a|];
    }
  }

  /** No header spelling is empty, and the table opens with `qty`. */
  lemma HeaderMappingsFacts()
    ensures HeaderMappings[0] == ("qty", "quantity")
    ensures NonEmptyKeys(HeaderMappings)
  {
    assert NonEmptyKeys(QuantityHeaders) by {}
    assert NonEmptyKeys(ReferenceHeaders) by {}
    assert NonEmptyKeys(DescriptionHeaders) by {}
    assert NonEmptyKeys(LengthHeaders) by {}
    assert NonEmptyKeys(WidthHeaders) by {}
    assert NonEmptyKeys(HeightHeaders) by {}
    assert NonEmptyKeys(ThicknessHeaders) by {}
    assert NonEmptyKeys(MaterialHeaders) by {}
    assert NonEmptyKeys(FinishHeaders) by {}
    assert NonEmptyKeys(UnitHeaders) by {}
    assert NonEmptyKeys(WeightHeaders) by {}
    assert NonEmptyKeys(PriceHeaders) by {}
    assert NonEmptyKeys(NotesHeaders) by {}
    var tail := NotesHeaders;
    NonEmptyKeysAppend(PriceHeaders, tail);
    tail := PriceHeaders + tail;
    NonEmptyKeysAppend(WeightHeaders, tail);
    tail := WeightHeaders + tail;
    NonEmptyKeysAppend(UnitHeaders, tail);
    tail := UnitHeaders + tail;
    NonEmptyKeysAppend(FinishHeaders, tail);
    tail := FinishHeaders + tail;
    NonEmptyKeysAppend(MaterialHeaders, tail);
    tail := MaterialHeaders + tail;
    NonEmptyKeysAppend(ThicknessHeaders, tail);
    tail := ThicknessHeaders + tail;
    NonEmptyKeysAppend(HeightHeaders, tail);
    tail := HeightHeaders + tail;
    NonEmptyKeysAppend(WidthHeaders, tail);
    tail := WidthHeaders + tail;
    NonEmptyKeysAppend(LengthHeaders, tail);
    tail := LengthHeaders + tail;
    NonEmptyKeysAppend(DescriptionHeaders, tail);
    tail := DescriptionHeaders + tail;
    NonEmptyKeysAppend(ReferenceHeaders, tail);
    tail := ReferenceHeaders + tail;
    NonEmptyKeysAppend(QuantityHeaders, tail);
    tail := QuantityHeaders + tail;
  }

  /** A header cell of white space only cleans to the empty string. */
  lemma BlankHeaderCleansEmpty(h: string)
    requires forall i :: 0 <= i < |h| ==> IsSpace(h[i])
    ensures CleanHeader(h) == ""
  {
    var lower := Lower(h);
    assert forall i :: 0 <= i < |lower| ==> IsSpace(lower[i]) by {
      forall i | 0 <= i < |lower| ensures IsSpace(lower[i]) {
        assert lower[i] == LowerChar(h[i]);
      }
    }
    LStripSuffix(lower);
  }

  /**
   * A blank header cell is not skipped (only `None` and `""` are): it cleans
   * to `""`, which no key equals and every key contains, so the column takes
   * the field of the first entry of the table.
   */
  lemma BlankHeaderReadsAsFirstField(table: Dict<string>, h: string)
    requires |table| > 0 && NonEmptyKeys(table)
    requires forall i :: 0 <= i < |h| ==> IsSpace(h[i])
    ensures NormalizeHeaderIn(table, h) == table[0].1
  {
    BlankHeaderCleansEmpty(h);
    assert "" !in Keys(table);
    assert Contains(table[0].0, "");
    FirstPartialUnique(table, "", 0);
  }

  /** As written, a header cell of white space only names the quantity column. */
  lemma BlankHeaderReadsAsQuantity(h: string)
    requires forall i :: 0 <= i < |h| ==> IsSpace(h[i])
    ensures NormalizeHeader(h) == "quantity"
  {
    HeaderMappingsFacts();
    BlankHeaderReadsAsFirstField(HeaderMappings, h);
  }

  /** As written, a header row made of one blank cell is taken for a bill-of-materials header row. */
  lemma BlankHeaderRowAccepted()
    ensures IsValidHeaderRow(HeaderMap(HeaderMappings, [Some(" ")]))
  {
    BlankHeaderReadsAsQuantity(" ");
    var m := HeaderMap(HeaderMappings, [Some(" ")]);
    assert 0 in m && m[0] == "quantity";
    IsValidHeaderRowIff(m);
  }

  /** A header cell with text that does not clean to nothing. */
  predicate VisibleCell(cell: Option<string>) {
    Present(cell) && CleanHeader(cell.value) != ""
  }

  /** The header map with blank header cells skipped like empty ones: a column is named only by visible text. */
  function VisibleHeaderMap(table: Dict<string>, headerRow: seq<Option<string>>): map<nat, string> {
    Columns(headerRow, VisibleCell, cell => HeaderName(table, cell))
  }

  /** The field a present header cell names under `table`. */
  function HeaderName(table: Dict<string>, cell: Option<string>): string {
    if cell.Some? then NormalizeHeaderIn(table, cell.value) else ""
  }

  /**
   * Skipping blank header cells keeps every other column as `_normalize_headers`
   * names it, and a row with no visible header text is never taken for a
   * header row.
   */
  lemma VisibleHeaderMapSound(table: Dict<string>, headerRow: seq<Option<string>>)
    ensures forall idx :: idx in VisibleHeaderMap(table, headerRow) ==>
      idx in HeaderMap(table, headerRow) && VisibleHeaderMap(table, headerRow)[idx] == HeaderMap(table, headerRow)[idx]
    ensures forall idx :: idx in HeaderMap(table, headerRow) && CleanHeader(headerRow[idx].value) != "" ==>
      idx in VisibleHeaderMap(table, headerRow)
    ensures (forall idx :: 0 <= idx < |headerRow| && Present(headerRow[idx]) ==> CleanHeader(headerRow[idx].value) == "")
      ==> !IsValidHeaderRow(VisibleHeaderMap(table, headerRow))
  {
    var m := VisibleHeaderMap(table, headerRow);
    var h := HeaderMap(table, headerRow);
    forall idx | idx in m ensures idx in h && m[idx] == h[idx] {
      assert VisibleCell(headerRow[idx]);
    }
    if forall idx :: 0 <= idx < |headerRow| && Present(headerRow[idx]) ==> CleanHeader(headerRow[idx].value) == "" {
      assert m.Keys == {};
      IsValidHeaderRowIff(m);
    }
  }

  // ---------------------------------------------------------------------
  // Numbers in cells

  /** `c` matches the pattern character `l` under `re.IGNORECASE`, which also pairs `k` with the Kelvin sign and `s` with long s. */
  predicate CharMatchesIC(c: char, l: char) {
    c == l || ('a' <= l <= 'z' && c as int == l as int - 32)
    || (l == 'k' && c == '\U{212a}') || (l == 's' && c == '\U{17f}')
  }

  /** The literal `lit` occurs at position `i` of `s`, ignoring case. */
  predicate LiteralAt(s: string, i: nat, lit: string) {
    i + |lit| <= |s| && forall j :: 0 <= j < |lit| ==> CharMatchesIC(s[i + j], lit[j])
  }

  /** Length of the match of `(mm|cm|m|kg|un|pcs?|€|eur)` at `i`, alternatives tried in order; 0 when none matches. */
  function UnitAt(s: string, i: nat): (n: nat)
    ensures n > 0 ==> i + n <= |s|
  {
    if LiteralAt(s, i, "mm") then 2
    else if LiteralAt(s, i, "cm") then 2
    else if LiteralAt(s, i, "m") then 1
    else if LiteralAt(s, i, "kg") then 2
    else if LiteralAt(s, i, "un") then 2
    else if LiteralAt(s, i, "pcs") then 3
    else if LiteralAt(s, i, "pc") then 2
    else if LiteralAt(s, i, "\U{20ac}") then 1
    else if LiteralAt(s, i, "eur") then 3
    else 0
  }

  /** `re.sub(r'(mm|cm|m|kg|un|pcs?|€|eur)', '', s[i:], flags=re.IGNORECASE)`: scan left to right, dropping each unit word. */
  function RemoveUnitsFrom(s: string, i: nat): string
    requires i <= |s|
    decreases |s| - i
  {
    if i == |s| then []
    else
      var n := UnitAt(s, i);
      if n > 0 then RemoveUnitsFrom(s, i + n) else [s[i]] + RemoveUnitsFrom(s, i + 1)
  }

  function RemoveUnits(s: string): string {
    RemoveUnitsFrom(s, 0)
  }

  /** The characters a number is read from. */
  predicate IsNumberChar(c: char) {
    IsDigit(c) || c == '.' || c == ','
  }

  /** The digits, points and commas of `s`, in order. */
  function NumberChars(s: string): string
    decreases |s|
  {
    if s == [] then [] else (if IsNumberChar(s[0]) then [s[0]] else []) + NumberChars(s[1..])
  }

  lemma {:induction false} NumberCharsAppend(a: string, b: string)
    ensures NumberChars(a + b) == NumberChars(a) + NumberChars(b)
    decreases |a|
  {
    if a == [] {
      assert a + b == b;
    } else {
      var head: string := if IsNumberChar(a[0]) then [a[0]] else [];
      assert (a + b)[0] == a[0];
      assert (a + b)[1..] == a[1..] + b;
      NumberCharsAppend(a[1..], b);
      assert NumberChars(a + b) == head + NumberChars(a[1..] + b);
      assert NumberChars(a) == head + NumberChars(a[1..]);
    }
  }

  /** The characters unit words are spelt with: lower-case letters and the euro sign. */
  predicate UnitLetters(lit: string) {
    forall j :: 0 <= j < |lit| ==> 'a' <= lit[j] <= 'z' || lit[j] == '\U{20ac}'
  }

  /** What matches a unit word, in any case, holds no digit, point or comma. */
  lemma LiteralHoldsNoNumberChar(s: string, i: nat, lit: string)
    requires LiteralAt(s, i, lit) && UnitLetters(lit)
    ensures forall j :: i <= j < i + |lit| ==> !IsNumberChar(s[j])
  {
    forall j | i <= j < i + |lit| ensures !IsNumberChar(s[j]) {
      assert CharMatchesIC(s[i + (j - i)], lit[j - i]);
    }
  }

  /** A unit word holds no digit, point or comma. */
  lemma UnitHoldsNoNumberChar(s: string, i: nat)
    requires UnitAt(s, i) > 0
    ensures NumberChars(s[i..i + UnitAt(s, i)]) == []
  {
    var n := UnitAt(s, i);
    var lit :=
      if LiteralAt(s, i, "mm") then "mm"
      else if LiteralAt(s, i, "cm") then "cm"
      else if LiteralAt(s, i, "m") then "m"
      else if LiteralAt(s, i, "kg") then "kg"
      else if LiteralAt(s, i, "un") then "un"
      else if LiteralAt(s, i, "pcs") then "pcs"
      else if LiteralAt(s, i, "pc") then "pc"
      else if LiteralAt(s, i, "\U{20ac}") then "\U{20ac}"
      else "eur";
    assert LiteralAt(s, i, lit) && |lit| == n && UnitLetters(lit);
    LiteralHoldsNoNumberChar(s, i, lit);
    var w := s[i..i + n];
    forall j | 0 <= j < n ensures !IsNumberChar(w[j]) {
      assert w[j] == s[i + j];
    }
    NoNumberChars(w);
  }

  lemma {:induction false} NoNumberChars(w: string)
    requires forall j :: 0 <= j < |w| ==> !IsNumberChar(w[j])
    ensures NumberChars(w) == []
    decreases |w|
  {
    if w != [] {
      NoNumberChars(w[1..]);
    }
  }

  /** Removing unit words never drops, adds or reorders a digit, point or comma. */
  lemma {:induction false} RemoveUnitsKeepsNumberChars(s: string, i: nat)
    requires i <= |s|
    ensures NumberChars(RemoveUnitsFrom(s, i)) == NumberChars(s[i..])
    decreases |s| - i
  {
    if i < |s| {
      var n := UnitAt(s, i);
      if n > 0 {
        RemoveUnitsKeepsNumberChars(s, i + n);
        assert s[i..] == s[i..i + n] + s[i + n..];
        NumberCharsAppend(s[i..i + n], s[i + n..]);
        UnitHoldsNoNumberChar(s, i);
      } else {
        RemoveUnitsKeepsNumberChars(s, i + 1);
        assert s[i..] == [s[i]] + s[i + 1..];
        NumberCharsAppend([s[i]], s[i + 1..]);
        NumberCharsAppend([s[i]], RemoveUnitsFrom(s, i + 1));
      }
    }
  }

  /** `s.replace(c, '')` */
  function DropChar(s: string, c: char): (r: string)
    ensures forall x :: x in r <==> x in s && x != c
    decreases |s|
  {
    if s == [] then []
    else
      var rest := DropChar(s[1..], c);
      assert forall x :: x in s <==> x == s[0] || x in s[1..];
      (if s[0] == c then [] else [s[0]]) + rest
  }

  lemma {:induction false} DropCharAppend(a: string, b: string, c: char)
    ensures DropChar(a + b, c) == DropChar(a, c) + DropChar(b, c)
    decreases |a|
  {
    if a == [] {
      assert a + b == b;
    } else {
      var head: string := if a[0] == c then [] else [a[0]];
      assert (a + b)[0] == a[0];
      assert (a + b)[1..] == a[1..] + b;
      DropCharAppend(a[1..], b, c);
      assert DropChar(a + b, c) == head + DropChar(a[1..] + b, c);
      assert DropChar(a, c) == head + DropChar(a[1..], c);
    }
  }

  lemma {:induction false} DropAbsentChar(s: string, c: char)
    requires c !in s
    ensures DropChar(s, c) == s
    decreases |s|
  {
    if s != [] {
      DropAbsentChar(s[1..], c);
      assert s == [s[0]] + s[1..];
    }
  }

  /** The format rule: a comma alone is the decimal point; next to a point, commas are thousands separators and go. */
  function EuropeanFormat(s: string): (r: string)
    ensures ',' !in r
  {
    if ',' in s && '.' !in s then ReplaceChar(s, ',', '.')
    else if ',' in s then DropChar(s, ',')
    else s
  }

  const NumberRun: CharClass := Union(Digit, Chars("."))

  /** `re.search(r'[\d.]+', s[i:]).group()`: the first run of digits and points. */
  function FirstNumberRun(s: string, i: nat): (r: Option<string>)
    requires i <= |s|
    ensures r.Some? ==> IsDecimalRun(r.value)
    decreases |s| - i
  {
    if i == |s| then None
    else if InClass(s[i], NumberRun) then
      var run := s[i..i + ClassRun(NumberRun, s, i)];
      assert forall j :: 0 <= j < |run| ==> IsDigit(run[j]) || run[j] == '.' by {
        forall j | 0 <= j < |run| ensures IsDigit(run[j]) || run[j] == '.' {
          assert run[j] == s[i + j];
          assert InClass(run[j], NumberRun);
          assert InClass(run[j], Digit) || InClass(run[j], Chars("."));
        }
      }
      Some(run)
    else FirstNumberRun(s, i + 1)
  }

  /**
   * `_extract_number` on text: strip, drop unit words, strip again, apply the
   * format rule and read the first run of digits and points as a float.
   */
  function ExtractNumberText(s: string): (r: Option<real>)
    ensures r.Some? ==> r.value >= 0.0
  {
    var v := Strip(s);
    if v == [] then None else ReadNumber(RemoveUnits(v))
  }

  /** The steps after the units are gone: strip, apply the format rule, take the first run and read it. */
  function ReadNumber(t: string): (r: Option<real>)
    ensures r.Some? ==> r.value >= 0.0
  {
    match FirstNumberRun(EuropeanFormat(Strip(t)), 0)
    case None => None
    case Some(run) => ParseDecimalRun(run)
  }

  // What `_extract_number` reads from the common spellings of a number.

  /** Text with no white space at either end is its own `strip()`. */
  lemma StripTrimmed(s: string)
    requires s != [] && !IsSpace(s[0]) && !IsSpace(s[|s| - 1])
    ensures Strip(s) == s
  {
  }

  /** A literal matched at `i` begins with a character matching its first letter. */
  lemma LiteralAtHead(s: string, i: nat, lit: string)
    requires |lit| > 0
    ensures LiteralAt(s, i, lit) ==> i < |s| && CharMatchesIC(s[i], lit[0])
  {
  }

  /** A unit word is matched in place: `u` occurs at the end of `a + u`. */
  lemma LiteralAtSelf(a: string, u: string)
    ensures LiteralAt(a + u, |a|, u)
  {
    forall j | 0 <= j < |u| ensures CharMatchesIC((a + u)[|a| + j], u[j]) {
      assert (a + u)[|a| + j] == u[j];
    }
  }

  /** No unit word starts at a digit, point or comma. */
  lemma NoUnitAtNumberChar(s: string, i: nat)
    requires i < |s| && IsNumberChar(s[i])
    ensures UnitAt(s, i) == 0
  {
    forall lit | lit in UnitWords ensures !LiteralAt(s, i, lit) {
      LiteralAtHead(s, i, lit);
    }
  }

  /** Unit removal copies a stretch of digits, points and commas unchanged. */
  lemma {:induction false} RemoveUnitsKeepsNumberRun(s: string, i: nat, k: nat)
    requires i <= k <= |s|
    requires forall j :: i <= j < k ==> IsNumberChar(s[j])
    ensures RemoveUnitsFrom(s, i) == s[i..k] + RemoveUnitsFrom(s, k)
    decreases k - i
  {
    if i == k {
      assert s[i..k] == [];
    } else {
      RemoveUnitsKeepsNumberRun(s, i + 1, k);
      RemoveUnitsRunStep(s, i, k);
    }
  }

  lemma RemoveUnitsRunStep(s: string, i: nat, k: nat)
    requires i < k <= |s| && IsNumberChar(s[i])
    requires RemoveUnitsFrom(s, i + 1) == s[i + 1..k] + RemoveUnitsFrom(s, k)
    ensures RemoveUnitsFrom(s, i) == s[i..k] + RemoveUnitsFrom(s, k)
  {
    var rest := RemoveUnitsFrom(s, k);
    RemoveUnitsCopies(s, i);
    assert s[i..k] + rest == [s[i]] + (s[i + 1..k] + rest) by {
      assert s[i..k] == [s[i]] + s[i + 1..k];
    }
  }

  /** At a digit, point or comma, unit removal copies the character and moves on. */
  lemma RemoveUnitsCopies(s: string, i: nat)
    requires i < |s| && IsNumberChar(s[i])
    ensures RemoveUnitsFrom(s, i) == [s[i]] + RemoveUnitsFrom(s, i + 1)
  {
    NoUnitAtNumberChar(s, i);
  }

  /** Each unit word, at the end of the text, is matched whole. */
  lemma UnitAtWord(a: string, u: string)
    requires u in UnitWords
    ensures UnitAt(a + u, |a|) == |u|
  {
    var s := a + u;
    LiteralAtSelf(a, u);
    assert s[|a|] == u[0];
    forall lit | lit in UnitWords ensures LiteralAt(s, |a|, lit) ==> CharMatchesIC(u[0], lit[0]) {
      LiteralAtHead(s, |a|, lit);
    }
  }

  /** `[\d.]+` takes the whole of a run of digits and points. */
  lemma FirstNumberRunWhole(w: string)
    requires IsDecimalRun(w)
    ensures FirstNumberRun(w, 0) == Some(w)
  {
    assert InClass(w[0], NumberRun) by {
      assert IsDigit(w[0]) || w[0] == '.';
    }
    forall j | 0 <= j < |w| ensures InClass(w[j], NumberRun) {
      assert IsDigit(w[j]) || w[j] == '.';
      assert InClass(w[j], Digit) || InClass(w[j], Chars("."));
    }
    ClassRunCovers(NumberRun, w, 0, |w|);
    assert w[0..|w|] == w;
  }

  /** Text made of digits, points and commas is read through the format rule alone. */
  lemma ExtractNumberOfNumberChars(s: string)
    requires s != [] && forall j :: 0 <= j < |s| ==> IsNumberChar(s[j])
    ensures IsDecimalRun(EuropeanFormat(s))
    ensures ExtractNumberText(s) == ParseDecimalRun(EuropeanFormat(s))
  {
    StripTrimmed(s);
    RemoveUnitsKeepsNumberRun(s, 0, |s|);
    assert RemoveUnits(s) == s;
    var w := EuropeanFormat(s);
    assert forall j :: 0 <= j < |w| ==> IsDigit(w[j]) || w[j] == '.' by {
      forall j | 0 <= j < |w| ensures IsDigit(w[j]) || w[j] == '.' {
        assert w[j] in w;
      }
    }
    if ',' in s && '.' in s {
      assert '.' in w;
    }
    FirstNumberRunWhole(w);
  }

  /** `float` of a run of digits. */
  lemma ParseDigitRun(a: string)
    requires a != [] && AllDigits(a)
    ensures IsDecimalRun(a) && ParseDecimalRun(a) == Some(DigitsValue(a) as real)
  {
    NoPointInDigits(a);
    SplitJoin(a, '.');
  }

  /** Splitting at points: a leading run of digits joins the first part. */
  lemma {:induction false} SplitDigitsPrefix(a: string, rest: string)
    requires AllDigits(a)
    ensures SplitOn(a + rest, '.') == [a + SplitOn(rest, '.')[0]] + SplitOn(rest, '.')[1..]
    decreases |a|
  {
    var parts := SplitOn(rest, '.');
    if a == [] {
      assert a + rest == rest;
      assert a + parts[0] == parts[0];
      assert parts == [parts[0]] + parts[1..];
    } else {
      assert a[0] != '.';
      assert (a + rest)[0] == a[0] && (a + rest)[1..] == a[1..] + rest;
      SplitDigitsPrefix(a[1..], rest);
      var tail := SplitOn(a[1..] + rest, '.');
      assert tail[0] == a[1..] + parts[0] && tail[1..] == parts[1..];
      assert SplitOn(a + rest, '.') == [[a[0]] + tail[0]] + tail[1..];
      assert [a[0]] + (a[1..] + parts[0]) == a + parts[0];
    }
  }

  /** `float` of digits, a point and digits. */
  lemma ParseDecimalPoint(a: string, b: string)
    requires AllDigits(a) && AllDigits(b) && a + b != []
    ensures IsDecimalRun(a + "." + b)
    ensures ParseDecimalRun(a + "." + b) == Some(DecimalValue(a, b))
  {
    var s := a + "." + b;
    assert s == a + ("." + b);
    assert SplitOn(b, '.') == [b] by {
      SplitDigitsPrefix(b, []);
      assert b + [] == b;
      assert SplitOn([], '.') == [[]];
    }
    var p := SplitOn("." + b, '.');
    assert p == [[], b] by {
      assert ("." + b)[0] == '.' && ("." + b)[1..] == b;
    }
    SplitDigitsPrefix(a, "." + b);
    assert a + p[0] == a && p[1..] == [b];
    assert SplitOn(s, '.') == [a, b];
    assert s != ".";
  }

  /** A whole number is read as its value. */
  lemma ExtractWholeNumber(a: string)
    requires a != [] && AllDigits(a)
    ensures ExtractNumberText(a) == Some(DigitsValue(a) as real)
  {
    ExtractNumberOfNumberChars(a);
    ParseDigitRun(a);
  }

  /** Digits around one point or comma are all number characters. */
  lemma DigitsAround(a: string, sep: char, b: string)
    requires AllDigits(a) && AllDigits(b) && (sep == '.' || sep == ',')
    ensures forall j :: 0 <= j < |a + [sep] + b| ==> IsNumberChar((a + [sep] + b)[j])
    ensures forall j :: 0 <= j < |a + [sep] + b| ==> (a + [sep] + b)[j] == sep || IsDigit((a + [sep] + b)[j])
  {
  }

  /** With a point and no comma the text is left as it is. */
  lemma PointFormat(a: string, b: string)
    requires AllDigits(a) && AllDigits(b)
    ensures EuropeanFormat(a + "." + b) == a + "." + b
  {
    DigitsAround(a, '.', b);
    var s := a + "." + b;
    assert ',' !in s by {
      assert forall j :: 0 <= j < |s| ==> s[j] != ',';
    }
  }

  /** A lone comma becomes the point. */
  lemma CommaFormat(a: string, b: string)
    requires AllDigits(a) && AllDigits(b)
    ensures EuropeanFormat(a + "," + b) == a + "." + b
  {
    DigitsAround(a, ',', b);
    var s := a + "," + b;
    assert '.' !in s by {
      assert forall j :: 0 <= j < |s| ==> s[j] != '.';
    }
    assert s[|a|] == ',';
    assert ReplaceChar(s, ',', '.') == a + "." + b;
  }

  lemma NoCommaInDigits(a: string)
    requires AllDigits(a)
    ensures ',' !in a
  {
    assert forall j :: 0 <= j < |a| ==> IsDigit(a[j]);
  }

  /** Dropping commas passes over a leading run of digits. */
  lemma {:induction false} DropCommaAfterDigits(a: string, rest: string)
    requires AllDigits(a)
    ensures DropChar(a + rest, ',') == a + DropChar(rest, ',')
    decreases |a|
  {
    if a == [] {
      assert a + rest == rest;
    } else {
      var s := a + rest;
      assert s[0] == a[0] && s[1..] == a[1..] + rest;
      DropCommaAfterDigits(a[1..], rest);
      assert a == [a[0]] + a[1..];
    }
  }

  /** Dropping the commas of `a,b.c` leaves `ab.c`. */
  lemma DropThousandsComma(a: string, b: string, c: string)
    requires AllDigits(a) && AllDigits(b) && AllDigits(c)
    ensures DropChar(a + "," + b + "." + c, ',') == a + b + "." + c
  {
    var t1 := "." + c;
    var t2 := b + t1;
    var t3 := "," + t2;
    assert a + "," + b + "." + c == a + t3;
    DropCommaAfterDigits(a, t3);
    assert DropChar(t3, ',') == DropChar(t2, ',') by {
      assert t3[0] == ',' && t3[1..] == t2;
    }
    DropCommaAfterDigits(b, t1);
    assert DropChar(t1, ',') == t1 by {
      assert t1[0] == '.' && t1[1..] == c;
      DropCommaAfterDigits(c, []);
      assert c + [] == c;
    }
    assert a + t2 == a + b + "." + c;
  }

  /** A comma and a point: the comma goes. */
  lemma ThousandsFormat(a: string, b: string, c: string)
    requires AllDigits(a) && AllDigits(b) && AllDigits(c)
    ensures forall j :: 0 <= j < |a + "," + b + "." + c| ==> IsNumberChar((a + "," + b + "." + c)[j])
    ensures EuropeanFormat(a + "," + b + "." + c) == a + b + "." + c
  {
    var s := a + "," + b + "." + c;
    assert s[|a|] == ',' && s[|a| + 1 + |b|] == '.';
    DropThousandsComma(a, b, c);
  }

  /** `12.5` gives 12.5. */
  lemma ExtractDecimalPoint(a: string, b: string)
    requires a != [] && AllDigits(a) && AllDigits(b)
    ensures ExtractNumberText(a + "." + b) == Some(DecimalValue(a, b))
  {
    DigitsAround(a, '.', b);
    ExtractNumberOfNumberChars(a + "." + b);
    PointFormat(a, b);
    ParseDecimalPoint(a, b);
  }

  /** The text `0.00005` reads as 5e-05. */
  lemma TinyQuantityText()
    ensures ExtractNumberText("0.00005") == Some(0.00005)
  {
    assert "0.00005" == "0" + "." + "00005";
    ExtractDecimalPoint("0", "00005");
    FiveHundredThousandths();
  }

  /** A comma alone is read as the decimal point: `12,5` gives 12.5, like `12.5`. */
  lemma ExtractDecimalComma(a: string, b: string)
    requires a != [] && AllDigits(a) && AllDigits(b)
    ensures ExtractNumberText(a + "," + b) == Some(DecimalValue(a, b))
    ensures ExtractNumberText(a + "," + b) == ExtractNumberText(a + "." + b)
  {
    DigitsAround(a, ',', b);
    ExtractNumberOfNumberChars(a + "," + b);
    CommaFormat(a, b);
    ParseDecimalPoint(a, b);
    ExtractDecimalPoint(a, b);
  }

  /** Next to a point, commas are thousands separators: `1,234.5` gives 1234.5 (and `1.234,5` gives 1.2345). */
  lemma ExtractThousands(a: string, b: string, c: string)
    requires a != [] && AllDigits(a) && AllDigits(b) && AllDigits(c)
    ensures ExtractNumberText(a + "," + b + "." + c) == Some(DecimalValue(a + b, c))
  {
    ThousandsFormat(a, b, c);
    ExtractNumberOfNumberChars(a + "," + b + "." + c);
    assert AllDigits(a + b) by {
      assert forall j :: 0 <= j < |a + b| ==> IsDigit((a + b)[j]);
    }
    ParseDecimalPoint(a + b, c);
  }

  const UnitWords: seq<string> := ["mm", "cm", "m", "kg", "un", "pcs", "pc", "\U{20ac}", "eur"]

  /** A unit word after the digits is dropped. */
  lemma RemoveTrailingUnit(a: string, u: string)
    requires AllDigits(a) && u in UnitWords
    ensures RemoveUnits(a + u) == a
  {
    var s := a + u;
    RemoveUnitsKeepsNumberRun(s, 0, |a|);
    UnitAtWord(a, u);
    assert RemoveUnitsFrom(s, |a|) == [];
    assert s[0..|a|] == a;
  }

  lemma UnitWordEnds(u: string)
    requires u in UnitWords
    ensures u != [] && !IsSpace(u[0]) && !IsSpace(u[|u| - 1])
  {
  }

  /** Digits alone reach the reading step unchanged. */
  lemma DigitsReachReading(a: string)
    requires a != [] && AllDigits(a)
    ensures ExtractNumberText(a) == ReadNumber(a)
  {
    StripTrimmed(a);
    RemoveUnitsKeepsNumberRun(a, 0, |a|);
    assert a[0..|a|] == a;
    assert RemoveUnits(a) == a by {
      assert RemoveUnitsFrom(a, |a|) == [];
    }
  }

  /** A unit word after the number is dropped: `12mm`, `3pcs` and `40€` read as 12, 3 and 40. */
  lemma ExtractWithUnit(a: string, u: string)
    requires a != [] && AllDigits(a) && u in UnitWords
    ensures ExtractNumberText(a + u) == Some(DigitsValue(a) as real)
  {
    var s := a + u;
    assert Strip(s) == s by {
      UnitWordEnds(u);
      assert s[|s| - 1] == u[|u| - 1];
      StripTrimmed(s);
    }
    RemoveTrailingUnit(a, u);
    ExtractWholeNumber(a);
    DigitsReachReading(a);
  }
}
