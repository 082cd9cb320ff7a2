/**
 * What the quote engine decides before any price is computed: how the PDF
 * bill of materials is indexed, which PDF row (if any) a DXF profile is
 * matched to and with what confidence, which specifications a match
 * carries, and which correlations stand in when there is no structured
 * data. DXF quantities always win over PDF quantities.
 */
module Correlator {
  import opened Wrappers
  import opened Strings
  import opened Numerals
  import opened Dicts
  import opened Folds
  import opened BudgetTypes
  import Pdf
  import Dxf

  type BomItem = Pdf.BomItem
  type Constraint = Pdf.TechnicalConstraint

  // ---------------------------------------------------------------------
  // `_parse_dimension`

  /**
   * The numbers `re.findall(r'(\d+(?:[.,]\d+)?)', s)` finds from `i` on,
   * each read by `float(n.replace(',', '.'))`.
   */
  function DimensionNumbers(s: string, i: nat): (vs: seq<real>)
    requires i <= |s|
    ensures forall k :: 0 <= k < |vs| ==> vs[k] >= 0.0
    decreases |s| - i
  {
    if i == |s| then []
    else if !IsDigit(s[i]) then DimensionNumbers(s, i + 1)
    else
      var whole := DigitPrefix(s[i..]);
      var j := i + |whole|;
      if j + 1 < |s| && (s[j] == '.' || s[j] == ',') && IsDigit(s[j + 1]) then
        var frac := DigitPrefix(s[j + 1..]);
        [DecimalValue(whole, frac)] + DimensionNumbers(s, j + 1 + |frac|)
      else
        [DigitsValue(whole) as real] + DimensionNumbers(s, j)
  }

  /** `max(values)` of a non-empty list. */
  function MaxOf(vs: seq<real>): (m: real)
    requires vs != []
    ensures m in vs && forall k :: 0 <= k < |vs| ==> vs[k] <= m
    decreases |vs|
  {
    if |vs| == 1 then vs[0]
    else
      var rest := MaxOf(vs[1..]);
      assert forall k :: 1 <= k < |vs| ==> vs[k] == vs[1..][k - 1];
      if vs[0] >= rest then vs[0] else rest
  }

  /** `_parse_dimension`: the largest number written in the text, or `None` when it has none. */
  function ParseDimension(s: string): Option<real> {
    if s == "" then None
    else
      var vs := DimensionNumbers(s, 0);
      if vs == [] then None else Some(MaxOf(vs))
  }

  /** The text holds an ASCII digit at or after `i`. */
  predicate DigitFrom(s: string, i: nat) {
    exists k :: i <= k < |s| && IsDigit(s[k])
  }

  /** The scan finds a number exactly when a digit is left to read. */
  lemma {:induction false} DimensionNumbersEmpty(s: string, i: nat)
    requires i <= |s|
    ensures DimensionNumbers(s, i) == [] <==> !DigitFrom(s, i)
    decreases |s| - i
  {
    if i < |s| {
      if !IsDigit(s[i]) {
        DimensionNumbersEmpty(s, i + 1);
        assert DigitFrom(s, i) ==> DigitFrom(s, i + 1) by {
          if DigitFrom(s, i) {
            var k :| i <= k < |s| && IsDigit(s[k]);
            assert k != i;
          }
        }
      }
    }
  }

  /**
   * A dimension text reads as its largest number: the value is one of the
   * numbers written in it and no number in it is larger; there is no value
   * exactly when the text has no digit.
   */
  lemma ParseDimensionMax(s: string)
    ensures ParseDimension(s).None? <==> !DigitFrom(s, 0)
    ensures ParseDimension(s).Some? ==>
              var vs := DimensionNumbers(s, 0);
              ParseDimension(s).value in vs && ParseDimension(s).value >= 0.0
              && forall k :: 0 <= k < |vs| ==> vs[k] <= ParseDimension(s).value
  {
    DimensionNumbersEmpty(s, 0);
  }

  // ---------------------------------------------------------------------
  // `_build_pdf_lookup`

  /** Characters `[\-_\s]` */
  predicate IsSeparator(c: char) {
    c == '-' || c == '_' || IsSpace(c)
  }

  /** `re.sub(r'[\-_\s]', '', s)` */
  function WithoutSeparators(s: string): (r: string)
    ensures |r| <= |s|
    ensures forall k :: 0 <= k < |r| ==> !IsSeparator(r[k])
    ensures (forall k :: 0 <= k < |s| ==> IsSeparator(s[k])) ==> r == ""
    decreases |s|
  {
    if s == [] then []
    else
      var rest := WithoutSeparators(s[1..]);
      assert (forall k :: 0 <= k < |s| ==> IsSeparator(s[k])) ==> (forall k :: 0 <= k < |s[1..]| ==> IsSeparator(s[1..][k]));
      if IsSeparator(s[0]) then rest else [s[0]] + rest
  }

  /** `item.get('reference', '').upper().strip()` */
  function ReferenceKey(item: BomItem): string {
    Strip(Upper(item.reference))
  }

  /** `item.get('description', '').lower().strip()[:30]` */
  function DescriptionKey(item: BomItem): string {
    Take(Strip(Lower(item.description)), 30)
  }

  /**
   * The keys an item is filed under in `by_reference`: none for an empty
   * reference, else the reference and the reference without separators.
   * As written, a reference made only of separators (`"-"`) is also filed
   * under the empty key; `asWritten == false` drops that key.
   */
  function ReferenceKeys(item: BomItem, asWritten: bool): seq<string> {
    var ref := ReferenceKey(item);
    if ref == "" then []
    else
      var clean := WithoutSeparators(ref);
      if clean == "" && !asWritten then [ref] else [ref, clean]
  }

  /** `d[k] = v` for each key in turn. */
  function Filed<V>(d: Dict<V>, ks: seq<string>, v: V): Dict<V>
    decreases |ks|
  {
    if ks == [] then d else Filed(Put(d, ks[0], v), ks[1..], v)
  }

  /** The index after filing each item in order under its keys, a later item replacing an earlier one. */
  function FiledAll<T>(items: seq<T>, keys: T -> seq<string>): Dict<T>
    decreases |items|
  {
    if items == [] then []
    else
      var last := items[|items| - 1];
      Filed(FiledAll(items[..|items| - 1], keys), keys(last), last)
  }

  /** `by_reference` */
  function ByReference(items: seq<BomItem>, asWritten: bool): Dict<BomItem> {
    FiledAll(items, item => ReferenceKeys(item, asWritten))
  }

  /** The key an item is filed under in `by_description`: none for an empty description. */
  function DescriptionKeys(item: BomItem): seq<string> {
    if Strip(Lower(item.description)) == "" then [] else [DescriptionKey(item)]
  }

  /** `by_description` */
  function ByDescription(items: seq<BomItem>): Dict<BomItem> {
    FiledAll(items, DescriptionKeys)
  }

  /** `_build_pdf_lookup`, with the empty reference key dropped. */
  function LookupOf(items: seq<BomItem>): PdfLookup {
    PdfLookup(ByReference(items, false), ByDescription(items), items)
  }

  /** Filing under several keys: a filed key reads the value, any other key reads as before. */
  lemma {:induction false} GetFiled<V>(d: Dict<V>, ks: seq<string>, v: V, k: string)
    ensures Get(Filed(d, ks, v), k) == if k in ks then Some(v) else Get(d, k)
    decreases |ks|
  {
    if ks != [] {
      GetFiled(Put(d, ks[0], v), ks[1..], v, k);
      GetPut(d, ks[0], v, k);
      assert k in ks <==> k == ks[0] || k in ks[1..];
    }
  }

  /**
   * An index reads at `k` the last item filed under `k`: there is no entry
   * exactly when no item is filed under `k`, and an item filed under `k`
   * with no later item filed under `k` is the entry.
   */
  lemma {:induction false} FiledAllGet<T>(items: seq<T>, keys: T -> seq<string>, k: string)
    ensures Get(FiledAll(items, keys), k).None? <==> forall i :: 0 <= i < |items| ==> k !in keys(items[i])
    ensures forall i :: 0 <= i < |items| && k in keys(items[i])
                        && (forall j :: i < j < |items| ==> k !in keys(items[j]))
                        ==> Get(FiledAll(items, keys), k) == Some(items[i])
    decreases |items|
  {
    if items != [] {
      var init := items[..|items| - 1];
      var last := items[|items| - 1];
      FiledAllGet(init, keys, k);
      GetFiled(FiledAll(init, keys), keys(last), last, k);
      assert forall i :: 0 <= i < |init| ==> init[i] == items[i];
    }
  }

  /** `by_reference[k]` is the last item whose reference gives the key `k`. */
  lemma ByReferenceGet(items: seq<BomItem>, asWritten: bool, k: string)
    ensures Get(ByReference(items, asWritten), k).None? <==> forall i :: 0 <= i < |items| ==> k !in ReferenceKeys(items[i], asWritten)
    ensures forall i :: 0 <= i < |items| && k in ReferenceKeys(items[i], asWritten)
                        && (forall j :: i < j < |items| ==> k !in ReferenceKeys(items[j], asWritten))
                        ==> Get(ByReference(items, asWritten), k) == Some(items[i])
  {
    FiledAllGet(items, item => ReferenceKeys(item, asWritten), k);
  }

  /** The corrected index has no empty key, so `"" in pid` cannot match every profile. */
  lemma NoEmptyReferenceKey(items: seq<BomItem>)
    ensures "" !in Keys(ByReference(items, false))
  {
    forall i | 0 <= i < |items| ensures "" !in ReferenceKeys(items[i], false) {
      NoEmptyKeyOf(items[i]);
    }
    ByReferenceGet(items, false, "");
  }

  /** With the empty cleaned key dropped, every key an item is filed under is non-empty. */
  lemma NoEmptyKeyOf(item: BomItem)
    ensures "" !in ReferenceKeys(item, false)
  {
  }

  // ---------------------------------------------------------------------
  // `_index_constraints`

  /** The constraints of type `t`, in document order. */
  function OfType(cs: seq<Constraint>, t: string): (r: seq<Constraint>)
    ensures forall k :: 0 <= k < |r| ==> r[k] in cs && r[k].constraintType == t
    decreases |cs|
  {
    if cs == [] then []
    else
      var init := OfType(cs[..|cs| - 1], t);
      var last := cs[|cs| - 1];
      if last.constraintType == t then init + [last] else init
  }

  /** `_index_constraints`: constraints grouped by type, groups in order of first appearance. */
  function ConstraintIndex(cs: seq<Constraint>): Dict<seq<Constraint>>
    decreases |cs|
  {
    if cs == [] then []
    else
      var d := ConstraintIndex(cs[..|cs| - 1]);
      var c := cs[|cs| - 1];
      Put(d, c.constraintType, Get(d, c.constraintType).GetOr([]) + [c])
  }

  /** The group of type `t` holds exactly the constraints of that type, in order; a type with no constraint has no group. */
  lemma {:induction false} ConstraintIndexGet(cs: seq<Constraint>, t: string)
    ensures Get(ConstraintIndex(cs), t) == if OfType(cs, t) == [] then None else Some(OfType(cs, t))
    decreases |cs|
  {
    if cs != [] {
      var init := cs[..|cs| - 1];
      var c := cs[|cs| - 1];
      var d := ConstraintIndex(init);
      ConstraintIndexGet(init, t);
      ConstraintIndexGet(init, c.constraintType);
      GetPut(d, c.constraintType, Get(d, c.constraintType).GetOr([]) + [c], t);
    }
  }

  lemma {:induction false} ConstraintIndexUnique(cs: seq<Constraint>)
    ensures UniqueKeys(ConstraintIndex(cs))
    decreases |cs|
  {
    if cs != [] {
      var init := cs[..|cs| - 1];
      var c := cs[|cs| - 1];
      var d := ConstraintIndex(init);
      ConstraintIndexUnique(init);
      PutUnique(d, c.constraintType, Get(d, c.constraintType).GetOr([]) + [c]);
    }
  }

  /** Every constraint of a group has the group's type. */
  predicate TypedGroups(index: Dict<seq<Constraint>>) {
    forall i, k :: 0 <= i < |index| && 0 <= k < |index[i].1| ==> index[i].1[k].constraintType == index[i].0
  }

  /** The index groups each constraint under its own type. */
  lemma ConstraintIndexTyped(cs: seq<Constraint>)
    ensures TypedGroups(ConstraintIndex(cs))
  {
    var index := ConstraintIndex(cs);
    ConstraintIndexUnique(cs);
    forall i, k | 0 <= i < |index| && 0 <= k < |index[i].1| ensures index[i].1[k].constraintType == index[i].0 {
      GetEntry(index, i);
      ConstraintIndexGet(cs, index[i].0);
    }
  }

  // ---------------------------------------------------------------------
  // `_extract_specifications`

  /**
   * What one constraint adds to `specs["constraints"]`: itself, when its
   * importance is high. The recorded type is the group's key, which is the
   * constraint's own type.
   */
  function HighSpec(c: Constraint): seq<SpecConstraint> {
    if c.importance == "high" then [SpecConstraint(c.constraintType, c.value, Take(c.context, 100))] else []
  }

  function GroupHighs(g: (string, seq<Constraint>)): seq<SpecConstraint> {
    ConcatMap(g.1, HighSpec)
  }

  /** The high-importance constraints, group by group. */
  function HighSpecs(index: Dict<seq<Constraint>>): seq<SpecConstraint> {
    ConcatMap(index, GroupHighs)
  }

  /** `[c.get('value') for c in group]` */
  function ValuesOf(cs: seq<Constraint>): (vs: seq<string>)
    ensures |vs| == |cs| && forall k :: 0 <= k < |cs| ==> vs[k] == cs[k].value
  {
    seq(|cs|, k requires 0 <= k < |cs| => cs[k].value)
  }

  /** A group's first value fills a gap left by the matched item; a present value stays. */
  function FillFrom(own: Option<string>, group: Option<seq<Constraint>>): Option<string> {
    if group.Some? && group.value != [] && !Present(own) then Some(group.value[0].value) else own
  }

  /** `_extract_specifications(pdf_item, constraints)` */
  function SpecsFor(item: Option<BomItem>, index: Dict<seq<Constraint>>): Specs {
    var material := if item.Some? then item.value.material else None;
    var finish := if item.Some? then item.value.finish else None;
    var certifications := Get(index, "certification");
    Specs(
      FillFrom(material, Get(index, "material_grade")),
      FillFrom(finish, Get(index, "surface_treatment")),
      if item.Some? then item.value.thicknessMm else None,
      if certifications.Some? then ValuesOf(certifications.value) else [],
      HighSpecs(index))
  }

  /** Filing one more constraint into its group adds its contribution and nothing else. */
  lemma HighSpecsPut(d: Dict<seq<Constraint>>, c: Constraint)
    ensures var t := c.constraintType;
            multiset(HighSpecs(Put(d, t, Get(d, t).GetOr([]) + [c]))) == multiset(HighSpecs(d)) + multiset(HighSpec(c))
  {
    var t := c.constraintType;
    if t in Keys(d) {
      var p := PutAt(d, t, Get(d, t).GetOr([]) + [c]);
      var g := d[p].1;
      ConcatMapSnoc(g, c, HighSpec);
      ConcatMapUpdate(d, p, (t, g + [c]), GroupHighs, HighSpec(c));
    } else {
      ConcatMapSnoc(d, (t, [c]), GroupHighs);
      ConcatMapSnoc([], c, HighSpec);
    }
  }

  /** Regrouping by type loses and repeats no high-importance constraint. */
  lemma {:induction false} HighSpecsRegrouped(cs: seq<Constraint>)
    ensures multiset(HighSpecs(ConstraintIndex(cs))) == multiset(ConcatMap(cs, HighSpec))
    decreases |cs|
  {
    if cs != [] {
      HighSpecsRegrouped(cs[..|cs| - 1]);
      HighSpecsPut(ConstraintIndex(cs[..|cs| - 1]), cs[|cs| - 1]);
    }
  }

  /**
   * The specifications of a match: a material or finish the matched row
   * states is kept; a missing one comes from the first constraint of its
   * type, if any; the thickness is the row's; the certifications are the
   * values of the certification constraints in order; the listed
   * constraints are exactly the high-importance ones, each once.
   */
  lemma SpecsForIndex(item: Option<BomItem>, cs: seq<Constraint>)
    ensures var r := SpecsFor(item, ConstraintIndex(cs));
            var mats := OfType(cs, "material_grade");
            var treatments := OfType(cs, "surface_treatment");
            && (item.Some? && Present(item.value.material) ==> r.material == item.value.material)
            && (item.Some? && Present(item.value.finish) ==> r.finish == item.value.finish)
            && (!(item.Some? && Present(item.value.material)) && mats != [] ==> r.material == Some(mats[0].value))
            && (!(item.Some? && Present(item.value.finish)) && treatments != [] ==> r.finish == Some(treatments[0].value))
            && (mats == [] ==> r.material == (if item.Some? then item.value.material else None))
            && (treatments == [] ==> r.finish == (if item.Some? then item.value.finish else None))
            && r.thicknessMm == (if item.Some? then item.value.thicknessMm else None)
            && r.certifications == ValuesOf(OfType(cs, "certification"))
            && multiset(r.constraints) == multiset(ConcatMap(cs, HighSpec))
  {
    ConstraintIndexGet(cs, "material_grade");
    ConstraintIndexGet(cs, "surface_treatment");
    ConstraintIndexGet(cs, "certification");
    HighSpecsRegrouped(cs);
  }

  // ---------------------------------------------------------------------
  // `_correlate_profile_with_pdf`, `_create_material_correlation`

  /** Which row a profile is matched to, how sure the match is, and by which strategy. */
  datatype Match = Match(item: Option<BomItem>, confidence: real, via: string)

  /** Strategy 2's test: the reference is inside the profile id, or the profile id inside the reference. */
  function Overlaps(pid: string): string -> bool {
    (ref: string) => Contains(pid, ref) || Contains(ref, pid)
  }

  /** Strategy 3's test: the lower-cased hint occurs in the lower-cased description. */
  function Mentions(hint: string): BomItem -> bool {
    (item: BomItem) => Contains(Lower(item.description), hint)
  }

  /** The matching cascade: layer as reference, then profile id, then material hint. */
  function ProfileMatch(p: ProfileRecord, lookup: PdfLookup): Match {
    var byLayer := Get(lookup.byReference, Upper(p.layer));
    if byLayer.Some? then Match(byLayer, 0.9, "layer_to_reference")
    else
      var k := FirstKeyWhere(lookup.byReference, Overlaps(Upper(p.profileId)), 0);
      if k.Some? then Match(Some(lookup.byReference[k.value].1), 0.8, "profile_id_match")
      else if !Present(p.materialHint) then Match(None, 0.0, "none")
      else
        var j := FirstWhere(lookup.allItems, Mentions(Lower(p.materialHint.value)), 0);
        if j.Some? then Match(Some(lookup.allItems[j.value]), 0.6, "material_hint")
        else Match(None, 0.0, "none")
  }

  /**
   * The cascade in order: a layer filed as a reference gives its row at
   * 0.9; otherwise the first filed reference overlapping the profile id
   * gives its row at 0.8; otherwise, with a material hint, the first row
   * whose description mentions it at 0.6; otherwise no row at 0.0.
   */
  lemma ProfileMatchCascade(p: ProfileRecord, lookup: PdfLookup)
    ensures var m := ProfileMatch(p, lookup);
            var refs := lookup.byReference;
            var pid := Upper(p.profileId);
            && (m.confidence == 0.9 <==> Upper(p.layer) in Keys(refs))
            && (m.confidence == 0.9 ==> m.item == Get(refs, Upper(p.layer)) && m.via == "layer_to_reference")
            && (m.confidence == 0.8 <==> Upper(p.layer) !in Keys(refs) && exists i :: 0 <= i < |refs| && Overlaps(pid)(refs[i].0))
            && (m.confidence == 0.8 ==>
                  m.via == "profile_id_match"
                  && exists i :: 0 <= i < |refs| && Overlaps(pid)(refs[i].0) && m.item == Some(refs[i].1)
                                 && forall j :: 0 <= j < i ==> !Overlaps(pid)(refs[j].0))
            && (m.confidence == 0.6 <==>
                  Upper(p.layer) !in Keys(refs) && (forall i :: 0 <= i < |refs| ==> !Overlaps(pid)(refs[i].0))
                  && Present(p.materialHint)
                  && exists i :: 0 <= i < |lookup.allItems| && Mentions(Lower(p.materialHint.value))(lookup.allItems[i]))
            && (m.confidence == 0.6 ==>
                  m.via == "material_hint"
                  && exists i :: 0 <= i < |lookup.allItems| && m.item == Some(lookup.allItems[i])
                                 && Mentions(Lower(p.materialHint.value))(lookup.allItems[i])
                                 && forall j :: 0 <= j < i ==> !Mentions(Lower(p.materialHint.value))(lookup.allItems[j]))
            && (m.item.None? <==> m.confidence == 0.0)
            && (m.confidence == 0.0 ==> m.via == "none")
  {
  }

  /** `_correlate_profile_with_pdf`: the profile keeps its DXF quantity; the matched row only supplies specifications. */
  function ProfileCorrelation(p: ProfileRecord, lookup: PdfLookup, index: Dict<seq<Constraint>>): Correlation {
    var m := ProfileMatch(p, lookup);
    Correlation(Some(p), None, m.item, m.confidence, m.via, "dxf", SpecsFor(m.item, index))
  }

  /** `_create_material_correlation`: a block count matched by its reference, 0.7 when a row is found and 0.5 otherwise. */
  function MaterialCorrelation(mq: Dxf.MaterialQuantity, lookup: PdfLookup, index: Dict<seq<Constraint>>): Correlation {
    var item := Get(lookup.byReference, Upper(mq.profileReference));
    Correlation(None, Some(mq), item, if item.Some? then 0.7 else 0.5, "block_count", "dxf", SpecsFor(item, index))
  }

  /** The correlation `correlate_data` builds for a PDF row when there is no DXF geometry. */
  function PdfOnlyCorrelation(item: BomItem): Correlation {
    Correlation(None, None, Some(item), 0.5, "pdf_only", "pdf", NoSpecs)
  }

  // ---------------------------------------------------------------------
  // `correlate_data`

  predicate HasDxf(dxf: DxfAnalysis) {
    dxf.success && |dxf.profiles| > 0
  }

  predicate HasPdfItems(pdf: PdfAnalysis) {
    pdf.success && |pdf.bomItems| > 0
  }

  /** What one material quantity adds: a correlation when it counts block insertions. */
  function BlockCorrelations(lookup: PdfLookup, index: Dict<seq<Constraint>>): Dxf.MaterialQuantity -> seq<Correlation> {
    (mq: Dxf.MaterialQuantity) => if mq.source == "block_count" then [MaterialCorrelation(mq, lookup, index)] else []
  }

  /** The correlation of a profile against these indexes. */
  function ProfileCorrelator(lookup: PdfLookup, index: Dict<seq<Constraint>>): ProfileRecord -> Correlation {
    p => ProfileCorrelation(p, lookup, index)
  }

  /** One correlation per DXF profile, in order. */
  function ProfileCorrelations(profiles: seq<ProfileRecord>, lookup: PdfLookup, index: Dict<seq<Constraint>>): seq<Correlation> {
    Map(profiles, ProfileCorrelator(lookup, index))
  }


  /** One correlation per PDF row, in order. */
  function PdfOnlyCorrelations(items: seq<BomItem>): seq<Correlation> {
    seq(|items|, i requires 0 <= i < |items| => PdfOnlyCorrelation(items[i]))
  }

  /** The correlations of the DXF path, or of the PDF path, before any fallback. */
  function PrimaryCorrelations(dxf: DxfAnalysis, pdf: PdfAnalysis): seq<Correlation> {
    var lookup := LookupOf(pdf.bomItems);
    var index := ConstraintIndex(pdf.constraints);
    if HasDxf(dxf) then
      ProfileCorrelations(dxf.profiles, lookup, index) + ConcatMap(dxf.materialQuantities, BlockCorrelations(lookup, index))
    else if HasPdfItems(pdf) then PdfOnlyCorrelations(pdf.bomItems)
    else []
  }

  /** `correlate_data(dxf_data, pdf_data)` */
  function Correlations(dxf: DxfAnalysis, pdf: PdfAnalysis): seq<Correlation> {
    var primary := PrimaryCorrelations(dxf, pdf);
    if primary == [] then FallbackCorrelations(pdf) else primary
  }

  /** The entry naming the path `correlate_data` takes, if it takes one. */
  function PathLog(dxf: DxfAnalysis, pdf: PdfAnalysis): seq<LogEntry> {
    if HasDxf(dxf) then [UsingDxfAsPrimary(|dxf.profiles|, |dxf.materialQuantities|)]
    else if HasPdfItems(pdf) then [UsingPdfAsFallback(|pdf.bomItems|)]
    else []
  }

  /** The entries `correlate_data` adds to `correlation_log`. */
  function CorrelationLog(dxf: DxfAnalysis, pdf: PdfAnalysis): seq<LogEntry> {
    PathLog(dxf, pdf) + (if PrimaryCorrelations(dxf, pdf) == [] then [CreatingFallbackItems] else [])
  }

  /** Every block-count correlation keeps its DXF quantity. */
  lemma BlockCorrelationsFromDxf(mqs: seq<Dxf.MaterialQuantity>, lookup: PdfLookup, index: Dict<seq<Constraint>>)
    ensures var r := ConcatMap(mqs, BlockCorrelations(lookup, index));
            forall k :: 0 <= k < |r| ==>
              r[k].quantitySource == "dxf" && r[k].correlationMethod == "block_count" && r[k].materialQuantity.Some?
              && r[k].materialQuantity.value in mqs && r[k].materialQuantity.value.source == "block_count"
  {
    var f := BlockCorrelations(lookup, index);
    var r := ConcatMap(mqs, f);
    forall k | 0 <= k < |r|
      ensures r[k].quantitySource == "dxf" && r[k].correlationMethod == "block_count" && r[k].materialQuantity.Some?
              && r[k].materialQuantity.value in mqs && r[k].materialQuantity.value.source == "block_count"
    {
      ConcatMapMember(mqs, f, r[k]);
      var i :| 0 <= i < |mqs| && r[k] in f(mqs[i]);
      assert r[k] == MaterialCorrelation(mqs[i], lookup, index);
    }
  }

  /** The DXF path: one correlation per profile, in order, then the block counts. */
  lemma DxfPath(dxf: DxfAnalysis, pdf: PdfAnalysis)
    requires HasDxf(dxf)
    ensures var r := PrimaryCorrelations(dxf, pdf);
            && |r| >= |dxf.profiles|
            && (forall i :: 0 <= i < |dxf.profiles| ==> r[i].dxfProfile == Some(dxf.profiles[i]) && r[i].quantitySource == "dxf")
            && r[|dxf.profiles|..] == ConcatMap(dxf.materialQuantities, BlockCorrelations(LookupOf(pdf.bomItems), ConstraintIndex(pdf.constraints)))
  {
    var lookup := LookupOf(pdf.bomItems);
    var index := ConstraintIndex(pdf.constraints);
    var profiles := seq(|dxf.profiles|, i requires 0 <= i < |dxf.profiles| => ProfileCorrelation(dxf.profiles[i], lookup, index));
    var blocks := ConcatMap(dxf.materialQuantities, BlockCorrelations(lookup, index));
    assert PrimaryCorrelations(dxf, pdf) == profiles + blocks;
    assert (profiles + blocks)[|profiles|..] == blocks;
  }

  /**
   * DXF quantities win: when the DXF analysis succeeded with profiles, the
   * correlations are one per profile, in order, then one per block count,
   * every one of them takes its quantity from the DXF, and no fallback or
   * PDF-only correlation appears.
   */
  lemma DxfPrevails(dxf: DxfAnalysis, pdf: PdfAnalysis)
    requires HasDxf(dxf)
    ensures var r := Correlations(dxf, pdf);
            && |r| >= |dxf.profiles|
            && (forall i :: 0 <= i < |dxf.profiles| ==> r[i].dxfProfile == Some(dxf.profiles[i]))
            && (forall i :: |dxf.profiles| <= i < |r| ==> r[i].correlationMethod == "block_count")
            && (forall i :: 0 <= i < |r| ==> r[i].quantitySource == "dxf")
            && CorrelationLog(dxf, pdf) == [UsingDxfAsPrimary(|dxf.profiles|, |dxf.materialQuantities|)]
  {
    var r := PrimaryCorrelations(dxf, pdf);
    var n := |dxf.profiles|;
    DxfPath(dxf, pdf);
    var blocks := r[n..];
    BlockCorrelationsFromDxf(dxf.materialQuantities, LookupOf(pdf.bomItems), ConstraintIndex(pdf.constraints));
    assert forall i :: n <= i < |r| ==> r[i] == blocks[i - n];
    assert Correlations(dxf, pdf) == r;
  }

  /** Without DXF geometry but with PDF rows: one correlation per row, in order, at 0.5, quantity from the PDF. */
  lemma PdfFallbackPath(dxf: DxfAnalysis, pdf: PdfAnalysis)
    requires !HasDxf(dxf) && HasPdfItems(pdf)
    ensures var r := Correlations(dxf, pdf);
            && |r| == |pdf.bomItems|
            && forall i :: 0 <= i < |r| ==>
                 r[i].pdfItem == Some(pdf.bomItems[i]) && r[i].dxfProfile.None? && r[i].confidence == 0.5
                 && r[i].correlationMethod == "pdf_only" && r[i].quantitySource == "pdf"
    ensures CorrelationLog(dxf, pdf) == [UsingPdfAsFallback(|pdf.bomItems|)]
  {
  }

  // ---------------------------------------------------------------------
  // `_create_fallback_correlations`

  /** `s[:n]` */
  function Prefix<T>(s: seq<T>, n: nat): (r: seq<T>)
    ensures |r| <= n && r <= s && (|s| <= n ==> r == s)
  {
    if |s| <= n then s else s[..n]
  }

  /** The stand-in row of an estimated correlation: one unit, no measurements but possibly a length. */
  function EstimatedItem(reference: string, description: string, lengthMm: Option<real>, notes: string): BomItem {
    Pdf.BomItem(0, reference, description, 1.0, "", lengthMm, None, None, None, None, None, notes, 0.0, 0, [])
  }

  /** The `i`-th material grade as an estimated item `MAT-0i`. */
  function MaterialFallback(i: nat, mat: Constraint): Correlation {
    Correlation(None, None, Some(EstimatedItem("MAT-" + Pad2(i + 1), "Material: " + mat.value, None, Take(mat.context, 100))),
      0.3, "constraint_extraction", "estimated", Specs(Some(mat.value), None, None, [], []))
  }

  /** The `i`-th surface treatment as an estimated item `TRAT-0i`. */
  function TreatmentFallback(i: nat, treatment: Constraint): Correlation {
    Correlation(None, None, Some(EstimatedItem("TRAT-" + Pad2(i + 1), "Tratamento: " + treatment.value, None, Take(treatment.context, 100))),
      0.3, "constraint_extraction", "estimated", Specs(None, Some(treatment.value), None, [], []))
  }

  /** A dimension text with its length, as the estimated item numbered `n`. */
  function DimensionFallback(n: nat, raw: string, length: real): Correlation {
    Correlation(None, None, Some(EstimatedItem("DIM-" + Pad2(n), "Elemento " + raw, Some(length), "")),
      0.25, "dimension_extraction", "estimated", NoSpecs)
  }

  /** `dim.get('raw', '') or dim.get('dimensions', '')` */
  function DimensionText(d: DimensionSpec): string {
    if d.raw != "" then d.raw else d.dimensions
  }

  /**
   * The dimension loop: each text not seen before is remembered, and kept
   * with its length when the length exceeds 50. Returns the kept texts with
   * their lengths, and the texts seen.
   */
  function DimensionScan(dims: seq<DimensionSpec>): (seq<(string, real)>, set<string>)
    decreases |dims|
  {
    if dims == [] then ([], {})
    else
      var (kept, seen) := DimensionScan(dims[..|dims| - 1]);
      ScanStep(kept, seen, DimensionText(dims[|dims| - 1]))
  }

  /** One turn of the dimension loop. */
  function ScanStep(kept: seq<(string, real)>, seen: set<string>, raw: string): (seq<(string, real)>, set<string>) {
    if raw == "" || raw in seen then (kept, seen)
    else
      var length := ParseDimension(raw);
      if length.Some? && length.value > 50.0 then (kept + [(raw, length.value)], seen + {raw})
      else (kept, seen + {raw})
  }

  /** The texts of non-empty dimension entries. */
  function DimensionTexts(dims: seq<DimensionSpec>): set<string> {
    set i | 0 <= i < |dims| && DimensionText(dims[i]) != "" :: DimensionText(dims[i])
  }

  /** A text whose largest number exceeds 50. */
  predicate LongEnough(raw: string) {
    ParseDimension(raw).Some? && ParseDimension(raw).value > 50.0
  }

  /** What the dimension loop keeps: long texts with their lengths, each once, and every long text it has seen. */
  predicate ScanKeeps(kept: seq<(string, real)>, seen: set<string>) {
    && (forall k :: 0 <= k < |kept| ==>
          kept[k].0 in seen && LongEnough(kept[k].0) && ParseDimension(kept[k].0) == Some(kept[k].1))
    && (forall k, l :: 0 <= k < l < |kept| ==> kept[k].0 != kept[l].0)
    && (forall raw :: raw in seen && LongEnough(raw) ==> exists k :: 0 <= k < |kept| && kept[k].0 == raw)
  }

  lemma DimensionScanStep(kept: seq<(string, real)>, seen: set<string>, raw: string)
    requires ScanKeeps(kept, seen) && raw != "" && raw !in seen
    ensures LongEnough(raw) ==> ScanKeeps(kept + [(raw, ParseDimension(raw).value)], seen + {raw})
    ensures !LongEnough(raw) ==> ScanKeeps(kept, seen + {raw})
  {
    var kept' := kept + [(raw, if LongEnough(raw) then ParseDimension(raw).value else 0.0)];
    if LongEnough(raw) {
      forall x | x in seen + {raw} && LongEnough(x) ensures exists k :: 0 <= k < |kept'| && kept'[k].0 == x {
        if x == raw {
          assert kept'[|kept|].0 == x;
        } else {
          var k :| 0 <= k < |kept| && kept[k].0 == x;
          assert kept'[k].0 == x;
        }
      }
    }
  }

  lemma DimensionTextsSnoc(dims: seq<DimensionSpec>)
    requires dims != []
    ensures var raw := DimensionText(dims[|dims| - 1]);
            DimensionTexts(dims) == DimensionTexts(dims[..|dims| - 1]) + (if raw == "" then {} else {raw})
  {
    var init := dims[..|dims| - 1];
    var raw := DimensionText(dims[|dims| - 1]);
    forall x | x in DimensionTexts(dims) ensures x in DimensionTexts(init) + (if raw == "" then {} else {raw}) {
      var i :| 0 <= i < |dims| && DimensionText(dims[i]) != "" && DimensionText(dims[i]) == x;
      if i < |init| {
        assert init[i] == dims[i];
      }
    }
    forall x | x in DimensionTexts(init) ensures x in DimensionTexts(dims) {
      var i :| 0 <= i < |init| && DimensionText(init[i]) != "" && DimensionText(init[i]) == x;
      assert init[i] == dims[i];
    }
  }

  /**
   * The dimension loop keeps each non-empty text once, exactly when its
   * largest number exceeds 50, with that number as the length.
   */
  lemma {:induction false} DimensionScanKeeps(dims: seq<DimensionSpec>)
    ensures DimensionScan(dims).1 == DimensionTexts(dims)
    ensures ScanKeeps(DimensionScan(dims).0, DimensionScan(dims).1)
    decreases |dims|
  {
    if dims != [] {
      var init := dims[..|dims| - 1];
      DimensionScanKeeps(init);
      DimensionTextsSnoc(dims);
      var raw := DimensionText(dims[|dims| - 1]);
      var (kept, seen) := DimensionScan(init);
      if raw != "" && raw !in seen {
        DimensionScanStep(kept, seen, raw);
      }
    }
  }

  lemma KeptAreLong(dims: seq<DimensionSpec>)
    ensures forall k :: 0 <= k < |DimensionScan(dims).0| ==> DimensionScan(dims).0[k].1 > 50.0
  {
    DimensionScanKeeps(dims);
  }

  const PlaceholderOpening := "Projeto (an\U{e1}lise autom\U{e1}tica: "
  const PlaceholderClosing := " dimens\U{f5}es)"
  const PlaceholderNotes := "Dados extra\U{ed}dos de desenhos t\U{e9}cnicos. Revis\U{e3}o manual recomendada."

  /** `Projeto (análise automática: {n} specs, {m} dimensões)` */
  function PlaceholderDescription(constraints: nat, dimensions: nat): string {
    PlaceholderOpening + NatToString(constraints) + " specs, " + NatToString(dimensions) + PlaceholderClosing
  }

  /** The single `PROJ-01` placeholder. */
  function Placeholder(constraints: nat, dimensions: nat): Correlation {
    Correlation(None, None,
      Some(EstimatedItem("PROJ-01", PlaceholderDescription(constraints, dimensions), None, PlaceholderNotes)),
      0.1, "placeholder", "estimated", NoSpecs)
  }

  /** The material items, numbered from 1. */
  function MaterialFallbacks(mats: seq<Constraint>): seq<Correlation> {
    MapIndexed(mats, MaterialFallback)
  }

  /** The treatment items, numbered from 1. */
  function TreatmentFallbacks(treatments: seq<Constraint>): seq<Correlation> {
    MapIndexed(treatments, TreatmentFallback)
  }

  /** The material and treatment items, at most 10 and 5. */
  function ConstraintFallbacks(cs: seq<Constraint>): seq<Correlation> {
    MaterialFallbacks(Prefix(OfType(cs, "material_grade"), 10)) + TreatmentFallbacks(Prefix(OfType(cs, "surface_treatment"), 5))
  }

  /** The dimension items, numbered after the `base` items before them. */
  function DimensionFallbacks(kept: seq<(string, real)>, base: nat): seq<Correlation> {
    seq(|kept|, k requires 0 <= k < |kept| => DimensionFallback(base + k + 1, kept[k].0, kept[k].1))
  }

  /** `_create_fallback_correlations(pdf_data, dxf_data)` */
  function FallbackCorrelations(pdf: PdfAnalysis): seq<Correlation> {
    var front := ConstraintFallbacks(pdf.constraints);
    var tail := DimensionFallbacks(DimensionScan(Prefix(pdf.dimensionSpecs, 20)).0, |front|);
    FallbackOf(front, tail, Placeholder(|pdf.constraints|, |pdf.dimensionSpecs|))
  }

  /** The items found, or the placeholder when there are none. */
  function FallbackOf(front: seq<Correlation>, tail: seq<Correlation>, placeholder: Correlation): seq<Correlation> {
    if front + tail == [] then [placeholder] else front + tail
  }

  /** An estimated correlation: one unit of a stand-in row, no DXF geometry. */
  predicate Estimated(c: Correlation) {
    c.dxfProfile.None? && c.quantitySource == "estimated" && c.pdfItem.Some? && c.pdfItem.value.quantity == 1.0
  }

  /** The material items come first, in order of the constraints, then the treatment items. */
  lemma ConstraintFallbacksShape(mats: seq<Constraint>, treatments: seq<Constraint>)
    ensures var r := MaterialFallbacks(mats) + TreatmentFallbacks(treatments);
            && |r| == |mats| + |treatments|
            && (forall i :: 0 <= i < |r| ==> Estimated(r[i]) && r[i].correlationMethod == "constraint_extraction")
            && (forall i :: 0 <= i < |mats| ==> r[i].specs.material == Some(mats[i].value))
            && (forall i :: |mats| <= i < |r| ==> r[i].specs.finish == Some(treatments[i - |mats|].value))
  {
    var a, b := MaterialFallbacks(mats), TreatmentFallbacks(treatments);
    MaterialFallbacksShape(mats);
    TreatmentFallbacksShape(treatments);
    var r := a + b;
    forall i | 0 <= i < |r|
      ensures Estimated(r[i]) && r[i].correlationMethod == "constraint_extraction"
      ensures i < |mats| ==> r[i].specs.material == Some(mats[i].value)
      ensures |mats| <= i ==> r[i].specs.finish == Some(treatments[i - |mats|].value)
    {
      if i < |a| {
        assert r[i] == a[i];
      } else {
        assert r[i] == b[i - |a|];
      }
    }
  }

  lemma MaterialFallbacksShape(mats: seq<Constraint>)
    ensures var r := MaterialFallbacks(mats);
            && |r| == |mats|
            && forall i :: 0 <= i < |r| ==>
                 Estimated(r[i]) && r[i].correlationMethod == "constraint_extraction" && r[i].specs.material == Some(mats[i].value)
  {
    var r := MaterialFallbacks(mats);
    forall i | 0 <= i < |r|
      ensures Estimated(r[i]) && r[i].correlationMethod == "constraint_extraction" && r[i].specs.material == Some(mats[i].value)
    {
      assert r[i] == MaterialFallback(i, mats[i]);
    }
  }

  lemma TreatmentFallbacksShape(treatments: seq<Constraint>)
    ensures var r := TreatmentFallbacks(treatments);
            && |r| == |treatments|
            && forall i :: 0 <= i < |r| ==>
                 Estimated(r[i]) && r[i].correlationMethod == "constraint_extraction" && r[i].specs.finish == Some(treatments[i].value)
  {
    var r := TreatmentFallbacks(treatments);
    forall i | 0 <= i < |r|
      ensures Estimated(r[i]) && r[i].correlationMethod == "constraint_extraction" && r[i].specs.finish == Some(treatments[i].value)
    {
      assert r[i] == TreatmentFallback(i, treatments[i]);
    }
  }

  /** The dimension items carry their lengths, in the order the texts were kept. */
  lemma DimensionFallbacksShape(kept: seq<(string, real)>, base: nat)
    ensures var r := DimensionFallbacks(kept, base);
            && |r| == |kept|
            && forall k :: 0 <= k < |r| ==>
                 Estimated(r[k]) && r[k].correlationMethod == "dimension_extraction"
                 && r[k].pdfItem.value.lengthMm == Some(kept[k].1)
  {
  }

  /** The constraint items followed by the dimension items, or the placeholder alone. */
  lemma FallbackOfShape(front: seq<Correlation>, tail: seq<Correlation>, kept: seq<(string, real)>, placeholder: Correlation)
    requires forall i :: 0 <= i < |front| ==> Estimated(front[i]) && front[i].correlationMethod == "constraint_extraction"
    requires |tail| == |kept|
    requires forall k :: 0 <= k < |tail| ==>
               Estimated(tail[k]) && tail[k].correlationMethod == "dimension_extraction"
               && tail[k].pdfItem.value.lengthMm == Some(kept[k].1) && kept[k].1 > 50.0
    requires Estimated(placeholder) && placeholder.correlationMethod == "placeholder"
    ensures var r := FallbackOf(front, tail, placeholder);
            && r != []
            && (forall i :: 0 <= i < |r| ==> Estimated(r[i]))
            && (r[0].correlationMethod == "placeholder" <==> front == [] && kept == [])
            && (r[0].correlationMethod == "placeholder" ==> r == [placeholder])
            && (r[0].correlationMethod != "placeholder" ==>
                  && |r| == |front| + |kept|
                  && r[..|front|] == front
                  && (forall i :: |front| <= i < |r| ==>
                        r[i].correlationMethod == "dimension_extraction"
                        && r[i].pdfItem.value.lengthMm == Some(kept[i - |front|].1) && kept[i - |front|].1 > 50.0))
  {
    var r := front + tail;
    assert forall i :: |front| <= i < |r| ==> r[i] == tail[i - |front|];
    assert r != [] ==> r[0] == if front != [] then front[0] else tail[0];
  }

  lemma PlaceholderShape(constraints: nat, dimensions: nat)
    ensures Estimated(Placeholder(constraints, dimensions))
    ensures Placeholder(constraints, dimensions).correlationMethod == "placeholder"
  {
  }

  /**
   * The fallback: at most 10 material items and 5 treatment items, the
   * first material and treatment constraints in order; then one item per
   * distinct dimension text among the first 20 entries whose largest number
   * exceeds 50; the placeholder exactly when there is none of these. Every
   * item is estimated, one unit, without DXF geometry.
   */
  lemma FallbackShape(pdf: PdfAnalysis)
    ensures var r := FallbackCorrelations(pdf);
            var mats := Prefix(OfType(pdf.constraints, "material_grade"), 10);
            var treatments := Prefix(OfType(pdf.constraints, "surface_treatment"), 5);
            var kept := DimensionScan(Prefix(pdf.dimensionSpecs, 20)).0;
            var front := ConstraintFallbacks(pdf.constraints);
            && r != []
            && |mats| <= 10 && |treatments| <= 5 && |front| == |mats| + |treatments|
            && (forall i :: 0 <= i < |r| ==> Estimated(r[i]))
            && (r[0].correlationMethod == "placeholder" <==> mats == [] && treatments == [] && kept == [])
            && (r[0].correlationMethod == "placeholder" ==> |r| == 1)
            && (r[0].correlationMethod != "placeholder" ==>
                  && |r| == |front| + |kept|
                  && r[..|front|] == front
                  && (forall i :: |front| <= i < |r| ==>
                        r[i].correlationMethod == "dimension_extraction"
                        && r[i].pdfItem.value.lengthMm == Some(kept[i - |front|].1) && kept[i - |front|].1 > 50.0))
  {
    var dims := Prefix(pdf.dimensionSpecs, 20);
    var kept := DimensionScan(dims).0;
    KeptAreLong(dims);
    var mats := Prefix(OfType(pdf.constraints, "material_grade"), 10);
    var treatments := Prefix(OfType(pdf.constraints, "surface_treatment"), 5);
    ConstraintFallbacksShape(mats, treatments);
    var front := ConstraintFallbacks(pdf.constraints);
    assert front == MaterialFallbacks(mats) + TreatmentFallbacks(treatments);
    DimensionFallbacksShape(kept, |front|);
    PlaceholderShape(|pdf.constraints|, |pdf.dimensionSpecs|);
    FallbackOfShape(front, DimensionFallbacks(kept, |front|), kept, Placeholder(|pdf.constraints|, |pdf.dimensionSpecs|));
  }

  /** `correlate_data` never returns an empty list, and logs the fallback exactly when it used it. */
  lemma CorrelationsNonEmpty(dxf: DxfAnalysis, pdf: PdfAnalysis)
    ensures Correlations(dxf, pdf) != []
    ensures (CreatingFallbackItems in CorrelationLog(dxf, pdf)) <==> PrimaryCorrelations(dxf, pdf) == []
    ensures !HasDxf(dxf) && !HasPdfItems(pdf) ==> CorrelationLog(dxf, pdf) == [CreatingFallbackItems]
  {
    FallbackShape(pdf);
  }

  /**
   * As written, an item whose reference is only a separator (`"-"`) is also
   * filed under the empty key, which every profile id contains: a profile
   * whose layer is not a reference is matched to that row at 0.8.
   */
  lemma SeparatorReferenceMatchesAnyProfile(item: BomItem, p: ProfileRecord)
    requires ReferenceKey(item) == "-"
    requires Upper(p.layer) != "-" && Upper(p.layer) != ""
    ensures var m := ProfileMatch(p, PdfLookup(ByReference([item], true), ByDescription([item]), [item]));
            m.confidence == 0.8 && m.item == Some(item)
  {
    var refs := ByReference([item], true);
    SeparatorFiledTwice(item);
    assert Get(refs, Upper(p.layer)).None?;
    var pid := Upper(p.profileId);
    assert Overlaps(pid)(refs[1].0) by {
      assert pid[0..0] == "";
    }
    var k := FirstKeyWhere(refs, Overlaps(pid), 0);
    assert refs[k.value].1 == item;
  }

  /** As written, a row whose reference is only a separator is filed under it and under the empty key. */
  lemma SeparatorFiledTwice(item: BomItem)
    requires ReferenceKey(item) == "-"
    ensures ByReference([item], true) == [("-", item), ("", item)]
  {
    SeparatorOnly();
    FiledOne(item, item => ReferenceKeys(item, true));
    assert ReferenceKeys(item, true) == ["-", ""];
    assert Put([], "-", item) == [("-", item)];
    assert Keys([("-", item)]) == ["-"];
    assert ["-", ""][1..] == [""] && [""][1..] == [];
    assert Filed([], ["-", ""], item) == Filed([("-", item)], [""], item);
  }

  /** With the empty key dropped, the same row no longer matches a profile it has nothing in common with. */
  lemma SeparatorReferenceCorrected(item: BomItem, p: ProfileRecord)
    requires ReferenceKey(item) == "-"
    requires Upper(p.layer) != "-" && Upper(p.profileId) != "" && '-' !in Upper(p.profileId)
    requires p.materialHint.None?
    ensures ProfileMatch(p, LookupOf([item])).confidence == 0.0
  {
    var refs := ByReference([item], false);
    SeparatorOnly();
    FiledOne(item, item => ReferenceKeys(item, false));
    assert refs == [("-", item)];
    ContainsChar(Upper(p.profileId), '-');
    assert !Contains("-", Upper(p.profileId)) by {
      assert !(Upper(p.profileId) <= "-");
      assert "-"[1..] == "";
    }
  }

  lemma FiledOne<T>(x: T, keys: T -> seq<string>)
    ensures FiledAll([x], keys) == Filed([], keys(x), x)
  {
    assert [x][..0] == [];
  }

  lemma SeparatorOnly()
    ensures WithoutSeparators("-") == ""
  {
    assert IsSeparator("-"[0]);
  }

  /** A one-character needle occurs exactly where its character does. */
  lemma {:induction false} ContainsChar(hay: string, c: char)
    ensures Contains(hay, [c]) <==> c in hay
    decreases |hay|
  {
    if |hay| > 0 {
      ContainsChar(hay[1..], c);
      assert c in hay <==> c == hay[0] || c in hay[1..];
    }
  }
}
