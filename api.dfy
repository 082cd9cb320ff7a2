/**
 * The web service around the quote engine: the categorisation of an
 * uploaded drawing or document, the merge of every analysis of a project
 * into one view per kind, the upload of a batch of files, the data a
 * budget request hands to the engine (with its parameter overrides), and
 * the margin simulation on a stored budget.
 */
module Api {
  import opened Wrappers
  import opened Dicts
  import opened Folds
  import opened BudgetTypes
  import Summary
  import BudgetLines
  import Correlator
  import Calculator
  import CostCatalog
  import Pdf
  import Dxf

  // ---------------------------------------------------------------- analyses as the service stores them

  /** A JSON object the merge copies without looking inside: a text, a layer, a block, a material spec. */
  datatype Entry = Entry(fields: Dict<string>)

  /** `statistics` of a drawing's analysis; a missing key reads as 0. */
  datatype DxfStatistics = DxfStatistics(totalProfiles: int, totalFeatures: int, totalTexts: int)

  /** The analysis `process_dxf_exhaustive` reports for one drawing; a missing key reads as empty. */
  datatype DxfFileAnalysis = DxfFileAnalysis(
    success: bool, profiles: seq<ProfileRecord>, featuresSummary: Dict<int>,
    materialQuantities: seq<Dxf.MaterialQuantity>, textsExtracted: seq<Entry>,
    layers: Dict<Entry>, blocksAnalyzed: Dict<Entry>, statistics: DxfStatistics)

  /** `statistics` of a document's analysis; a missing key reads as 0. */
  datatype PdfStatistics = PdfStatistics(totalItems: int, totalConstraints: int)

  /** The analysis `process_pdf_exhaustive` reports for one document; a missing key reads as empty. */
  datatype PdfFileAnalysis = PdfFileAnalysis(
    success: bool, bomItems: seq<Pdf.BomItem>, constraints: seq<Pdf.TechnicalConstraint>,
    dimensionSpecs: seq<DimensionSpec>, materialSpecs: seq<Entry>, profileReferences: seq<string>,
    statistics: PdfStatistics)

  /** `merged_dxf_analysis` */
  datatype MergedDxf = MergedDxf(
    success: bool, profiles: seq<ProfileRecord>, featuresSummary: Dict<int>,
    materialQuantities: seq<Dxf.MaterialQuantity>, textsExtracted: seq<Entry>,
    layers: Dict<Entry>, blocksAnalyzed: Dict<Entry>,
    totalProfiles: int, totalFeatures: int, filesMerged: nat)

  /** `merged_pdf_analysis` */
  datatype MergedPdf = MergedPdf(
    success: bool, bomItems: seq<Pdf.BomItem>, constraints: seq<Pdf.TechnicalConstraint>,
    dimensionSpecs: seq<DimensionSpec>, materialSpecs: seq<Entry>, profileReferences: seq<string>,
    totalItems: int, totalConstraints: int, filesMerged: nat)

  // ---------------------------------------------------------------- categorisation

  const DxfCategories: set<string> :=
    {"error", "floor_plan", "machining_detail", "annotated_drawing", "profile_detail", "general_drawing"}

  const PdfCategories: set<string> :=
    {"error", "bill_of_materials", "technical_specification", "partial_bom", "general_document"}

  /**
   * `categorize_dxf`: a failed analysis is an error; otherwise many
   * profiles make a floor plan, then many features a machining detail,
   * then many texts an annotated drawing, then any profile a profile detail.
   */
  function CategorizeDxf(a: DxfFileAnalysis): (category: string)
    ensures category in DxfCategories
    ensures category == "error" <==> !a.success
  {
    var s := a.statistics;
    if !a.success then "error"
    else if s.totalProfiles > 50 then "floor_plan"
    else if s.totalFeatures > 10 then "machining_detail"
    else if s.totalTexts > 20 then "annotated_drawing"
    else if s.totalProfiles > 0 then "profile_detail"
    else "general_drawing"
  }

  /** The condition under which a successful drawing belongs to each category, each stated on its own. */
  predicate DxfCategoryHolds(s: DxfStatistics, category: string) {
    match category
    case "floor_plan" => s.totalProfiles > 50
    case "machining_detail" => s.totalProfiles <= 50 && s.totalFeatures > 10
    case "annotated_drawing" => s.totalProfiles <= 50 && s.totalFeatures <= 10 && s.totalTexts > 20
    case "profile_detail" => 0 < s.totalProfiles <= 50 && s.totalFeatures <= 10 && s.totalTexts <= 20
    case "general_drawing" => s.totalProfiles <= 0 && s.totalFeatures <= 10 && s.totalTexts <= 20
    case _ => false
  }

  /** A successful drawing gets a category exactly when that category's own condition holds, so exactly one holds. */
  lemma DxfCategoryExactly(a: DxfFileAnalysis, category: string)
    requires a.success
    ensures CategorizeDxf(a) == category <==> DxfCategoryHolds(a.statistics, category)
  {
  }

  /**
   * `categorize_pdf`: a failed analysis is an error; otherwise more than
   * five items make a bill of materials, then many constraints a technical
   * specification, then any item a partial bill.
   */
  function CategorizePdf(a: PdfFileAnalysis): (category: string)
    ensures category in PdfCategories
    ensures category == "error" <==> !a.success
  {
    var s := a.statistics;
    if !a.success then "error"
    else if s.totalItems > 5 then "bill_of_materials"
    else if s.totalConstraints > 10 then "technical_specification"
    else if s.totalItems > 0 then "partial_bom"
    else "general_document"
  }

  /** The condition under which a successful document belongs to each category, each stated on its own. */
  predicate PdfCategoryHolds(s: PdfStatistics, category: string) {
    match category
    case "bill_of_materials" => s.totalItems > 5
    case "technical_specification" => s.totalItems <= 5 && s.totalConstraints > 10
    case "partial_bom" => 0 < s.totalItems <= 5 && s.totalConstraints <= 10
    case "general_document" => s.totalItems <= 0 && s.totalConstraints <= 10
    case _ => false
  }

  /** A successful document gets a category exactly when that category's own condition holds. */
  lemma PdfCategoryExactly(a: PdfFileAnalysis, category: string)
    requires a.success
    ensures CategorizePdf(a) == category <==> PdfCategoryHolds(a.statistics, category)
  {
  }

  // ---------------------------------------------------------------- feature counts

  /** `for t, c in counts.items(): merged[t] = merged.get(t, 0) + c` */
  function AddCounts(d: Dict<int>, counts: Dict<int>): Dict<int>
    decreases |counts|
  {
    if counts == [] then d
    else AddCounts(Bump(d, counts[0].0, counts[0].1), counts[1..])
  }

  /** `d[t] = d.get(t, 0) + c`: the entry of `t` raised by `c`, or a new entry at the end. */
  function Bump(d: Dict<int>, t: string, c: int): Dict<int>
    decreases |d|
  {
    if d == [] then [(t, c)]
    else if d[0].0 == t then [(t, d[0].1 + c)] + d[1..]
    else [d[0]] + Bump(d[1..], t, c)
  }

  /** Bumping is the assignment of the old count plus `c`. */
  lemma {:induction false} BumpIsPut(d: Dict<int>, t: string, c: int, v: int)
    requires v == Get(d, t).GetOr(0) + c
    ensures Put(d, t, v) == Bump(d, t, c)
    decreases |d|
  {
    if d != [] && d[0].0 != t {
      BumpIsPut(d[1..], t, c, v);
    }
  }

  /** Bumping a count raises that type's count and leaves the others. */
  lemma {:induction false} GetBump(d: Dict<int>, k: string, c: int, t: string)
    ensures Get(Bump(d, k, c), t).GetOr(0) == Get(d, t).GetOr(0) + (if k == t then c else 0)
    decreases |d|
  {
    if d != [] && d[0].0 != k {
      GetBump(d[1..], k, c, t);
      var b := Bump(d, k, c);
      assert b[0] == d[0] && b[1..] == Bump(d[1..], k, c);
    }
  }

  /** Bumping a count raises the total by the same amount. */
  lemma {:induction false} SumValuesBump(d: Dict<int>, k: string, c: int)
    ensures SumValues(Bump(d, k, c)) == SumValues(d) + c
    decreases |d|
  {
    if d != [] {
      var b := Bump(d, k, c);
      if d[0].0 == k {
        assert b[1..] == d[1..];
      } else {
        SumValuesBump(d[1..], k, c);
        assert b[1..] == Bump(d[1..], k, c);
      }
    }
  }

  /** The sum of the counts listed for type `t`. */
  function CountOf(counts: Dict<int>, t: string): int
    decreases |counts|
  {
    if counts == [] then 0
    else (if counts[0].0 == t then counts[0].1 else 0) + CountOf(counts[1..], t)
  }

  /** Adding counts raises each type's count by what is listed for it, and leaves every other type alone. */
  lemma {:induction false} AddCountsGet(d: Dict<int>, counts: Dict<int>, t: string)
    ensures Get(AddCounts(d, counts), t).GetOr(0) == Get(d, t).GetOr(0) + CountOf(counts, t)
    decreases |counts|
  {
    if counts != [] {
      GetBump(d, counts[0].0, counts[0].1, t);
      AddCountsGet(Bump(d, counts[0].0, counts[0].1), counts[1..], t);
    }
  }

  /** Adding counts raises the total by the total of the added counts. */
  lemma {:induction false} AddCountsTotal(d: Dict<int>, counts: Dict<int>)
    ensures SumValues(AddCounts(d, counts)) == SumValues(d) + SumValues(counts)
    decreases |counts|
  {
    if counts != [] {
      SumValuesBump(d, counts[0].0, counts[0].1);
      AddCountsTotal(Bump(d, counts[0].0, counts[0].1), counts[1..]);
    }
  }

  /** In a dict, the counts listed for a type are the one value stored under it. */
  lemma {:induction false} CountOfUnique(counts: Dict<int>, t: string)
    requires UniqueKeys(counts)
    ensures CountOf(counts, t) == Get(counts, t).GetOr(0)
    decreases |counts|
  {
    if counts != [] {
      var rest := counts[1..];
      assert UniqueKeys(rest) by {
        forall i, j | 0 <= i < j < |rest| ensures rest[i].0 != rest[j].0 {
          assert rest[i] == counts[i + 1] && rest[j] == counts[j + 1];
        }
      }
      CountOfUnique(rest, t);
      if counts[0].0 == t {
        assert t !in Keys(rest) by {
          forall i | 0 <= i < |rest| ensures Keys(rest)[i] != t {
            assert rest[i] == counts[i + 1];
          }
        }
      }
    }
  }

  /** Adds one drawing's feature counts, type by type. */
  method AddFeatureCounts(merged: Dict<int>, counts: Dict<int>) returns (r: Dict<int>)
    ensures r == AddCounts(merged, counts)
  {
    r := merged;
    for j := 0 to |counts|
      invariant AddCounts(r, counts[j..]) == AddCounts(merged, counts)
    {
      var t := counts[j].0;
      var v := Get(r, t).GetOr(0) + counts[j].1;
      BumpIsPut(r, t, counts[j].1, v);
      assert counts[j..][0] == counts[j] && counts[j..][1..] == counts[j + 1..];
      r := Put(r, t, v);
    }
    assert counts[|counts|..] == [];
  }

  // ---------------------------------------------------------------- merging the drawings

  /** The record before any drawing is merged; `success` is set by the first successful one. */
  function NoDxfMerged(filesMerged: nat): MergedDxf {
    MergedDxf(false, [], [], [], [], [], [], 0, 0, filesMerged)
  }

  /**
   * One pass of the merge loop: a successful analysis appends its profiles,
   * quantities and texts, adds its feature counts and overrides layers and
   * blocks of the same name; a failed one changes nothing.
   */
  function DxfMergeStep(m: MergedDxf, a: DxfFileAnalysis): MergedDxf {
    if !a.success then m
    else m.(success := true,
            profiles := m.profiles + a.profiles,
            featuresSummary := AddCounts(m.featuresSummary, a.featuresSummary),
            materialQuantities := m.materialQuantities + a.materialQuantities,
            textsExtracted := m.textsExtracted + a.textsExtracted,
            layers := PutAll(m.layers, a.layers),
            blocksAnalyzed := PutAll(m.blocksAnalyzed, a.blocksAnalyzed))
  }

  function DxfMergeLoop(analyses: seq<DxfFileAnalysis>, filesMerged: nat): MergedDxf
    decreases |analyses|
  {
    if analyses == [] then NoDxfMerged(filesMerged)
    else DxfMergeStep(DxfMergeLoop(analyses[..|analyses| - 1], filesMerged), analyses[|analyses| - 1])
  }

  /** `merge_project_analyses` for the drawings, its `success` meaning that some drawing was read. */
  function MergeDxf(analyses: seq<DxfFileAnalysis>): MergedDxf {
    var m := DxfMergeLoop(analyses, |analyses|);
    m.(totalProfiles := |m.profiles|, totalFeatures := SumValues(m.featuresSummary))
  }

  /** `merge_project_analyses` for the drawings as written: the merged record always reports success. */
  function MergeDxfAsWritten(analyses: seq<DxfFileAnalysis>): MergedDxf {
    MergeDxf(analyses).(success := true)
  }

  /** What each drawing contributes to the merged lists: its own lists when it was read, else nothing. */
  function ProfilesOf(a: DxfFileAnalysis): seq<ProfileRecord> {
    if a.success then a.profiles else []
  }

  function QuantitiesOf(a: DxfFileAnalysis): seq<Dxf.MaterialQuantity> {
    if a.success then a.materialQuantities else []
  }

  function TextsOf(a: DxfFileAnalysis): seq<Entry> {
    if a.success then a.textsExtracted else []
  }

  function LayersOf(a: DxfFileAnalysis): Dict<Entry> {
    if a.success then a.layers else []
  }

  function BlocksOf(a: DxfFileAnalysis): Dict<Entry> {
    if a.success then a.blocksAnalyzed else []
  }

  /** What each drawing contributes to the count of feature type `t`. */
  function FeatureCountOf(t: string): DxfFileAnalysis -> int {
    (a: DxfFileAnalysis) => if a.success then CountOf(a.featuresSummary, t) else 0
  }

  /** What each drawing contributes to the total feature count. */
  function FeatureTotalOf(a: DxfFileAnalysis): int {
    if a.success then SumValues(a.featuresSummary) else 0
  }

  /** Some analysis of the list was read. */
  predicate AnySucceeded(analyses: seq<DxfFileAnalysis>) {
    exists i :: 0 <= i < |analyses| && analyses[i].success
  }

  /**
   * The merged lists are the successful drawings' lists joined in upload
   * order, and the merge reports success exactly when a drawing was read.
   */
  lemma {:induction false} DxfMergeLoopLists(analyses: seq<DxfFileAnalysis>, n: nat)
    ensures var m := DxfMergeLoop(analyses, n);
            && m.filesMerged == n
            && (m.success <==> AnySucceeded(analyses))
            && m.profiles == ConcatMap(analyses, ProfilesOf)
            && m.materialQuantities == ConcatMap(analyses, QuantitiesOf)
            && m.textsExtracted == ConcatMap(analyses, TextsOf)
    decreases |analyses|
  {
    if analyses != [] {
      var init := analyses[..|analyses| - 1];
      DxfMergeLoopLists(init, n);
      assert forall i :: 0 <= i < |init| ==> init[i] == analyses[i];
    }
  }

  /** The merged layers and blocks are the successful drawings' entries assigned in upload order. */
  lemma {:induction false} DxfMergeLoopDicts(analyses: seq<DxfFileAnalysis>, n: nat)
    ensures var m := DxfMergeLoop(analyses, n);
            && m.layers == PutAll([], ConcatMap(analyses, LayersOf))
            && m.blocksAnalyzed == PutAll([], ConcatMap(analyses, BlocksOf))
    decreases |analyses|
  {
    if analyses != [] {
      var init := analyses[..|analyses| - 1];
      var a := analyses[|analyses| - 1];
      DxfMergeLoopDicts(init, n);
      PutAllAppend([], ConcatMap(init, LayersOf), LayersOf(a));
      PutAllAppend([], ConcatMap(init, BlocksOf), BlocksOf(a));
    }
  }

  /** The merged count of each feature type is the sum of that type's counts over the successful drawings. */
  lemma {:induction false} DxfMergeLoopFeatures(analyses: seq<DxfFileAnalysis>, n: nat, t: string)
    ensures Get(DxfMergeLoop(analyses, n).featuresSummary, t).GetOr(0) == SumInt(analyses, FeatureCountOf(t))
    decreases |analyses|
  {
    if analyses != [] {
      var init := analyses[..|analyses| - 1];
      var a := analyses[|analyses| - 1];
      DxfMergeLoopFeatures(init, n, t);
      AddCountsGet(DxfMergeLoop(init, n).featuresSummary, a.featuresSummary, t);
    }
  }

  /** The sum of the merged feature counts is the sum of every successful drawing's counts. */
  lemma {:induction false} DxfMergeLoopFeatureTotal(analyses: seq<DxfFileAnalysis>, n: nat)
    ensures SumValues(DxfMergeLoop(analyses, n).featuresSummary) == SumInt(analyses, FeatureTotalOf)
    decreases |analyses|
  {
    if analyses != [] {
      var init := analyses[..|analyses| - 1];
      var a := analyses[|analyses| - 1];
      DxfMergeLoopFeatureTotal(init, n);
      AddCountsTotal(DxfMergeLoop(init, n).featuresSummary, a.featuresSummary);
    }
  }

  /** A list joined from per-element pieces is as long as the pieces together. */
  lemma {:induction false} ConcatMapLength<T, U>(s: seq<T>, f: T -> seq<U>, size: T -> int)
    requires forall x :: size(x) == |f(x)|
    ensures |ConcatMap(s, f)| == SumInt(s, size)
    decreases |s|
  {
    if s != [] {
      ConcatMapLength(s[..|s| - 1], f, size);
    }
  }

  function ProfileCountOf(a: DxfFileAnalysis): int {
    |ProfilesOf(a)|
  }

  /**
   * The merged drawing view: it counts every uploaded drawing, reports
   * success exactly when one was read, holds the read drawings' profiles
   * in order, and its totals are the sums of the read drawings' profile
   * and feature counts.
   */
  lemma MergeDxfFacts(analyses: seq<DxfFileAnalysis>)
    ensures var m := MergeDxf(analyses);
            && m.filesMerged == |analyses|
            && (m.success <==> AnySucceeded(analyses))
            && m.profiles == ConcatMap(analyses, ProfilesOf)
            && m.materialQuantities == ConcatMap(analyses, QuantitiesOf)
            && m.textsExtracted == ConcatMap(analyses, TextsOf)
            && m.totalProfiles == SumInt(analyses, ProfileCountOf)
            && m.totalFeatures == SumInt(analyses, FeatureTotalOf)
  {
    DxfMergeLoopLists(analyses, |analyses|);
    DxfMergeLoopFeatureTotal(analyses, |analyses|);
    ConcatMapLength(analyses, ProfilesOf, ProfileCountOf);
  }

  /**
   * In the merged view each feature type counts what the successful
   * drawings report for it; with each drawing's summary a real dict, that
   * is the sum of their `features_summary[t]`.
   */
  lemma MergedFeatureCount(analyses: seq<DxfFileAnalysis>, t: string)
    ensures Get(MergeDxf(analyses).featuresSummary, t).GetOr(0) == SumInt(analyses, FeatureCountOf(t))
    ensures (forall i :: 0 <= i < |analyses| ==> UniqueKeys(analyses[i].featuresSummary)) ==>
              SumInt(analyses, FeatureCountOf(t)) == SumInt(analyses, StoredCountOf(t))
  {
    DxfMergeLoopFeatures(analyses, |analyses|, t);
    if forall i :: 0 <= i < |analyses| ==> UniqueKeys(analyses[i].featuresSummary) {
      StoredCounts(analyses, t);
    }
  }

  /** What each drawing's own dict stores for type `t`, 0 for a failed drawing. */
  function StoredCountOf(t: string): DxfFileAnalysis -> int {
    (a: DxfFileAnalysis) => if a.success then Get(a.featuresSummary, t).GetOr(0) else 0
  }

  lemma {:induction false} StoredCounts(analyses: seq<DxfFileAnalysis>, t: string)
    requires forall i :: 0 <= i < |analyses| ==> UniqueKeys(analyses[i].featuresSummary)
    ensures SumInt(analyses, FeatureCountOf(t)) == SumInt(analyses, StoredCountOf(t))
    decreases |analyses|
  {
    if analyses != [] {
      var init := analyses[..|analyses| - 1];
      assert forall i :: 0 <= i < |init| ==> init[i] == analyses[i];
      StoredCounts(init, t);
      CountOfUnique(analyses[|analyses| - 1].featuresSummary, t);
    }
  }

  /** In the merged view a layer or block reads as the last successful drawing's entry of that name. */
  lemma MergedLayersLastWins(analyses: seq<DxfFileAnalysis>, name: string)
    ensures Get(MergeDxf(analyses).layers, name) == LastValue(ConcatMap(analyses, LayersOf), name)
    ensures Get(MergeDxf(analyses).blocksAnalyzed, name) == LastValue(ConcatMap(analyses, BlocksOf), name)
  {
    DxfMergeLoopDicts(analyses, |analyses|);
    GetPutAll([], ConcatMap(analyses, LayersOf), name);
    GetPutAll([], ConcatMap(analyses, BlocksOf), name);
  }

  /** One pass of the merge loop, field by field. */
  method MergeDxfAnalysis(merged: MergedDxf, analysis: DxfFileAnalysis) returns (r: MergedDxf)
    ensures r == DxfMergeStep(merged, analysis)
  {
    r := merged;
    if analysis.success {
      r := r.(success := true);
      r := r.(profiles := r.profiles + analysis.profiles);
      var features := AddFeatureCounts(r.featuresSummary, analysis.featuresSummary);
      r := r.(featuresSummary := features);
      r := r.(materialQuantities := r.materialQuantities + analysis.materialQuantities);
      r := r.(textsExtracted := r.textsExtracted + analysis.textsExtracted);
      r := r.(layers := PutAll(r.layers, analysis.layers));
      r := r.(blocksAnalyzed := PutAll(r.blocksAnalyzed, analysis.blocksAnalyzed));
    }
  }

  /** The drawing half of `merge_project_analyses`. */
  method MergeDxfAnalyses(analyses: seq<DxfFileAnalysis>) returns (merged: MergedDxf)
    ensures merged == MergeDxf(analyses)
  {
    merged := NoDxfMerged(|analyses|);
    for i := 0 to |analyses|
      invariant merged == DxfMergeLoop(analyses[..i], |analyses|)
    {
      assert analyses[..i + 1][..i] == analyses[..i];
      merged := MergeDxfAnalysis(merged, analyses[i]);
    }
    assert analyses[..|analyses|] == analyses;
    merged := merged.(totalProfiles := |merged.profiles|, totalFeatures := SumValues(merged.featuresSummary));
  }

  // ---------------------------------------------------------------- merging the documents

  /** `list(set(refs))`: each reference once. */
  function Distinct(s: seq<string>): (r: seq<string>)
    ensures forall x :: x in r <==> x in s
    ensures forall i, j :: 0 <= i < j < |r| ==> r[i] != r[j]
    decreases |s|
  {
    if s == [] then []
    else
      var d := Distinct(s[..|s| - 1]);
      assert forall x :: x in s <==> x in s[..|s| - 1] || x == s[|s| - 1] by {
        assert s == s[..|s| - 1] + [s[|s| - 1]];
      }
      if s[|s| - 1] in d then d else d + [s[|s| - 1]]
  }

  function NoPdfMerged(filesMerged: nat): MergedPdf {
    MergedPdf(false, [], [], [], [], [], 0, 0, filesMerged)
  }

  /** One pass of the merge loop: a successful document appends its items, constraints, specs and references. */
  function PdfMergeStep(m: MergedPdf, a: PdfFileAnalysis): MergedPdf {
    if !a.success then m
    else m.(success := true,
            bomItems := m.bomItems + a.bomItems,
            constraints := m.constraints + a.constraints,
            dimensionSpecs := m.dimensionSpecs + a.dimensionSpecs,
            materialSpecs := m.materialSpecs + a.materialSpecs,
            profileReferences := m.profileReferences + a.profileReferences)
  }

  function PdfMergeLoop(analyses: seq<PdfFileAnalysis>, filesMerged: nat): MergedPdf
    decreases |analyses|
  {
    if analyses == [] then NoPdfMerged(filesMerged)
    else PdfMergeStep(PdfMergeLoop(analyses[..|analyses| - 1], filesMerged), analyses[|analyses| - 1])
  }

  /** `merge_project_analyses` for the documents, its `success` meaning that some document was read. */
  function MergePdf(analyses: seq<PdfFileAnalysis>): MergedPdf {
    var m := PdfMergeLoop(analyses, |analyses|);
    m.(profileReferences := Distinct(m.profileReferences),
       totalItems := |m.bomItems|, totalConstraints := |m.constraints|)
  }

  /** `merge_project_analyses` for the documents as written: the merged record always reports success. */
  function MergePdfAsWritten(analyses: seq<PdfFileAnalysis>): MergedPdf {
    MergePdf(analyses).(success := true)
  }

  function ItemsOf(a: PdfFileAnalysis): seq<Pdf.BomItem> {
    if a.success then a.bomItems else []
  }

  function ConstraintsOf(a: PdfFileAnalysis): seq<Pdf.TechnicalConstraint> {
    if a.success then a.constraints else []
  }

  function DimensionSpecsOf(a: PdfFileAnalysis): seq<DimensionSpec> {
    if a.success then a.dimensionSpecs else []
  }

  function MaterialSpecsOf(a: PdfFileAnalysis): seq<Entry> {
    if a.success then a.materialSpecs else []
  }

  function ReferencesOf(a: PdfFileAnalysis): seq<string> {
    if a.success then a.profileReferences else []
  }

  function ItemCountOf(a: PdfFileAnalysis): int {
    |ItemsOf(a)|
  }

  function ConstraintCountOf(a: PdfFileAnalysis): int {
    |ConstraintsOf(a)|
  }

  /** Some analysis of the list was read. */
  predicate AnyDocumentRead(analyses: seq<PdfFileAnalysis>) {
    exists i :: 0 <= i < |analyses| && analyses[i].success
  }

  lemma {:induction false} PdfMergeLoopLists(analyses: seq<PdfFileAnalysis>, n: nat)
    ensures var m := PdfMergeLoop(analyses, n);
            && m.filesMerged == n
            && (m.success <==> AnyDocumentRead(analyses))
            && m.bomItems == ConcatMap(analyses, ItemsOf)
            && m.constraints == ConcatMap(analyses, ConstraintsOf)
            && m.dimensionSpecs == ConcatMap(analyses, DimensionSpecsOf)
            && m.materialSpecs == ConcatMap(analyses, MaterialSpecsOf)
            && m.profileReferences == ConcatMap(analyses, ReferencesOf)
    decreases |analyses|
  {
    if analyses != [] {
      var init := analyses[..|analyses| - 1];
      PdfMergeLoopLists(init, n);
      assert forall i :: 0 <= i < |init| ==> init[i] == analyses[i];
    }
  }

  /**
   * The merged document view: it counts every uploaded document, reports
   * success exactly when one was read, holds the read documents' items,
   * constraints and specs in order with totals that add up their counts,
   * and lists each reference of a read document exactly once.
   */
  lemma MergePdfFacts(analyses: seq<PdfFileAnalysis>)
    ensures var m := MergePdf(analyses);
            && m.filesMerged == |analyses|
            && (m.success <==> AnyDocumentRead(analyses))
            && m.bomItems == ConcatMap(analyses, ItemsOf)
            && m.constraints == ConcatMap(analyses, ConstraintsOf)
            && m.dimensionSpecs == ConcatMap(analyses, DimensionSpecsOf)
            && m.materialSpecs == ConcatMap(analyses, MaterialSpecsOf)
            && m.totalItems == SumInt(analyses, ItemCountOf)
            && m.totalConstraints == SumInt(analyses, ConstraintCountOf)
            && (forall i, j :: 0 <= i < j < |m.profileReferences| ==> m.profileReferences[i] != m.profileReferences[j])
  {
    PdfMergeLoopLists(analyses, |analyses|);
    ConcatMapLength(analyses, ItemsOf, ItemCountOf);
    ConcatMapLength(analyses, ConstraintsOf, ConstraintCountOf);
  }

  /** A reference is in the merged view exactly when some successfully read document names it. */
  lemma MergedReferences(analyses: seq<PdfFileAnalysis>, r: string)
    ensures r in MergePdf(analyses).profileReferences <==>
            exists i :: 0 <= i < |analyses| && analyses[i].success && r in analyses[i].profileReferences
  {
    PdfMergeLoopLists(analyses, |analyses|);
    var all := ConcatMap(analyses, ReferencesOf);
    if r in all {
      ConcatMapMember(analyses, ReferencesOf, r);
    }
    if i :| 0 <= i < |analyses| && analyses[i].success && r in analyses[i].profileReferences {
      ConcatMapHas(analyses, ReferencesOf, i, r);
    }
  }

  /** Every piece of an element ends up in the joined list. */
  lemma ConcatMapHas<T, U>(s: seq<T>, f: T -> seq<U>, i: nat, e: U)
    requires i < |s| && e in f(s[i])
    ensures e in ConcatMap(s, f)
  {
    assert s == s[..i] + [s[i]] + s[i + 1..];
    ConcatMapSplit(s[..i], s[i], s[i + 1..], f);
  }

  /** One pass of the merge loop, field by field. */
  method MergePdfAnalysis(merged: MergedPdf, analysis: PdfFileAnalysis) returns (r: MergedPdf)
    ensures r == PdfMergeStep(merged, analysis)
  {
    r := merged;
    if analysis.success {
      r := r.(success := true);
      r := r.(bomItems := r.bomItems + analysis.bomItems);
      r := r.(constraints := r.constraints + analysis.constraints);
      r := r.(dimensionSpecs := r.dimensionSpecs + analysis.dimensionSpecs);
      r := r.(materialSpecs := r.materialSpecs + analysis.materialSpecs);
      r := r.(profileReferences := r.profileReferences + analysis.profileReferences);
    }
  }

  /** The document half of `merge_project_analyses`. */
  method MergePdfAnalyses(analyses: seq<PdfFileAnalysis>) returns (merged: MergedPdf)
    ensures merged == MergePdf(analyses)
  {
    merged := NoPdfMerged(|analyses|);
    for i := 0 to |analyses|
      invariant merged == PdfMergeLoop(analyses[..i], |analyses|)
    {
      assert analyses[..i + 1][..i] == analyses[..i];
      merged := MergePdfAnalysis(merged, analyses[i]);
    }
    assert analyses[..|analyses|] == analyses;
    merged := merged.(profileReferences := Distinct(merged.profileReferences));
    merged := merged.(totalItems := |merged.bomItems|, totalConstraints := |merged.constraints|);
  }

  // ---------------------------------------------------------------- the project and its uploads

  /** An uploaded file: its name and its extension, lower-cased. */
  datatype UploadedFile = UploadedFile(filename: string, extension: string)

  /** One entry of the upload response. */
  datatype UploadResult =
    | Unsupported(filename: string)
    | NeedsConversion(filename: string)
    | Processed(filename: string, fileType: string, category: string, success: bool)

  const AcceptedExtensions: set<string> := {".dxf", ".pdf", ".dwg"}

  /**
   * What the upload loop reports for one file: an unsupported extension is
   * rejected, a DWG drawing asks for conversion, and a drawing or document
   * is categorised by what its extractor reports.
   */
  function UploadOutcome(processDxf: UploadedFile -> DxfFileAnalysis, processPdf: UploadedFile -> PdfFileAnalysis)
    : UploadedFile -> UploadResult
  {
    (f: UploadedFile) =>
      if f.extension !in AcceptedExtensions then Unsupported(f.filename)
      else if f.extension == ".dwg" then NeedsConversion(f.filename)
      else if f.extension == ".dxf" then
        var a := processDxf(f);
        Processed(f.filename, "dxf", CategorizeDxf(a), a.success)
      else
        var a := processPdf(f);
        Processed(f.filename, "pdf", CategorizePdf(a), a.success)
  }

  /** The analysis a file adds to the project's drawings: its extractor's report, read or not. */
  function DrawingsOf(processDxf: UploadedFile -> DxfFileAnalysis): UploadedFile -> seq<DxfFileAnalysis> {
    (f: UploadedFile) => if f.extension == ".dxf" then [processDxf(f)] else []
  }

  /** The analysis a file adds to the project's documents. */
  function DocumentsOf(processPdf: UploadedFile -> PdfFileAnalysis): UploadedFile -> seq<PdfFileAnalysis> {
    (f: UploadedFile) => if f.extension == ".pdf" then [processPdf(f)] else []
  }

  /** The merged view of a project's drawings: none before the first upload. */
  function CurrentDxf(analyses: seq<DxfFileAnalysis>): Option<MergedDxf> {
    if analyses == [] then None else Some(MergeDxf(analyses))
  }

  function CurrentPdf(analyses: seq<PdfFileAnalysis>): Option<MergedPdf> {
    if analyses == [] then None else Some(MergePdf(analyses))
  }

  /** A project of the in-memory store. */
  class Project {
    const name: string
    var dxfAnalyses: seq<DxfFileAnalysis>
    var pdfAnalyses: seq<PdfFileAnalysis>
    var mergedDxf: Option<MergedDxf>
    var mergedPdf: Option<MergedPdf>
    var budget: Option<StoredBudget>

    /** The merged views are those of the stored analyses. */
    predicate Merged()
      reads this
    {
      mergedDxf == CurrentDxf(dxfAnalyses) && mergedPdf == CurrentPdf(pdfAnalyses)
    }

    /** `create_project`: no files, no merged views and no budget. */
    constructor(name: string)
      ensures this.name == name && dxfAnalyses == [] && pdfAnalyses == [] && budget == None
      ensures Merged()
    {
      this.name := name;
      dxfAnalyses := [];
      pdfAnalyses := [];
      mergedDxf := None;
      mergedPdf := None;
      budget := None;
    }

    /** `merge_project_analyses`: rebuilds the merged view of each kind that has an analysis. */
    method MergeProjectAnalyses()
      modifies this
      ensures dxfAnalyses == old(dxfAnalyses) && pdfAnalyses == old(pdfAnalyses) && budget == old(budget)
      ensures mergedDxf == if dxfAnalyses == [] then old(mergedDxf) else Some(MergeDxf(dxfAnalyses))
      ensures mergedPdf == if pdfAnalyses == [] then old(mergedPdf) else Some(MergePdf(pdfAnalyses))
    {
      if dxfAnalyses != [] {
        var m := MergeDxfAnalyses(dxfAnalyses);
        mergedDxf := Some(m);
      }
      if pdfAnalyses != [] {
        var m := MergePdfAnalyses(pdfAnalyses);
        mergedPdf := Some(m);
      }
    }

    /** One pass of the upload loop: the file's result, and its analysis stored when it was a drawing or a document. */
    method Receive(f: UploadedFile, processDxf: UploadedFile -> DxfFileAnalysis,
                   processPdf: UploadedFile -> PdfFileAnalysis)
      returns (result: UploadResult)
      modifies this
      ensures result == UploadOutcome(processDxf, processPdf)(f)
      ensures dxfAnalyses == old(dxfAnalyses) + DrawingsOf(processDxf)(f)
      ensures pdfAnalyses == old(pdfAnalyses) + DocumentsOf(processPdf)(f)
      ensures mergedDxf == old(mergedDxf) && mergedPdf == old(mergedPdf) && budget == old(budget)
    {
      if f.extension !in AcceptedExtensions {
        result := Unsupported(f.filename);
      } else if f.extension == ".dwg" {
        result := NeedsConversion(f.filename);
      } else if f.extension == ".dxf" {
        var analysis := processDxf(f);
        var category := CategorizeDxf(analysis);
        dxfAnalyses := dxfAnalyses + [analysis];
        result := Processed(f.filename, "dxf", category, analysis.success);
      } else {
        var analysis := processPdf(f);
        var category := CategorizePdf(analysis);
        pdfAnalyses := pdfAnalyses + [analysis];
        result := Processed(f.filename, "pdf", category, analysis.success);
      }
    }

    /**
     * `upload_files`: each drawing's and document's analysis is stored,
     * whether or not it was read, one result is reported per file, and the
     * merged views are rebuilt once at the end.
     */
    method Upload(files: seq<UploadedFile>, processDxf: UploadedFile -> DxfFileAnalysis,
                  processPdf: UploadedFile -> PdfFileAnalysis)
      returns (results: seq<UploadResult>)
      modifies this
      ensures results == Map(files, UploadOutcome(processDxf, processPdf))
      ensures dxfAnalyses == old(dxfAnalyses) + ConcatMap(files, DrawingsOf(processDxf))
      ensures pdfAnalyses == old(pdfAnalyses) + ConcatMap(files, DocumentsOf(processPdf))
      ensures old(Merged()) ==> Merged()
      ensures budget == old(budget)
    {
      results := [];
      for i := 0 to |files|
        invariant results == Map(files[..i], UploadOutcome(processDxf, processPdf))
        invariant dxfAnalyses == old(dxfAnalyses) + ConcatMap(files[..i], DrawingsOf(processDxf))
        invariant pdfAnalyses == old(pdfAnalyses) + ConcatMap(files[..i], DocumentsOf(processPdf))
        invariant mergedDxf == old(mergedDxf) && mergedPdf == old(mergedPdf) && budget == old(budget)
      {
        MapSnoc(files, UploadOutcome(processDxf, processPdf), i);
        assert files[..i + 1] == files[..i] + [files[i]];
        ConcatMapSnoc(files[..i], files[i], DrawingsOf(processDxf));
        ConcatMapSnoc(files[..i], files[i], DocumentsOf(processPdf));
        var result := Receive(files[i], processDxf, processPdf);
        results := results + [result];
      }
      assert files[..|files|] == files;
      MergeProjectAnalyses();
    }
  }

  // ---------------------------------------------------------------- budget requests

  /** `PricingParametersUpdate`: the parameters a request may override. */
  datatype Overrides = Overrides(
    lmePriceUsdKg: Option<real>, lmeHedgingBufferPct: Option<real>, laborRateEurHr: Option<real>,
    baseWasteFactorPct: Option<real>, overheadFactorPct: Option<real>, profitMarginPct: Option<real>)

  /** `BudgetRequest` */
  datatype BudgetRequest = BudgetRequest(projectId: string, surfaceTreatment: string, parameters: Option<Overrides>)

  const DefaultSurfaceTreatment: string := "powder_coating_standard"

  /** The parameters with the six overridable ones cleared: what no override can change. */
  function Fixed(p: PricingParameters): PricingParameters {
    p.(lmePriceUsdKg := 0.0, lmeHedgingBufferPct := 0.0, laborRateEurHr := 0.0,
       baseWasteFactorPct := 0.0, overheadFactorPct := 0.0, profitMarginPct := 0.0)
  }

  /** `after` is the given value when there is one, else `before`. */
  predicate Overridden(given: Option<real>, before: real, after: real) {
    if given.Some? then after == given.value else after == before
  }

  /**
   * Setting each parameter the request gives: every given value replaces
   * the parameter's, every other parameter keeps its value.
   */
  function ApplyOverrides(p: PricingParameters, o: Option<Overrides>): (q: PricingParameters)
    ensures Fixed(q) == Fixed(p)
    ensures o.None? ==> q == p
    ensures o.Some? ==> Overridden(o.value.lmePriceUsdKg, p.lmePriceUsdKg, q.lmePriceUsdKg)
                        && Overridden(o.value.lmeHedgingBufferPct, p.lmeHedgingBufferPct, q.lmeHedgingBufferPct)
                        && Overridden(o.value.laborRateEurHr, p.laborRateEurHr, q.laborRateEurHr)
                        && Overridden(o.value.baseWasteFactorPct, p.baseWasteFactorPct, q.baseWasteFactorPct)
                        && Overridden(o.value.overheadFactorPct, p.overheadFactorPct, q.overheadFactorPct)
                        && Overridden(o.value.profitMarginPct, p.profitMarginPct, q.profitMarginPct)
  {
    if o.None? then p
    else
      var u := o.value;
      p.(lmePriceUsdKg := u.lmePriceUsdKg.GetOr(p.lmePriceUsdKg),
         lmeHedgingBufferPct := u.lmeHedgingBufferPct.GetOr(p.lmeHedgingBufferPct),
         laborRateEurHr := u.laborRateEurHr.GetOr(p.laborRateEurHr),
         baseWasteFactorPct := u.baseWasteFactorPct.GetOr(p.baseWasteFactorPct),
         overheadFactorPct := u.overheadFactorPct.GetOr(p.overheadFactorPct),
         profitMarginPct := u.profitMarginPct.GetOr(p.profitMarginPct))
  }

  /** Applying the same overrides twice is applying them once, and an empty update changes nothing. */
  lemma OverridesIdempotent(p: PricingParameters, o: Option<Overrides>)
    ensures ApplyOverrides(ApplyOverrides(p, o), o) == ApplyOverrides(p, o)
    ensures ApplyOverrides(p, Some(Overrides(None, None, None, None, None, None))) == p
  {
  }

  /** `dxf_analysis` as the endpoint picks it: the merged view, else the first analysis, else a failed one. */
  function DxfInput(merged: Option<MergedDxf>, analyses: seq<DxfFileAnalysis>): DxfAnalysis {
    if merged.Some? then DxfAnalysis(merged.value.success, merged.value.profiles, merged.value.materialQuantities)
    else if analyses != [] then DxfAnalysis(analyses[0].success, analyses[0].profiles, analyses[0].materialQuantities)
    else DxfAnalysis(false, [], [])
  }

  /** `pdf_analysis` as the endpoint picks it. */
  function PdfInput(merged: Option<MergedPdf>, analyses: seq<PdfFileAnalysis>): PdfAnalysis {
    if merged.Some? then PdfAnalysis(merged.value.success, merged.value.bomItems, merged.value.constraints, merged.value.dimensionSpecs)
    else if analyses != [] then PdfAnalysis(analyses[0].success, analyses[0].bomItems, analyses[0].constraints, analyses[0].dimensionSpecs)
    else PdfAnalysis(false, [], [], [])
  }

  /** `data_sources` of a budget. */
  datatype DataSources = DataSources(dxfFilesUsed: nat, pdfFilesUsed: nat, quantitySource: string, specificationsSource: string)

  /** Whether a request reaches the engine, and with what. */
  datatype Admission =
    | NoAnalysisData
    | Admitted(dxf: DxfAnalysis, pdf: PdfAnalysis, params: PricingParameters, sources: DataSources)

  /**
   * The checks of `calculate_budget` before the engine runs: the request is
   * turned away when neither picked analysis reports success; otherwise
   * the engine gets both, the default parameters with the request's
   * overrides, and the sources name the drawings for quantities when they
   * were read and the documents for specifications when they were read.
   */
  function Admit(mergedDxf: Option<MergedDxf>, dxfAnalyses: seq<DxfFileAnalysis>,
                 mergedPdf: Option<MergedPdf>, pdfAnalyses: seq<PdfFileAnalysis>, overrides: Option<Overrides>): (a: Admission)
    ensures a.NoAnalysisData? <==> !DxfInput(mergedDxf, dxfAnalyses).success && !PdfInput(mergedPdf, pdfAnalyses).success
    ensures a.Admitted? ==> a.dxf == DxfInput(mergedDxf, dxfAnalyses) && a.pdf == PdfInput(mergedPdf, pdfAnalyses)
    ensures a.Admitted? ==> a.params == ApplyOverrides(DefaultParameters, overrides) && a.params.eurToUsd == 1.08
    ensures a.Admitted? ==> a.sources.dxfFilesUsed == |dxfAnalyses| && a.sources.pdfFilesUsed == |pdfAnalyses|
    ensures a.Admitted? ==> (a.sources.quantitySource == "DXF" <==> a.dxf.success)
                            && (a.sources.specificationsSource == "PDF" <==> a.pdf.success)
  {
    var dxf := DxfInput(mergedDxf, dxfAnalyses);
    var pdf := PdfInput(mergedPdf, pdfAnalyses);
    if !dxf.success && !pdf.success then NoAnalysisData
    else
      var params := ApplyOverrides(DefaultParameters, overrides);
      assert Fixed(params).eurToUsd == Fixed(DefaultParameters).eurToUsd;
      Admitted(dxf, pdf, params,
               DataSources(|dxfAnalyses|, |pdfAnalyses|, if dxf.success then "DXF" else "PDF", if pdf.success then "PDF" else "DXF"))
  }

  /**
   * With the merged views kept current, a budget request is turned away
   * exactly when no uploaded drawing or document was read.
   */
  lemma RejectedIffNothingRead(dxfAnalyses: seq<DxfFileAnalysis>, pdfAnalyses: seq<PdfFileAnalysis>, overrides: Option<Overrides>)
    ensures Admit(CurrentDxf(dxfAnalyses), dxfAnalyses, CurrentPdf(pdfAnalyses), pdfAnalyses, overrides).NoAnalysisData?
            <==> !AnySucceeded(dxfAnalyses) && !AnyDocumentRead(pdfAnalyses)
  {
    MergeDxfFacts(dxfAnalyses);
    MergePdfFacts(pdfAnalyses);
  }

  /** The merged views as written. */
  function CurrentDxfAsWritten(analyses: seq<DxfFileAnalysis>): Option<MergedDxf> {
    if analyses == [] then None else Some(MergeDxfAsWritten(analyses))
  }

  function CurrentPdfAsWritten(analyses: seq<PdfFileAnalysis>): Option<MergedPdf> {
    if analyses == [] then None else Some(MergePdfAsWritten(analyses))
  }

  /**
   * As written, the merged views always report success, so a request is
   * turned away only for a project with no upload at all, whether or not
   * any file was read.
   */
  lemma AsWrittenRejectsOnlyEmptyProjects(dxfAnalyses: seq<DxfFileAnalysis>, pdfAnalyses: seq<PdfFileAnalysis>, overrides: Option<Overrides>)
    ensures Admit(CurrentDxfAsWritten(dxfAnalyses), dxfAnalyses, CurrentPdfAsWritten(pdfAnalyses), pdfAnalyses, overrides).NoAnalysisData?
            <==> dxfAnalyses == [] && pdfAnalyses == []
  {
  }

  /** One drawing that could not be read: turned away with the corrected merge, priced as written. */
  lemma UnreadableDrawingAdmittedAsWritten(a: DxfFileAnalysis)
    requires !a.success
    ensures Admit(CurrentDxfAsWritten([a]), [a], None, [], None).Admitted?
    ensures Admit(CurrentDxf([a]), [a], None, [], None).NoAnalysisData?
  {
    RejectedIffNothingRead([a], [], None);
  }

  // ---------------------------------------------------------------- calculating and storing a budget

  /** The budget a project stores: the engine's result, its recommendations and its `data_sources`. */
  datatype StoredBudget = StoredBudget(
    result: Calculator.BudgetResult, recommendations: seq<BudgetLines.Recommendation>, sources: DataSources)

  /** The outcome of `POST /api/calculate`. */
  datatype CalculateResponse =
    | ProjectNotFound
    | NoAnalysisAvailable
    | DivisionByZero
    | Calculated(budget: StoredBudget)

  /** The index the engine searches for a catalogue price. */
  function CatalogOf(costDb: CostCatalog.CostDatabase?): Option<Dict<CostCatalog.SteelProfile>> {
    if costDb == null then None else Some(costDb.steelProfiles)
  }

  /** The priced lines of a request: each correlation of the drawing and document priced by the parameters. */
  function QuoteLines(p: PricingParameters, dxf: DxfAnalysis, pdf: PdfAnalysis,
                      catalog: Option<Dict<CostCatalog.SteelProfile>>, treatment: string): seq<LineItem>
    requires p.eurToUsd != 0.0
  {
    BudgetLines.BudgetLines(BudgetLines.Pricing(p, catalog, treatment), Correlator.Correlations(dxf, pdf), treatment)
  }

  /**
   * A stored budget made from priced lines: their summary, the correlation
   * log, the recommendations on that summary and the request's sources.
   */
  function Assemble(lines: seq<LineItem>, log: seq<LogEntry>, p: PricingParameters, sources: DataSources,
                    hasDxf: bool, hasPdf: bool, projectName: string, createdAt: string): (b: StoredBudget)
    requires p.laborRateEurHr != 0.0
    ensures b.result.summary.Some? && b.result.parameters == p && b.result.lineItems == lines && b.sources == sources
    ensures b.result.summary.value.totalProfiles == |lines| && b.result.quantitySource == (if hasDxf then "dxf" else "pdf")
  {
    var summary := Summary.Summarize(lines, p, projectName, createdAt, hasDxf, hasPdf);
    StoredBudget(
      Calculator.BudgetResult(true, lines, Some(summary), p, log, hasDxf, hasPdf, if hasDxf then "dxf" else "pdf"),
      BudgetLines.Recommendations(summary, lines), sources)
  }

  /** The budget the engine computes and the project stores for an admitted request. */
  function Quote(a: Admission, catalog: Option<Dict<CostCatalog.SteelProfile>>, treatment: string,
                 projectName: string, createdAt: string): (b: StoredBudget)
    requires a.Admitted? && a.params.eurToUsd != 0.0 && a.params.laborRateEurHr != 0.0
    ensures b.result.summary.Some? && b.result.parameters == a.params && b.sources == a.sources
    ensures b.result.summary.value.totalProfiles == |b.result.lineItems|
  {
    Assemble(QuoteLines(a.params, a.dxf, a.pdf, catalog, treatment), Correlator.CorrelationLog(a.dxf, a.pdf), a.params, a.sources,
             Correlator.HasDxf(a.dxf), a.pdf.success, projectName, createdAt)
  }

  /**
   * The engine's part of `calculate_budget`: a fresh calculator with the
   * request's parameters computes the budget and its recommendations.
   */
  method RunEngine(params: PricingParameters, dxf: DxfAnalysis, pdf: PdfAnalysis, sources: DataSources,
                   costDb: CostCatalog.CostDatabase?, treatment: string, projectName: string, createdAt: string)
    returns (budget: StoredBudget)
    requires params.eurToUsd != 0.0 && params.laborRateEurHr != 0.0
    ensures budget == Assemble(QuoteLines(params, dxf, pdf, CatalogOf(costDb), treatment), Correlator.CorrelationLog(dxf, pdf),
                               params, sources, Correlator.HasDxf(dxf), pdf.success, projectName, createdAt)
  {
    var calculator := new Calculator.BudgetCalculator(Some(params), costDb);
    var result := calculator.CalculateBudget(dxf, pdf, treatment, projectName, createdAt);
    var recommendations := calculator.GetAiRecommendations();
    budget := StoredBudget(result, recommendations, sources);
  }

  /**
   * `calculate_budget` (the endpoint): a missing project is not found; a
   * project whose picked analyses both failed is turned away; a zero
   * labour rate given as an override makes the summary divide by zero;
   * otherwise the engine prices the admitted data and the project stores
   * the budget. The project's analyses and views never change.
   */
  method CalculateBudget(project: Project?, request: BudgetRequest, costDb: CostCatalog.CostDatabase?, createdAt: string)
    returns (response: CalculateResponse)
    modifies project
    ensures project == null ==> response == ProjectNotFound
    ensures project != null ==>
              var a := Admit(project.mergedDxf, project.dxfAnalyses, project.mergedPdf, project.pdfAnalyses, request.parameters);
              && (response == NoAnalysisAvailable <==> a.NoAnalysisData?)
              && (response == DivisionByZero <==> a.Admitted? && a.params.laborRateEurHr == 0.0)
              && (response.Calculated? ==>
                    a.Admitted? && a.params.laborRateEurHr != 0.0
                    && response.budget == Quote(a, CatalogOf(costDb), request.surfaceTreatment, project.name, createdAt))
    ensures project != null ==>
              && project.dxfAnalyses == old(project.dxfAnalyses) && project.pdfAnalyses == old(project.pdfAnalyses)
              && project.mergedDxf == old(project.mergedDxf) && project.mergedPdf == old(project.mergedPdf)
              && project.budget == (if response.Calculated? then Some(response.budget) else old(project.budget))
  {
    if project == null {
      return ProjectNotFound;
    }
    var admission := Admit(project.mergedDxf, project.dxfAnalyses, project.mergedPdf, project.pdfAnalyses, request.parameters);
    if admission.NoAnalysisData? {
      return NoAnalysisAvailable;
    }
    var params := admission.params;
    if params.laborRateEurHr == 0.0 {
      return DivisionByZero;
    }
    var budget := RunEngine(params, admission.dxf, admission.pdf, admission.sources, costDb,
                            request.surfaceTreatment, project.name, createdAt);
    project.budget := Some(budget);
    response := Calculated(budget);
  }

  // ---------------------------------------------------------------- margin simulation

  /** The response of `simulate_margin`. */
  datatype MarginSimulation = MarginSimulation(
    originalMarginPct: real, targetMarginPct: real, originalTotal: real, newMargin: real, newTotal: real)

  datatype SimulateResponse = SimulationProjectNotFound | NoBudgetYet | Simulated(simulation: MarginSimulation)

  /**
   * The stored subtotal marked up by the target margin. As written, the
   * original margin is read from summary metrics that never hold it, so it
   * is always the default 20; the corrected reading is the margin the
   * budget was priced with.
   */
  function Simulation(b: StoredBudget, target: real, asWritten: bool): (s: MarginSimulation)
    ensures s.targetMarginPct == target
  {
    var subtotal := if b.result.summary.Some? then b.result.summary.value.subtotal else 0.0;
    var total := if b.result.summary.Some? then b.result.summary.value.totalQuote else 0.0;
    var margin := subtotal * (target / 100.0);
    MarginSimulation(if asWritten then 20.0 else b.result.parameters.profitMarginPct, target, total, margin, subtotal + margin)
  }

  function SimulateMargin(b: StoredBudget, target: real): MarginSimulation {
    Simulation(b, target, false)
  }

  function SimulateMarginAsWritten(b: StoredBudget, target: real): MarginSimulation {
    Simulation(b, target, true)
  }

  /** `simulate_margin` (the endpoint): not found, no budget yet, or the simulation on the stored budget. */
  function SimulateMarginRequest(project: Project?, target: real): (r: SimulateResponse)
    reads project
    ensures r.SimulationProjectNotFound? <==> project == null
    ensures r.NoBudgetYet? <==> project != null && project.budget.None?
    ensures r.Simulated? ==> project != null && project.budget.Some? && r.simulation == SimulateMargin(project.budget.value, target)
  {
    if project == null then SimulationProjectNotFound
    else if project.budget.None? then NoBudgetYet
    else Simulated(SimulateMargin(project.budget.value, target))
  }

  /** The simulated quote is the subtotal multiplied by one plus the target margin. */
  lemma SimulatedQuote(b: StoredBudget, target: real)
    requires b.result.summary.Some?
    ensures SimulateMargin(b, target).newTotal == b.result.summary.value.subtotal * (1.0 + target / 100.0)
  {
    var s := SimulateMargin(b, target);
    Summary.MarkUp(b.result.summary.value.subtotal, target, s.newMargin, s.newTotal);
  }

  /**
   * Simulating a calculated budget at the margin it reports as original
   * gives back its own margin and quote.
   */
  lemma OwnMarginReproducesQuote(lines: seq<LineItem>, log: seq<LogEntry>, p: PricingParameters, sources: DataSources,
                                 hasDxf: bool, hasPdf: bool, projectName: string, createdAt: string)
    requires p.laborRateEurHr != 0.0
    ensures var b := Assemble(lines, log, p, sources, hasDxf, hasPdf, projectName, createdAt);
            var s := SimulateMargin(b, SimulateMargin(b, 0.0).originalMarginPct);
            s.newMargin == b.result.summary.value.profitMargin && s.newTotal == s.originalTotal
  {
  }

  /**
   * As written, a budget priced at any margin other than 20% is reported as
   * priced at 20%, and simulating that reported margin does not give back
   * its quote when the subtotal is not zero.
   */
  lemma AsWrittenMisreportsMargin(lines: seq<LineItem>, log: seq<LogEntry>, p: PricingParameters, sources: DataSources,
                                  hasDxf: bool, hasPdf: bool, projectName: string, createdAt: string)
    requires p.laborRateEurHr != 0.0 && p.profitMarginPct != 20.0
    requires Assemble(lines, log, p, sources, hasDxf, hasPdf, projectName, createdAt).result.summary.value.subtotal != 0.0
    ensures var b := Assemble(lines, log, p, sources, hasDxf, hasPdf, projectName, createdAt);
            var s := SimulateMarginAsWritten(b, SimulateMarginAsWritten(b, 0.0).originalMarginPct);
            s.originalMarginPct != p.profitMarginPct && s.newTotal != s.originalTotal
  {
    var b := Assemble(lines, log, p, sources, hasDxf, hasPdf, projectName, createdAt);
    var sub := b.result.summary.value.subtotal;
    assert b.result.summary.value.totalQuote == sub + sub * (p.profitMarginPct / 100.0);
    DifferentMarkUps(sub, 20.0, p.profitMarginPct);
  }

  /** Two different margins on a non-zero subtotal give different quotes. */
  lemma DifferentMarkUps(sub: real, p: real, q: real)
    requires sub != 0.0 && p != q
    ensures sub + sub * (p / 100.0) != sub + sub * (q / 100.0)
  {
    assert sub * (p / 100.0) - sub * (q / 100.0) == sub * ((p - q) / 100.0);
  }
}
