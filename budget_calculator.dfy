/**
 * The quote engine as the object the service drives: it keeps the pricing
 * parameters, the budget lines of the last calculation, their summary and
 * the log of correlation decisions. Each step is the loop the engine runs,
 * proved to compute the function that states what it means.
 */
module Calculator {
  import opened Wrappers
  import opened Strings
  import opened Dicts
  import opened Folds
  import opened BudgetTypes
  import opened Numerals
  import CostCatalog
  import Correlator
  import Pricer
  import Summary
  import BudgetLines
  import Pdf
  import Dxf
  import Patterns

  type BomItem = Pdf.BomItem
  type Constraint = Pdf.TechnicalConstraint

  /** What `calculate_budget` returns: the lines, the summary, the parameters, the log and which sources were used. */
  datatype BudgetResult = BudgetResult(
    success: bool, lineItems: seq<LineItem>, summary: Option<BudgetSummary>, parameters: PricingParameters,
    correlationLog: seq<LogEntry>, dxfUsed: bool, pdfUsed: bool, quantitySource: string)

  // ---------------------------------------------------------------- search loops that stop at the first hit

  /** The loop of strategy 2: the position of the first filed reference overlapping the profile id. */
  method FirstOverlapping(refs: Dict<BomItem>, pid: string) returns (k: Option<nat>)
    ensures k == FirstKeyWhere(refs, Correlator.Overlaps(pid), 0)
  {
    for i := 0 to |refs|
      invariant FirstKeyWhere(refs, Correlator.Overlaps(pid), 0) == FirstKeyWhere(refs, Correlator.Overlaps(pid), i)
    {
      if Contains(pid, refs[i].0) || Contains(refs[i].0, pid) {
        return Some(i);
      }
    }
    return None;
  }

  /** The loop of strategy 3: the position of the first row whose description mentions the hint. */
  method FirstMentioning(items: seq<BomItem>, hint: string) returns (k: Option<nat>)
    ensures k == FirstWhere(items, Correlator.Mentions(hint), 0)
  {
    for i := 0 to |items|
      invariant FirstWhere(items, Correlator.Mentions(hint), 0) == FirstWhere(items, Correlator.Mentions(hint), i)
    {
      if Contains(Lower(items[i].description), hint) {
        return Some(i);
      }
    }
    return None;
  }

  /** The inner loop of `_try_calculate_from_cost_db`: the text matched by the first pattern that occurs. */
  method FirstMatch(pats: seq<Patterns.Pattern>, s: string) returns (r: Option<string>)
    ensures r == Pricer.FirstPatternMatch(pats, s)
  {
    for j := 0 to |pats|
      invariant FirstWhere(pats, Pricer.OccursIn(s), 0) == FirstWhere(pats, Pricer.OccursIn(s), j)
    {
      var m := Patterns.SearchText(pats[j], s);
      if m.Some? {
        return m;
      }
    }
    return None;
  }

  /** The outer loop of `_try_calculate_from_cost_db`: empty terms are skipped, the first designation found ends the search. */
  method FindDesignation(pats: seq<Patterns.Pattern>, terms: seq<string>) returns (r: Option<string>)
    ensures r == Pricer.Designation(pats, terms)
  {
    for i := 0 to |terms|
      invariant FirstWhere(terms, Pricer.NamesDesignation(pats), 0) == FirstWhere(terms, Pricer.NamesDesignation(pats), i)
    {
      if terms[i] != "" {
        r := FirstMatch(pats, Upper(terms[i]));
        if r.Some? {
          return;
        }
      }
    }
    return None;
  }

  // ---------------------------------------------------------------- one step of each indexing loop

  /** Filing one more row extends both indexes by that row's keys. */
  lemma LookupStep(items: seq<BomItem>, i: nat)
    requires i < |items|
    ensures Correlator.ByReference(items[..i + 1], false)
         == Correlator.Filed(Correlator.ByReference(items[..i], false), Correlator.ReferenceKeys(items[i], false), items[i])
    ensures Correlator.ByDescription(items[..i + 1])
         == Correlator.Filed(Correlator.ByDescription(items[..i]), Correlator.DescriptionKeys(items[i]), items[i])
  {
    assert items[..i + 1][..i] == items[..i];
  }

  /** Filing under two keys is two assignments. */
  lemma FiledTwice<V>(d: Dict<V>, k1: string, k2: string, v: V)
    ensures Correlator.Filed(d, [k1, k2], v) == Put(Put(d, k1, v), k2, v)
  {
    calc {
      Correlator.Filed(d, [k1, k2], v);
      { assert [k1, k2][1..] == [k2]; }
      Correlator.Filed(Put(d, k1, v), [k2], v);
      { assert [k2][1..] == []; }
      Correlator.Filed(Put(Put(d, k1, v), k2, v), [], v);
    }
  }

  /** One more constraint of a typed group adds its high-importance record, under the group's type. */
  lemma HighStep(index: Dict<seq<Constraint>>, i: nat, j: nat)
    requires Correlator.TypedGroups(index) && i < |index| && j < |index[i].1|
    ensures var c := index[i].1[j];
      ConcatMap(index[i].1[..j + 1], Correlator.HighSpec)
      == ConcatMap(index[i].1[..j], Correlator.HighSpec)
         + (if c.importance == "high" then [SpecConstraint(index[i].0, c.value, Take(c.context, 100))] else [])
  {
    var clist := index[i].1;
    ConcatMapSnoc(clist[..j], clist[j], Correlator.HighSpec);
    assert clist[..j + 1] == clist[..j] + [clist[j]];
  }

  /** One more group adds its high-importance records. */
  lemma GroupStep(index: Dict<seq<Constraint>>, i: nat)
    requires i < |index|
    ensures ConcatMap(index[..i + 1], Correlator.GroupHighs)
         == ConcatMap(index[..i], Correlator.GroupHighs) + ConcatMap(index[i].1, Correlator.HighSpec)
  {
    ConcatMapSnoc(index[..i], index[i], Correlator.GroupHighs);
    assert index[..i + 1] == index[..i] + [index[i]];
  }

  /** One more dimension entry is one more turn of the dimension loop. */
  lemma DimensionScanSnoc(dims: seq<DimensionSpec>, i: nat)
    requires i < |dims|
    ensures Correlator.DimensionScan(dims[..i + 1])
         == Correlator.ScanStep(Correlator.DimensionScan(dims[..i]).0, Correlator.DimensionScan(dims[..i]).1, Correlator.DimensionText(dims[i]))
  {
    assert dims[..i + 1][..i] == dims[..i];
  }

  /** The items so far, with one more kept dimension, gain its item at the end. */
  lemma DimensionItemsSnoc(front: seq<Correlation>, kept: seq<(string, real)>, raw: string, length: real)
    ensures var items := front + Correlator.DimensionFallbacks(kept, |front|);
            front + Correlator.DimensionFallbacks(kept + [(raw, length)], |front|)
              == items + [Correlator.DimensionFallback(|items| + 1, raw, length)]
  {
    DimensionFallbacksSnoc(kept, |front|, raw, length);
    var before := Correlator.DimensionFallbacks(kept, |front|);
    var item := Correlator.DimensionFallback(|front| + |kept| + 1, raw, length);
    assert front + (before + [item]) == front + before + [item];
  }

  /** One more correlation adds its line, numbered by its position, or nothing. */
  lemma LinesSnoc(make: (Correlation, int) -> Option<LineItem>, cs: seq<Correlation>, i: nat)
    requires i < |cs|
    ensures BudgetLines.Lines(make, cs[..i + 1])
         == BudgetLines.Lines(make, cs[..i]) + (if make(cs[i], i + 1).Some? then [make(cs[i], i + 1).value] else [])
  {
    assert cs[..i + 1][..i] == cs[..i];
  }

  /** One more kept dimension adds its item, numbered after the items before it. */
  lemma DimensionFallbacksSnoc(kept: seq<(string, real)>, base: nat, raw: string, length: real)
    ensures Correlator.DimensionFallbacks(kept + [(raw, length)], base)
         == Correlator.DimensionFallbacks(kept, base) + [Correlator.DimensionFallback(base + |kept| + 1, raw, length)]
  {
  }

  // ---------------------------------------------------------------- the engine

  /**
   * The update `_try_calculate_from_cost_db` makes to a line from the cost
   * of its length: weight, the five cost groups and the unit and total
   * costs scaled by the quantity (at least one), and the note naming the
   * catalogue profile.
   */
  method ApplyCatalogCost(line: LineItem, costData: CostCatalog.ProfileCost, designation: string) returns (priced: LineItem)
    requires designation == costData.designation
    ensures priced == Pricer.CatalogPriced(line, costData)
  {
    var qty := Max(1, line.quantity) as real;
    priced := line.(
      weightKg := costData.weightKg,
      rawMaterialCost := costData.costMaterial * qty,
      transformationCost := costData.costFabrication * qty,
      surfaceTreatmentCost := costData.costPainting * qty,
      laborCost := (costData.costAssembly + costData.costLifting) * qty,
      accessoriesCost := (costData.costConsumables + costData.costTransport) * qty);
    priced := priced.(unitCost := costData.totalCost);
    priced := priced.(totalCost := priced.unitCost * qty);
    priced := priced.(notes := Pricer.CatalogNotePrefix + designation);
  }

  /**
   * The end of `_calculate_line_costs`: the four computed costs, the
   * accessories at 8% of the material, the unit cost as their sum over the
   * quantity (at least one) and the total as the unit cost times the
   * quantity.
   */
  method SettleCosts(g: LineItem, raw: real, transformation: real, surface: real, labor: real) returns (r: LineItem)
    ensures r == Pricer.Settle(g, raw, transformation, surface, labor)
  {
    r := g.(rawMaterialCost := raw, transformationCost := transformation, surfaceTreatmentCost := surface, laborCost := labor);
    r := r.(accessoriesCost := r.rawMaterialCost * 0.08);
    r := r.(unitCost := (r.rawMaterialCost + r.transformationCost + r.surfaceTreatmentCost + r.laborCost + r.accessoriesCost)
                        / Max(r.quantity, 1) as real);
    r := r.(totalCost := r.unitCost * r.quantity as real);
  }

  /**
   * The weight chain of `_calculate_line_costs`: a line without a weight
   * is weighed from its section and length, its section alone, its
   * length, or one default metre.
   */
  method EstimateGeometry(line: LineItem) returns (r: LineItem)
    ensures r == Pricer.EstimatedGeometry(line)
  {
    r := line;
    var thickness := if PresentReal(r.thicknessMm) then r.thicknessMm.value else 2.0;
    if r.weightKg <= 0.0 && r.areaMm2 > 0.0 {
      var volumeMm3 := r.perimeterMm * thickness * MaxReal(r.lengthMm, 1000.0);
      r := r.(weightKg := volumeMm3 / 1000000000.0 * Pricer.AluminumDensityKgM3);
    } else if r.weightKg <= 0.0 && r.perimeterMm > 0.0 {
      var volumeMm3 := r.perimeterMm * thickness * thickness;
      r := r.(weightKg := volumeMm3 / 1000000000.0 * Pricer.AluminumDensityKgM3);
    } else if r.weightKg <= 0.0 && r.lengthMm > 0.0 {
      r := r.(weightKg := r.lengthMm / 1000.0 * 0.5, perimeterMm := r.lengthMm * 0.1);
    } else if r.weightKg <= 0.0 {
      r := r.(weightKg := 0.5, lengthMm := 1000.0, perimeterMm := 100.0);
    }
  }

  /**
   * The formula route of `_calculate_line_costs`: material at the hedged
   * LME price plus billet premium in euros, extrusion by complexity,
   * surface by treated area, labour by minutes, accessories at 8% of the
   * material, then the unit cost over the quantity and the total.
   */
  method FormulaCosts(p: PricingParameters, line: LineItem, surfaceTreatment: string) returns (r: LineItem)
    requires p.eurToUsd != 0.0
    ensures r == Pricer.FormulaPriced(p, line, surfaceTreatment)
  {
    var effectiveLme := p.lmePriceUsdKg * (1.0 + p.lmeHedgingBufferPct / 100.0);
    var materialPriceKg := (effectiveLme + p.billetPremiumUsdKg) / p.eurToUsd;
    assert materialPriceKg == Pricer.MaterialPricePerKg(p);
    r := EstimateGeometry(line);
    var q := r.quantity as real;
    var raw := r.weightKg * materialPriceKg * q;
    var extrusionRate := 1.5 * r.complexityScore;
    var transformation := r.weightKg * extrusionRate * q;
    var treatmentRate := Pricer.TreatmentRate(p, surfaceTreatment);
    var surfaceAreaM2 := r.perimeterMm * MaxReal(r.lengthMm, 1000.0) / 1000000.0;
    var surface := surfaceAreaM2 * treatmentRate * q;
    var cuttingTime := p.cuttingTimeMins;
    var machiningTime := r.holesCount as real * p.machiningTimePerHoleMins;
    var complexityTime := (r.complexityScore - 1.0) * 5.0;
    var assemblyTime := p.assemblyTimePerComponentMins;
    var totalLaborMins := (cuttingTime + machiningTime + complexityTime + assemblyTime) * q;
    var labor := totalLaborMins / 60.0 * p.laborRateEurHr;
    ghost var c := Pricer.FormulaCosts(p, r, surfaceTreatment);
    assert raw == c.0;
    assert transformation == c.1;
    assert surface == c.2;
    assert labor == c.3;
    r := SettleCosts(r, raw, transformation, surface, labor);
  }

  /** `BudgetCalculator`: the parameters and catalogue it prices with, and what its last calculation produced. */
  class BudgetCalculator {
    const params: PricingParameters
    /** The steel catalogue, `null` when it is not available. */
    const costDb: CostCatalog.CostDatabase?
    var lineItems: seq<LineItem>
    var summary: Option<BudgetSummary>
    var correlationLog: seq<LogEntry>

    /** `params or PricingParameters()`, with nothing calculated yet. */
    constructor(params: Option<PricingParameters>, costDb: CostCatalog.CostDatabase?)
      ensures this.params == (if params.Some? then params.value else DefaultParameters)
      ensures this.costDb == costDb
      ensures lineItems == [] && summary == None && correlationLog == []
    {
      this.params := if params.Some? then params.value else DefaultParameters;
      this.costDb := costDb;
      lineItems := [];
      summary := None;
      correlationLog := [];
    }

    /** The catalogue index the pricing searches, if there is a catalogue. */
    function CatalogIndex(): Option<Dict<CostCatalog.SteelProfile>> {
      if costDb == null then None else Some(costDb.steelProfiles)
    }

    /**
     * `_build_pdf_lookup`: each row filed by its reference and by its
     * reference without separators (when that is not empty), and by the
     * first 30 characters of its description; a later row replaces an
     * earlier one under the same key.
     */
    method BuildPdfLookup(items: seq<BomItem>) returns (lookup: PdfLookup)
      ensures lookup == Correlator.LookupOf(items)
    {
      var byReference: Dict<BomItem> := [];
      var byDescription: Dict<BomItem> := [];
      for i := 0 to |items|
        invariant byReference == Correlator.ByReference(items[..i], false)
        invariant byDescription == Correlator.ByDescription(items[..i])
      {
        var item := items[i];
        LookupStep(items, i);
        var ref := Correlator.ReferenceKey(item);
        var desc := Strip(Lower(item.description));
        if ref != "" {
          var refClean := Correlator.WithoutSeparators(ref);
          FiledTwice(byReference, ref, refClean, item);
          byReference := Put(byReference, ref, item);
          if refClean != "" {
            byReference := Put(byReference, refClean, item);
          }
        }
        if desc != "" {
          byDescription := Put(byDescription, Take(desc, 30), item);
        }
      }
      assert items[..|items|] == items;
      return PdfLookup(byReference, byDescription, items);
    }

    /** `_index_constraints`: each constraint appended to the group of its type, a new group opened at the end. */
    method IndexConstraints(cs: seq<Constraint>) returns (indexed: Dict<seq<Constraint>>)
      ensures indexed == Correlator.ConstraintIndex(cs)
    {
      indexed := [];
      for i := 0 to |cs|
        invariant indexed == Correlator.ConstraintIndex(cs[..i])
      {
        assert cs[..i + 1][..i] == cs[..i];
        var c := cs[i];
        var group := Get(indexed, c.constraintType);
        indexed := Put(indexed, c.constraintType, (if group.None? then [] else group.value) + [c]);
      }
      assert cs[..|cs|] == cs;
    }

    /**
     * `_extract_specifications`: the row's material, finish and thickness,
     * gaps filled from the first constraint of the type, the certification
     * values, and the high-importance constraints group by group, each
     * recorded under its group's type.
     */
    method ExtractSpecifications(item: Option<BomItem>, index: Dict<seq<Constraint>>) returns (specs: Specs)
      requires Correlator.TypedGroups(index)
      ensures specs == Correlator.SpecsFor(item, index)
    {
      var material := if item.Some? then item.value.material else None;
      var finish := if item.Some? then item.value.finish else None;
      var thickness := if item.Some? then item.value.thicknessMm else None;
      var mats: Option<seq<Constraint>> := Get(index, "material_grade");
      if mats.Some? && mats.value != [] && !Present(material) {
        material := Some(mats.value[0].value);
      }
      var treatments: Option<seq<Constraint>> := Get(index, "surface_treatment");
      if treatments.Some? && treatments.value != [] && !Present(finish) {
        finish := Some(treatments.value[0].value);
      }
      var certifications: seq<string> := [];
      var certs: Option<seq<Constraint>> := Get(index, "certification");
      if certs.Some? {
        certifications := Correlator.ValuesOf(certs.value);
      }
      var highs := CollectHighConstraints(index);
      specs := Specs(material, finish, thickness, certifications, highs);
    }

    /** The nested loop of `_extract_specifications`: the high-importance constraints, group by group, under the group's type. */
    method CollectHighConstraints(index: Dict<seq<Constraint>>) returns (highs: seq<SpecConstraint>)
      requires Correlator.TypedGroups(index)
      ensures highs == Correlator.HighSpecs(index)
    {
      highs := [];
      for i := 0 to |index|
        invariant highs == ConcatMap(index[..i], Correlator.GroupHighs)
      {
        var (ctype, clist) := index[i];
        ghost var done := highs;
        for j := 0 to |clist|
          invariant highs == done + ConcatMap(clist[..j], Correlator.HighSpec)
        {
          var c := clist[j];
          HighStep(index, i, j);
          ghost var sofar := ConcatMap(clist[..j], Correlator.HighSpec);
          if c.importance == "high" {
            var record := SpecConstraint(ctype, c.value, Take(c.context, 100));
            assert done + (sofar + [record]) == done + sofar + [record];
            highs := highs + [record];
          } else {
            assert sofar + [] == sofar;
          }
        }
        assert clist[..|clist|] == clist;
        GroupStep(index, i);
      }
      assert index[..|index|] == index;
    }

    /**
     * `_correlate_profile_with_pdf`: the layer as a reference (0.9), else the
     * first reference overlapping the profile id (0.8), else, with a
     * material hint, the first row mentioning it (0.6); the quantity stays
     * the profile's.
     */
    method CorrelateProfileWithPdf(profile: ProfileRecord, lookup: PdfLookup, index: Dict<seq<Constraint>>)
      returns (c: Correlation)
      requires Correlator.TypedGroups(index)
      ensures c == Correlator.ProfileCorrelator(lookup, index)(profile)
    {
      var matched: Option<BomItem> := None;
      var confidence := 0.0;
      var via := "none";
      var byLayer := Get(lookup.byReference, Upper(profile.layer));
      if byLayer.Some? {
        matched, confidence, via := byLayer, 0.9, "layer_to_reference";
      }
      if matched.None? {
        var k := FirstOverlapping(lookup.byReference, Upper(profile.profileId));
        if k.Some? {
          matched, confidence, via := Some(lookup.byReference[k.value].1), 0.8, "profile_id_match";
        }
      }
      if matched.None? && Present(profile.materialHint) {
        var j := FirstMentioning(lookup.allItems, Lower(profile.materialHint.value));
        if j.Some? {
          matched, confidence, via := Some(lookup.allItems[j.value]), 0.6, "material_hint";
        }
      }
      var specs := ExtractSpecifications(matched, index);
      c := Correlation(Some(profile), None, matched, confidence, via, "dxf", specs);
    }

    /** `_create_material_correlation`: the block count matched by its upper-cased reference. */
    method CreateMaterialCorrelation(mq: Dxf.MaterialQuantity, lookup: PdfLookup, index: Dict<seq<Constraint>>)
      returns (c: Correlation)
      requires Correlator.TypedGroups(index)
      ensures c == Correlator.MaterialCorrelation(mq, lookup, index)
    {
      var matched := Get(lookup.byReference, Upper(mq.profileReference));
      var specs := ExtractSpecifications(matched, index);
      c := Correlation(None, Some(mq), matched, if matched.Some? then 0.7 else 0.5, "block_count", "dxf", specs);
    }

    /** The profile loop of `correlate_data`: one correlation per DXF profile, in order. */
    method CorrelateProfiles(profiles: seq<ProfileRecord>, lookup: PdfLookup, index: Dict<seq<Constraint>>)
      returns (cs: seq<Correlation>)
      requires Correlator.TypedGroups(index)
      ensures cs == Correlator.ProfileCorrelations(profiles, lookup, index)
    {
      cs := [];
      for i := 0 to |profiles|
        invariant cs == Correlator.ProfileCorrelations(profiles[..i], lookup, index)
      {
        MapSnoc(profiles, Correlator.ProfileCorrelator(lookup, index), i);
        var c := CorrelateProfileWithPdf(profiles[i], lookup, index);
        cs := cs + [c];
      }
      assert profiles[..|profiles|] == profiles;
    }

    /** The block loop of `correlate_data`: a correlation for each material quantity counted from block insertions. */
    method CorrelateBlocks(mqs: seq<Dxf.MaterialQuantity>, lookup: PdfLookup, index: Dict<seq<Constraint>>)
      returns (cs: seq<Correlation>)
      requires Correlator.TypedGroups(index)
      ensures cs == ConcatMap(mqs, Correlator.BlockCorrelations(lookup, index))
    {
      cs := [];
      for i := 0 to |mqs|
        invariant cs == ConcatMap(mqs[..i], Correlator.BlockCorrelations(lookup, index))
      {
        ConcatMapSnoc(mqs[..i], mqs[i], Correlator.BlockCorrelations(lookup, index));
        assert mqs[..i + 1] == mqs[..i] + [mqs[i]];
        if mqs[i].source == "block_count" {
          var c := CreateMaterialCorrelation(mqs[i], lookup, index);
          cs := cs + [c];
        }
      }
      assert mqs[..|mqs|] == mqs;
    }

    /** The PDF-only loop of `correlate_data`: every BOM row at confidence 0.5 with its own quantity. */
    method CorrelatePdfOnly(items: seq<BomItem>) returns (cs: seq<Correlation>)
      ensures cs == Correlator.PdfOnlyCorrelations(items)
    {
      cs := [];
      for i := 0 to |items|
        invariant |cs| == i
        invariant forall k :: 0 <= k < i ==> cs[k] == Correlator.PdfOnlyCorrelation(items[k])
      {
        cs := cs + [Correlation(None, None, Some(items[i]), 0.5, "pdf_only", "pdf", NoSpecs)];
      }
    }

    /**
     * The two paths of `correlate_data`: with DXF profiles, one correlation
     * per profile and per block count, quantities from the drawing; else,
     * with PDF rows, one per row. The path taken is logged.
     */
    method CorrelatePrimary(dxf: DxfAnalysis, pdf: PdfAnalysis) returns (correlations: seq<Correlation>)
      modifies this
      ensures correlations == Correlator.PrimaryCorrelations(dxf, pdf)
      ensures correlationLog == old(correlationLog) + Correlator.PathLog(dxf, pdf)
      ensures lineItems == old(lineItems) && summary == old(summary)
    {
      var hasDxf := dxf.success && |dxf.profiles| > 0;
      var hasPdf := pdf.success && |pdf.bomItems| > 0;
      var lookup := BuildPdfLookup(pdf.bomItems);
      var index := IndexConstraints(pdf.constraints);
      Correlator.ConstraintIndexTyped(pdf.constraints);
      correlations := [];
      if hasDxf {
        correlationLog := correlationLog + [UsingDxfAsPrimary(|dxf.profiles|, |dxf.materialQuantities|)];
        var fromProfiles := CorrelateProfiles(dxf.profiles, lookup, index);
        var fromBlocks := CorrelateBlocks(dxf.materialQuantities, lookup, index);
        correlations := fromProfiles + fromBlocks;
      } else if hasPdf {
        correlationLog := correlationLog + [UsingPdfAsFallback(|pdf.bomItems|)];
        correlations := CorrelatePdfOnly(pdf.bomItems);
      }
    }

    /**
     * `correlate_data`: the correlations of the path taken, or the
     * estimated fallback items when that path yields none.
     */
    method CorrelateData(dxf: DxfAnalysis, pdf: PdfAnalysis) returns (correlations: seq<Correlation>)
      modifies this
      ensures correlations == Correlator.Correlations(dxf, pdf)
      ensures correlationLog == old(correlationLog) + Correlator.CorrelationLog(dxf, pdf)
      ensures lineItems == old(lineItems) && summary == old(summary)
    {
      correlations := CorrelatePrimary(dxf, pdf);
      if correlations == [] {
        correlations := CreateFallbackCorrelations(pdf);
      }
    }

    /** The material loop of `_create_fallback_correlations`: each grade as `MAT-01`, `MAT-02`, ... */
    method MaterialItems(materialItems: seq<Constraint>) returns (correlations: seq<Correlation>)
      ensures correlations == Correlator.MaterialFallbacks(materialItems)
    {
      correlations := [];
      for i := 0 to |materialItems|
        invariant correlations == Correlator.MaterialFallbacks(materialItems[..i])
      {
        MapIndexedSnoc(materialItems, Correlator.MaterialFallback, i);
        correlations := correlations + [Correlator.MaterialFallback(i, materialItems[i])];
      }
      assert materialItems[..|materialItems|] == materialItems;
    }

    /** The treatment loop of `_create_fallback_correlations`: each treatment appended as `TRAT-01`, `TRAT-02`, ... */
    method TreatmentItems(front: seq<Correlation>, treatmentItems: seq<Constraint>) returns (correlations: seq<Correlation>)
      ensures correlations == front + Correlator.TreatmentFallbacks(treatmentItems)
    {
      correlations := front;
      for i := 0 to |treatmentItems|
        invariant correlations == front + Correlator.TreatmentFallbacks(treatmentItems[..i])
      {
        MapIndexedSnoc(treatmentItems, Correlator.TreatmentFallback, i);
        var item := Correlator.TreatmentFallback(i, treatmentItems[i]);
        ghost var before := Correlator.TreatmentFallbacks(treatmentItems[..i]);
        assert front + (before + [item]) == front + before + [item];
        correlations := correlations + [item];
      }
      assert treatmentItems[..|treatmentItems|] == treatmentItems;
    }

    /**
     * The constraint part of `_create_fallback_correlations`: the
     * constraints grouped by type, then the first 10 material grades and
     * the first 5 surface treatments.
     */
    method ConstraintItems(constraints: seq<Constraint>) returns (correlations: seq<Correlation>)
      ensures correlations == Correlator.ConstraintFallbacks(constraints)
    {
      var groups := IndexConstraints(constraints);
      Correlator.ConstraintIndexGet(constraints, "material_grade");
      Correlator.ConstraintIndexGet(constraints, "surface_treatment");
      correlations := MaterialItems(Correlator.Prefix(Get(groups, "material_grade").GetOr([]), 10));
      correlations := TreatmentItems(correlations, Correlator.Prefix(Get(groups, "surface_treatment").GetOr([]), 5));
    }

    /**
     * The dimension loop of `_create_fallback_correlations`: each dimension
     * text not seen before whose length exceeds 50 is appended, numbered
     * after the items already there.
     */
    method DimensionItems(front: seq<Correlation>, dims: seq<DimensionSpec>) returns (correlations: seq<Correlation>)
      ensures correlations == front + Correlator.DimensionFallbacks(Correlator.DimensionScan(dims).0, |front|)
    {
      correlations := front;
      var uniqueDims: set<string> := {};
      ghost var kept: seq<(string, real)> := [];
      for i := 0 to |dims|
        invariant (kept, uniqueDims) == Correlator.DimensionScan(dims[..i])
        invariant correlations == front + Correlator.DimensionFallbacks(kept, |front|)
      {
        DimensionScanSnoc(dims, i);
        var raw := if dims[i].raw != "" then dims[i].raw else dims[i].dimensions;
        if raw != "" && raw !in uniqueDims {
          uniqueDims := uniqueDims + {raw};
          var length := Correlator.ParseDimension(raw);
          if length.Some? && length.value > 50.0 {
            DimensionItemsSnoc(front, kept, raw, length.value);
            correlations := correlations + [Correlator.DimensionFallback(|correlations| + 1, raw, length.value)];
            kept := kept + [(raw, length.value)];
          }
        }
      }
      assert dims[..|dims|] == dims;
    }

    /**
     * `_create_fallback_correlations`: the constraint items, then the
     * dimension items among the first 20 entries; the `PROJ-01` placeholder
     * when there is none of these.
     */
    method CreateFallbackCorrelations(pdf: PdfAnalysis) returns (correlations: seq<Correlation>)
      modifies this
      ensures correlations == Correlator.FallbackCorrelations(pdf)
      ensures correlationLog == old(correlationLog) + [CreatingFallbackItems]
      ensures lineItems == old(lineItems) && summary == old(summary)
    {
      correlationLog := correlationLog + [CreatingFallbackItems];
      var front := ConstraintItems(pdf.constraints);
      correlations := DimensionItems(front, Correlator.Prefix(pdf.dimensionSpecs, 20));
      if correlations == [] {
        correlations := [Correlator.Placeholder(|pdf.constraints|, |pdf.dimensionSpecs|)];
      }
    }

    // ------------------------------------------------------------ pricing

    /**
     * `_try_calculate_from_cost_db`: without a catalogue, without a steel
     * designation in the line's texts, or without that profile in the
     * catalogue, `None` (the `False` return); otherwise the line priced
     * from the profile's cost for the line's length in metres.
     */
    method TryCalculateFromCostDb(line: LineItem) returns (r: Option<LineItem>)
      ensures r == Pricer.CatalogPrice(CatalogIndex(), line)
    {
      if costDb == null {
        return None;
      }
      var profileName := FindDesignation(Pricer.ProfilePatterns, [line.description, line.reference, OrElse(line.profileId, "")]);
      assert profileName == Pricer.Designation(Pricer.ProfilePatterns, Pricer.SearchTerms(line));
      if profileName.None? {
        return None;
      }
      var profile := costDb.FindProfile(profileName.value);
      if profile.None? {
        return None;
      }
      var lengthM := if line.lengthMm > 0.0 then line.lengthMm / 1000.0 else 1.0;
      var costData := profile.value.CalculateCost(lengthM);
      assert lengthM == Pricer.LengthMeters(line);
      var priced := ApplyCatalogCost(line, costData, profile.value.designation);
      return Some(priced);
    }

    /**
     * `_calculate_line_costs`: the catalogue route when it succeeds; else
     * the weight chain completes the geometry and the formula sets the
     * material, extrusion, surface, labour and accessory costs, the unit
     * cost (their sum over the quantity) and the total.
     */
    method CalculateLineCosts(line: LineItem, surfaceTreatment: string) returns (r: LineItem)
      requires params.eurToUsd != 0.0
      ensures r == Pricer.PricedLine(params, CatalogIndex(), line, surfaceTreatment)
    {
      var fromDb := TryCalculateFromCostDb(line);
      if fromDb.Some? {
        return fromDb.value;
      }
      r := FormulaCosts(params, line, surfaceTreatment);
    }

    // ------------------------------------------------------------ `calculate_budget`

    /**
     * The line `calculate_budget` builds for a correlation before pricing
     * it: quantity, reference and description by source priority, the
     * geometry of the DXF profile or block count, and the PDF row's length
     * when the line still has none; `None` for a correlation without a
     * source (the loop's `continue`).
     */
    method DraftLine(c: Correlation, lineId: int, surfaceTreatment: string) returns (draft: Option<LineItem>)
      ensures draft == BudgetLines.DraftLine(c, lineId, surfaceTreatment)
    {
      var quantity: int;
      var reference: string;
      var description: string;
      if c.dxfProfile.Some? {
        var profile := c.dxfProfile.value;
        quantity := profile.quantity;
        reference := if profile.layer != "" then profile.layer else profile.profileId;
        description := profile.entityType + " - " + profile.layer;
      } else if c.materialQuantity.Some? {
        var mq := c.materialQuantity.value;
        quantity := mq.quantity;
        reference := mq.profileReference;
        description := mq.description;
      } else if c.pdfItem.Some? {
        var item := c.pdfItem.value;
        quantity := Trunc(item.quantity);
        reference := item.reference;
        description := item.description;
      } else {
        return None;
      }
      var line := LineItem(
        lineId, reference, description, Max(1, quantity), c.quantitySource,
        if c.pdfItem.Some? && c.dxfProfile.Some? then "both" else if c.dxfProfile.Some? then "dxf" else "pdf",
        None, 0.0, 0.0, 0.0, 0.0, 1.0, 0, "",
        c.specs.material,
        if Present(c.specs.finish) then c.specs.finish else Some(BudgetLines.TreatmentToFinish(surfaceTreatment)),
        c.specs.thicknessMm,
        0.0, 0.0, 0.0, 0.0, 0.0, 0.0, 0.0,
        c.confidence, c.correlationMethod, "");
      if c.dxfProfile.Some? {
        var profile := c.dxfProfile.value;
        line := line.(
          profileId := Some(profile.profileId),
          perimeterMm := profile.perimeterMm,
          areaMm2 := profile.areaMm2,
          lengthMm := if profile.lengthMm != 0.0 then profile.lengthMm else MaxReal(profile.bboxWidth, profile.bboxHeight),
          weightKg := profile.weightKg,
          complexityScore := profile.complexityScore,
          entityType := profile.entityType,
          holesCount := BudgetLines.HoleCount(profile.featureTypes));
      } else if c.materialQuantity.Some? {
        var mq := c.materialQuantity.value;
        line := line.(perimeterMm := mq.unitLengthMm, areaMm2 := mq.unitAreaMm2, lengthMm := mq.unitLengthMm);
      }
      if line.lengthMm == 0.0 && c.pdfItem.Some? {
        line := line.(lengthMm := if c.pdfItem.value.lengthMm.Some? then c.pdfItem.value.lengthMm.value else 0.0);
      }
      return Some(line);
    }

    /**
     * The line loop of `calculate_budget`: the lines are reset, then each
     * correlation with a source gives a priced line numbered by its
     * position among the correlations.
     */
    method PriceCorrelations(correlations: seq<Correlation>, surfaceTreatment: string)
      requires params.eurToUsd != 0.0
      modifies this
      ensures lineItems == BudgetLines.BudgetLines(BudgetLines.Pricing(params, CatalogIndex(), surfaceTreatment), correlations, surfaceTreatment)
      ensures correlationLog == old(correlationLog) && summary == old(summary)
    {
      ghost var make := BudgetLines.LineMaker(BudgetLines.Pricing(params, CatalogIndex(), surfaceTreatment), surfaceTreatment);
      lineItems := [];
      var lineId := 0;
      for i := 0 to |correlations|
        invariant lineId == i
        invariant lineItems == BudgetLines.Lines(make, correlations[..i])
        invariant correlationLog == old(correlationLog) && summary == old(summary)
      {
        lineId := lineId + 1;
        LinesSnoc(make, correlations, i);
        var draft := DraftLine(correlations[i], lineId, surfaceTreatment);
        if draft.None? {
          continue;
        }
        var line := CalculateLineCosts(draft.value, surfaceTreatment);
        assert make(correlations[i], lineId) == Some(line);
        lineItems := lineItems + [line];
      }
      assert correlations[..|correlations|] == correlations;
    }

    /**
     * `_calculate_summary`: the summary of the current lines under the
     * parameters; the creation time is given.
     */
    method CalculateSummary(projectName: string, createdAt: string, hasDxf: bool, hasPdf: bool)
      requires params.laborRateEurHr != 0.0
      modifies this
      ensures summary == Some(Summary.Summarize(lineItems, params, projectName, createdAt, hasDxf, hasPdf))
      ensures lineItems == old(lineItems) && correlationLog == old(correlationLog)
    {
      summary := Some(Summary.Summarize(lineItems, params, projectName, createdAt, hasDxf, hasPdf));
    }

    /**
     * `calculate_budget`: the correlations, one priced line per correlation
     * with a source, the summary of those lines, and which sources were
     * used. DXF data counts only with profiles; PDF data counts whenever
     * its extraction succeeded.
     */
    method CalculateBudget(dxf: DxfAnalysis, pdf: PdfAnalysis, surfaceTreatment: string, projectName: string, createdAt: string)
      returns (result: BudgetResult)
      requires params.eurToUsd != 0.0 && params.laborRateEurHr != 0.0
      modifies this
      ensures lineItems == BudgetLines.BudgetLines(
                BudgetLines.Pricing(params, CatalogIndex(), surfaceTreatment), Correlator.Correlations(dxf, pdf), surfaceTreatment)
      ensures correlationLog == old(correlationLog) + Correlator.CorrelationLog(dxf, pdf)
      ensures summary == Some(Summary.Summarize(lineItems, params, projectName, createdAt, Correlator.HasDxf(dxf), pdf.success))
      ensures result == BudgetResult(true, lineItems, summary, params, correlationLog, Correlator.HasDxf(dxf), pdf.success,
                                     if Correlator.HasDxf(dxf) then "dxf" else "pdf")
    {
      var hasDxf := dxf.success && |dxf.profiles| > 0;
      var hasPdf := pdf.success;
      var correlations := CorrelateData(dxf, pdf);
      PriceCorrelations(correlations, surfaceTreatment);
      CalculateSummary(projectName, createdAt, hasDxf, hasPdf);
      result := BudgetResult(true, lineItems, summary, params, correlationLog, hasDxf, hasPdf, if hasDxf then "dxf" else "pdf");
    }

    // ------------------------------------------------------------ `get_ai_recommendations`

    /**
     * `get_ai_recommendations`: none before a budget is calculated; after,
     * between one and five, always the price protection, and each other
     * category exactly when its condition holds on the summary and lines.
     */
    function GetAiRecommendations(): (rs: seq<BudgetLines.Recommendation>)
      reads this
      ensures summary.None? ==> rs == []
      ensures summary.Some? ==> 1 <= |rs| <= 5 && BudgetLines.Recommendation(BudgetLines.PriceProtection, "low", BudgetLines.Variable) in rs
      ensures summary.Some? ==> forall category :: BudgetLines.Recommends(rs, category) <==> BudgetLines.Warranted(summary.value, lineItems, category)
    {
      if summary.None? then []
      else
        BudgetLines.RecommendationCount(summary.value, lineItems);
        BudgetLines.RecommendationsWarranted(summary.value, lineItems);
        BudgetLines.Recommendations(summary.value, lineItems)
    }
  }
}
