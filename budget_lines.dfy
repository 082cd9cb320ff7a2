/**
 * What `calculate_budget` makes of the correlations: one budget line per
 * correlation that has a source, its quantity taken by priority (DXF
 * profile, then DXF block count, then PDF row), its geometry from the DXF,
 * its specifications from the PDF, numbered in correlation order and
 * priced; also the finish names, the recommendations drawn from a summary,
 * and the quick estimate by weight.
 */
module BudgetLines {
  import opened Wrappers
  import opened Numerals
  import opened Dicts
  import opened BudgetTypes
  import CostCatalog
  import Correlator
  import Pricer
  import Pdf

  // ---------------------------------------------------------------- `_treatment_to_finish`

  /** The readable finish of a treatment code; an unknown code stands for itself. */
  function TreatmentToFinish(treatment: string): string {
    match treatment
    case "none" => "Sem acabamento"
    case "anodizing_natural" => "Anodiza\U{e7}\U{e3}o natural"
    case "anodizing_colored" => "Anodiza\U{e7}\U{e3}o colorida"
    case "powder_coating_standard" => "Lacagem standard"
    case "powder_coating_qualicoat" => "Lacagem Qualicoat"
    case "powder_coating_seaside" => "Lacagem Seaside"
    case _ => treatment
  }

  /** A code the pricing does not know is passed through as the finish. */
  lemma FinishPassesUnknown(treatment: string)
    ensures treatment !in Pricer.KnownTreatments ==> TreatmentToFinish(treatment) == treatment
  {
  }

  /** Every treatment the pricing knows has a readable name distinct from its code. */
  lemma FinishRenamesKnown(treatment: string)
    ensures treatment in Pricer.KnownTreatments ==> TreatmentToFinish(treatment) != treatment
  {
  }

  /** Two treatments the pricing knows never share a finish name. */
  lemma FinishNamesDistinct(treatment: string, other: string)
    ensures treatment in Pricer.KnownTreatments && other in Pricer.KnownTreatments && treatment != other
            ==> TreatmentToFinish(treatment) != TreatmentToFinish(other)
  {
  }

  // ---------------------------------------------------------------- one line per correlation

  /** A correlation with something to count: a DXF profile, a DXF block count or a PDF row. */
  predicate HasSource(c: Correlation) {
    c.dxfProfile.Some? || c.materialQuantity.Some? || c.pdfItem.Some?
  }

  /**
   * The quantity, reference and description of a line: from the DXF
   * profile (its layer, else its id, as reference), else from the block
   * count, else from the PDF row (its quantity truncated to an integer);
   * `None` for a correlation without a source, which the loop skips.
   */
  function LineSource(c: Correlation): Option<(int, string, string)> {
    if c.dxfProfile.Some? then
      var p := c.dxfProfile.value;
      Some((p.quantity, if p.layer != "" then p.layer else p.profileId, p.entityType + " - " + p.layer))
    else if c.materialQuantity.Some? then
      var mq := c.materialQuantity.value;
      Some((mq.quantity, mq.profileReference, mq.description))
    else if c.pdfItem.Some? then
      var item := c.pdfItem.value;
      Some((Trunc(item.quantity), item.reference, item.description))
    else None
  }

  /** `specs_source`: `"both"` for a DXF profile with a PDF row, `"dxf"` for one without, else `"pdf"`. */
  function SpecsSource(c: Correlation): string {
    if c.pdfItem.Some? && c.dxfProfile.Some? then "both"
    else if c.dxfProfile.Some? then "dxf"
    else "pdf"
  }

  /** The number of hole features. */
  function HoleCount(features: seq<string>): (n: nat)
    ensures n <= |features|
    ensures n == 0 <==> "hole" !in features
    decreases |features|
  {
    if features == [] then 0
    else
      var init := features[..|features| - 1];
      assert features == init + [features[|features| - 1]];
      HoleCount(init) + (if features[|features| - 1] == "hole" then 1 else 0)
  }

  /** The DXF length, else the larger side of the bounding box. */
  function ProfileLength(p: ProfileRecord): real {
    if p.lengthMm != 0.0 then p.lengthMm else MaxReal(p.bboxWidth, p.bboxHeight)
  }

  /** The geometry a line takes from its DXF profile, or from its block count (the unit length serving as perimeter and length). */
  function WithGeometry(line: LineItem, c: Correlation): LineItem {
    if c.dxfProfile.Some? then
      var p := c.dxfProfile.value;
      line.(profileId := Some(p.profileId), perimeterMm := p.perimeterMm, areaMm2 := p.areaMm2,
            lengthMm := ProfileLength(p), weightKg := p.weightKg, complexityScore := p.complexityScore,
            entityType := p.entityType, holesCount := HoleCount(p.featureTypes))
    else if c.materialQuantity.Some? then
      var mq := c.materialQuantity.value;
      line.(perimeterMm := mq.unitLengthMm, areaMm2 := mq.unitAreaMm2, lengthMm := mq.unitLengthMm)
    else line
  }

  /** A line still without a length takes the PDF row's length, `0` when the row has none. */
  function WithPdfLength(line: LineItem, c: Correlation): LineItem {
    if line.lengthMm == 0.0 && c.pdfItem.Some? then
      line.(lengthMm := if c.pdfItem.value.lengthMm.Some? then c.pdfItem.value.lengthMm.value else 0.0)
    else line
  }

  /** The line `calculate_budget` builds for a correlation, numbered `lineId`, before it is priced. */
  function DraftLine(c: Correlation, lineId: int, treatment: string): Option<LineItem> {
    match LineSource(c)
    case None => None
    case Some((quantity, reference, description)) =>
      var finish := if Present(c.specs.finish) then c.specs.finish else Some(TreatmentToFinish(treatment));
      var line := LineItem(
        lineId, reference, description, Max(1, quantity), c.quantitySource, SpecsSource(c),
        None, 0.0, 0.0, 0.0, 0.0, 1.0, 0, "",
        c.specs.material, finish, c.specs.thicknessMm,
        0.0, 0.0, 0.0, 0.0, 0.0, 0.0, 0.0,
        c.confidence, c.correlationMethod, "");
      Some(WithPdfLength(WithGeometry(line, c), c))
  }

  /**
   * A correlation gives a line exactly when it has a source. The line
   * carries its number, at least one unit, the correlation's quantity
   * source, confidence and method, the specifications' finish (else the
   * treatment's name), and says where its specifications come from.
   */
  lemma DraftLineFacts(c: Correlation, lineId: int, treatment: string)
    ensures DraftLine(c, lineId, treatment).Some? <==> HasSource(c)
    ensures var d := DraftLine(c, lineId, treatment);
            d.Some? ==>
              && d.value.lineId == lineId && d.value.quantity >= 1
              && d.value.quantitySource == c.quantitySource
              && d.value.correlationConfidence == c.confidence && d.value.correlationMethod == c.correlationMethod
              && d.value.material == c.specs.material && d.value.thicknessMm == c.specs.thicknessMm
              && (Present(c.specs.finish) ==> d.value.finish == c.specs.finish)
              && (!Present(c.specs.finish) ==> d.value.finish == Some(TreatmentToFinish(treatment)))
              && (d.value.specsSource == "both" <==> c.dxfProfile.Some? && c.pdfItem.Some?)
              && (d.value.specsSource == "dxf" <==> c.dxfProfile.Some? && c.pdfItem.None?)
              && (d.value.specsSource == "pdf" <==> c.dxfProfile.None?)
  {
  }

  /**
   * The quantity goes by priority: the DXF profile's, else the block
   * count's, else the PDF row's truncated toward zero; never below one.
   */
  lemma QuantityPriority(c: Correlation, lineId: int, treatment: string)
    requires HasSource(c)
    ensures var q := DraftLine(c, lineId, treatment).value.quantity;
            && (c.dxfProfile.Some? ==> q == Max(1, c.dxfProfile.value.quantity))
            && (c.dxfProfile.None? && c.materialQuantity.Some? ==> q == Max(1, c.materialQuantity.value.quantity))
            && (c.dxfProfile.None? && c.materialQuantity.None? ==>
                  var pq := c.pdfItem.value.quantity;
                  && q >= 1
                  && (pq >= 1.0 ==> q as real <= pq < q as real + 1.0)
                  && (pq < 1.0 ==> q == 1))
  {
    if c.dxfProfile.None? && c.materialQuantity.None? {
      var pq := c.pdfItem.value.quantity;
      var t := Trunc(pq);
      assert pq < 1.0 ==> t <= 0;
    }
  }

  /**
   * A line from a DXF profile takes the profile's weight, complexity and id,
   * and a non-zero length whenever the profile has a length or a bounding
   * box with a positive side; a block-count line measures its unit length.
   */
  lemma DxfGeometry(c: Correlation, lineId: int, treatment: string)
    requires HasSource(c)
    ensures var d := DraftLine(c, lineId, treatment).value;
            && (c.dxfProfile.Some? ==>
                  var p := c.dxfProfile.value;
                  && d.weightKg == p.weightKg && d.complexityScore == p.complexityScore
                  && d.profileId == Some(p.profileId) && d.holesCount <= |p.featureTypes|
                  && (p.lengthMm != 0.0 || p.bboxWidth > 0.0 || p.bboxHeight > 0.0 ==> d.lengthMm != 0.0))
            && (c.dxfProfile.None? && c.materialQuantity.Some? ==>
                  var mq := c.materialQuantity.value;
                  && d.perimeterMm == mq.unitLengthMm && d.areaMm2 == mq.unitAreaMm2
                  && (mq.unitLengthMm != 0.0 || c.pdfItem.None? ==> d.lengthMm == mq.unitLengthMm))
            && (c.dxfProfile.None? && c.materialQuantity.None? ==> d.weightKg == 0.0 && d.complexityScore == 1.0)
  {
  }

  /** `_calculate_line_costs` with fixed parameters, catalogue and treatment, as a function of the line. */
  function Pricing(p: PricingParameters, catalog: Option<Dict<CostCatalog.SteelProfile>>, treatment: string): LineItem -> LineItem
    requires p.eurToUsd != 0.0
  {
    (line: LineItem) => Pricer.PricedLine(p, catalog, line, treatment)
  }

  /** The fields pricing leaves alone: identity, quantity, sources, specifications and correlation. */
  predicate SameIdentity(a: LineItem, b: LineItem) {
    && a.lineId == b.lineId && a.reference == b.reference && a.description == b.description
    && a.quantity == b.quantity && a.quantitySource == b.quantitySource && a.specsSource == b.specsSource
    && a.material == b.material && a.finish == b.finish
    && a.correlationConfidence == b.correlationConfidence && a.correlationMethod == b.correlationMethod
  }

  /** A pricing that changes only costs and measurements and settles every line of at least one unit. */
  ghost predicate PricesFaithfully(price: LineItem -> LineItem) {
    forall line :: SameIdentity(price(line), line) && (line.quantity >= 1 ==> Pricer.Settled(price(line), line.quantity))
  }

  /** Pricing a line, by either route, changes its costs and measurements, never what it is. */
  lemma PricedLineKeeps(p: PricingParameters, catalog: Option<Dict<CostCatalog.SteelProfile>>, line: LineItem, treatment: string)
    requires p.eurToUsd != 0.0
    ensures SameIdentity(Pricer.PricedLine(p, catalog, line, treatment), line)
  {
    var c := Pricer.CatalogPrice(catalog, line);
    if c.Some? {
      var cost := Pricer.CatalogPriceShape(catalog, line);
      Pricer.CatalogPricedFacts(line, cost);
    } else {
      Pricer.FormulaPricedFrame(p, line, treatment);
      Pricer.EstimatedGeometryFacts(line);
    }
  }

  /** `_calculate_line_costs` prices faithfully, whatever the parameters, catalogue and treatment. */
  lemma PricingFaithful(p: PricingParameters, catalog: Option<Dict<CostCatalog.SteelProfile>>, treatment: string)
    requires p.eurToUsd != 0.0
    ensures PricesFaithfully(Pricing(p, catalog, treatment))
  {
    forall line: LineItem
      ensures SameIdentity(Pricing(p, catalog, treatment)(line), line)
      ensures line.quantity >= 1 ==> Pricer.Settled(Pricing(p, catalog, treatment)(line), line.quantity)
    {
      PricedLineKeeps(p, catalog, line, treatment);
      if line.quantity >= 1 {
        Pricer.PricedLineSettled(p, catalog, line, treatment);
      }
    }
  }

  /** The line of a correlation, priced. */
  function LineOf(price: LineItem -> LineItem, c: Correlation, lineId: int, treatment: string): Option<LineItem> {
    var draft := DraftLine(c, lineId, treatment);
    if draft.None? then None else Some(price(draft.value))
  }

  /** `LineOf` as a function of the correlation and the line number. */
  function LineMaker(price: LineItem -> LineItem, treatment: string): (Correlation, int) -> Option<LineItem> {
    (c: Correlation, lineId: int) => LineOf(price, c, lineId, treatment)
  }

  /** The lines made from the correlations in order, the `k`-th numbered `k + 1`; a correlation without a line is skipped. */
  function Lines(make: (Correlation, int) -> Option<LineItem>, cs: seq<Correlation>): seq<LineItem>
    decreases |cs|
  {
    if cs == [] then []
    else
      var init := Lines(make, cs[..|cs| - 1]);
      var line := make(cs[|cs| - 1], |cs|);
      if line.Some? then init + [line.value] else init
  }

  /** The loop of `calculate_budget`: each correlation's line, priced, in order. */
  function BudgetLines(price: LineItem -> LineItem, cs: seq<Correlation>, treatment: string): seq<LineItem> {
    Lines(LineMaker(price, treatment), cs)
  }

  /** A line of at least one unit whose costs are settled. */
  predicate SettledLine(line: LineItem) {
    line.quantity >= 1 && Pricer.Settled(line, line.quantity)
  }

  /**
   * What a line maker promises for each correlation: a line exactly when
   * the correlation has a source, carrying the number it is given, settled,
   * with the correlation's quantity source, method and confidence, its
   * quantity by source priority, and its specifications' origin.
   */
  ghost predicate FaithfulMaker(make: (Correlation, int) -> Option<LineItem>) {
    forall c: Correlation, lineId: int ::
      && (make(c, lineId).Some? <==> HasSource(c))
      && (make(c, lineId).Some? ==>
            && make(c, lineId).value.lineId == lineId && SettledLine(make(c, lineId).value)
            && make(c, lineId).value.quantitySource == c.quantitySource
            && make(c, lineId).value.correlationMethod == c.correlationMethod
            && make(c, lineId).value.correlationConfidence == c.confidence
            && (c.dxfProfile.Some? ==> make(c, lineId).value.quantity == Max(1, c.dxfProfile.value.quantity))
            && (c.dxfProfile.None? && c.materialQuantity.None? ==>
                  make(c, lineId).value.quantity == Max(1, Trunc(c.pdfItem.value.quantity)))
            && (make(c, lineId).value.specsSource == "pdf" <==> c.dxfProfile.None?))
  }

  /** Pricing faithfully, the lines of `calculate_budget` keep every promise of the draft. */
  lemma LineMakerFaithful(price: LineItem -> LineItem, treatment: string)
    requires PricesFaithfully(price)
    ensures FaithfulMaker(LineMaker(price, treatment))
  {
    forall c: Correlation, lineId: int
      ensures var l := LineMaker(price, treatment)(c, lineId);
              && (l.Some? <==> HasSource(c))
              && (l.Some? ==>
                    && l.value.lineId == lineId && SettledLine(l.value)
                    && l.value.quantitySource == c.quantitySource
                    && l.value.correlationMethod == c.correlationMethod
                    && l.value.correlationConfidence == c.confidence
                    && (c.dxfProfile.Some? ==> l.value.quantity == Max(1, c.dxfProfile.value.quantity))
                    && (c.dxfProfile.None? && c.materialQuantity.None? ==>
                          l.value.quantity == Max(1, Trunc(c.pdfItem.value.quantity)))
                    && (l.value.specsSource == "pdf" <==> c.dxfProfile.None?))
    {
      DraftLineFacts(c, lineId, treatment);
      if HasSource(c) {
        QuantityPriority(c, lineId, treatment);
      }
    }
  }

  /** Lines in the order of their numbers, each numbered within the correlations. */
  predicate Numbered(lines: seq<LineItem>, n: int) {
    && (forall k :: 0 <= k < |lines| ==> 1 <= lines[k].lineId <= n)
    && (forall k, l :: 0 <= k < l < |lines| ==> lines[k].lineId < lines[l].lineId)
  }

  /**
   * At most one line per correlation, numbered in increasing order within
   * the correlations; every line is settled.
   */
  lemma {:induction false} LinesShape(make: (Correlation, int) -> Option<LineItem>, cs: seq<Correlation>)
    requires FaithfulMaker(make)
    ensures var lines := Lines(make, cs);
            && |lines| <= |cs| && Numbered(lines, |cs|)
            && forall k :: 0 <= k < |lines| ==> SettledLine(lines[k])
    decreases |cs|
  {
    if cs != [] {
      LinesShape(make, cs[..|cs| - 1]);
    }
  }

  /** When every correlation has a source, the `k`-th line is the `k`-th correlation's, numbered `k + 1`. */
  lemma {:induction false} LinesTotal(make: (Correlation, int) -> Option<LineItem>, cs: seq<Correlation>)
    requires FaithfulMaker(make)
    requires forall k :: 0 <= k < |cs| ==> HasSource(cs[k])
    ensures var lines := Lines(make, cs);
            && |lines| == |cs|
            && forall k :: 0 <= k < |cs| ==> make(cs[k], k + 1) == Some(lines[k]) && lines[k].lineId == k + 1
    decreases |cs|
  {
    if cs != [] {
      var init := cs[..|cs| - 1];
      LinesTotal(make, init);
      var lines := Lines(make, cs);
      forall k | 0 <= k < |cs| ensures make(cs[k], k + 1) == Some(lines[k]) {
        if k < |init| {
          assert cs[k] == init[k];
        }
      }
    }
  }

  /**
   * The budget has at most one line per correlation, numbered in increasing
   * order, each of at least one unit with its components adding up to its
   * total, the unit cost times the quantity.
   */
  lemma BudgetLinesShape(price: LineItem -> LineItem, cs: seq<Correlation>, treatment: string)
    requires PricesFaithfully(price)
    ensures var lines := BudgetLines(price, cs, treatment);
            && |lines| <= |cs| && Numbered(lines, |cs|)
            && forall k :: 0 <= k < |lines| ==> SettledLine(lines[k])
  {
    LineMakerFaithful(price, treatment);
    LinesShape(LineMaker(price, treatment), cs);
  }

  /** Correlations of profiles followed by correlations of block counts all have a source. */
  lemma ProfilesThenBlocksHaveSource(r: seq<Correlation>, n: nat)
    requires n <= |r|
    requires forall i :: 0 <= i < n ==> r[i].dxfProfile.Some?
    requires var blocks := r[n..]; forall k :: 0 <= k < |blocks| ==> blocks[k].materialQuantity.Some?
    ensures forall k :: 0 <= k < |r| ==> HasSource(r[k])
  {
    var blocks := r[n..];
    forall k | 0 <= k < |r| ensures HasSource(r[k]) {
      if k >= n {
        assert r[k] == blocks[k - n];
      }
    }
  }

  /** With DXF profiles, every primary correlation has a source: a profile, then a block count. */
  lemma PrimaryCorrelationsHaveSource(dxf: DxfAnalysis, pdf: PdfAnalysis)
    requires Correlator.HasDxf(dxf)
    ensures var r := Correlator.PrimaryCorrelations(dxf, pdf);
            forall k :: 0 <= k < |r| ==> HasSource(r[k])
  {
    var lookup := Correlator.LookupOf(pdf.bomItems);
    var index := Correlator.ConstraintIndex(pdf.constraints);
    Correlator.DxfPath(dxf, pdf);
    Correlator.BlockCorrelationsFromDxf(dxf.materialQuantities, lookup, index);
    ProfilesThenBlocksHaveSource(Correlator.PrimaryCorrelations(dxf, pdf), |dxf.profiles|);
  }

  /** Without DXF profiles or PDF rows, every fallback correlation has a PDF row, real or placeholder. */
  lemma FallbackCorrelationsHaveSource(pdf: PdfAnalysis)
    ensures var r := Correlator.FallbackCorrelations(pdf);
            forall k :: 0 <= k < |r| ==> HasSource(r[k])
  {
    Correlator.FallbackShape(pdf);
  }

  /** Every correlation `correlate_data` returns has a source. */
  lemma CorrelationsHaveSource(dxf: DxfAnalysis, pdf: PdfAnalysis)
    ensures var cs := Correlator.Correlations(dxf, pdf);
            forall k :: 0 <= k < |cs| ==> HasSource(cs[k])
  {
    var primary := Correlator.PrimaryCorrelations(dxf, pdf);
    if Correlator.HasDxf(dxf) {
      PrimaryCorrelationsHaveSource(dxf, pdf);
      assert primary != [] by {
        Correlator.DxfPath(dxf, pdf);
      }
    } else if Correlator.HasPdfItems(pdf) {
      Correlator.PdfFallbackPath(dxf, pdf);
    } else {
      assert primary == [];
      FallbackCorrelationsHaveSource(pdf);
    }
  }

  /**
   * `calculate_budget` prices every correlation that has a source (every
   * one `correlate_data` returns, by `CorrelationsHaveSource`): the `k`-th
   * line comes from the `k`-th correlation and is numbered `k + 1`, and none
   * is skipped.
   */
  lemma EveryCorrelationPriced(price: LineItem -> LineItem, cs: seq<Correlation>, treatment: string)
    requires PricesFaithfully(price)
    requires forall k :: 0 <= k < |cs| ==> HasSource(cs[k])
    ensures var lines := BudgetLines(price, cs, treatment);
            && |lines| == |cs|
            && forall k :: 0 <= k < |cs| ==> lines[k].lineId == k + 1 && LineMaker(price, treatment)(cs[k], k + 1) == Some(lines[k])
  {
    LineMakerFaithful(price, treatment);
    LinesTotal(LineMaker(price, treatment), cs);
  }

  /** Lines from DXF correlations: profiles first with their own quantities, then block counts, all from the DXF. */
  lemma DxfLines(make: (Correlation, int) -> Option<LineItem>, cs: seq<Correlation>, profiles: seq<ProfileRecord>)
    requires FaithfulMaker(make)
    requires forall k :: 0 <= k < |cs| ==> HasSource(cs[k]) && cs[k].quantitySource == "dxf"
    requires |cs| >= |profiles| && forall i :: 0 <= i < |profiles| ==> cs[i].dxfProfile == Some(profiles[i])
    requires forall i :: |profiles| <= i < |cs| ==> cs[i].correlationMethod == "block_count"
    ensures var lines := Lines(make, cs);
            && |lines| == |cs|
            && (forall i :: 0 <= i < |profiles| ==> lines[i].quantity == Max(1, profiles[i].quantity))
            && (forall i :: 0 <= i < |lines| ==> lines[i].quantitySource == "dxf")
            && (forall i :: |profiles| <= i < |lines| ==> lines[i].correlationMethod == "block_count")
  {
    LinesTotal(make, cs);
  }

  /**
   * DXF quantities prevail: with DXF profiles, the first lines are the
   * profiles in order, each with the profile's quantity (at least one) and
   * `"dxf"` as its quantity source, and every other line counts blocks.
   */
  lemma DxfQuantitiesPrevail(price: LineItem -> LineItem, dxf: DxfAnalysis, pdf: PdfAnalysis, treatment: string)
    requires PricesFaithfully(price) && Correlator.HasDxf(dxf)
    ensures var lines := BudgetLines(price, Correlator.Correlations(dxf, pdf), treatment);
            && |lines| >= |dxf.profiles|
            && (forall i :: 0 <= i < |dxf.profiles| ==> lines[i].quantity == Max(1, dxf.profiles[i].quantity))
            && (forall i :: 0 <= i < |lines| ==> lines[i].quantitySource == "dxf")
            && (forall i :: |dxf.profiles| <= i < |lines| ==> lines[i].correlationMethod == "block_count")
  {
    CorrelationsHaveSource(dxf, pdf);
    Correlator.DxfPrevails(dxf, pdf);
    LineMakerFaithful(price, treatment);
    DxfLines(LineMaker(price, treatment), Correlator.Correlations(dxf, pdf), dxf.profiles);
  }

  /** Lines from PDF-only correlations: one per row, with the row's truncated quantity and PDF specifications. */
  lemma PdfLines(make: (Correlation, int) -> Option<LineItem>, cs: seq<Correlation>, items: seq<Pdf.BomItem>)
    requires FaithfulMaker(make)
    requires |cs| == |items|
    requires forall i :: 0 <= i < |cs| ==>
               cs[i].pdfItem == Some(items[i]) && cs[i].dxfProfile.None? && cs[i].materialQuantity.None?
               && cs[i].confidence == 0.5 && cs[i].quantitySource == "pdf"
    ensures var lines := Lines(make, cs);
            && |lines| == |items|
            && forall i :: 0 <= i < |lines| ==>
                 && lines[i].quantity == Max(1, Trunc(items[i].quantity))
                 && lines[i].quantitySource == "pdf" && lines[i].specsSource == "pdf"
                 && lines[i].correlationConfidence == 0.5
  {
    LinesTotal(make, cs);
  }

  /**
   * Without DXF geometry but with PDF rows: one line per row, in order, each
   * with the row's quantity truncated (at least one), specifications from
   * the PDF and confidence 0.5.
   */
  lemma PdfQuantitiesAsFallback(price: LineItem -> LineItem, dxf: DxfAnalysis, pdf: PdfAnalysis, treatment: string)
    requires PricesFaithfully(price) && !Correlator.HasDxf(dxf) && Correlator.HasPdfItems(pdf)
    ensures var lines := BudgetLines(price, Correlator.Correlations(dxf, pdf), treatment);
            && |lines| == |pdf.bomItems|
            && forall i :: 0 <= i < |lines| ==>
                 && lines[i].quantity == Max(1, Trunc(pdf.bomItems[i].quantity))
                 && lines[i].quantitySource == "pdf" && lines[i].specsSource == "pdf"
                 && lines[i].correlationConfidence == 0.5
  {
    Correlator.PdfFallbackPath(dxf, pdf);
    LineMakerFaithful(price, treatment);
    PdfLines(LineMaker(price, treatment), Correlator.Correlations(dxf, pdf), pdf.bomItems);
  }

  // ---------------------------------------------------------------- `get_ai_recommendations`

  /** `potential_savings`: an amount in euros, `"Variável"` or `"N/A"`. */
  datatype Savings = Amount(euros: real) | Variable | NotApplicable

  /** The categories of recommendation. */
  datatype Category = MaterialOptimisation | LaborEfficiency | PriceProtection | VolumeDiscount | DataQuality

  /** The category as the report names it. */
  function CategoryName(c: Category): string {
    match c
    case MaterialOptimisation => "Otimiza\U{e7}\U{e3}o de Material"
    case LaborEfficiency => "Efici\U{ea}ncia de M\U{e3}o-de-Obra"
    case PriceProtection => "Prote\U{e7}\U{e3}o de Pre\U{e7}o"
    case VolumeDiscount => "Desconto de Volume"
    case DataQuality => "Qualidade de Dados"
  }

  /** A recommendation: its category, its priority and what it may save (its wording is not modelled). */
  datatype Recommendation = Recommendation(category: Category, priority: string, savings: Savings)

  /** The number of lines whose correlation confidence is below 0.5. */
  function LowConfidenceCount(lines: seq<LineItem>): (n: nat)
    ensures n <= |lines|
    decreases |lines|
  {
    if lines == [] then 0
    else LowConfidenceCount(lines[..|lines| - 1]) + (if lines[|lines| - 1].correlationConfidence < 0.5 then 1 else 0)
  }

  /** Some line is counted exactly when some line has a confidence below 0.5. */
  lemma {:induction false} LowConfidenceCountPositive(lines: seq<LineItem>)
    ensures LowConfidenceCount(lines) > 0 <==> exists k :: 0 <= k < |lines| && lines[k].correlationConfidence < 0.5
    decreases |lines|
  {
    if lines != [] {
      var init := lines[..|lines| - 1];
      LowConfidenceCountPositive(init);
      if exists k :: 0 <= k < |init| && init[k].correlationConfidence < 0.5 {
        var k :| 0 <= k < |init| && init[k].correlationConfidence < 0.5;
        assert lines[k] == init[k];
      }
      if exists k :: 0 <= k < |lines| && lines[k].correlationConfidence < 0.5 {
        var k :| 0 <= k < |lines| && lines[k].correlationConfidence < 0.5;
        if k < |init| {
          assert init[k] == lines[k];
        }
      }
    }
  }

  /** The labour cost per unit, the total quantity counting as at least one. */
  function LaborPerUnit(s: BudgetSummary): real {
    s.laborTotal / Max(s.totalQuantity, 1) as real
  }

  /** A recommendation made only when its condition holds. */
  function When(condition: bool, r: Recommendation): seq<Recommendation> {
    if condition then [r] else []
  }

  /** The recommendations for a summary and its lines, in the order they are made. */
  function Recommendations(s: BudgetSummary, lines: seq<LineItem>): seq<Recommendation> {
    When(s.wastePercentageApplied > 12.0, Recommendation(MaterialOptimisation, "high", Amount(s.wasteCost * 0.3)))
    + When(LaborPerUnit(s) > 15.0, Recommendation(LaborEfficiency, "medium", Amount(s.laborTotal * 0.2)))
    + [Recommendation(PriceProtection, "low", Variable)]
    + When(s.totalWeightKg > 1000.0, Recommendation(VolumeDiscount, "medium", Amount(s.rawMaterialTotal * 0.06)))
    + When(LowConfidenceCount(lines) > 0, Recommendation(DataQuality, "high", NotApplicable))
  }

  /** Whether some recommendation is of a category. */
  predicate Recommends(rs: seq<Recommendation>, category: Category) {
    exists r :: r in rs && r.category == category
  }

  /** A category is recommended in a concatenation exactly when it is in one of the parts. */
  lemma RecommendsAppend(a: seq<Recommendation>, b: seq<Recommendation>, category: Category)
    ensures Recommends(a + b, category) <==> Recommends(a, category) || Recommends(b, category)
  {
    if Recommends(a + b, category) {
      var r :| r in a + b && r.category == category;
      assert r in a || r in b;
    }
    if Recommends(a, category) {
      var r :| r in a && r.category == category;
      assert r in a + b;
    }
    if Recommends(b, category) {
      var r :| r in b && r.category == category;
      assert r in a + b;
    }
  }

  /** The category of the recommendation, and only it, is recommended when the condition holds. */
  lemma RecommendsWhen(condition: bool, r: Recommendation, category: Category)
    ensures Recommends(When(condition, r), category) <==> condition && r.category == category
  {
    if condition && r.category == category {
      assert r in When(condition, r);
    }
  }

  /** A category is recommended in five parts put together exactly when it is in one of them. */
  lemma RecommendsFive(a: seq<Recommendation>, b: seq<Recommendation>, c: seq<Recommendation>,
                       d: seq<Recommendation>, e: seq<Recommendation>, category: Category)
    ensures Recommends(a + b + c + d + e, category) <==>
              Recommends(a, category) || Recommends(b, category) || Recommends(c, category)
              || Recommends(d, category) || Recommends(e, category)
  {
    RecommendsAppend(a, b, category);
    RecommendsAppend(a + b, c, category);
    RecommendsAppend(a + b + c, d, category);
    RecommendsAppend(a + b + c + d, e, category);
  }

  /** The condition under which a category is recommended. */
  predicate Warranted(s: BudgetSummary, lines: seq<LineItem>, category: Category) {
    match category
    case MaterialOptimisation => s.wastePercentageApplied > 12.0
    case LaborEfficiency => LaborPerUnit(s) > 15.0
    case PriceProtection => true
    case VolumeDiscount => s.totalWeightKg > 1000.0
    case DataQuality => LowConfidenceCount(lines) > 0
  }

  /** A category is recommended exactly when its condition holds. */
  lemma RecommendsParts(s: BudgetSummary, lines: seq<LineItem>, category: Category)
    ensures Recommends(Recommendations(s, lines), category) <==> Warranted(s, lines, category)
  {
    var ra := Recommendation(MaterialOptimisation, "high", Amount(s.wasteCost * 0.3));
    var rb := Recommendation(LaborEfficiency, "medium", Amount(s.laborTotal * 0.2));
    var rc := Recommendation(PriceProtection, "low", Variable);
    var rd := Recommendation(VolumeDiscount, "medium", Amount(s.rawMaterialTotal * 0.06));
    var re := Recommendation(DataQuality, "high", NotApplicable);
    RecommendsFive(When(s.wastePercentageApplied > 12.0, ra), When(LaborPerUnit(s) > 15.0, rb), [rc],
                   When(s.totalWeightKg > 1000.0, rd), When(LowConfidenceCount(lines) > 0, re), category);
    RecommendsWhen(s.wastePercentageApplied > 12.0, ra, category);
    RecommendsWhen(LaborPerUnit(s) > 15.0, rb, category);
    RecommendsWhen(true, rc, category);
    RecommendsWhen(s.totalWeightKg > 1000.0, rd, category);
    RecommendsWhen(LowConfidenceCount(lines) > 0, re, category);
  }

  /** Every category is recommended exactly when its condition holds. */
  lemma RecommendationsWarranted(s: BudgetSummary, lines: seq<LineItem>)
    ensures forall category :: Recommends(Recommendations(s, lines), category) <==> Warranted(s, lines, category)
  {
    forall category {
      RecommendsParts(s, lines, category);
    }
  }

  /** There are between one and five recommendations, the price protection, with a variable saving, always among them. */
  lemma RecommendationCount(s: BudgetSummary, lines: seq<LineItem>)
    ensures var rs := Recommendations(s, lines);
            && 1 <= |rs| <= 5 && Recommendation(PriceProtection, "low", Variable) in rs
  {
    var rs := Recommendations(s, lines);
    var n := if s.wastePercentageApplied > 12.0 then 1 else 0;
    var m := if LaborPerUnit(s) > 15.0 then 1 else 0;
    assert rs[n + m] == Recommendation(PriceProtection, "low", Variable);
  }

  /**
   * Each optional recommendation is made exactly when its condition holds:
   * material optimisation for waste above 12%, labour efficiency for more
   * than 15 euros of labour per unit, volume discount above 1000 kg, data
   * quality when some line's confidence is below 0.5.
   */
  lemma RecommendationConditions(s: BudgetSummary, lines: seq<LineItem>)
    ensures var rs := Recommendations(s, lines);
            && (Recommends(rs, MaterialOptimisation) <==> s.wastePercentageApplied > 12.0)
            && (Recommends(rs, LaborEfficiency) <==> LaborPerUnit(s) > 15.0)
            && (Recommends(rs, VolumeDiscount) <==> s.totalWeightKg > 1000.0)
            && (Recommends(rs, DataQuality) <==> exists k :: 0 <= k < |lines| && lines[k].correlationConfidence < 0.5)
  {
    LowConfidenceCountPositive(lines);
    RecommendsParts(s, lines, MaterialOptimisation);
    RecommendsParts(s, lines, LaborEfficiency);
    RecommendsParts(s, lines, VolumeDiscount);
    RecommendsParts(s, lines, DataQuality);
  }

  // ---------------------------------------------------------------- `calculate_quick_estimate`

  /** The result of the quick estimate. */
  datatype QuickEstimate = QuickEstimate(estimatedTotal: real, pricePerKg: real, complexityFactor: real)

  /** `complexity_factors.get(complexity, 1.5)` */
  function ComplexityFactor(complexity: string): real {
    match complexity
    case "low" => 1.0
    case "medium" => 1.5
    case "high" => 2.0
    case _ => 1.5
  }

  /** The estimate at ten euros per kg times the complexity factor. */
  function CalculateQuickEstimate(weightKg: real, complexity: string): QuickEstimate {
    var factor := ComplexityFactor(complexity);
    var baseRate := 10.0 * factor;
    QuickEstimate(weightKg * baseRate, baseRate, factor)
  }

  /**
   * The estimate is the weight at the price per kg, which lies between 10
   * and 20 euros; an unknown complexity counts as medium, and for a
   * non-negative weight a higher complexity never costs less.
   */
  lemma QuickEstimateOrdered(weightKg: real, complexity: string)
    ensures var e := CalculateQuickEstimate(weightKg, complexity);
            && e.estimatedTotal == weightKg * e.pricePerKg
            && 10.0 <= e.pricePerKg <= 20.0
            && (complexity !in ["low", "medium", "high"] ==> e == CalculateQuickEstimate(weightKg, "medium"))
    ensures weightKg >= 0.0 ==>
              CalculateQuickEstimate(weightKg, "low").estimatedTotal
              <= CalculateQuickEstimate(weightKg, "medium").estimatedTotal
              <= CalculateQuickEstimate(weightKg, "high").estimatedTotal
  {
  }
}
