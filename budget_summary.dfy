/**
 * The budget summary: line totals, the waste allowance driven by the
 * average complexity, overhead and margin on top of the direct costs, and
 * the production hours.
 */
module Summary {
  import opened Numerals
  import opened Folds
  import opened BudgetTypes
  import Pricer

  function RawOf(l: LineItem): real { l.rawMaterialCost }
  function TransformationOf(l: LineItem): real { l.transformationCost }
  function SurfaceOf(l: LineItem): real { l.surfaceTreatmentCost }
  function LaborOf(l: LineItem): real { l.laborCost }
  function AccessoriesOf(l: LineItem): real { l.accessoriesCost }
  function TotalOf(l: LineItem): real { l.totalCost }
  function ComplexityOf(l: LineItem): real { l.complexityScore }
  function QuantityOf(l: LineItem): int { l.quantity }
  function WeightOf(l: LineItem): real { l.weightKg * l.quantity as real }
  function LengthOf(l: LineItem): real { l.lengthMm * l.quantity as real }

  /** The mean complexity of the lines; `0.0`, the field's default, when there are none. */
  function AverageComplexity(lines: seq<LineItem>): real {
    if |lines| > 0 then Sum(lines, ComplexityOf) / |lines| as real else 0.0
  }

  /** The waste percentage: base plus the complexity surcharge, capped at 20%. */
  function WastePercentage(p: PricingParameters, averageComplexity: real): (pct: real)
    ensures pct <= 20.0
    ensures pct == 20.0 || pct == p.baseWasteFactorPct + (averageComplexity - 1.0) * p.complexityWasteFactorPct
    ensures pct <= p.baseWasteFactorPct + (averageComplexity - 1.0) * p.complexityWasteFactorPct
  {
    MinReal(p.baseWasteFactorPct + (averageComplexity - 1.0) * p.complexityWasteFactorPct, 20.0)
  }

  /** The direct costs of a summary: the five cost totals and the waste. */
  function DirectCosts(s: BudgetSummary): real {
    s.rawMaterialTotal + s.transformationTotal + s.surfaceTreatmentTotal + s.laborTotal + s.accessoriesTotal + s.wasteCost
  }

  /** `_calculate_summary` */
  function Summarize(lines: seq<LineItem>, p: PricingParameters, projectName: string, createdAt: string,
                     hasDxf: bool, hasPdf: bool): (s: BudgetSummary)
    requires p.laborRateEurHr != 0.0
    ensures s.totalProfiles == |lines| && s.projectName == projectName && s.createdAt == createdAt
    ensures s.hasDxf == hasDxf && s.hasPdf == hasPdf
    ensures s.dxfFilesCount == (if hasDxf then 1 else 0) && s.pdfFilesCount == (if hasPdf then 1 else 0)
    ensures s.wastePercentageApplied <= 20.0
  {
    var raw := Sum(lines, RawOf);
    var transformation := Sum(lines, TransformationOf);
    var surface := Sum(lines, SurfaceOf);
    var labor := Sum(lines, LaborOf);
    var accessories := Sum(lines, AccessoriesOf);
    var average := AverageComplexity(lines);
    var wastePct := WastePercentage(p, average);
    var waste := raw * (wastePct / 100.0);
    var direct := raw + transformation + surface + labor + accessories + waste;
    var overhead := direct * (p.overheadFactorPct / 100.0);
    var subtotal := direct + overhead;
    var margin := subtotal * (p.profitMarginPct / 100.0);
    BudgetSummary(
      projectName, createdAt, hasDxf, hasPdf, if hasDxf then 1 else 0, if hasPdf then 1 else 0,
      |lines|, SumInt(lines, QuantityOf), Sum(lines, WeightOf), Sum(lines, LengthOf),
      raw, transformation, surface, labor, accessories,
      waste, overhead, subtotal, margin, subtotal + margin,
      wastePct, average, labor / p.laborRateEurHr)
  }

  /**
   * The quote is the direct costs marked up by the overhead and then by the
   * margin, the waste is its percentage of the material, and the production
   * hours are the labour cost at the labour rate.
   */
  lemma QuoteChain(lines: seq<LineItem>, p: PricingParameters, projectName: string, createdAt: string,
                   hasDxf: bool, hasPdf: bool)
    requires p.laborRateEurHr != 0.0
    ensures var s := Summarize(lines, p, projectName, createdAt, hasDxf, hasPdf);
            && s.wasteCost == s.rawMaterialTotal * (s.wastePercentageApplied / 100.0)
            && s.subtotal == DirectCosts(s) * (1.0 + p.overheadFactorPct / 100.0)
            && s.totalQuote == s.subtotal * (1.0 + p.profitMarginPct / 100.0)
            && s.estimatedProductionHours * p.laborRateEurHr == s.laborTotal
  {
    var s := Summarize(lines, p, projectName, createdAt, hasDxf, hasPdf);
    MarkUp(DirectCosts(s), p.overheadFactorPct, s.overheadCost, s.subtotal);
    MarkUp(s.subtotal, p.profitMarginPct, s.profitMargin, s.totalQuote);
    DivideBackReal(s.laborTotal, p.laborRateEurHr, s.estimatedProductionHours);
  }

  /** Adding `pct`% of a base to the base multiplies it by `1 + pct/100`. */
  lemma MarkUp(base: real, pct: real, extra: real, total: real)
    requires extra == base * (pct / 100.0) && total == base + extra
    ensures total == base * (1.0 + pct / 100.0)
  {
  }

  lemma DivideBackReal(s: real, r: real, u: real)
    requires r != 0.0 && u == s / r
    ensures u * r == s
  {
  }

  /** With non-negative costs and percentages, the quote covers the direct costs. */
  lemma QuoteCoversDirectCosts(lines: seq<LineItem>, p: PricingParameters, projectName: string, createdAt: string,
                               hasDxf: bool, hasPdf: bool)
    requires p.laborRateEurHr != 0.0
    requires p.overheadFactorPct >= 0.0 && p.profitMarginPct >= 0.0
    requires DirectCosts(Summarize(lines, p, projectName, createdAt, hasDxf, hasPdf)) >= 0.0
    ensures var s := Summarize(lines, p, projectName, createdAt, hasDxf, hasPdf);
            DirectCosts(s) <= s.subtotal <= s.totalQuote
  {
    var s := Summarize(lines, p, projectName, createdAt, hasDxf, hasPdf);
    NonNegativeShare(DirectCosts(s), p.overheadFactorPct);
    NonNegativeShare(s.subtotal, p.profitMarginPct);
  }

  lemma NonNegativeShare(base: real, pct: real)
    requires base >= 0.0 && pct >= 0.0
    ensures base * (pct / 100.0) >= 0.0
  {
  }

  /** The five cost totals of lines that each add up sum to the lines' totals. */
  lemma {:induction false} TotalsAddUp(lines: seq<LineItem>)
    requires forall i :: 0 <= i < |lines| ==> Pricer.AddsUp(lines[i])
    ensures Sum(lines, RawOf) + Sum(lines, TransformationOf) + Sum(lines, SurfaceOf) + Sum(lines, LaborOf)
            + Sum(lines, AccessoriesOf) == Sum(lines, TotalOf)
    decreases |lines|
  {
    if lines != [] {
      TotalsAddUp(lines[..|lines| - 1]);
    }
  }

  /**
   * When every line adds up (as priced lines do), the direct costs are the
   * sum of the line totals plus the waste allowance.
   */
  lemma DirectCostsOfSettledLines(lines: seq<LineItem>, p: PricingParameters, projectName: string, createdAt: string,
                                  hasDxf: bool, hasPdf: bool)
    requires p.laborRateEurHr != 0.0
    requires forall i :: 0 <= i < |lines| ==> Pricer.AddsUp(lines[i])
    ensures var s := Summarize(lines, p, projectName, createdAt, hasDxf, hasPdf);
            DirectCosts(s) == Sum(lines, TotalOf) + s.wasteCost
  {
    TotalsAddUp(lines);
  }

  /** A budget without lines quotes nothing, with an average complexity of zero. */
  lemma EmptyBudget(p: PricingParameters, projectName: string, createdAt: string, hasDxf: bool, hasPdf: bool)
    requires p.laborRateEurHr != 0.0
    ensures var s := Summarize([], p, projectName, createdAt, hasDxf, hasPdf);
            s.totalQuote == 0.0 && s.totalQuantity == 0 && s.averageComplexity == 0.0
            && s.wastePercentageApplied == MinReal(p.baseWasteFactorPct - p.complexityWasteFactorPct, 20.0)
  {
  }
}
