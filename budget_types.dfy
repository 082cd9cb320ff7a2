/**
 * The records the quote engine reads and writes: the pricing parameters,
 * the DXF and PDF analyses it is given (as the dictionaries the two
 * extractors report), the correlations it builds, the priced budget lines
 * and the budget summary.
 */
module BudgetTypes {
  import opened Wrappers
  import Pdf
  import Dxf

  /** `PricingParameters`: market prices, treatment rates, labour times and the waste, overhead and margin percentages. */
  datatype PricingParameters = PricingParameters(
    lmePriceUsdKg: real, lmeHedgingBufferPct: real, billetPremiumUsdKg: real,
    alloy6063PremiumPct: real, alloy6060PremiumPct: real, alloy6082PremiumPct: real,
    anodizingNaturalEurM2: real, anodizingColoredEurM2: real, powderCoatingStandardEurM2: real,
    powderCoatingQualicoatEurM2: real, powderCoatingSeasideEurM2: real,
    laborRateEurHr: real, cuttingTimeMins: real, machiningTimePerHoleMins: real,
    assemblyTimePerComponentMins: real, baseWasteFactorPct: real, complexityWasteFactorPct: real,
    overheadFactorPct: real, profitMarginPct: real, eurToUsd: real)

  /** The defaults of `PricingParameters()`. */
  const DefaultParameters := PricingParameters(
    2.35, 5.0, 0.45,
    0.0, 2.0, 8.0,
    12.0, 18.0, 15.0,
    22.0, 35.0,
    35.0, 2.0, 5.0,
    8.0, 8.0, 4.0,
    15.0, 20.0, 1.08)

  /** A DXF profile as `ProfileData.to_dict` reports it: the keys the budget reads. */
  datatype ProfileRecord = ProfileRecord(
    profileId: string, layer: string, entityType: string,
    perimeterMm: real, areaMm2: real, lengthMm: real,
    bboxWidth: real, bboxHeight: real,
    weightKg: real, complexityScore: real,
    featureTypes: seq<string>, materialHint: Option<string>, quantity: int)

  /** `dxf_data`: the success flag, the profiles and the material quantities. */
  datatype DxfAnalysis = DxfAnalysis(success: bool, profiles: seq<ProfileRecord>, materialQuantities: seq<Dxf.MaterialQuantity>)

  /** An entry of `dimension_specs`; a key the entry does not carry reads as `""`. */
  datatype DimensionSpec = DimensionSpec(raw: string, dimensions: string)

  /** `pdf_data`: the success flag, the BOM items, the constraints and the dimension entries. */
  datatype PdfAnalysis = PdfAnalysis(
    success: bool, bomItems: seq<Pdf.BomItem>, constraints: seq<Pdf.TechnicalConstraint>,
    dimensionSpecs: seq<DimensionSpec>)

  /** The indexes `_build_pdf_lookup` builds over the BOM items. */
  datatype PdfLookup = PdfLookup(
    byReference: seq<(string, Pdf.BomItem)>, byDescription: seq<(string, Pdf.BomItem)>,
    allItems: seq<Pdf.BomItem>)

  /** An entry of `specs["constraints"]`: a high-importance constraint. */
  datatype SpecConstraint = SpecConstraint(constraintType: string, value: string, context: string)

  /** `specifications`: what a correlation says about material, finish and thickness; a missing key reads as `None`. */
  datatype Specs = Specs(
    material: Option<string>, finish: Option<string>, thicknessMm: Option<real>,
    certifications: seq<string>, constraints: seq<SpecConstraint>)

  const NoSpecs := Specs(None, None, None, [], [])

  /** One correlation: where the quantity comes from, which PDF row gave the specifications, and how sure the match is. */
  datatype Correlation = Correlation(
    dxfProfile: Option<ProfileRecord>, materialQuantity: Option<Dxf.MaterialQuantity>,
    pdfItem: Option<Pdf.BomItem>, confidence: real, correlationMethod: string, quantitySource: string,
    specs: Specs)

  /** `BudgetLineItem` */
  datatype LineItem = LineItem(
    lineId: int, reference: string, description: string, quantity: int,
    quantitySource: string, specsSource: string,
    profileId: Option<string>, perimeterMm: real, areaMm2: real, lengthMm: real,
    weightKg: real, complexityScore: real, holesCount: int, entityType: string,
    material: Option<string>, finish: Option<string>, thicknessMm: Option<real>,
    rawMaterialCost: real, transformationCost: real, surfaceTreatmentCost: real,
    laborCost: real, accessoriesCost: real,
    unitCost: real, totalCost: real,
    correlationConfidence: real, correlationMethod: string, notes: string)

  /** `BudgetSummary` */
  datatype BudgetSummary = BudgetSummary(
    projectName: string, createdAt: string,
    hasDxf: bool, hasPdf: bool, dxfFilesCount: int, pdfFilesCount: int,
    totalProfiles: int, totalQuantity: int, totalWeightKg: real, totalLengthMm: real,
    rawMaterialTotal: real, transformationTotal: real, surfaceTreatmentTotal: real,
    laborTotal: real, accessoriesTotal: real,
    wasteCost: real, overheadCost: real, subtotal: real, profitMargin: real, totalQuote: real,
    wastePercentageApplied: real, averageComplexity: real, estimatedProductionHours: real)

  /** An entry of `correlation_log`. */
  datatype LogEntry =
    | UsingDxfAsPrimary(dxfProfiles: nat, dxfMaterials: nat)
    | UsingPdfAsFallback(pdfItems: nat)
    | CreatingFallbackItems
}
