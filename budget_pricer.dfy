/**
 * Pricing one budget line: the steel catalogue route (a profile
 * designation recognised in the line's texts and found in the catalogue,
 * priced per metre) and, when that fails, the aluminium formula (weight
 * estimated from the geometry, then material, extrusion, surface treatment,
 * labour and accessories).
 */
module Pricer {
  import opened Wrappers
  import opened Strings
  import opened Numerals
  import opened Dicts
  import opened Patterns
  import opened CostCatalog
  import opened Folds
  import opened BudgetTypes

  // ---------------------------------------------------------------- the catalogue route

  /** `[...]` matching exactly one character of the class. */
  function One(cls: CharClass): Atom { Between(cls, 1, 1) }

  const DigitOrPoint := Union(Digit, Chars("."))

  /** The steel designations `_try_calculate_from_cost_db` recognises, in the order it tries them. */
  const ProfilePatterns: seq<Pattern> :=
    [
    Lit("IPE") + [Star(Space), Plus(Digit)],
    Lit("HEB") + [Star(Space), Plus(Digit)],
    Lit("HEA") + [Star(Space), Plus(Digit)],
    Lit("UPN") + [Star(Space), Plus(Digit)],
    Lit("RHS") + [Star(Space), Plus(Digit), One(Chars("xX")), Plus(Digit), One(Chars("xX")), Plus(Digit)],
    Lit("SHS") + [Star(Space), Plus(Digit), One(Chars("xX")), Plus(Digit), One(Chars("xX")), Plus(Digit)],
    Lit("TUBO") + [Plus(Space)] + Lit("RED")
      + [Plus(Union(Chars("."), Space)), Plus(DigitOrPoint), One(Chars("*xX")), Plus(DigitOrPoint)],
    Lit("MADRE") + [Plus(Space), One(Chars("CZ")), Plus(Space), Plus(Digit)],
    Lit("OMEGA") + [Star(Space), Plus(Digit)],
    Lit("CHAPA") + [Plus(Space)] + Lit("PRETA") + [Plus(Space), Plus(Digit)] + Lit("MM")
    ]

  /** `re.search(pattern, s)` finds something. */
  function OccursIn(s: string): Pattern -> bool {
    (p: Pattern) => SearchText(p, s).Some?
  }

  /** The text matched by the first pattern, in order, that occurs in `s`. */
  function FirstPatternMatch(pats: seq<Pattern>, s: string): (r: Option<string>)
    ensures r.None? <==> forall i :: 0 <= i < |pats| ==> SearchText(pats[i], s).None?
    ensures r.Some? ==> exists i :: 0 <= i < |pats| && SearchText(pats[i], s) == r
                                    && forall j :: 0 <= j < i ==> SearchText(pats[j], s).None?
  {
    var i := FirstWhere(pats, OccursIn(s), 0);
    if i.Some? then SearchText(pats[i.value], s) else None
  }

  /** `[line.description, line.reference, line.profile_id or ""]` */
  function SearchTerms(line: LineItem): seq<string> {
    [line.description, line.reference, OrElse(line.profileId, "")]
  }

  /** A non-empty term whose upper-cased text contains a designation. */
  function NamesDesignation(pats: seq<Pattern>): string -> bool {
    (t: string) => t != "" && FirstPatternMatch(pats, Upper(t)).Some?
  }

  /**
   * The designation the search loops settle on: the first non-empty term
   * (in order) whose upper-cased text contains a designation, and in it the
   * first pattern that occurs.
   */
  function Designation(pats: seq<Pattern>, terms: seq<string>): (r: Option<string>)
    ensures r.None? <==> forall i :: 0 <= i < |terms| && terms[i] != "" ==> FirstPatternMatch(pats, Upper(terms[i])).None?
    ensures r.Some? ==> exists i :: 0 <= i < |terms| && terms[i] != "" && FirstPatternMatch(pats, Upper(terms[i])) == r
                                    && forall j :: 0 <= j < i && terms[j] != "" ==> FirstPatternMatch(pats, Upper(terms[j])).None?
  {
    var i := FirstWhere(terms, NamesDesignation(pats), 0);
    if i.Some? then FirstPatternMatch(pats, Upper(terms[i.value])) else None
  }

  /** A match of a pattern whose first atom needs at least one character takes at least that many characters. */
  lemma {:induction false} TryCountAdvances(p: Pattern, s: string, i: nat, k: nat)
    requires p != [] && i + k <= |s| && p[0].min <= k
    requires TryCount(p, s, i, k).Some?
    ensures TryCount(p, s, i, k).value >= i + p[0].min
    decreases k
  {
    if MatchAt(p[1..], s, i + k).None? {
      TryCountAdvances(p, s, i, k - 1);
    }
  }

  /** A match of a pattern whose first atom takes at least one non-blank character starts with a non-blank. */
  lemma SearchTextNonEmpty(p: Pattern, s: string)
    requires p != [] && p[0].min >= 1 && forall c :: InClass(c, p[0].cls) ==> !IsSpace(c)
    requires SearchText(p, s).Some?
    ensures SearchText(p, s).value != "" && !IsSpace(SearchText(p, s).value[0])
  {
    var (b, e) := Search(p, s).value;
    TryCountAdvances(p, s, b, Greedy(p[0], s, b));
    assert |s[b..e]| == e - b;
    assert InClass(s[b], p[0].cls);
    assert s[b..e][0] == s[b];
  }

  /** Every designation pattern starts with a letter that must be there. */
  lemma PatternsStartWithLiteral()
    ensures StartWithLiteral(ProfilePatterns)
  {
  }

  /** Every pattern needs at least one non-blank character for its first atom. */
  predicate StartWithLiteral(pats: seq<Pattern>) {
    forall i :: 0 <= i < |pats| ==>
      && pats[i] != [] && pats[i][0].min >= 1
      && forall c :: InClass(c, pats[i][0].cls) ==> !IsSpace(c)
  }

  /** A designation starts with a non-blank, so the catalogue is never searched for a blank name. */
  lemma DesignationNonEmpty(pats: seq<Pattern>, terms: seq<string>)
    requires StartWithLiteral(pats) && Designation(pats, terms).Some?
    ensures Designation(pats, terms).value != "" && !IsSpace(Designation(pats, terms).value[0])
  {
    var i :| 0 <= i < |terms| && terms[i] != "" && FirstPatternMatch(pats, Upper(terms[i])) == Designation(pats, terms);
    var s := Upper(terms[i]);
    var j :| 0 <= j < |pats| && SearchText(pats[j], s) == FirstPatternMatch(pats, s);
    SearchTextNonEmpty(pats[j], s);
  }

  /** `length_m`: the line length in metres, one metre when the line has no length. */
  function LengthMeters(line: LineItem): real {
    if line.lengthMm > 0.0 then line.lengthMm / 1000.0 else 1.0
  }

  /** The note a catalogue-priced line carries before the profile's designation. */
  const CatalogNotePrefix: string := "Custos FLYSTEEL: "

  /** The line priced from the catalogue cost `c` of its length, times the quantity (at least one). */
  function CatalogPriced(line: LineItem, c: ProfileCost): LineItem {
    var qty := Max(1, line.quantity) as real;
    line.(weightKg := c.weightKg,
          rawMaterialCost := c.costMaterial * qty,
          transformationCost := c.costFabrication * qty,
          surfaceTreatmentCost := c.costPainting * qty,
          laborCost := (c.costAssembly + c.costLifting) * qty,
          accessoriesCost := (c.costConsumables + c.costTransport) * qty,
          unitCost := c.totalCost,
          totalCost := c.totalCost * qty,
          notes := CatalogNotePrefix + c.designation)
  }

  /**
   * `_try_calculate_from_cost_db`: `None` (the `False` return) without a
   * catalogue, without a designation, or when the catalogue has no such
   * profile; otherwise the line priced from the catalogue.
   */
  function CatalogPrice(catalog: Option<Dict<SteelProfile>>, line: LineItem): Option<LineItem> {
    if catalog.None? then None
    else
      var name := Designation(ProfilePatterns, SearchTerms(line));
      if name.None? then None
      else
        var profile := FindProfileStrict(catalog.value, name.value);
        if profile.None? then None
        else Some(CatalogPriced(line, profile.value.CalculateCost(LengthMeters(line))))
  }

  /**
   * The designation found in a line is never empty, so the lookup never takes
   * the empty-name path of `find_profile`: the guarded search and the search
   * as written find the same profile for it.
   */
  lemma LineDesignationNonEmpty(line: LineItem, catalog: Dict<SteelProfile>)
    ensures var name := Designation(ProfilePatterns, SearchTerms(line));
            name.Some? ==> name.value != "" && FindProfileStrict(catalog, name.value) == FindProfileIn(catalog, name.value)
  {
    var name := Designation(ProfilePatterns, SearchTerms(line));
    if name.Some? {
      PatternsStartWithLiteral();
      DesignationNonEmpty(ProfilePatterns, SearchTerms(line));
      NormalizeProfileNameNonEmpty(name.value, 0);
    }
  }

  /** The five cost components of a line add up to its total. */
  predicate AddsUp(r: LineItem) {
    r.totalCost == r.rawMaterialCost + r.transformationCost + r.surfaceTreatmentCost + r.laborCost + r.accessoriesCost
  }

  /** A line of `q` units is settled: its components add up to its total, which is `q` times its unit cost. */
  predicate Settled(r: LineItem, q: int) {
    AddsUp(r) && r.totalCost == r.unitCost * q as real
  }

  /** The seven components of a catalogue cost add up to its total. */
  predicate CostAddsUp(c: ProfileCost) {
    c.totalCost == c.costMaterial + c.costFabrication + c.costAssembly + c.costPainting
                   + c.costLifting + c.costConsumables + c.costTransport
  }

  /**
   * The catalogue cost of a line's length: a positive length (one metre
   * when the line has none), the weight of that length of the profile, its
   * cost at the cost of one metre, and seven components adding up to it.
   */
  lemma CatalogCostFacts(line: LineItem, profile: SteelProfile)
    ensures var len := LengthMeters(line);
            var c := profile.CalculateCost(len);
            && len > 0.0
            && (line.lengthMm <= 0.0 ==> len == 1.0)
            && (line.lengthMm > 0.0 ==> len * 1000.0 == line.lengthMm)
            && c.weightKg == len * profile.weightPerMeter
            && c.totalCost == len * UnitCost(profile)
            && c.designation == profile.designation
            && CostAddsUp(c)
  {
    CostIsLinear(profile, LengthMeters(line));
  }

  /**
   * A catalogue-priced line: the unit cost is the catalogue cost of the
   * length, the total is the unit cost times the quantity (at least one) and
   * splits into the five components, the note names the profile, and nothing
   * but the weight, the costs and the note changes.
   */
  lemma CatalogPricedFacts(line: LineItem, c: ProfileCost)
    requires CostAddsUp(c)
    ensures var r := CatalogPriced(line, c);
            && r.weightKg == c.weightKg && r.unitCost == c.totalCost
            && Settled(r, Max(1, line.quantity))
            && r.notes == CatalogNotePrefix + c.designation
            && r.(weightKg := line.weightKg, rawMaterialCost := line.rawMaterialCost,
                  transformationCost := line.transformationCost, surfaceTreatmentCost := line.surfaceTreatmentCost,
                  laborCost := line.laborCost, accessoriesCost := line.accessoriesCost,
                  unitCost := line.unitCost, totalCost := line.totalCost, notes := line.notes) == line
  {
    SevenParts(c.costMaterial, c.costFabrication, c.costAssembly, c.costPainting, c.costLifting,
               c.costConsumables, c.costTransport, c.totalCost, Max(1, line.quantity) as real);
  }

  /** Multiplying the seven catalogue parts by the quantity and regrouping them into five keeps the sum. */
  lemma SevenParts(cm: real, cf: real, ca: real, cp: real, cl: real, cc: real, ct: real, total: real, q: real)
    requires total == cm + cf + ca + cp + cl + cc + ct
    ensures total * q == cm * q + cf * q + cp * q + (ca + cl) * q + (cc + ct) * q
  {
  }

  // ---------------------------------------------------------------- the formula route

  const AluminumDensityKgM3: real := 2700.0

  /** `(effective_lme + billet_premium) / eur_to_usd`: the aluminium price per kg in euros. */
  function MaterialPricePerKg(p: PricingParameters): real
    requires p.eurToUsd != 0.0
  {
    (p.lmePriceUsdKg * (1.0 + p.lmeHedgingBufferPct / 100.0) + p.billetPremiumUsdKg) / p.eurToUsd
  }

  /** `treatment_rates.get(surface_treatment, powder_coating_standard)` */
  function TreatmentRate(p: PricingParameters, treatment: string): real {
    match treatment
    case "anodizing_natural" => p.anodizingNaturalEurM2
    case "anodizing_colored" => p.anodizingColoredEurM2
    case "powder_coating_standard" => p.powderCoatingStandardEurM2
    case "powder_coating_qualicoat" => p.powderCoatingQualicoatEurM2
    case "powder_coating_seaside" => p.powderCoatingSeasideEurM2
    case "none" => 0.0
    case _ => p.powderCoatingStandardEurM2
  }

  const KnownTreatments: seq<string> := [
    "anodizing_natural", "anodizing_colored", "powder_coating_standard",
    "powder_coating_qualicoat", "powder_coating_seaside", "none"]

  /** An unknown treatment is priced as standard powder coating; `"none"` costs nothing. */
  lemma TreatmentRateDefault(p: PricingParameters, treatment: string)
    ensures treatment !in KnownTreatments ==> TreatmentRate(p, treatment) == p.powderCoatingStandardEurM2
    ensures treatment == "none" ==> TreatmentRate(p, treatment) == 0.0
    ensures p.anodizingNaturalEurM2 >= 0.0 && p.anodizingColoredEurM2 >= 0.0 && p.powderCoatingStandardEurM2 >= 0.0
            && p.powderCoatingQualicoatEurM2 >= 0.0 && p.powderCoatingSeasideEurM2 >= 0.0
            ==> TreatmentRate(p, treatment) >= 0.0
  {
  }

  /** `line.thickness_mm or 2.0` */
  function Thickness(line: LineItem): real {
    if PresentReal(line.thicknessMm) then line.thicknessMm.value else 2.0
  }

  /** The weight, in kg, of `volumeMm3` cubic millimetres of aluminium. */
  function AluminumWeight(volumeMm3: real): real {
    volumeMm3 / 1000000000.0 * AluminumDensityKgM3
  }

  /**
   * The weight chain of `_calculate_line_costs`: a line without a weight gets
   * one from its area-bearing section, its perimeter, its length (0.5 kg/m,
   * with a perimeter of a tenth of the length) or, with no geometry at all,
   * one metre of a 0.5 kg/m profile.
   */
  function EstimatedGeometry(line: LineItem): (g: LineItem)
    ensures g.quantity == line.quantity && g.lineId == line.lineId && g.reference == line.reference
  {
    var t := Thickness(line);
    if line.weightKg <= 0.0 && line.areaMm2 > 0.0 then
      line.(weightKg := AluminumWeight(line.perimeterMm * t * MaxReal(line.lengthMm, 1000.0)))
    else if line.weightKg <= 0.0 && line.perimeterMm > 0.0 then
      line.(weightKg := AluminumWeight(line.perimeterMm * t * t))
    else if line.weightKg <= 0.0 && line.lengthMm > 0.0 then
      line.(weightKg := line.lengthMm / 1000.0 * 0.5, perimeterMm := line.lengthMm * 0.1)
    else if line.weightKg <= 0.0 then
      line.(weightKg := 0.5, lengthMm := 1000.0, perimeterMm := 100.0)
    else line
  }

  /**
   * The weight chain keeps a given weight, touches only weight, length and
   * perimeter, and yields a positive weight except when a line with an area
   * has no positive section (`perimeter·thickness`) to weigh.
   */
  lemma EstimatedGeometryFacts(line: LineItem)
    ensures var g := EstimatedGeometry(line);
            && (line.weightKg > 0.0 ==> g == line)
            && g.(weightKg := line.weightKg, lengthMm := line.lengthMm, perimeterMm := line.perimeterMm) == line
            && (line.weightKg > 0.0 || line.areaMm2 <= 0.0 || line.perimeterMm * Thickness(line) > 0.0 ==> g.weightKg > 0.0)
            && (line.weightKg <= 0.0 && line.areaMm2 <= 0.0 && line.perimeterMm <= 0.0 && line.lengthMm <= 0.0 ==>
                  g.weightKg == 0.5 && g.lengthMm == 1000.0 && g.perimeterMm == 100.0)
            && (g.lengthMm != line.lengthMm ==> g.lengthMm == 1000.0)
  {
    var t := Thickness(line);
    if line.weightKg <= 0.0 && line.areaMm2 > 0.0 && line.perimeterMm * t > 0.0 {
      PositiveWeight(line.perimeterMm * t, MaxReal(line.lengthMm, 1000.0));
    } else if line.weightKg <= 0.0 && line.areaMm2 <= 0.0 && line.perimeterMm > 0.0 {
      assert t != 0.0;
      SectionWeight(line.perimeterMm, t);
    }
  }

  /** A section of a positive perimeter and a non-zero thickness weighs something per unit length. */
  lemma SectionWeight(perimeter: real, t: real)
    requires perimeter > 0.0 && t != 0.0
    ensures AluminumWeight(perimeter * t * t) > 0.0
  {
    var pt := perimeter * t;
    if t > 0.0 {
      PosTimesPos(perimeter, t);
      PosTimesPos(pt, t);
    } else {
      PosTimesNeg(perimeter, t);
      NegTimesNeg(pt, t);
    }
    var w := pt * t;
    assert AluminumWeight(w) > 0.0;
  }

  /** Aluminium of a positive volume weighs something. */
  lemma PositiveWeight(a: real, b: real)
    requires a > 0.0 && b > 0.0
    ensures AluminumWeight(a * b) > 0.0
  {
    PosTimesPos(a, b);
  }

  lemma PosTimesPos(a: real, b: real)
    requires a > 0.0 && b > 0.0
    ensures a * b > 0.0
  {
  }

  lemma NegTimesNeg(a: real, b: real)
    requires a < 0.0 && b < 0.0
    ensures a * b > 0.0
  {
    PosTimesPos(-a, -b);
    assert a * b == (-a) * (-b);
  }

  lemma PosTimesNeg(a: real, b: real)
    requires a > 0.0 && b < 0.0
    ensures a * b < 0.0
  {
    PosTimesPos(a, -b);
    assert a * b == -(a * (-b));
  }

  /** The line priced by the formula, on the geometry the weight chain completes. */
  function FormulaPriced(p: PricingParameters, line: LineItem, treatment: string): (r: LineItem)
    requires p.eurToUsd != 0.0
    ensures line.quantity >= 1 ==> Settled(r, line.quantity)
    ensures r.accessoriesCost == 0.08 * r.rawMaterialCost
    ensures r.quantity == line.quantity && r.lineId == line.lineId && r.reference == line.reference
  {
    var g := EstimatedGeometry(line);
    var c := FormulaCosts(p, g, treatment);
    Settle(g, c.0, c.1, c.2, c.3)
  }

  /**
   * The material, extrusion, surface and labour costs of a weighed line:
   * weight at the material price, weight at 1.5 per complexity point,
   * treated area at the treatment rate, and the labour minutes at the
   * hourly rate, each for the whole quantity.
   */
  function FormulaCosts(p: PricingParameters, g: LineItem, treatment: string): (c: (real, real, real, real))
    requires p.eurToUsd != 0.0
    ensures g.weightKg == 0.0 ==> c.0 == 0.0 && c.1 == 0.0
  {
    var q := g.quantity as real;
    var raw := g.weightKg * MaterialPricePerKg(p) * q;
    var transformation := g.weightKg * (1.5 * g.complexityScore) * q;
    var surfaceM2 := g.perimeterMm * MaxReal(g.lengthMm, 1000.0) / 1000000.0;
    var surface := surfaceM2 * TreatmentRate(p, treatment) * q;
    var laborMins := (p.cuttingTimeMins + g.holesCount as real * p.machiningTimePerHoleMins
                      + (g.complexityScore - 1.0) * 5.0 + p.assemblyTimePerComponentMins) * q;
    var labor := laborMins / 60.0 * p.laborRateEurHr;
    (raw, transformation, surface, labor)
  }

  /** The line with four costs set, accessories at 8% of the material, and the unit and total costs derived. */
  function Settle(g: LineItem, raw: real, transformation: real, surface: real, labor: real): (r: LineItem)
    ensures g.quantity >= 1 ==> Settled(r, g.quantity)
    ensures r.rawMaterialCost == raw && r.accessoriesCost == 0.08 * raw
    ensures r.quantity == g.quantity && r.lineId == g.lineId && r.reference == g.reference
  {
    var accessories := raw * 0.08;
    var sum := raw + transformation + surface + labor + accessories;
    var unit := sum / Max(g.quantity, 1) as real;
    DivideBack(sum, g.quantity, unit);
    g.(rawMaterialCost := raw, transformationCost := transformation, surfaceTreatmentCost := surface,
       laborCost := labor, accessoriesCost := accessories, unitCost := unit, totalCost := unit * g.quantity as real)
  }

  /** The formula changes the costs and what the weight chain changes, nothing else. */
  lemma FormulaPricedFrame(p: PricingParameters, line: LineItem, treatment: string)
    requires p.eurToUsd != 0.0
    ensures var r := FormulaPriced(p, line, treatment);
            var g := EstimatedGeometry(line);
            r.(rawMaterialCost := g.rawMaterialCost, transformationCost := g.transformationCost,
               surfaceTreatmentCost := g.surfaceTreatmentCost, laborCost := g.laborCost,
               accessoriesCost := g.accessoriesCost, unitCost := g.unitCost, totalCost := g.totalCost) == g
  {
  }

  /** Dividing by the quantity (at least one) and multiplying back by it gives the sum back. */
  lemma DivideBack(s: real, q: int, u: real)
    requires u == s / Max(q, 1) as real
    ensures q >= 1 ==> u * q as real == s
  {
  }

  /** `_calculate_line_costs`: the catalogue route first, the formula only when it fails. */
  function PricedLine(p: PricingParameters, catalog: Option<Dict<SteelProfile>>, line: LineItem, treatment: string): LineItem
    requires p.eurToUsd != 0.0
  {
    PricedWith(p, CatalogPrice(catalog, line), line, treatment)
  }

  /** The line the catalogue priced, if it did, else the formula's. */
  function PricedWith(p: PricingParameters, fromCatalog: Option<LineItem>, line: LineItem, treatment: string): LineItem
    requires p.eurToUsd != 0.0
  {
    if fromCatalog.Some? then fromCatalog.value else FormulaPriced(p, line, treatment)
  }

  /** When the catalogue prices a line, it prices it at the cost of some profile's length. */
  lemma CatalogPriceShape(catalog: Option<Dict<SteelProfile>>, line: LineItem) returns (cost: ProfileCost)
    requires CatalogPrice(catalog, line).Some?
    ensures CostAddsUp(cost) && CatalogPrice(catalog, line).value == CatalogPriced(line, cost)
  {
    var profile := FindProfileStrict(catalog.value, Designation(ProfilePatterns, SearchTerms(line)).value).value;
    cost := profile.CalculateCost(LengthMeters(line));
    CatalogCostFacts(line, profile);
  }

  /**
   * Whatever the route, a priced line of at least one unit is settled (its
   * components add up to its total, the unit cost times the quantity) and
   * keeps its identity.
   */
  lemma PricedLineSettled(p: PricingParameters, catalog: Option<Dict<SteelProfile>>, line: LineItem, treatment: string)
    requires p.eurToUsd != 0.0 && line.quantity >= 1
    ensures var r := PricedLine(p, catalog, line, treatment);
            Settled(r, line.quantity) && r.quantity == line.quantity && r.lineId == line.lineId && r.reference == line.reference
  {
    var c := CatalogPrice(catalog, line);
    if c.Some? {
      var cost := CatalogPriceShape(catalog, line);
      PricedWithCatalog(p, c, line, treatment, cost);
    }
  }

  /**
   * A line the catalogue prices does not depend on the parameters or the
   * treatment; any other line is priced by the formula.
   */
  lemma PricedLineRoutes(p: PricingParameters, p': PricingParameters, catalog: Option<Dict<SteelProfile>>,
                         line: LineItem, treatment: string, treatment': string)
    requires p.eurToUsd != 0.0 && p'.eurToUsd != 0.0
    ensures CatalogPrice(catalog, line).Some? ==> PricedLine(p, catalog, line, treatment) == PricedLine(p', catalog, line, treatment')
    ensures CatalogPrice(catalog, line).None? ==> PricedLine(p, catalog, line, treatment) == FormulaPriced(p, line, treatment)
  {
  }

  lemma PricedWithCatalog(p: PricingParameters, c: Option<LineItem>, line: LineItem, treatment: string, cost: ProfileCost)
    requires p.eurToUsd != 0.0 && line.quantity >= 1
    requires c.Some? && CostAddsUp(cost) && c.value == CatalogPriced(line, cost)
    ensures var r := PricedWith(p, c, line, treatment);
            && Settled(r, line.quantity)
            && r.quantity == line.quantity && r.lineId == line.lineId && r.reference == line.reference
  {
    CatalogPricedFacts(line, cost);
    assert Max(1, line.quantity) == line.quantity;
  }
}
