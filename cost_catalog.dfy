/**
 * The static steel and cladding price catalogue: cost breakdowns per
 * profile length and per cladding quantity, the normalised-key indexes built
 * when the catalogue is created, the lookups by designation, and the
 * structure and cladding totals.
 */
module CostCatalog {
  import opened Wrappers
  import opened Strings
  import opened Numerals
  import opened Dicts
  import opened Folds

  // ---------------------------------------------------------------- profiles

  /** What `SteelProfile.calculate_cost` reports for one length. */
  datatype ProfileCost = ProfileCost(
    designation: string, lengthM: real, weightKg: real, areaM2: real,
    costMaterial: real, costFabrication: real, costAssembly: real, costPainting: real,
    costLifting: real, costConsumables: real, costTransport: real, totalCost: real)

  /** A steel profile with its weight and area per metre and its seven unit prices. */
  datatype SteelProfile = SteelProfile(
    code: string, designation: string, weightPerMeter: real, areaPerMeter: real,
    priceMaterial: real, priceFabrication: real, priceAssembly: real, pricePainting: real,
    priceLifting: real, priceConsumables: real, priceTransport: real, isGalvanized: bool)
  {
    /** Price per kg of the six weight-based components; painting (priced per m²) is not among them. */
    function WeightBasedPricePerKg(): real {
      priceMaterial + priceFabrication + priceAssembly + priceLifting + priceConsumables + priceTransport
    }

    function PaintingPricePerM2(): real {
      pricePainting
    }

    /**
     * Cost of `lengthMeters` of this profile: weight and area grow with the
     * length, and the total splits into the weight-priced part and the
     * area-priced painting.
     */
    function CalculateCost(lengthMeters: real): (c: ProfileCost)
      ensures c.designation == designation && c.lengthM == lengthMeters
      ensures c.weightKg == lengthMeters * weightPerMeter && c.areaM2 == lengthMeters * areaPerMeter
      ensures c.totalCost == c.weightKg * WeightBasedPricePerKg() + c.areaM2 * PaintingPricePerM2()
    {
      var w := lengthMeters * weightPerMeter;
      var a := lengthMeters * areaPerMeter;
      var cm := w * priceMaterial;
      var cf := w * priceFabrication;
      var ca := w * priceAssembly;
      var cl := w * priceLifting;
      var cc := w * priceConsumables;
      var ct := w * priceTransport;
      var cp := a * pricePainting;
      ProfileCost(designation, lengthMeters, w, a, cm, cf, ca, cp, cl, cc, ct, cm + cf + ca + cp + cl + cc + ct)
    }
  }

  /** The cost of a metre: its weight priced per kg plus its area priced per m². */
  function UnitCost(p: SteelProfile): real {
    p.weightPerMeter * p.WeightBasedPricePerKg() + p.areaPerMeter * p.PaintingPricePerM2()
  }

  /** The total cost is proportional to the length, at the cost of one metre. */
  lemma CostIsLinear(p: SteelProfile, len: real)
    ensures p.CalculateCost(len).totalCost == len * UnitCost(p)
  {
    var c := p.CalculateCost(len);
    ScaleTwoTerms(len, p.weightPerMeter, p.areaPerMeter, p.WeightBasedPricePerKg(), p.PaintingPricePerM2(),
                  UnitCost(p), c.weightKg, c.areaM2, c.totalCost);
  }

  /** Costing two lengths separately or together gives the same weight and total. */
  lemma ProfileCostAdditive(p: SteelProfile, a: real, b: real)
    ensures p.CalculateCost(a + b).weightKg == p.CalculateCost(a).weightKg + p.CalculateCost(b).weightKg
    ensures p.CalculateCost(a + b).totalCost == p.CalculateCost(a).totalCost + p.CalculateCost(b).totalCost
  {
    var ab := a + b;
    var whole, partA, partB := p.CalculateCost(ab), p.CalculateCost(a), p.CalculateCost(b);
    AddProduct(a, b, p.weightPerMeter, ab, whole.weightKg, partA.weightKg, partB.weightKg);
    CostIsLinear(p, ab);
    CostIsLinear(p, a);
    CostIsLinear(p, b);
    AddProduct(a, b, UnitCost(p), ab, whole.totalCost, partA.totalCost, partB.totalCost);
  }

  /** If `whole = (a + b)·u`, `partA = a·u` and `partB = b·u` then `whole = partA + partB`. */
  lemma AddProduct(a: real, b: real, u: real, ab: real, whole: real, partA: real, partB: real)
    requires ab == a + b && whole == ab * u && partA == a * u && partB == b * u
    ensures whole == partA + partB
  {
    Distribute(a, b, u);
  }

  /** Costing `f` times a length costs `f` times as much. */
  lemma ProfileCostScales(p: SteelProfile, f: real, len: real)
    ensures p.CalculateCost(f * len).totalCost == f * p.CalculateCost(len).totalCost
  {
    var fl := f * len;
    CostIsLinear(p, fl);
    CostIsLinear(p, len);
    ScaleProduct(f, len, UnitCost(p), fl, p.CalculateCost(fl).totalCost, p.CalculateCost(len).totalCost);
  }

  /** If `whole = (f·x)·u` and `part = x·u` then `whole = f·part`. */
  lemma ScaleProduct(f: real, x: real, u: real, fx: real, whole: real, part: real)
    requires fx == f * x && whole == fx * u && part == x * u
    ensures whole == f * part
  {
    Associate(f, x, u);
  }

  /** Scaling both quantities of a two-term price `x·k + y·m` by `f` scales the price by `f`. */
  lemma ScaleTwoTerms(f: real, x: real, y: real, k: real, m: real, s: real, x1: real, y1: real, s1: real)
    requires s == x * k + y * m
    requires x1 == f * x && y1 == f * y && s1 == x1 * k + y1 * m
    ensures s1 == f * s
  {
    Associate(f, x, k);
    Associate(f, y, m);
    Distribute2(f, x * k, y * m);
  }

  // ---------------------------------------------------------------- cladding

  /** What `CladdingItem.calculate_cost` reports for one quantity. */
  datatype CladdingCost = CladdingCost(
    designation: string, quantity: real, unit: string,
    costMaterial: real, costFabrication: real, costAssembly: real, costPainting: real,
    costLifting: real, costConsumables: real, costTransport: real, totalCost: real)

  /** A facade, roof or accessory item priced per unit (m², ml, un or kg). */
  datatype CladdingItem = CladdingItem(
    designation: string, unit: string,
    priceMaterial: real, priceFabrication: real, priceAssembly: real, pricePainting: real,
    priceLifting: real, priceConsumables: real, priceTransport: real)
  {
    function TotalPricePerUnit(): real {
      priceMaterial + priceFabrication + priceAssembly + pricePainting + priceLifting + priceConsumables + priceTransport
    }

    /** Cost of `quantity` units: the total (quantity × price per unit) equals the sum of the seven components. */
    function CalculateCost(quantity: real): (c: CladdingCost)
      ensures c.designation == designation && c.quantity == quantity && c.unit == unit
      ensures c.totalCost == c.costMaterial + c.costFabrication + c.costAssembly + c.costPainting
                             + c.costLifting + c.costConsumables + c.costTransport
    {
      CladdingCost(designation, quantity, unit,
        quantity * priceMaterial, quantity * priceFabrication, quantity * priceAssembly,
        quantity * pricePainting, quantity * priceLifting, quantity * priceConsumables,
        quantity * priceTransport, quantity * TotalPricePerUnit())
    }
  }

  /** Costing two quantities separately or together gives the same total. */
  lemma CladdingCostAdditive(item: CladdingItem, a: real, b: real)
    ensures item.CalculateCost(a + b).totalCost == item.CalculateCost(a).totalCost + item.CalculateCost(b).totalCost
  {
    Distribute(a, b, item.TotalPricePerUnit());
  }

  // ---------------------------------------------------------------- normalisation

  /** Every character is its own upper case. */
  predicate UpperFixed(s: string) {
    forall i :: 0 <= i < |s| ==> UpperChar(s[i]) == s[i]
  }

  lemma UpperFixedUpper(s: string)
    ensures UpperFixed(Upper(s))
  {
    forall i | 0 <= i < |s| ensures UpperChar(Upper(s)[i]) == Upper(s)[i] {
      UpperCharFacts(s[i]);
    }
  }

  /** Characters taken from an upper-case string, or blanks, are upper case. */
  lemma UpperFixedFrom(u: string, c: string)
    requires UpperFixed(u)
    requires forall ch :: ch in c ==> ch == ' ' || ch in u
    ensures UpperFixed(c)
  {
    forall i | 0 <= i < |c| ensures UpperChar(c[i]) == c[i] {
      assert c[i] in c;
      if c[i] != ' ' {
        var j :| 0 <= j < |u| && u[j] == c[i];
      }
    }
  }

  /** `re.sub(r'\s+', ' ', name.upper().strip())`, the first steps of both normalisers. */
  function UpperClean(name: string): (r: string)
    ensures IsClean(r) && UpperFixed(r)
  {
    var u := Upper(name);
    UpperFixedUpper(name);
    var c := Clean(u);
    UpperFixedFrom(u, c);
    c
  }

  /** A clean upper-case string is left as it is by the first steps. */
  lemma UpperCleanFixed(s: string)
    requires IsClean(s) && UpperFixed(s)
    ensures UpperClean(s) == s
  {
    assert Upper(s) == s;
    CleanOfClean(s);
  }

  lemma ReplaceFacts(s: string, a: char, b: char)
    requires UpperFixed(s) && UpperChar(b) == b
    ensures UpperFixed(ReplaceChar(s, a, b))
    ensures forall c :: c != b && c !in s ==> c !in ReplaceChar(s, a, b)
  {
    var r := ReplaceChar(s, a, b);
    forall c | c != b && c !in s ensures c !in r {
      forall i | 0 <= i < |r| ensures r[i] != c {
        assert s[i] != c;
      }
    }
  }

  /** `_normalize_profile_name`: upper-case, trimmed, single blanks, `*` and `×` written as `X`. */
  function NormalizeProfileName(name: string): (r: string)
    ensures IsClean(r) && UpperFixed(r)
    ensures '*' !in r && '\U{d7}' !in r
  {
    var c := UpperClean(name);
    var r1 := ReplaceChar(c, '*', 'X');
    ReplaceKeepsClean(c, '*', 'X');
    ReplaceFacts(c, '*', 'X');
    var r := ReplaceChar(r1, '\U{d7}', 'X');
    ReplaceKeepsClean(r1, '\U{d7}', 'X');
    ReplaceFacts(r1, '\U{d7}', 'X');
    r
  }

  /** A name with a non-blank character does not normalise to nothing. */
  lemma NormalizeProfileNameNonEmpty(name: string, i: nat)
    requires i < |name| && !IsSpace(name[i])
    ensures NormalizeProfileName(name) != ""
  {
    var u := Upper(name);
    UpperCharFacts(name[i]);
    CleanNonEmpty(u, i);
  }

  /** Normalising a normalised profile name changes nothing. */
  lemma NormalizeProfileNameIdempotent(name: string)
    ensures NormalizeProfileName(NormalizeProfileName(name)) == NormalizeProfileName(name)
  {
    var n := NormalizeProfileName(name);
    UpperCleanFixed(n);
    assert ReplaceChar(n, '*', 'X') == n;
    assert ReplaceChar(n, '\U{d7}', 'X') == n;
  }

  /** The accented capitals `_normalize_item_name` replaces, and their replacements. */
  function Unaccent(c: char): char {
    if c in "\U{c3}\U{c1}\U{c0}\U{c2}" then 'A'
    else if c in "\U{c9}\U{c8}\U{ca}" then 'E'
    else if c in "\U{cd}\U{cc}\U{ce}" then 'I'
    else if c in "\U{d3}\U{d2}\U{d4}\U{d5}" then 'O'
    else if c in "\U{da}\U{d9}\U{db}" then 'U'
    else if c == '\U{c7}' then 'C'
    else c
  }

  /** No character is one of the accented capitals. */
  predicate Unaccented(s: string) {
    forall i :: 0 <= i < |s| ==> Unaccent(s[i]) == s[i]
  }

  /** Removing an accent keeps blanks, white space, upper case, and removing it again changes nothing. */
  lemma UnaccentFacts(c: char)
    ensures Unaccent(c) == ' ' <==> c == ' '
    ensures IsSpace(Unaccent(c)) <==> IsSpace(c)
    ensures UpperChar(c) == c ==> UpperChar(Unaccent(c)) == Unaccent(c)
    ensures Unaccent(Unaccent(c)) == Unaccent(c)
  {
    if Unaccent(c) != c {
      UnaccentedCapital(c);
    }
  }

  /** An accented capital becomes a plain capital, and neither is white space. */
  lemma UnaccentedCapital(c: char)
    requires Unaccent(c) != c
    ensures 'A' <= Unaccent(c) <= 'Z' && Unaccent(Unaccent(c)) == Unaccent(c)
    ensures !IsSpace(c) && c != ' '
  {
  }

  function UnaccentAll(s: string): (r: string)
    requires IsClean(s) && UpperFixed(s)
    ensures IsClean(r) && UpperFixed(r) && Unaccented(r)
    ensures |r| == |s| && forall i :: 0 <= i < |s| ==> r[i] == Unaccent(s[i])
  {
    var r := seq(|s|, i requires 0 <= i < |s| => Unaccent(s[i]));
    assert forall i :: 0 <= i < |s| ==> (r[i] == ' ' <==> s[i] == ' ') && (IsSpace(r[i]) <==> IsSpace(s[i]))
                                        && UpperChar(r[i]) == r[i] && Unaccent(r[i]) == r[i] by {
      forall i | 0 <= i < |s| {
        UnaccentFacts(s[i]);
      }
    }
    SameSpacingClean(s, r);
    r
  }

  /** A string with blanks and white space exactly where a clean string has them is clean. */
  lemma SameSpacingClean(s: string, r: string)
    requires IsClean(s) && |r| == |s|
    requires forall i :: 0 <= i < |s| ==> (r[i] == ' ' <==> s[i] == ' ') && (IsSpace(r[i]) <==> IsSpace(s[i]))
    ensures IsClean(r)
  {
    forall i | 0 <= i < |r| - 1 ensures !DoubleBlankAt(r, i) {
      assert !DoubleBlankAt(s, i);
    }
  }

  /** `_normalize_item_name`: upper-case, trimmed, single blanks, accents on capitals removed. */
  function NormalizeItemName(name: string): (r: string)
    ensures IsClean(r) && UpperFixed(r) && Unaccented(r)
  {
    UnaccentAll(UpperClean(name))
  }

  /** Normalising a normalised item name changes nothing. */
  lemma NormalizeItemNameIdempotent(name: string)
    ensures NormalizeItemName(NormalizeItemName(name)) == NormalizeItemName(name)
  {
    var n := NormalizeItemName(name);
    UpperCleanFixed(n);
    assert UnaccentAll(n) == n;
  }

  // ---------------------------------------------------------------- catalogue rows and indexes

  /** One row of the steel table: code, designation, kg/m, m²/m and the seven prices. */
  datatype ProfileRow = ProfileRow(
    code: string, designation: string, kgPerM: real, m2PerM: real,
    prUnit: real, fabrico: real, montagem: real, pintura: real, mElev: real, consum: real, transp: real)

  /** One row of a cladding or accessory table: designation, unit and the seven prices. */
  datatype ItemRow = ItemRow(
    designation: string, unit: string,
    prUnit: real, fabrico: real, montagem: real, pintura: real, mElev: real, consum: real, transp: real)

  const SteelProfileRows: seq<ProfileRow> := [
      ProfileRow("0480040011", "IPE 300", 42.2, 1.16, 0.85, 0.25, 0.2, 13.0, 0.05, 0.04, 0.03),
      ProfileRow("0480040009", "IPE 240", 30.7, 0.922, 0.85, 0.25, 0.2, 13.0, 0.05, 0.04, 0.03),
      ProfileRow("0480040015", "IPE 450", 77.6, 1.61, 0.9, 0.25, 0.2, 13.0, 0.05, 0.04, 0.03),
      ProfileRow("0480040008", "IPE 220", 26.2, 0.848, 0.85, 0.25, 0.2, 13.0, 0.05, 0.04, 0.03),
      ProfileRow("0480040010", "IPE 270", 30.7, 0.92, 0.85, 0.25, 0.2, 13.0, 0.05, 0.04, 0.03),
      ProfileRow("0480040004", "IPE 140", 12.9, 0.551, 0.85, 0.25, 0.2, 13.0, 0.05, 0.04, 0.03),
      ProfileRow("0480040003", "IPE 120", 10.4, 0.475, 0.85, 0.25, 0.2, 13.0, 0.05, 0.04, 0.03),
      ProfileRow("0480040005", "IPE 160", 15.8, 0.623, 0.85, 0.25, 0.2, 13.0, 0.05, 0.04, 0.03),
      ProfileRow("0480040006", "IPE 180", 18.8, 0.699, 0.85, 0.25, 0.2, 13.0, 0.05, 0.04, 0.03),
      ProfileRow("0480040007", "IPE 200", 22.4, 0.773, 0.85, 0.25, 0.2, 13.0, 0.05, 0.04, 0.03),
      ProfileRow("0480040012", "IPE 330", 49.1, 1.252, 0.85, 0.25, 0.2, 13.0, 0.05, 0.04, 0.03),
      ProfileRow("0480040013", "IPE 360", 57.1, 1.356, 0.85, 0.25, 0.2, 13.0, 0.05, 0.04, 0.03),
      ProfileRow("0480040014", "IPE 400", 66.3, 1.467, 0.9, 0.25, 0.2, 13.0, 0.05, 0.04, 0.03),
      ProfileRow("0480040016", "IPE 500", 90.7, 1.782, 0.9, 0.25, 0.2, 13.0, 0.05, 0.04, 0.03),
      ProfileRow("0480040017", "IPE 550", 106.0, 1.944, 0.9, 0.25, 0.2, 13.0, 0.05, 0.04, 0.03),
      ProfileRow("0480040018", "IPE 600", 122.0, 2.106, 0.9, 0.25, 0.2, 13.0, 0.05, 0.04, 0.03),
      ProfileRow("0480030010", "HEB 100", 20.4, 0.567, 0.85, 0.25, 0.2, 13.0, 0.05, 0.04, 0.03),
      ProfileRow("0480030011", "HEB 120", 26.7, 0.686, 0.85, 0.25, 0.2, 13.0, 0.05, 0.04, 0.03),
      ProfileRow("0480030012", "HEB 140", 33.7, 0.805, 0.85, 0.25, 0.2, 13.0, 0.05, 0.04, 0.03),
      ProfileRow("0480030013", "HEB 160", 42.6, 0.924, 0.85, 0.25, 0.2, 13.0, 0.05, 0.04, 0.03),
      ProfileRow("0480030014", "HEB 180", 51.2, 1.043, 0.85, 0.25, 0.2, 13.0, 0.05, 0.04, 0.03),
      ProfileRow("0480030015", "HEB 200", 61.3, 1.162, 0.85, 0.25, 0.2, 13.0, 0.05, 0.04, 0.03),
      ProfileRow("0480030016", "HEB 220", 71.5, 1.294, 0.85, 0.25, 0.2, 13.0, 0.05, 0.04, 0.03),
      ProfileRow("0480030017", "HEB 240", 83.2, 1.426, 0.85, 0.25, 0.2, 13.0, 0.05, 0.04, 0.03),
      ProfileRow("0480030018", "HEB 260", 93.0, 1.545, 0.85, 0.25, 0.2, 13.0, 0.05, 0.04, 0.03),
      ProfileRow("0480030019", "HEB 280", 103.0, 1.664, 0.85, 0.25, 0.2, 13.0, 0.05, 0.04, 0.03),
      ProfileRow("0480030020", "HEB 300", 117.0, 1.783, 0.85, 0.25, 0.2, 13.0, 0.05, 0.04, 0.03),
      ProfileRow("0480030021", "HEB 320", 127.0, 1.889, 0.9, 0.25, 0.2, 13.0, 0.05, 0.04, 0.03),
      ProfileRow("0480030022", "HEB 340", 134.0, 1.969, 0.9, 0.25, 0.2, 13.0, 0.05, 0.04, 0.03),
      ProfileRow("0480030023", "HEB 360", 142.0, 2.049, 0.9, 0.25, 0.2, 13.0, 0.05, 0.04, 0.03),
      ProfileRow("0480030024", "HEB 400", 155.0, 2.196, 0.9, 0.25, 0.2, 13.0, 0.05, 0.04, 0.03),
      ProfileRow("0480030025", "HEB 450", 171.0, 2.396, 0.9, 0.25, 0.2, 13.0, 0.05, 0.04, 0.03),
      ProfileRow("0480030026", "HEB 500", 187.0, 2.596, 0.9, 0.25, 0.2, 13.0, 0.05, 0.04, 0.03),
      ProfileRow("0480020010", "HEA 100", 16.7, 0.56, 0.85, 0.25, 0.2, 13.0, 0.05, 0.04, 0.03),
      ProfileRow("0480020011", "HEA 120", 19.9, 0.666, 0.85, 0.25, 0.2, 13.0, 0.05, 0.04, 0.03),
      ProfileRow("0480020012", "HEA 140", 24.7, 0.772, 0.85, 0.25, 0.2, 13.0, 0.05, 0.04, 0.03),
      ProfileRow("0480020013", "HEA 160", 30.4, 0.878, 0.85, 0.25, 0.2, 13.0, 0.05, 0.04, 0.03),
      ProfileRow("0480020014", "HEA 180", 35.5, 0.984, 0.85, 0.25, 0.2, 13.0, 0.05, 0.04, 0.03),
      ProfileRow("0480020015", "HEA 200", 42.3, 1.09, 0.85, 0.25, 0.2, 13.0, 0.05, 0.04, 0.03),
      ProfileRow("0480020016", "HEA 220", 50.5, 1.209, 0.85, 0.25, 0.2, 13.0, 0.05, 0.04, 0.03),
      ProfileRow("0480020017", "HEA 240", 60.3, 1.328, 0.85, 0.25, 0.2, 13.0, 0.05, 0.04, 0.03),
      ProfileRow("0480020018", "HEA 260", 68.2, 1.447, 0.85, 0.25, 0.2, 13.0, 0.05, 0.04, 0.03),
      ProfileRow("0480020019", "HEA 280", 76.4, 1.566, 0.85, 0.25, 0.2, 13.0, 0.05, 0.04, 0.03),
      ProfileRow("0480020020", "HEA 300", 88.3, 1.685, 0.85, 0.25, 0.2, 13.0, 0.05, 0.04, 0.03),
      ProfileRow("0480050005", "UPN 80", 8.64, 0.362, 0.85, 0.25, 0.2, 13.0, 0.05, 0.04, 0.03),
      ProfileRow("0480050006", "UPN 100", 10.6, 0.424, 0.85, 0.25, 0.2, 13.0, 0.05, 0.04, 0.03),
      ProfileRow("0480050007", "UPN 120", 13.4, 0.494, 0.85, 0.25, 0.2, 13.0, 0.05, 0.04, 0.03),
      ProfileRow("0480050008", "UPN 140", 16.0, 0.564, 0.85, 0.25, 0.2, 13.0, 0.05, 0.04, 0.03),
      ProfileRow("0480050009", "UPN 160", 18.8, 0.634, 0.85, 0.25, 0.2, 13.0, 0.05, 0.04, 0.03),
      ProfileRow("0480050010", "UPN 180", 22.0, 0.71, 0.85, 0.25, 0.2, 13.0, 0.05, 0.04, 0.03),
      ProfileRow("0480050011", "UPN 200", 25.3, 0.786, 0.85, 0.25, 0.2, 13.0, 0.05, 0.04, 0.03),
      ProfileRow("0480050012", "UPN 220", 29.4, 0.862, 0.85, 0.25, 0.2, 13.0, 0.05, 0.04, 0.03),
      ProfileRow("0480050013", "UPN 240", 33.2, 0.938, 0.85, 0.25, 0.2, 13.0, 0.05, 0.04, 0.03),
      ProfileRow("0480050014", "UPN 260", 37.9, 1.014, 0.85, 0.25, 0.2, 13.0, 0.05, 0.04, 0.03),
      ProfileRow("0480050015", "UPN 280", 41.8, 1.09, 0.85, 0.25, 0.2, 13.0, 0.05, 0.04, 0.03),
      ProfileRow("0480050016", "UPN 300", 46.2, 1.166, 0.85, 0.25, 0.2, 13.0, 0.05, 0.04, 0.03),
      ProfileRow("0550010060", "TUBO RED. 88.9*3.2", 6.76, 0.28, 1.25, 0.25, 0.2, 13.0, 0.05, 0.04, 0.03),
      ProfileRow("0550010050", "TUBO RED. 60.3*3.2", 4.51, 0.19, 1.25, 0.25, 0.2, 13.0, 0.05, 0.04, 0.03),
      ProfileRow("0550010070", "TUBO RED. 114.3*3.6", 9.83, 0.36, 1.25, 0.25, 0.2, 13.0, 0.05, 0.04, 0.03),
      ProfileRow("0550010080", "TUBO RED. 139.7*4.0", 13.4, 0.44, 1.25, 0.25, 0.2, 13.0, 0.05, 0.04, 0.03),
      ProfileRow("0550010090", "TUBO RED. 168.3*4.5", 18.2, 0.53, 1.25, 0.25, 0.2, 13.0, 0.05, 0.04, 0.03),
      ProfileRow("0550020040", "RHS 100x50x3", 6.71, 0.3, 1.25, 0.25, 0.2, 13.0, 0.05, 0.04, 0.03),
      ProfileRow("0550020050", "RHS 100x50x4", 8.59, 0.3, 1.25, 0.25, 0.2, 13.0, 0.05, 0.04, 0.03),
      ProfileRow("0550020060", "RHS 120x60x4", 10.7, 0.36, 1.25, 0.25, 0.2, 13.0, 0.05, 0.04, 0.03),
      ProfileRow("0550020070", "RHS 150x100x5", 18.6, 0.5, 1.25, 0.25, 0.2, 13.0, 0.05, 0.04, 0.03),
      ProfileRow("0550020080", "RHS 200x100x5", 23.2, 0.6, 1.25, 0.25, 0.2, 13.0, 0.05, 0.04, 0.03),
      ProfileRow("0550020090", "RHS 200x100x6", 27.4, 0.6, 1.25, 0.25, 0.2, 13.0, 0.05, 0.04, 0.03),
      ProfileRow("0550020100", "RHS 250x150x6", 36.6, 0.8, 1.25, 0.25, 0.2, 13.0, 0.05, 0.04, 0.03),
      ProfileRow("0550020110", "RHS 300x200x8", 60.5, 1.0, 1.25, 0.25, 0.2, 13.0, 0.05, 0.04, 0.03),
      ProfileRow("0550030040", "SHS 60x60x3", 5.29, 0.24, 1.25, 0.25, 0.2, 13.0, 0.05, 0.04, 0.03),
      ProfileRow("0550030050", "SHS 80x80x4", 9.22, 0.32, 1.25, 0.25, 0.2, 13.0, 0.05, 0.04, 0.03),
      ProfileRow("0550030060", "SHS 100x100x4", 11.7, 0.4, 1.25, 0.25, 0.2, 13.0, 0.05, 0.04, 0.03),
      ProfileRow("0550030070", "SHS 100x100x5", 14.4, 0.4, 1.25, 0.25, 0.2, 13.0, 0.05, 0.04, 0.03),
      ProfileRow("0550030080", "SHS 120x120x5", 17.5, 0.48, 1.25, 0.25, 0.2, 13.0, 0.05, 0.04, 0.03),
      ProfileRow("0550030090", "SHS 150x150x6", 26.4, 0.6, 1.25, 0.25, 0.2, 13.0, 0.05, 0.04, 0.03),
      ProfileRow("0550030100", "SHS 200x200x8", 47.7, 0.8, 1.25, 0.25, 0.2, 13.0, 0.05, 0.04, 0.03),
      ProfileRow("0410010013", "MADRE Z 170*56*15 ESP. 1.5MM", 3.54, 0.604, 1.15, 0.0, 0.2, 0.0, 0.05, 0.04, 0.03),
      ProfileRow("0410010005", "MADRE C 170*56*15 ESP. 1.5MM", 3.54, 0.604, 1.15, 0.0, 0.2, 0.0, 0.05, 0.04, 0.03),
      ProfileRow("0410010015", "MADRE C 220*68*18 ESP. 2MM", 5.85, 0.75, 1.15, 0.0, 0.2, 0.0, 0.05, 0.04, 0.03),
      ProfileRow("0410010016", "MADRE Z 200*60*15 ESP. 2MM", 5.1, 0.68, 1.15, 0.0, 0.2, 0.0, 0.05, 0.04, 0.03),
      ProfileRow("0410010017", "MADRE Z 250*70*20 ESP. 2.5MM", 7.85, 0.82, 1.15, 0.0, 0.2, 0.0, 0.05, 0.04, 0.03),
      ProfileRow("0410020001", "OMEGA 50", 2.27, 0.388, 1.2, 0.0, 0.2, 0.0, 0.05, 0.04, 0.03),
      ProfileRow("0410020002", "OMEGA 80", 3.15, 0.45, 1.2, 0.0, 0.2, 0.0, 0.05, 0.04, 0.03),
      ProfileRow("0240120008", "CHAPA PRETA 8MM", 62.8, 1.0, 1.8, 0.25, 0.2, 13.0, 0.05, 0.04, 0.03),
      ProfileRow("0240120010", "CHAPA PRETA 10MM", 78.5, 1.0, 1.8, 0.25, 0.2, 13.0, 0.05, 0.04, 0.03),
      ProfileRow("0240120012", "CHAPA PRETA 12MM", 94.2, 1.0, 1.8, 0.25, 0.2, 13.0, 0.05, 0.04, 0.03),
      ProfileRow("0240120013", "CHAPA PRETA 15MM", 120.0, 2.0, 1.8, 0.25, 0.2, 13.0, 0.05, 0.04, 0.03),
      ProfileRow("0240120020", "CHAPA PRETA 20MM", 157.0, 2.0, 1.8, 0.25, 0.2, 13.0, 0.05, 0.04, 0.03),
      ProfileRow("0240120025", "CHAPA PRETA 25MM", 196.0, 2.0, 1.8, 0.25, 0.2, 13.0, 0.05, 0.04, 0.03)
  ]

  const FacadeRows: seq<ItemRow> := [
      ItemRow("PAINEL FACHADA LA ROCHA 50MM", "m²", 23.0, 0.0, 5.0, 0.0, 1.3, 0.0, 0.0),
      ItemRow("PAINEL FACHADA PIR 50MM", "m²", 22.0, 0.0, 5.0, 0.0, 1.3, 0.0, 0.0),
      ItemRow("PAINEL FACHADA POLIURETANO 30MM", "m²", 18.0, 0.0, 5.0, 0.0, 1.3, 0.0, 0.0),
      ItemRow("CHAPA SIMPLES FACHADA", "m²", 12.0, 0.0, 4.0, 0.0, 1.0, 0.0, 0.0),
      ItemRow("CHAPA SIMPLES PRELACADA", "m²", 14.0, 0.0, 4.0, 0.0, 1.0, 0.0, 0.0),
      ItemRow("REMATES FACHADA", "ml", 9.0, 0.0, 0.0, 0.0, 0.0, 0.0, 0.0),
      ItemRow("PARAFUSOS FACHADA", "un", 1.0, 0.0, 0.0, 0.0, 0.0, 0.0, 0.0),
      ItemRow("CONTRA FACHADA CHAPA SIMPLES", "m²", 10.0, 0.0, 3.0, 0.0, 1.0, 0.0, 0.0)
  ]

  const RoofRows: seq<ItemRow> := [
      ItemRow("PAINEL COBERTURA LA ROCHA 50MM", "m²", 23.5, 0.0, 5.0, 0.0, 1.0, 0.0, 0.0),
      ItemRow("PAINEL COBERTURA LA ROCHA 80MM", "m²", 28.0, 0.0, 5.0, 0.0, 1.0, 0.0, 0.0),
      ItemRow("PAINEL COBERTURA PIR 50MM", "m²", 22.0, 0.0, 5.0, 0.0, 1.0, 0.0, 0.0),
      ItemRow("PAINEL COBERTURA POLIURETANO 30MM", "m²", 18.0, 0.0, 5.0, 0.0, 1.0, 0.0, 0.0),
      ItemRow("CHAPA SIMPLES COBERTURA", "m²", 10.0, 0.0, 4.0, 0.0, 1.0, 0.0, 0.0),
      ItemRow("ANTICUME", "ml", 7.0, 0.0, 0.0, 0.0, 0.0, 0.0, 0.0),
      ItemRow("CUME", "ml", 12.0, 0.0, 0.0, 0.0, 0.0, 0.0, 0.0),
      ItemRow("PARAFUSOS COBERTURA", "un", 1.0, 0.0, 0.0, 0.0, 0.0, 0.0, 0.0),
      ItemRow("CLARABOIA FIXA 1.0X1.0", "un", 19.0, 0.0, 2.0, 0.0, 0.0, 0.0, 0.0),
      ItemRow("CLARABOIA FIXA 1.5X1.5", "un", 35.0, 0.0, 3.0, 0.0, 0.0, 0.0, 0.0),
      ItemRow("AREA DE LUZ", "m²", 19.0, 0.0, 2.0, 0.0, 0.0, 0.0, 0.0),
      ItemRow("CALEIRA DUPLA ISOLADA", "ml", 35.0, 0.0, 5.0, 0.0, 0.0, 0.0, 0.0),
      ItemRow("CALEIRA SIMPLES GALVANIZADA", "ml", 18.0, 0.0, 3.0, 0.0, 0.0, 0.0, 0.0)
  ]

  const AccessoryRows: seq<ItemRow> := [
      ItemRow("PORTA EMERGENCIA 900X2150", "un", 280.0, 0.0, 50.0, 0.0, 0.0, 0.0, 0.0),
      ItemRow("PORTA EMERGENCIA 1200X2150", "un", 350.0, 0.0, 50.0, 0.0, 0.0, 0.0, 0.0),
      ItemRow("PORTA SECTORIAL 3000X3000", "un", 1800.0, 0.0, 200.0, 0.0, 50.0, 0.0, 0.0),
      ItemRow("PORTA SECTORIAL 4000X4000", "un", 2400.0, 0.0, 250.0, 0.0, 50.0, 0.0, 0.0),
      ItemRow("PORTAO BASCULANTE 3000X3000", "un", 1200.0, 0.0, 150.0, 0.0, 30.0, 0.0, 0.0),
      ItemRow("JANELA ALUMINIO", "m²", 150.0, 0.0, 30.0, 0.0, 0.0, 0.0, 0.0),
      ItemRow("PINTURA INTUMESCENTE R30", "m²", 18.0, 0.0, 0.0, 0.0, 0.0, 0.0, 0.0),
      ItemRow("PINTURA INTUMESCENTE R60", "m²", 28.0, 0.0, 0.0, 0.0, 0.0, 0.0, 0.0),
      ItemRow("PINTURA INTUMESCENTE R90", "m²", 40.0, 0.0, 0.0, 0.0, 0.0, 0.0, 0.0),
      ItemRow("GALVANIZACAO", "kg", 0.45, 0.0, 0.0, 0.0, 0.0, 0.0, 0.0)
  ]

  /** Galvanised profiles are recognised by name. */
  predicate IsGalvanizedName(designation: string) {
    Contains(Upper(designation), "GALVANIZADA") || Contains(Upper(designation), "MADRE")
  }

  function ProfileOfRow(r: ProfileRow): SteelProfile {
    SteelProfile(r.code, r.designation, r.kgPerM, r.m2PerM, r.prUnit, r.fabrico, r.montagem, r.pintura,
                 r.mElev, r.consum, r.transp, IsGalvanizedName(r.designation))
  }

  function ItemOfRow(r: ItemRow): CladdingItem {
    CladdingItem(r.designation, r.unit, r.prUnit, r.fabrico, r.montagem, r.pintura, r.mElev, r.consum, r.transp)
  }

  /** The assignments the steel table makes, in order: each row under its normalised designation, then under its code. */
  function ProfileEntries(rows: seq<ProfileRow>): seq<(string, SteelProfile)> {
    ConcatMap(rows, RowEntries)
  }

  /** The two assignments one row makes. */
  function RowEntries(r: ProfileRow): (kvs: seq<(string, SteelProfile)>)
    ensures |kvs| == 2
  {
    [ProfileEntry(r, true), ProfileEntry(r, false)]
  }

  /** The assignment of a row under its normalised designation (`byName`) or under its code. */
  function ProfileEntry(r: ProfileRow, byName: bool): (string, SteelProfile) {
    (if byName then NormalizeProfileName(r.designation) else r.code, ProfileOfRow(r))
  }

  /** Row `i` is assigned at positions `2i` (under its normalised designation) and `2i + 1` (under its code). */
  lemma ProfileEntriesAt(rows: seq<ProfileRow>, i: nat)
    requires i < |rows|
    ensures |ProfileEntries(rows)| == 2 * |rows|
    ensures ProfileEntries(rows)[2 * i] == ProfileEntry(rows[i], true)
    ensures ProfileEntries(rows)[2 * i + 1] == ProfileEntry(rows[i], false)
  {
    ConcatMapPairs(rows, RowEntries);
  }

  /** One more row adds its two assignments at the end. */
  lemma ProfileEntriesSnoc(rows: seq<ProfileRow>, r: ProfileRow)
    ensures ProfileEntries(rows + [r]) == ProfileEntries(rows) + RowEntries(r)
  {
    assert (rows + [r])[..|rows|] == rows;
  }

  function ProfileIndex(rows: seq<ProfileRow>): Dict<SteelProfile> {
    FromPairs(ProfileEntries(rows))
  }

  /** Indexing one more row assigns its normalised designation, then its code. */
  lemma ProfileIndexStep(rows: seq<ProfileRow>, i: nat)
    requires i < |rows|
    ensures ProfileIndex(rows[..i + 1])
            == Put(Put(ProfileIndex(rows[..i]), ProfileEntry(rows[i], true).0, ProfileOfRow(rows[i])), rows[i].code, ProfileOfRow(rows[i]))
  {
    assert rows[..i + 1] == rows[..i] + [rows[i]];
    var before := ProfileEntries(rows[..i]);
    var e1 := ProfileEntry(rows[i], true);
    var e2 := ProfileEntry(rows[i], false);
    ProfileEntriesSnoc(rows[..i], rows[i]);
    assert before + RowEntries(rows[i]) == before + [e1] + [e2];
    FromPairsSnoc(before, e1.0, e1.1);
    FromPairsSnoc(before + [e1], e2.0, e2.1);
  }

  /** `_init_steel_profiles`: fills the index row by row. */
  method InitSteelProfiles(rows: seq<ProfileRow>) returns (index: Dict<SteelProfile>)
    ensures index == ProfileIndex(rows)
  {
    index := [];
    for i := 0 to |rows|
      invariant index == ProfileIndex(rows[..i])
    {
      ProfileIndexStep(rows, i);
      var p := ProfileOfRow(rows[i]);
      var key := NormalizeProfileName(rows[i].designation);
      index := Put(index, key, p);
      index := Put(index, rows[i].code, p);
    }
    assert rows[..|rows|] == rows;
  }

  /**
   * Each profile can be found under its normalised designation, provided no
   * two rows share a key (the index keeps the last row assigned to a key).
   */
  lemma ProfileRetrievableByName(rows: seq<ProfileRow>, i: nat)
    requires i < |rows| && DistinctKeys(ProfileEntries(rows))
    ensures Get(ProfileIndex(rows), NormalizeProfileName(rows[i].designation)) == Some(ProfileOfRow(rows[i]))
  {
    ProfileEntriesAt(rows, i);
    FromPairsGet(ProfileEntries(rows), 2 * i);
  }

  /** Each profile can also be found under its code, under the same proviso. */
  lemma ProfileRetrievableByCode(rows: seq<ProfileRow>, i: nat)
    requires i < |rows| && DistinctKeys(ProfileEntries(rows))
    ensures Get(ProfileIndex(rows), rows[i].code) == Some(ProfileOfRow(rows[i]))
  {
    ProfileEntriesAt(rows, i);
    FromPairsGet(ProfileEntries(rows), 2 * i + 1);
  }

  /** Every indexed profile comes from a row, sits under that row's key or code, and is galvanised exactly when its name says so. */
  lemma ProfileIndexEntries(rows: seq<ProfileRow>, k: string, p: SteelProfile)
    requires (k, p) in ProfileIndex(rows)
    ensures exists i :: 0 <= i < |rows| && p == ProfileOfRow(rows[i])
                        && (k == NormalizeProfileName(rows[i].designation) || k == rows[i].code)
    ensures p.isGalvanized <==> IsGalvanizedName(p.designation)
  {
    var kvs := ProfileEntries(rows);
    assert (k, p) in kvs by {
      PutAllEntries([], kvs, (k, p));
    }
    ConcatMapMember(rows, RowEntries, (k, p));
    var i :| 0 <= i < |rows| && (k, p) in RowEntries(rows[i]);
    RowEntryMember(rows[i], (k, p));
  }

  /** An assignment a row makes stores that row's profile under its normalised designation or its code. */
  lemma RowEntryMember(r: ProfileRow, e: (string, SteelProfile))
    requires e in RowEntries(r)
    ensures e.1 == ProfileOfRow(r)
    ensures e.0 == NormalizeProfileName(r.designation) || e.0 == r.code
    ensures e.1.isGalvanized <==> IsGalvanizedName(e.1.designation)
  {
    assert e == RowEntries(r)[0] || e == RowEntries(r)[1];
  }

  /** The assignments a cladding table makes: each row under its normalised designation. */
  function ItemEntries(rows: seq<ItemRow>): (kvs: seq<(string, CladdingItem)>)
    ensures |kvs| == |rows|
    ensures forall i :: 0 <= i < |rows| ==> kvs[i] == (NormalizeItemName(rows[i].designation), ItemOfRow(rows[i]))
  {
    seq(|rows|, i requires 0 <= i < |rows| => (NormalizeItemName(rows[i].designation), ItemOfRow(rows[i])))
  }

  function ItemIndex(rows: seq<ItemRow>): Dict<CladdingItem> {
    FromPairs(ItemEntries(rows))
  }

  /** `_init_facade_cladding`, `_init_roof_cladding` and `_init_accessories`: the same loop over their tables. */
  method InitCladdingItems(rows: seq<ItemRow>) returns (index: Dict<CladdingItem>)
    ensures index == ItemIndex(rows)
  {
    index := [];
    for i := 0 to |rows|
      invariant index == ItemIndex(rows[..i])
    {
      var item := ItemOfRow(rows[i]);
      var key := NormalizeItemName(rows[i].designation);
      ItemIndexStep(rows, i);
      index := Put(index, key, item);
    }
    assert rows[..|rows|] == rows;
  }

  /** Indexing one more row assigns it under its normalised designation. */
  lemma ItemIndexStep(rows: seq<ItemRow>, i: nat)
    requires i < |rows|
    ensures ItemIndex(rows[..i + 1]) == Put(ItemIndex(rows[..i]), NormalizeItemName(rows[i].designation), ItemOfRow(rows[i]))
  {
    var e := (NormalizeItemName(rows[i].designation), ItemOfRow(rows[i]));
    var a, b := ItemEntries(rows[..i + 1]), ItemEntries(rows[..i]);
    assert a == b + [e] by {
      assert |a| == |b| + 1;
      forall j | 0 <= j < |a| ensures a[j] == (b + [e])[j] {
        assert rows[..i + 1][j] == rows[j];
      }
    }
    FromPairsSnoc(b, e.0, e.1);
  }

  /** Each cladding item can be found under its normalised designation when no two rows share one. */
  lemma ItemRetrievable(rows: seq<ItemRow>, i: nat)
    requires i < |rows| && DistinctKeys(ItemEntries(rows))
    ensures Get(ItemIndex(rows), NormalizeItemName(rows[i].designation)) == Some(ItemOfRow(rows[i]))
  {
    FromPairsGet(ItemEntries(rows), i);
  }

  // ---------------------------------------------------------------- lookups

  /** `n in key or key in n` */
  predicate Overlaps(key: string, n: string) {
    Contains(key, n) || Contains(n, key)
  }

  /** The first entry at or after `from` whose key overlaps `n`. */
  function FirstOverlap<V>(d: Dict<V>, n: string, from: nat): (r: Option<nat>)
    requires from <= |d|
    ensures r.Some? ==> from <= r.value < |d| && Overlaps(d[r.value].0, n)
    ensures r.Some? ==> forall j :: from <= j < r.value ==> !Overlaps(d[j].0, n)
    ensures r.None? ==> forall j :: from <= j < |d| ==> !Overlaps(d[j].0, n)
    decreases |d| - from
  {
    if from == |d| then None
    else if Overlaps(d[from].0, n) then Some(from)
    else FirstOverlap(d, n, from + 1)
  }

  const ProfileTypes: seq<string> := ["IPE", "HEB", "HEA", "UPN", "RHS", "SHS"]

  /**
   * `re.match(r'(IPE|HEB|HEA|UPN|RHS|SHS)[\s]?(\d+)', n)` rewritten as
   * `"TYPE SIZE"`: a profile type, at most one blank, then the digits.
   */
  function TypeSizeKey(n: string): (r: Option<string>)
    ensures r.Some? ==> |n| >= 4 && n[..3] in ProfileTypes && |r.value| >= 5 && r.value[..4] == n[..3] + " "
    ensures r.Some? ==> AllDigits(r.value[4..]) && (r.value[4..] <= n[3..] || (IsSpace(n[3]) && r.value[4..] <= n[4..]))
    ensures r.None? ==> |n| < 4 || n[..3] !in ProfileTypes || (!IsDigit(n[3]) && !(IsSpace(n[3]) && |n| > 4 && IsDigit(n[4])))
  {
    if |n| < 4 || n[..3] !in ProfileTypes then None
    else
      var skip := if IsSpace(n[3]) then 1 else 0;
      var d := DigitPrefix(n[3 + skip..]);
      if d == [] then None else Some(n[..3] + " " + d)
  }

  /** What `find_profile` returns: exact key, else the first overlapping key in index order, else the "TYPE SIZE" key. */
  function FindProfileIn(index: Dict<SteelProfile>, term: string): Option<SteelProfile> {
    var n := NormalizeProfileName(term);
    if Get(index, n).Some? then Get(index, n)
    else
      match FirstOverlap(index, n, 0)
      case Some(i) => Some(index[i].1)
      case None =>
        match TypeSizeKey(n)
        case Some(k) => Get(index, k)
        case None => None
  }

  /** `find_profile` returns the entry under the exact normalised key whenever there is one. */
  lemma FindProfileExact(index: Dict<SteelProfile>, term: string)
    requires NormalizeProfileName(term) in Keys(index)
    ensures FindProfileIn(index, term) == Get(index, NormalizeProfileName(term))
    ensures FindProfileIn(index, term).Some?
  {
  }

  /** Without an exact key, `find_profile` returns the first entry, in index order, whose key overlaps the name. */
  lemma FindProfileFirstOverlap(index: Dict<SteelProfile>, term: string, i: nat)
    requires NormalizeProfileName(term) !in Keys(index)
    requires i < |index| && Overlaps(index[i].0, NormalizeProfileName(term))
    requires forall j :: 0 <= j < i ==> !Overlaps(index[j].0, NormalizeProfileName(term))
    ensures FindProfileIn(index, term) == Some(index[i].1)
  {
    var r := FirstOverlap(index, NormalizeProfileName(term), 0);
    assert r.Some?;
    if r.value < i {
    } else if r.value > i {
    }
  }

  /**
   * `find_profile` finds nothing exactly when the name is not a key, no key
   * overlaps it, and it has no "TYPE SIZE" form that is a key.
   */
  lemma FindProfileNone(index: Dict<SteelProfile>, term: string)
    ensures FindProfileIn(index, term).None? <==>
      var n := NormalizeProfileName(term);
      n !in Keys(index)
      && (forall j :: 0 <= j < |index| ==> !Overlaps(index[j].0, n))
      && (TypeSizeKey(n).None? || TypeSizeKey(n).value !in Keys(index))
  {
    var n := NormalizeProfileName(term);
    var r := FirstOverlap(index, n, 0);
    if r.Some? {
      assert !(forall j :: 0 <= j < |index| ==> !Overlaps(index[j].0, n));
    }
  }

  /** Whatever `find_profile` returns is stored under the name, a key overlapping it, or its "TYPE SIZE" form. */
  lemma FindProfileSound(index: Dict<SteelProfile>, term: string)
    requires FindProfileIn(index, term).Some?
    ensures exists j :: 0 <= j < |index| && index[j].1 == FindProfileIn(index, term).value
                        && (index[j].0 == NormalizeProfileName(term) || Overlaps(index[j].0, NormalizeProfileName(term))
                            || Some(index[j].0) == TypeSizeKey(NormalizeProfileName(term)))
  {
    var n := NormalizeProfileName(term);
    var p := FindProfileIn(index, term).value;
    if Get(index, n).Some? {
      var j :| 0 <= j < |index| && index[j] == (n, p);
    } else if FirstOverlap(index, n, 0).Some? {
      var j := FirstOverlap(index, n, 0).value;
      assert index[j].1 == p;
    } else {
      var k := TypeSizeKey(n).value;
      var j :| 0 <= j < |index| && index[j] == (k, p);
    }
  }

  /** `all(kw in key for kw in n.split())` */
  predicate AllKeywordsIn(n: string, key: string) {
    forall w :: w in SplitWords(n) ==> Contains(key, w)
  }

  /** The partial rule `find_cladding` applies to each key: overlap either way, or every keyword inside the key. */
  predicate CladdingKeyMatches(key: string, n: string) {
    Overlaps(key, n) || AllKeywordsIn(n, key)
  }

  /** The first entry at or after `from` whose key matches `n` by the partial rule. */
  function FirstCladdingMatch(d: Dict<CladdingItem>, n: string, from: nat): (r: Option<nat>)
    requires from <= |d|
    ensures r.Some? ==> from <= r.value < |d| && CladdingKeyMatches(d[r.value].0, n)
    ensures r.Some? ==> forall j :: from <= j < r.value ==> !CladdingKeyMatches(d[j].0, n)
    ensures r.None? ==> forall j :: from <= j < |d| ==> !CladdingKeyMatches(d[j].0, n)
  {
    FirstKeyWhere(d, key => CladdingKeyMatches(key, n), from)
  }

  /** The search within one table: exact key, else the first key matching the partial rule. */
  function FindInSource(src: Dict<CladdingItem>, n: string): Option<CladdingItem> {
    if Get(src, n).Some? then Get(src, n)
    else
      match FirstCladdingMatch(src, n, 0)
      case Some(i) => Some(src[i].1)
      case None => None
  }

  /** The body of `find_cladding`'s loop over tables: exact key, then each key in order by the partial rule. */
  method SearchSource(src: Dict<CladdingItem>, n: string) returns (r: Option<CladdingItem>)
    ensures r == FindInSource(src, n)
  {
    var exact := Get(src, n);
    if exact.Some? {
      return exact;
    }
    for i := 0 to |src|
      invariant FirstCladdingMatch(src, n, 0) == FirstCladdingMatch(src, n, i)
    {
      if Overlaps(src[i].0, n) || AllKeywordsIn(n, src[i].0) {
        return Some(src[i].1);
      }
    }
    return None;
  }

  /** The first table, in order, where the search succeeds. */
  function FindInSources(sources: seq<Dict<CladdingItem>>, n: string): Option<CladdingItem>
    decreases |sources|
  {
    if sources == [] then None
    else if FindInSource(sources[0], n).Some? then FindInSource(sources[0], n)
    else FindInSources(sources[1..], n)
  }

  /** An empty search term is a substring of every key, so as written it matches the first entry. */
  lemma EmptyNameMatchesFirstProfile(index: Dict<SteelProfile>)
    requires |index| > 0 && "" !in Keys(index)
    ensures FindProfileIn(index, "") == Some(index[0].1)
  {
    assert NormalizeProfileName("") == "";
    assert Overlaps(index[0].0, "");
    assert FirstOverlap(index, "", 0) == Some(0);
  }

  /** `find_profile` as evidently intended: a name that normalises to nothing finds nothing. */
  function FindProfileStrict(index: Dict<SteelProfile>, term: string): (r: Option<SteelProfile>)
    ensures r.Some? ==> NormalizeProfileName(term) != ""
    ensures NormalizeProfileName(term) != "" ==> r == FindProfileIn(index, term)
  {
    if NormalizeProfileName(term) == "" then None else FindProfileIn(index, term)
  }

  /** An empty search term matches the first item of the first non-empty table searched. */
  lemma EmptyNameMatchesFirstCladding(src: Dict<CladdingItem>)
    requires |src| > 0 && "" !in Keys(src)
    ensures FindInSources([src], "") == Some(src[0].1)
  {
    assert NormalizeItemName("") == "";
    assert Overlaps(src[0].0, "");
    assert FirstCladdingMatch(src, "", 0) == Some(0);
  }

  /** `find_cladding` as evidently intended: a name that normalises to nothing finds nothing. */
  function FindInSourcesStrict(sources: seq<Dict<CladdingItem>>, n: string): (r: Option<CladdingItem>)
    ensures r.Some? ==> n != ""
    ensures n != "" ==> r == FindInSources(sources, n)
  {
    if n == "" then None else FindInSources(sources, n)
  }

  // ---------------------------------------------------------------- the catalogue object

  class CostDatabase {
    const steelProfiles: Dict<SteelProfile>
    const facadeItems: Dict<CladdingItem>
    const roofItems: Dict<CladdingItem>
    const accessories: Dict<CladdingItem>

    /** Builds the four indexes from the static tables. */
    constructor()
      ensures steelProfiles == ProfileIndex(SteelProfileRows)
      ensures facadeItems == ItemIndex(FacadeRows)
      ensures roofItems == ItemIndex(RoofRows)
      ensures accessories == ItemIndex(AccessoryRows)
    {
      var sp := InitSteelProfiles(SteelProfileRows);
      var fa := InitCladdingItems(FacadeRows);
      var ro := InitCladdingItems(RoofRows);
      var ac := InitCladdingItems(AccessoryRows);
      steelProfiles := sp;
      facadeItems := fa;
      roofItems := ro;
      accessories := ac;
    }

    /** `find_profile`, with the empty-name guard: exact key, then the first overlapping key in index order, then the "TYPE SIZE" key. */
    method FindProfile(searchTerm: string) returns (r: Option<SteelProfile>)
      ensures r == FindProfileStrict(steelProfiles, searchTerm)
    {
      var n := NormalizeProfileName(searchTerm);
      if n == "" {
        return None;
      }
      var exact := Get(steelProfiles, n);
      if exact.Some? {
        return exact;
      }
      var i := 0;
      while i < |steelProfiles|
        invariant 0 <= i <= |steelProfiles|
        invariant FirstOverlap(steelProfiles, n, 0) == FirstOverlap(steelProfiles, n, i)
      {
        if Overlaps(steelProfiles[i].0, n) {
          return Some(steelProfiles[i].1);
        }
        i := i + 1;
      }
      var key := TypeSizeKey(n);
      if key.Some? {
        return Get(steelProfiles, key.value);
      }
      return None;
    }

    /** The tables `find_cladding` searches for a category, in order facade, roof, accessories. */
    function CladdingSources(category: string): (sources: seq<Dict<CladdingItem>>)
      ensures |sources| <= 3
    {
      (if category in ["all", "facade"] then [facadeItems] else [])
      + (if category in ["all", "roof"] then [roofItems] else [])
      + (if category in ["all", "accessories"] then [accessories] else [])
    }

    /** `find_cladding`, with the empty-name guard: the tables of the category in order, the first one where the search succeeds. */
    method FindCladding(searchTerm: string, category: string) returns (r: Option<CladdingItem>)
      ensures r == FindInSourcesStrict(CladdingSources(category), NormalizeItemName(searchTerm))
    {
      var n := NormalizeItemName(searchTerm);
      if n == "" {
        return None;
      }
      var sources := CladdingSources(category);
      for s := 0 to |sources|
        invariant FindInSources(sources, n) == FindInSources(sources[s..], n)
      {
        assert sources[s..][1..] == sources[s + 1..];
        r := SearchSource(sources[s], n);
        if r.Some? {
          return;
        }
      }
      assert sources[|sources|..] == [];
      return None;
    }

    /** `get_all_profiles`: one profile per designation, sorted by designation. */
    method GetAllProfiles() returns (r: seq<SteelProfile>)
      ensures r == SortBy(FirstPerDesignation(Values(steelProfiles)), DesignationOf)
    {
      var seen: set<string> := {};
      var profiles: seq<SteelProfile> := [];
      var vs := Values(steelProfiles);
      for i := 0 to |vs|
        invariant profiles == FirstPerDesignation(vs[..i])
        invariant seen == DesignationsOf(vs[..i])
      {
        assert vs[..i + 1] == vs[..i] + [vs[i]];
        FirstPerDesignationSnoc(vs[..i], vs[i]);
        DesignationsSnoc(vs[..i], vs[i]);
        if vs[i].designation !in seen {
          seen := seen + {vs[i].designation};
          profiles := profiles + [vs[i]];
        }
      }
      assert vs[..|vs|] == vs;
      r := SortBy(profiles, DesignationOf);
    }
  }

  function DesignationOf(p: SteelProfile): string {
    p.designation
  }

  function DesignationsOf(ps: seq<SteelProfile>): set<string> {
    set i | 0 <= i < |ps| :: ps[i].designation
  }

  lemma DesignationsSnoc(ps: seq<SteelProfile>, p: SteelProfile)
    ensures DesignationsOf(ps + [p]) == DesignationsOf(ps) + {p.designation}
  {
    var qs := ps + [p];
    forall x | x in DesignationsOf(qs) ensures x in DesignationsOf(ps) + {p.designation} {
      var i :| 0 <= i < |qs| && qs[i].designation == x;
      if i < |ps| {
        assert ps[i].designation == x;
      }
    }
    forall x | x in DesignationsOf(ps) ensures x in DesignationsOf(qs) {
      var i :| 0 <= i < |ps| && ps[i].designation == x;
      assert qs[i].designation == x;
    }
    assert qs[|ps|].designation == p.designation;
  }

  /**
   * The first profile of each designation, in order (the `seen`-set loop):
   * every designation once (as many profiles as designations), each an
   * element of the input.
   */
  function FirstPerDesignation(ps: seq<SteelProfile>): (r: seq<SteelProfile>)
    ensures DesignationsOf(r) == DesignationsOf(ps)
    ensures |r| == |DesignationsOf(r)|
    ensures forall i :: 0 <= i < |r| ==> r[i] in ps
    decreases |ps|
  {
    if ps == [] then []
    else
      var init := ps[..|ps| - 1];
      var p := ps[|ps| - 1];
      var r0 := FirstPerDesignation(init);
      assert ps == init + [p];
      DesignationsSnoc(init, p);
      if p.designation in DesignationsOf(init) then r0
      else
        var r := r0 + [p];
        DesignationsSnoc(r0, p);
        r
  }

  /** One more profile is kept exactly when its designation is new. */
  lemma FirstPerDesignationSnoc(ps: seq<SteelProfile>, p: SteelProfile)
    ensures FirstPerDesignation(ps + [p])
            == if p.designation in DesignationsOf(ps) then FirstPerDesignation(ps) else FirstPerDesignation(ps) + [p]
  {
    assert (ps + [p])[..|ps|] == ps;
  }

  /** A reordering keeps the designations, the length and the elements. */
  lemma PermutationDesignations(u: seq<SteelProfile>, r: seq<SteelProfile>)
    requires multiset(r) == multiset(u)
    ensures DesignationsOf(r) == DesignationsOf(u) && |r| == |u|
    ensures forall i :: 0 <= i < |r| ==> r[i] in u
  {
    assert |multiset(r)| == |multiset(u)|;
    forall i | 0 <= i < |r| ensures r[i] in u {
      assert r[i] in multiset(r);
    }
    forall x | x in DesignationsOf(r) ensures x in DesignationsOf(u) {
      var i :| 0 <= i < |r| && r[i].designation == x;
      assert r[i] in multiset(u);
      var j :| 0 <= j < |u| && u[j] == r[i];
    }
    forall x | x in DesignationsOf(u) ensures x in DesignationsOf(r) {
      var j :| 0 <= j < |u| && u[j].designation == x;
      assert u[j] in multiset(r);
      var i :| 0 <= i < |r| && r[i] == u[j];
    }
  }

  /**
   * `get_all_profiles` lists every designation of the catalogue exactly
   * once (as many profiles as designations), in sorted order, and only
   * profiles of the catalogue.
   */
  lemma AllProfilesListing(index: Dict<SteelProfile>)
    ensures var r := SortBy(FirstPerDesignation(Values(index)), DesignationOf);
      SortedBy(r, DesignationOf)
      && DesignationsOf(r) == DesignationsOf(Values(index))
      && |r| == |DesignationsOf(Values(index))|
      && (forall i :: 0 <= i < |r| ==> r[i] in Values(index))
  {
    var u := FirstPerDesignation(Values(index));
    var r := SortBy(u, DesignationOf);
    PermutationDesignations(u, r);
  }

  // ---------------------------------------------------------------- structure and cladding totals

  /** One line of a structure request (`{"profile": ..., "length": ...}`, missing keys read as "" and 0). */
  datatype ProfileRequest = ProfileRequest(profile: string, length: real)

  datatype StructureCost = StructureCost(items: seq<ProfileCost>, totalWeightKg: real, totalWeightTon: real, totalCost: real)

  /** The priced lines: requests whose profile is found and whose length is positive. */
  function PricedProfiles(index: Dict<SteelProfile>, reqs: seq<ProfileRequest>): seq<ProfileCost> {
    ConcatMap(reqs, ProfileLines(index))
  }

  /** The line one request contributes: its cost when the profile is found and the length is positive. */
  function ProfileLine(index: Dict<SteelProfile>, q: ProfileRequest): (line: seq<ProfileCost>)
    ensures |line| <= 1
  {
    match FindProfileStrict(index, q.profile)
    case Some(p) => if q.length > 0.0 then [p.CalculateCost(q.length)] else []
    case None => []
  }

  function ProfileLines(index: Dict<SteelProfile>): ProfileRequest -> seq<ProfileCost> {
    q => ProfileLine(index, q)
  }

  function WeightOf(c: ProfileCost): real { c.weightKg }

  function ProfileCostOf(c: ProfileCost): real { c.totalCost }

  /** What `calculate_steel_structure_cost` reports. */
  function SteelStructureCost(index: Dict<SteelProfile>, reqs: seq<ProfileRequest>): StructureCost {
    var items := PricedProfiles(index, reqs);
    StructureCost(items, Sum(items, WeightOf), Sum(items, WeightOf) / 1000.0, Sum(items, ProfileCostOf))
  }

  /** `calculate_steel_structure_cost`, with the catalogue passed in. */
  method CalculateSteelStructureCost(db: CostDatabase, reqs: seq<ProfileRequest>) returns (r: StructureCost)
    ensures r == SteelStructureCost(db.steelProfiles, reqs)
  {
    var totalWeight := 0.0;
    var totalCost := 0.0;
    var items: seq<ProfileCost> := [];
    for i := 0 to |reqs|
      invariant items == PricedProfiles(db.steelProfiles, reqs[..i])
      invariant totalWeight == Sum(items, WeightOf) && totalCost == Sum(items, ProfileCostOf)
    {
      assert reqs[..i + 1][..i] == reqs[..i];
      ghost var line := ProfileLine(db.steelProfiles, reqs[i]);
      var profile := db.FindProfile(reqs[i].profile);
      if profile.Some? && reqs[i].length > 0.0 {
        var detail := profile.value.CalculateCost(reqs[i].length);
        assert line == [detail];
        assert (items + [detail])[..|items|] == items;
        items := items + [detail];
        totalWeight := totalWeight + detail.weightKg;
        totalCost := totalCost + detail.totalCost;
      } else {
        assert line == [];
        assert items + line == items;
      }
    }
    assert reqs[..|reqs|] == reqs;
    r := StructureCost(items, totalWeight, totalWeight / 1000.0, totalCost);
  }

  /**
   * Splitting a structure request in two and adding the reports gives the
   * report of the whole: weights, costs and line lists add up.
   */
  lemma SteelStructureCostAdditive(index: Dict<SteelProfile>, a: seq<ProfileRequest>, b: seq<ProfileRequest>)
    ensures SteelStructureCost(index, a + b).items == SteelStructureCost(index, a).items + SteelStructureCost(index, b).items
    ensures SteelStructureCost(index, a + b).totalWeightKg == SteelStructureCost(index, a).totalWeightKg + SteelStructureCost(index, b).totalWeightKg
    ensures SteelStructureCost(index, a + b).totalCost == SteelStructureCost(index, a).totalCost + SteelStructureCost(index, b).totalCost
  {
    ConcatMapAppend(a, b, ProfileLines(index));
    SumAppend(PricedProfiles(index, a), PricedProfiles(index, b), WeightOf);
    SumAppend(PricedProfiles(index, a), PricedProfiles(index, b), ProfileCostOf);
  }

  /** A single request contributes its line exactly when its profile is found and its length is positive. */
  lemma SteelStructureSingle(index: Dict<SteelProfile>, q: ProfileRequest)
    ensures SteelStructureCost(index, [q]).items ==
      if FindProfileStrict(index, q.profile).Some? && q.length > 0.0 then [FindProfileStrict(index, q.profile).value.CalculateCost(q.length)] else []
    ensures SteelStructureCost(index, [q]).totalWeightTon * 1000.0 == SteelStructureCost(index, [q]).totalWeightKg
  {
    var line := ProfileLine(index, q);
    assert PricedProfiles(index, [q]) == line by {
      assert [q][..0] == [];
      assert ConcatMap([q], ProfileLines(index)) == ConcatMap([], ProfileLines(index)) + ProfileLines(index)(q);
    }
  }

  /** One line of a cladding request (`{"item": ..., "quantity": ...}`, missing keys read as "" and 0). */
  datatype CladdingRequest = CladdingRequest(item: string, quantity: real)

  datatype CladdingTotal = CladdingTotal(items: seq<CladdingCost>, totalCost: real)

  /** The priced lines: requests whose item is found in some table and whose quantity is positive. */
  function PricedCladding(sources: seq<Dict<CladdingItem>>, reqs: seq<CladdingRequest>): seq<CladdingCost> {
    ConcatMap(reqs, CladdingLines(sources))
  }

  /** The line one request contributes: its cost when the item is found and the quantity is positive. */
  function CladdingLine(sources: seq<Dict<CladdingItem>>, q: CladdingRequest): (line: seq<CladdingCost>)
    ensures |line| <= 1
  {
    match FindInSourcesStrict(sources, NormalizeItemName(q.item))
    case Some(it) => if q.quantity > 0.0 then [it.CalculateCost(q.quantity)] else []
    case None => []
  }

  function CladdingLines(sources: seq<Dict<CladdingItem>>): CladdingRequest -> seq<CladdingCost> {
    q => CladdingLine(sources, q)
  }

  function CladdingCostOfLine(c: CladdingCost): real { c.totalCost }

  /** What `calculate_cladding_cost` reports, searching every table. */
  function CladdingCostOf(sources: seq<Dict<CladdingItem>>, reqs: seq<CladdingRequest>): CladdingTotal {
    var items := PricedCladding(sources, reqs);
    CladdingTotal(items, Sum(items, CladdingCostOfLine))
  }

  /** `calculate_cladding_cost`, with the catalogue passed in. */
  method CalculateCladdingCost(db: CostDatabase, reqs: seq<CladdingRequest>) returns (r: CladdingTotal)
    ensures r == CladdingCostOf(db.CladdingSources("all"), reqs)
  {
    var total := 0.0;
    var items: seq<CladdingCost> := [];
    ghost var sources := db.CladdingSources("all");
    for i := 0 to |reqs|
      invariant items == PricedCladding(sources, reqs[..i])
      invariant total == Sum(items, CladdingCostOfLine)
    {
      assert reqs[..i + 1][..i] == reqs[..i];
      ghost var line := CladdingLine(sources, reqs[i]);
      var item := db.FindCladding(reqs[i].item, "all");
      if item.Some? && reqs[i].quantity > 0.0 {
        var detail := item.value.CalculateCost(reqs[i].quantity);
        assert line == [detail];
        assert (items + [detail])[..|items|] == items;
        items := items + [detail];
        total := total + detail.totalCost;
      } else {
        assert line == [];
        assert items + line == items;
      }
    }
    assert reqs[..|reqs|] == reqs;
    r := CladdingTotal(items, total);
  }

  /** Splitting a cladding request in two and adding the totals gives the total of the whole. */
  lemma CladdingCostAdditiveOverRequests(sources: seq<Dict<CladdingItem>>, a: seq<CladdingRequest>, b: seq<CladdingRequest>)
    ensures CladdingCostOf(sources, a + b).items == CladdingCostOf(sources, a).items + CladdingCostOf(sources, b).items
    ensures CladdingCostOf(sources, a + b).totalCost == CladdingCostOf(sources, a).totalCost + CladdingCostOf(sources, b).totalCost
  {
    ConcatMapAppend(a, b, CladdingLines(sources));
    SumAppend(PricedCladding(sources, a), PricedCladding(sources, b), CladdingCostOfLine);
  }
}
