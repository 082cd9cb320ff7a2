/**
 * The bookkeeping of the DXF reader once the drawing's entities have been
 * read: weight and machining-time estimates per profile, the complexity
 * score, the polygon helpers (shoelace area, bounding box, centroid), the
 * quantity and material hints taken from texts and names, the compiled
 * material quantities, the unit-scale correction and the feature summary.
 *
 * The entities themselves come from the DXF library and are inputs here;
 * the material and quantity regular expressions are ordered tables of
 * matchers supplied to the parser, tried first to last.
 */
module Dxf {
  import opened Wrappers
  import opened Strings
  import opened Numerals
  import opened Dicts

  datatype Point = Point(x: real, y: real)

  function Abs(r: real): (a: real)
    ensures a >= 0.0 && (a == r || a == -r)
  {
    if r < 0.0 then -r else r
  }

  /** The `bounding_box` dict of a profile. */
  datatype BoundingBox = BoundingBox(minX: real, minY: real, maxX: real, maxY: real, width: real, height: real)

  /** A detected machining feature (notch, slot, hole...). */
  datatype Feature = Feature(featureType: string, position: Point, layer: string, machiningTimeMins: real)

  /** `ProfileData`: one closed or open outline of the drawing. */
  datatype ProfileData = ProfileData(
    profileId: string, layer: string, isClosed: bool, perimeterMm: real, areaMm2: real,
    bbox: BoundingBox, centroid: Point, vertexCount: int, features: seq<Feature>,
    complexityScore: real, materialHint: Option<string>, thicknessHint: Option<real>,
    quantity: int, lengthMm: real)
  {
    /** `thickness_mm or self.thickness_hint or 2.0`: the first non-zero of the three. */
    function Thickness(thicknessMm: Option<real>): (t: real)
      ensures t != 0.0
      ensures PresentReal(thicknessMm) ==> t == thicknessMm.value
      ensures !PresentReal(thicknessMm) && !PresentReal(thicknessHint) ==> t == 2.0
    {
      if PresentReal(thicknessMm) then thicknessMm.value
      else if PresentReal(thicknessHint) then thicknessHint.value
      else 2.0
    }

    /** Whether the weight is taken from the enclosed area (otherwise from the perimeter). */
    predicate WeighedByArea() {
      isClosed && areaMm2 > 0.0
    }

    /**
     * `calculate_weight`: section area times thickness for a closed outline
     * with area, otherwise a `t × t` section along the perimeter, in kg for a
     * density in kg/m³.
     */
    function CalculateWeight(densityKgM3: real, thicknessMm: Option<real>): (w: real)
      ensures !WeighedByArea() && perimeterMm <= 0.0 ==> w == 0.0
    {
      var t := Thickness(thicknessMm);
      if !WeighedByArea() then
        if perimeterMm > 0.0 then PerimeterWeight(perimeterMm, t, densityKgM3) else 0.0
      else
        AreaWeight(areaMm2, t, densityKgM3)
    }

    /** `calculate_machining_time`: 2 minutes scaled by complexity plus each feature's own time. */
    function CalculateMachiningTime(): real {
      2.0 * complexityScore + SumFeatureTimes(features)
    }
  }

  /** The volume in mm³ of a `t × t` section along a length. */
  function SquareSection(lengthMm: real, t: real): real {
    lengthMm * t * t
  }

  /** kg for a volume of `area × t` mm³ at a density in kg/m³. */
  function AreaWeight(areaMm2: real, t: real, densityKgM3: real): real {
    areaMm2 * t / 1000000000.0 * densityKgM3
  }

  /** kg for a `t × t` section along a length in mm at a density in kg/m³. */
  function PerimeterWeight(lengthMm: real, t: real, densityKgM3: real): real {
    SquareSection(lengthMm, t) / 1000000000.0 * densityKgM3
  }

  lemma SquareSectionNonNegative(lengthMm: real, t: real)
    requires lengthMm >= 0.0
    ensures SquareSection(lengthMm, t) >= 0.0
  {
    MulNonNegative(t, t);
    MulNonNegative(lengthMm, t * t);
    Associate(lengthMm, t, t);
  }

  function SumFeatureTimes(fs: seq<Feature>): real
    decreases |fs|
  {
    if fs == [] then 0.0 else SumFeatureTimes(fs[..|fs| - 1]) + fs[|fs| - 1].machiningTimeMins
  }

  lemma {:induction false} SumFeatureTimesNonNegative(fs: seq<Feature>)
    requires forall i :: 0 <= i < |fs| ==> fs[i].machiningTimeMins >= 0.0
    ensures SumFeatureTimes(fs) >= 0.0
    decreases |fs|
  {
    if fs != [] {
      SumFeatureTimesNonNegative(fs[..|fs| - 1]);
    }
  }

  /**
   * The estimated weight is never negative for a non-negative density, as
   * long as a closed outline's thickness is positive (an open outline's
   * `t × t` section is never negative).
   */
  lemma WeightNonNegative(p: ProfileData, densityKgM3: real, thicknessMm: Option<real>)
    requires densityKgM3 >= 0.0
    requires p.WeighedByArea() ==> p.Thickness(thicknessMm) > 0.0
    ensures p.CalculateWeight(densityKgM3, thicknessMm) >= 0.0
  {
    var t := p.Thickness(thicknessMm);
    if p.WeighedByArea() {
      assert AreaWeight(p.areaMm2, t, densityKgM3) >= 0.0 by {
        MulNonNegative(p.areaMm2, t);
        MulNonNegative(p.areaMm2 * t / 1000000000.0, densityKgM3);
      }
    } else if p.perimeterMm > 0.0 {
      assert PerimeterWeight(p.perimeterMm, t, densityKgM3) >= 0.0 by {
        SquareSectionNonNegative(p.perimeterMm, t);
        MulNonNegative(SquareSection(p.perimeterMm, t) / 1000000000.0, densityKgM3);
      }
    }
  }

  lemma MulNonNegative(a: real, b: real)
    requires (a >= 0.0 && b >= 0.0) || a == b
    ensures a * b >= 0.0
  {
  }

  lemma MulPositive(a: real, b: real)
    requires a > 0.0 && b > 0.0
    ensures a * b > 0.0
  {
  }

  lemma MulNonPositive(a: real, b: real)
    requires a <= 0.0 && b >= 0.0
    ensures a * b <= 0.0
  {
  }

  /**
   * Once complexity scoring has run, the machining time of a profile is two to
   * six minutes on top of the time of the features found near it.
   */
  lemma MachiningTimeBounds(p: ProfileData, fs: seq<Feature>)
    ensures var q := WithComplexity(p, fs);
      2.0 <= q.CalculateMachiningTime() - SumFeatureTimes(q.features) <= 6.0
  {
    ComplexityBounds(p, fs);
  }

  // ---------------------------------------------------------------- polygons

  /** The `i`-th term of the shoelace sum, pairing vertex `i` with the next one (wrapping around). */
  function CrossTerm(points: seq<Point>, i: nat): real
    requires i < |points|
  {
    var j := (i + 1) % |points|;
    points[i].x * points[j].y - points[j].x * points[i].y
  }

  /** The first `k` terms of the shoelace sum. */
  function CrossSum(points: seq<Point>, k: nat): real
    requires k <= |points|
  {
    if k == 0 then 0.0 else CrossSum(points, k - 1) + CrossTerm(points, k - 1)
  }

  /** The area the shoelace formula assigns to a polygon; degenerate below three vertices. */
  function PolygonArea(points: seq<Point>): (a: real)
    ensures a >= 0.0
    ensures |points| < 3 ==> a == 0.0
  {
    if |points| < 3 then 0.0 else Abs(CrossSum(points, |points|)) / 2.0
  }

  /** `_calculate_area`: the accumulator loop over the vertices, then half the absolute value. */
  method CalculateArea(points: seq<Point>) returns (area: real)
    ensures area == PolygonArea(points)
  {
    var n := |points|;
    if n < 3 {
      return 0.0;
    }
    var acc := 0.0;
    for i := 0 to n
      invariant acc == CrossSum(points, i)
    {
      var j := (i + 1) % n;
      acc := acc + points[i].x * points[j].y;
      acc := acc - points[j].x * points[i].y;
    }
    area := Abs(acc) / 2.0;
  }

  function ScalePoints(points: seq<Point>, f: real): (r: seq<Point>)
    ensures |r| == |points|
  {
    seq(|points|, i requires 0 <= i < |points| => Point(f * points[i].x, f * points[i].y))
  }

  /** An area measured in units whose lengths are scaled by `f`: `a × f²`. */
  function ScaleArea(a: real, f: real): real {
    a * (f * f)
  }

  lemma ScaleAreaAdd(a: real, b: real, f: real)
    ensures ScaleArea(a + b, f) == ScaleArea(a, f) + ScaleArea(b, f)
  {
  }

  lemma ScaleAreaAbs(a: real, f: real)
    ensures Abs(ScaleArea(a, f)) == ScaleArea(Abs(a), f)
  {
    MulNonNegative(f, f);
    if a < 0.0 {
      MulNonPositive(a, f * f);
      assert ScaleArea(-a, f) == -ScaleArea(a, f);
    } else {
      MulNonNegative(a, f * f);
    }
  }

  lemma ScaleAreaHalf(a: real, f: real)
    ensures ScaleArea(a, f) / 2.0 == ScaleArea(a / 2.0, f)
  {
  }

  /** With a positive factor the scaled area is positive exactly when the area is. */
  lemma ScaleAreaSign(a: real, f: real)
    requires f > 0.0
    ensures ScaleArea(a, f) > 0.0 <==> a > 0.0
  {
    assert ScaleArea(a, f) == (a * f) * f;
    if a > 0.0 {
      MulPositive(a, f);
      MulPositive(a * f, f);
    } else {
      MulNonPositive(a, f);
      MulNonPositive(a * f, f);
    }
  }

  /** Scaling by `f` and then by `g` is scaling by `f·g`. */
  lemma ScaleAreaCompose(a: real, f: real, g: real)
    ensures ScaleArea(ScaleArea(a, f), g) == ScaleArea(a, f * g)
  {
  }

  lemma CrossTermScales(points: seq<Point>, f: real, i: nat)
    requires i < |points|
    ensures CrossTerm(ScalePoints(points, f), i) == ScaleArea(CrossTerm(points, i), f)
  {
  }

  lemma {:induction false} CrossSumScales(points: seq<Point>, f: real, k: nat)
    requires k <= |points|
    ensures CrossSum(ScalePoints(points, f), k) == ScaleArea(CrossSum(points, k), f)
    decreases k
  {
    if k > 0 {
      CrossSumScales(points, f, k - 1);
      CrossTermScales(points, f, k - 1);
      ScaleAreaAdd(CrossSum(points, k - 1), CrossTerm(points, k - 1), f);
    }
  }

  /** Scaling every coordinate by `f` scales the area by `f²`, the rule the unit correction applies to areas. */
  lemma AreaScales(points: seq<Point>, f: real)
    ensures PolygonArea(ScalePoints(points, f)) == ScaleArea(PolygonArea(points), f)
  {
    if |points| >= 3 {
      var s := CrossSum(points, |points|);
      CrossSumScales(points, f, |points|);
      ScaleAreaAbs(s, f);
      ScaleAreaHalf(Abs(s), f);
    }
  }

  /** A `w × h` rectangle listed corner by corner has area `|w·h|`. */
  lemma RectangleArea(w: real, h: real)
    ensures PolygonArea([Point(0.0, 0.0), Point(w, 0.0), Point(w, h), Point(0.0, h)]) == Abs(w * h)
  {
    var pts := [Point(0.0, 0.0), Point(w, 0.0), Point(w, h), Point(0.0, h)];
    assert CrossTerm(pts, 0) == 0.0;
    assert CrossTerm(pts, 1) == w * h;
    assert CrossTerm(pts, 2) == w * h;
    assert CrossTerm(pts, 3) == 0.0;
    assert CrossSum(pts, 1) == 0.0;
    assert CrossSum(pts, 2) == w * h;
    assert CrossSum(pts, 3) == 2.0 * (w * h);
    assert CrossSum(pts, 4) == 2.0 * (w * h);
  }

  function MinX(points: seq<Point>): (m: real)
    requires points != []
    ensures forall i :: 0 <= i < |points| ==> m <= points[i].x
    ensures exists i :: 0 <= i < |points| && m == points[i].x
    decreases |points|
  {
    if |points| == 1 then points[0].x
    else
      var m := MinX(points[..|points| - 1]);
      assert forall i :: 0 <= i < |points| - 1 ==> points[..|points| - 1][i] == points[i];
      MinReal(m, points[|points| - 1].x)
  }

  function MaxX(points: seq<Point>): (m: real)
    requires points != []
    ensures forall i :: 0 <= i < |points| ==> points[i].x <= m
    ensures exists i :: 0 <= i < |points| && m == points[i].x
    decreases |points|
  {
    if |points| == 1 then points[0].x
    else
      var m := MaxX(points[..|points| - 1]);
      assert forall i :: 0 <= i < |points| - 1 ==> points[..|points| - 1][i] == points[i];
      MaxReal(m, points[|points| - 1].x)
  }

  function MinY(points: seq<Point>): (m: real)
    requires points != []
    ensures forall i :: 0 <= i < |points| ==> m <= points[i].y
    ensures exists i :: 0 <= i < |points| && m == points[i].y
    decreases |points|
  {
    if |points| == 1 then points[0].y
    else
      var m := MinY(points[..|points| - 1]);
      assert forall i :: 0 <= i < |points| - 1 ==> points[..|points| - 1][i] == points[i];
      MinReal(m, points[|points| - 1].y)
  }

  function MaxY(points: seq<Point>): (m: real)
    requires points != []
    ensures forall i :: 0 <= i < |points| ==> points[i].y <= m
    ensures exists i :: 0 <= i < |points| && m == points[i].y
    decreases |points|
  {
    if |points| == 1 then points[0].y
    else
      var m := MaxY(points[..|points| - 1]);
      assert forall i :: 0 <= i < |points| - 1 ==> points[..|points| - 1][i] == points[i];
      MaxReal(m, points[|points| - 1].y)
  }

  /**
   * `_calculate_bounding_box`: all zeros for no points; otherwise the
   * smallest axis-aligned box holding every point, with its width and height.
   */
  function CalculateBoundingBox(points: seq<Point>): (b: BoundingBox)
    ensures points == [] ==> b == BoundingBox(0.0, 0.0, 0.0, 0.0, 0.0, 0.0)
    ensures b.width == b.maxX - b.minX >= 0.0 && b.height == b.maxY - b.minY >= 0.0
    ensures forall i :: 0 <= i < |points| ==>
      b.minX <= points[i].x <= b.maxX && b.minY <= points[i].y <= b.maxY
    ensures points != [] ==>
      (exists i :: 0 <= i < |points| && points[i].x == b.minX) &&
      (exists i :: 0 <= i < |points| && points[i].x == b.maxX) &&
      (exists i :: 0 <= i < |points| && points[i].y == b.minY) &&
      (exists i :: 0 <= i < |points| && points[i].y == b.maxY)
  {
    if points == [] then BoundingBox(0.0, 0.0, 0.0, 0.0, 0.0, 0.0)
    else
      var minX, maxX, minY, maxY := MinX(points), MaxX(points), MinY(points), MaxY(points);
      BoundingBox(minX, minY, maxX, maxY, maxX - minX, maxY - minY)
  }

  function SumX(points: seq<Point>): real
    decreases |points|
  {
    if points == [] then 0.0 else SumX(points[..|points| - 1]) + points[|points| - 1].x
  }

  function SumY(points: seq<Point>): real
    decreases |points|
  {
    if points == [] then 0.0 else SumY(points[..|points| - 1]) + points[|points| - 1].y
  }

  /** `_calculate_centroid`: the mean of the coordinates, `(0, 0)` for no points. */
  function CalculateCentroid(points: seq<Point>): (c: Point)
    ensures points == [] ==> c == Point(0.0, 0.0)
    ensures points != [] ==> c.x * |points| as real == SumX(points) && c.y * |points| as real == SumY(points)
  {
    if points == [] then Point(0.0, 0.0)
    else Point(SumX(points) / |points| as real, SumY(points) / |points| as real)
  }

  lemma {:induction false} SumXBounds(points: seq<Point>, lo: real, hi: real)
    requires forall i :: 0 <= i < |points| ==> lo <= points[i].x <= hi
    ensures |points| as real * lo <= SumX(points) <= |points| as real * hi
    decreases |points|
  {
    if points != [] {
      var init := points[..|points| - 1];
      assert forall i :: 0 <= i < |init| ==> init[i] == points[i];
      SumXBounds(init, lo, hi);
    }
  }

  lemma {:induction false} SumYBounds(points: seq<Point>, lo: real, hi: real)
    requires forall i :: 0 <= i < |points| ==> lo <= points[i].y <= hi
    ensures |points| as real * lo <= SumY(points) <= |points| as real * hi
    decreases |points|
  {
    if points != [] {
      var init := points[..|points| - 1];
      assert forall i :: 0 <= i < |init| ==> init[i] == points[i];
      SumYBounds(init, lo, hi);
    }
  }

  /** The centroid lies inside the bounding box of the same points. */
  lemma CentroidInBoundingBox(points: seq<Point>)
    ensures var b, c := CalculateBoundingBox(points), CalculateCentroid(points);
      b.minX <= c.x <= b.maxX && b.minY <= c.y <= b.maxY
  {
    if points != [] {
      MeanXBetween(points, MinX(points), MaxX(points));
      MeanYBetween(points, MinY(points), MaxY(points));
    }
  }

  /** The mean of the x coordinates lies between any bounds of all of them. */
  lemma MeanXBetween(points: seq<Point>, lo: real, hi: real)
    requires points != []
    requires forall i :: 0 <= i < |points| ==> lo <= points[i].x <= hi
    ensures lo <= SumX(points) / |points| as real <= hi
  {
    SumXBounds(points, lo, hi);
    MeanBetween(SumX(points), |points| as real, lo, hi);
  }

  /** The mean of the y coordinates lies between any bounds of all of them. */
  lemma MeanYBetween(points: seq<Point>, lo: real, hi: real)
    requires points != []
    requires forall i :: 0 <= i < |points| ==> lo <= points[i].y <= hi
    ensures lo <= SumY(points) / |points| as real <= hi
  {
    SumYBounds(points, lo, hi);
    MeanBetween(SumY(points), |points| as real, lo, hi);
  }

  /** A sum of `n` terms between `lo` and `hi` has its mean between them too. */
  lemma MeanBetween(sum: real, n: real, lo: real, hi: real)
    requires n > 0.0 && n * lo <= sum <= n * hi
    ensures lo <= sum / n <= hi
  {
    var c := sum / n;
    assert c * n == sum;
    PositiveFactor(c - lo, n);
    PositiveFactor(hi - c, n);
  }

  lemma PositiveFactor(x: real, n: real)
    requires n > 0.0 && x * n >= 0.0
    ensures x >= 0.0
  {
  }

  // ---------------------------------------------------------------- complexity

  /** `1 + (vertices − 4) × 0.05`, clamped to [1, 2]. */
  function VertexFactor(vertexCount: int): (v: real)
    ensures 1.0 <= v <= 2.0
    ensures 4 <= vertexCount <= 24 ==> v == 1.0 + (vertexCount - 4) as real * 0.05
  {
    MaxReal(1.0, MinReal(1.0 + (vertexCount - 4) as real * 0.05, 2.0))
  }

  /** `1 + (aspect − 1) × 0.03` capped at 1.3 for a box with positive sides, 1 otherwise. */
  function AspectFactor(b: BoundingBox): (a: real)
    ensures 1.0 <= a <= 1.3
    ensures b.width <= 0.0 || b.height <= 0.0 ==> a == 1.0
  {
    if b.height > 0.0 && b.width > 0.0 then
      var longer, shorter := MaxReal(b.width, b.height), MinReal(b.width, b.height);
      var aspect := longer / shorter;
      assert aspect >= 1.0 by {
        assert aspect * shorter == longer;
        assert (aspect - 1.0) * shorter == longer - shorter;
        PositiveFactor(aspect - 1.0, shorter);
      }
      MinReal(1.0 + (aspect - 1.0) * 0.03, 1.3)
    else
      1.0
  }

  /** A feature counts towards a profile when it is on the same layer or within 100 mm on both axes of the centroid. */
  predicate Near(p: ProfileData, f: Feature) {
    f.layer == p.layer
    || (Abs(f.position.x - p.centroid.x) < 100.0 && Abs(f.position.y - p.centroid.y) < 100.0)
  }

  /** The features near a profile, in detection order. */
  function NearFeatures(p: ProfileData, fs: seq<Feature>): (r: seq<Feature>)
    ensures |r| <= |fs|
    ensures forall f :: f in r <==> f in fs && Near(p, f)
    decreases |fs|
  {
    if fs == [] then []
    else
      var init := NearFeatures(p, fs[..|fs| - 1]);
      var f := fs[|fs| - 1];
      assert fs == fs[..|fs| - 1] + [f];
      if Near(p, f) then init + [f] else init
  }

  function FeatureFactor(nearCount: nat): real {
    1.0 + nearCount as real * 0.15
  }

  /** The complexity score: the product of the three factors, capped at 3. */
  function ComplexityScore(p: ProfileData, fs: seq<Feature>): real {
    MinReal(3.0, VertexFactor(p.vertexCount) * FeatureFactor(|NearFeatures(p, fs)|) * AspectFactor(p.bbox))
  }

  /** What `_calculate_complexity` makes of one profile: its score and the features near it. */
  function WithComplexity(p: ProfileData, fs: seq<Feature>): ProfileData {
    p.(complexityScore := ComplexityScore(p, fs), features := NearFeatures(p, fs))
  }

  function Scored(ps: seq<ProfileData>, fs: seq<Feature>): (r: seq<ProfileData>)
    ensures |r| == |ps|
  {
    seq(|ps|, i requires 0 <= i < |ps| => WithComplexity(ps[i], fs))
  }

  /** Every complexity score lies in [1, 3]. */
  lemma ComplexityBounds(p: ProfileData, fs: seq<Feature>)
    ensures 1.0 <= ComplexityScore(p, fs) <= 3.0
  {
    var v, f, a := VertexFactor(p.vertexCount), FeatureFactor(|NearFeatures(p, fs)|), AspectFactor(p.bbox);
    AtLeastOneProduct(v, f);
    AtLeastOneProduct(v * f, a);
  }

  lemma AtLeastOneProduct(x: real, y: real)
    requires x >= 1.0 && y >= 1.0
    ensures x * y >= 1.0
  {
    assert x * y - 1.0 == (x - 1.0) * (y - 1.0) + (x - 1.0) + (y - 1.0);
    MulNonNegative(x - 1.0, y - 1.0);
  }

  // ---------------------------------------------------------------- scale correction

  /** A length measured in units scaled by `f`. */
  function Scaled(x: real, f: real): real {
    x * f
  }

  /** Scaling a length by `f` and then by `g` is scaling it by `f·g`. */
  lemma ScaledTwice(x: real, f: real, g: real)
    ensures Scaled(Scaled(x, f), g) == Scaled(x, f * g)
  {
    Associate(x, f, g);
  }

  function ScaleBox(b: BoundingBox, f: real): BoundingBox {
    BoundingBox(Scaled(b.minX, f), Scaled(b.minY, f), Scaled(b.maxX, f), Scaled(b.maxY, f),
                Scaled(b.width, f), Scaled(b.height, f))
  }

  /** Lengths scale by `f`, areas by `f²`. */
  function ScaleProfile(p: ProfileData, f: real): ProfileData {
    p.(perimeterMm := Scaled(p.perimeterMm, f), areaMm2 := ScaleArea(p.areaMm2, f), lengthMm := Scaled(p.lengthMm, f),
       bbox := ScaleBox(p.bbox, f))
  }

  function ScaleProfiles(ps: seq<ProfileData>, f: real): (r: seq<ProfileData>)
    ensures |r| == |ps|
  {
    seq(|ps|, i requires 0 <= i < |ps| => ScaleProfile(ps[i], f))
  }

  function ScaleQuantity(m: MaterialQuantity, f: real): MaterialQuantity {
    m.(unitLengthMm := Scaled(m.unitLengthMm, f), totalLengthMm := Scaled(m.totalLengthMm, f),
       unitAreaMm2 := ScaleArea(m.unitAreaMm2, f), totalAreaMm2 := ScaleArea(m.totalAreaMm2, f))
  }

  function ScaleQuantities(ms: seq<MaterialQuantity>, f: real): (r: seq<MaterialQuantity>)
    ensures |r| == |ms|
  {
    seq(|ms|, i requires 0 <= i < |ms| => ScaleQuantity(ms[i], f))
  }

  /** A factor of 1 changes nothing, so skipping the correction at 1.0 is the same as applying it. */
  lemma ScaleByOne(ps: seq<ProfileData>, ms: seq<MaterialQuantity>)
    ensures ScaleProfiles(ps, 1.0) == ps && ScaleQuantities(ms, 1.0) == ms
  {
    assert forall i :: 0 <= i < |ps| ==> ScaleProfiles(ps, 1.0)[i] == ps[i];
    assert forall i :: 0 <= i < |ms| ==> ScaleQuantities(ms, 1.0)[i] == ms[i];
  }

  /** Correcting by `f` and then by `g` is correcting once by `f·g`. */
  lemma ScaleCompose(p: ProfileData, f: real, g: real)
    ensures ScaleProfile(ScaleProfile(p, f), g) == ScaleProfile(p, f * g)
  {
    var q, r := ScaleProfile(ScaleProfile(p, f), g), ScaleProfile(p, f * g);
    ScaledTwice(p.perimeterMm, f, g);
    ScaledTwice(p.lengthMm, f, g);
    assert q.areaMm2 == r.areaMm2 by { ScaleAreaCompose(p.areaMm2, f, g); }
    assert q.bbox == r.bbox by { ScaleBoxCompose(p.bbox, f, g); }
  }

  lemma ScaleBoxCompose(b: BoundingBox, f: real, g: real)
    ensures ScaleBox(ScaleBox(b, f), g) == ScaleBox(b, f * g)
  {
    ScaledTwice(b.minX, f, g);
    ScaledTwice(b.minY, f, g);
    ScaledTwice(b.maxX, f, g);
    ScaledTwice(b.maxY, f, g);
    ScaledTwice(b.width, f, g);
    ScaledTwice(b.height, f, g);
  }

  /**
   * After correcting by a positive factor `f`, an outline weighed by its area
   * weighs `f²` times as much and one weighed by its perimeter `f` times as much.
   */
  lemma WeightAfterScale(p: ProfileData, f: real, densityKgM3: real, thicknessMm: Option<real>)
    requires f > 0.0
    ensures ScaleProfile(p, f).WeighedByArea() == p.WeighedByArea()
    ensures p.WeighedByArea() ==>
      ScaleProfile(p, f).CalculateWeight(densityKgM3, thicknessMm) == ScaleArea(p.CalculateWeight(densityKgM3, thicknessMm), f)
    ensures !p.WeighedByArea() ==>
      ScaleProfile(p, f).CalculateWeight(densityKgM3, thicknessMm) == f * p.CalculateWeight(densityKgM3, thicknessMm)
  {
    var q := ScaleProfile(p, f);
    var t := p.Thickness(thicknessMm);
    assert q.Thickness(thicknessMm) == t;
    assert q.areaMm2 > 0.0 <==> p.areaMm2 > 0.0 by { ScaleAreaSign(p.areaMm2, f); }
    assert q.perimeterMm > 0.0 <==> p.perimeterMm > 0.0 by { SignPreserved(p.perimeterMm, f); }
    if p.WeighedByArea() {
      AreaWeightScales(p.areaMm2, f, t, densityKgM3);
    } else if p.perimeterMm > 0.0 {
      PerimeterWeightScales(p.perimeterMm, f, t, densityKgM3);
    }
  }

  /** Scaling a length by `f` before weighing by perimeter scales the weight by `f`. */
  lemma PerimeterWeightScales(x: real, f: real, t: real, d: real)
    ensures PerimeterWeight(x * f, t, d) == f * PerimeterWeight(x, t, d)
  {
  }

  /** Scaling an area by `f²` before weighing it scales the weight by `f²`. */
  lemma AreaWeightScales(x: real, f: real, t: real, d: real)
    ensures AreaWeight(ScaleArea(x, f), t, d) == ScaleArea(AreaWeight(x, t, d), f)
  {
  }

  lemma SignPreserved(x: real, k: real)
    requires k > 0.0
    ensures x * k > 0.0 <==> x > 0.0
  {
    if x > 0.0 {
      MulPositive(x, k);
    } else {
      MulNonPositive(x, k);
    }
  }

  // ---------------------------------------------------------------- texts and hints

  /** A text entity with its cleaned content, its insertion point and the quantity read from it. */
  datatype TextRecord = TextRecord(content: string, position: Point, quantityHint: Option<int>)

  /** A quantity read from text is kept only when it lies strictly between 0 and 10000. */
  predicate SaneQuantity(m: Option<nat>) {
    m.Some? && 0 < m.value < 10000
  }

  /** The first quantity pattern, from `from` on, whose captured number is a sane quantity. */
  function QuantityPatternIndex(patterns: seq<string -> Option<nat>>, text: string, from: nat): (r: Option<nat>)
    requires from <= |patterns|
    ensures r.Some? ==> from <= r.value < |patterns| && SaneQuantity(patterns[r.value](text))
    ensures r.Some? ==> forall j :: from <= j < r.value ==> !SaneQuantity(patterns[j](text))
    ensures r.None? ==> forall j :: from <= j < |patterns| ==> !SaneQuantity(patterns[j](text))
    decreases |patterns| - from
  {
    if from == |patterns| then None
    else if SaneQuantity(patterns[from](text)) then Some(from)
    else QuantityPatternIndex(patterns, text, from + 1)
  }

  /** `_extract_quantity_from_text` as a value: the quantity of the first pattern that yields a sane one. */
  function QuantityFromText(patterns: seq<string -> Option<nat>>, text: string): (r: Option<nat>)
    ensures r.Some? ==> 0 < r.value < 10000
    ensures r.None? <==> forall j :: 0 <= j < |patterns| ==> !SaneQuantity(patterns[j](Strip(text)))
    ensures r.Some? ==> exists j :: 0 <= j < |patterns| && patterns[j](Strip(text)) == r
  {
    match QuantityPatternIndex(patterns, Strip(text), 0)
    case Some(i) => patterns[i](Strip(text))
    case None => None
  }

  /** The first material, from `from` on, whose pattern matches. */
  function MaterialPatternIndex(patterns: Dict<string -> bool>, name: string, from: nat): (r: Option<nat>)
    requires from <= |patterns|
    ensures r.Some? ==> from <= r.value < |patterns| && patterns[r.value].1(name)
    ensures r.Some? ==> forall j :: from <= j < r.value ==> !patterns[j].1(name)
    ensures r.None? ==> forall j :: from <= j < |patterns| ==> !patterns[j].1(name)
    decreases |patterns| - from
  {
    if from == |patterns| then None
    else if patterns[from].1(name) then Some(from)
    else MaterialPatternIndex(patterns, name, from + 1)
  }

  /** `_detect_material_from_name` as a value: the first material whose pattern matches the lower-cased name. */
  function MaterialFromName(patterns: Dict<string -> bool>, name: string): (r: Option<string>)
    ensures r.None? <==> forall j :: 0 <= j < |patterns| ==> !patterns[j].1(Lower(name))
    ensures r.Some? ==> exists j :: 0 <= j < |patterns| && patterns[j].1(Lower(name)) && patterns[j].0 == r.value
  {
    match MaterialPatternIndex(patterns, Lower(name), 0)
    case Some(i) => Some(patterns[i].0)
    case None => None
  }

  /** The material names of the pattern table, in the order they are tried. */
  const MaterialNames: seq<string> := ["aluminio", "aco", "vidro", "borracha", "perfil", "chapa", "acessorio"]

  /** `sqrt(dx² + dy²) < radius`, compared on squares. */
  predicate Within(a: Point, b: Point, radius: real) {
    0.0 <= radius && (a.x - b.x) * (a.x - b.x) + (a.y - b.y) * (a.y - b.y) < radius * radius
  }

  /** A text supplies a quantity for a position when it has a non-zero hint and lies within the radius. */
  predicate SuppliesQuantity(t: TextRecord, position: Point, radius: real) {
    t.quantityHint.Some? && t.quantityHint.value != 0 && Within(position, t.position, radius)
  }

  /** The hint of the first text, from `from` on, near the position, else 1. */
  function NearbyQuantity(texts: seq<TextRecord>, position: Point, radius: real, from: nat): int
    requires from <= |texts|
    decreases |texts| - from
  {
    if from == |texts| then 1
    else if SuppliesQuantity(texts[from], position, radius) then texts[from].quantityHint.value
    else NearbyQuantity(texts, position, radius, from + 1)
  }

  /** The first supplying text decides the quantity. */
  lemma {:induction false} NearbyQuantityFirst(texts: seq<TextRecord>, position: Point, radius: real, from: nat, i: nat)
    requires from <= i < |texts| && SuppliesQuantity(texts[i], position, radius)
    requires forall j :: from <= j < i ==> !SuppliesQuantity(texts[j], position, radius)
    ensures NearbyQuantity(texts, position, radius, from) == texts[i].quantityHint.value
    decreases i - from
  {
    if from < i {
      NearbyQuantityFirst(texts, position, radius, from + 1, i);
    }
  }

  /** With no supplying text the quantity is 1. */
  lemma {:induction false} NearbyQuantityDefault(texts: seq<TextRecord>, position: Point, radius: real, from: nat)
    requires from <= |texts|
    requires forall j :: from <= j < |texts| ==> !SuppliesQuantity(texts[j], position, radius)
    ensures NearbyQuantity(texts, position, radius, from) == 1
    decreases |texts| - from
  {
    if from < |texts| {
      NearbyQuantityDefault(texts, position, radius, from + 1);
    }
  }

  /** When every hint came from the quantity extraction, the quantity found is in [1, 10000). */
  lemma {:induction false} NearbyQuantityRange(texts: seq<TextRecord>, position: Point, radius: real, from: nat)
    requires from <= |texts|
    requires forall j :: 0 <= j < |texts| && texts[j].quantityHint.Some? ==> 0 < texts[j].quantityHint.value < 10000
    ensures 1 <= NearbyQuantity(texts, position, radius, from) < 10000
    decreases |texts| - from
  {
    if from < |texts| && !SuppliesQuantity(texts[from], position, radius) {
      NearbyQuantityRange(texts, position, radius, from + 1);
    }
  }

  // ---------------------------------------------------------------- material quantities

  /** A `MaterialQuantity` record. */
  datatype MaterialQuantity = MaterialQuantity(
    materialType: string, profileReference: string, description: string, quantity: int,
    unitLengthMm: real, totalLengthMm: real, unitWeightKg: real, totalWeightKg: real,
    layer: string, source: string, unitAreaMm2: real, totalAreaMm2: real)

  /** A block definition with the number of times it is inserted and the geometry inside it. */
  datatype BlockInfo = BlockInfo(count: int, totalPerimeter: real, totalArea: real, materialHint: Option<string>)

  predicate BlockCounts(b: BlockInfo) {
    b.count > 0 && b.totalPerimeter > 0.0
  }

  function BlockEntry(name: string, b: BlockInfo): MaterialQuantity {
    MaterialQuantity(OrElse(b.materialHint, "aluminio"), name, "Bloco: " + name, b.count,
      b.totalPerimeter, b.totalPerimeter * b.count as real, 0.0, 0.0,
      "BLOCKS", "block_count", b.totalArea, b.totalArea * b.count as real)
  }

  /** One entry per inserted block with geometry, in block order. */
  function BlockQuantities(blocks: Dict<BlockInfo>): (r: seq<MaterialQuantity>)
    ensures |r| <= |blocks|
    decreases |blocks|
  {
    if blocks == [] then []
    else
      var init := BlockQuantities(blocks[..|blocks| - 1]);
      var (name, b) := blocks[|blocks| - 1];
      if BlockCounts(b) then init + [BlockEntry(name, b)] else init
  }

  /** Block entries are exactly the entries of the blocks that are inserted and have a perimeter. */
  lemma {:induction false} BlockQuantitiesMembers(blocks: Dict<BlockInfo>, m: MaterialQuantity)
    ensures m in BlockQuantities(blocks) <==>
      exists i :: 0 <= i < |blocks| && BlockCounts(blocks[i].1) && m == BlockEntry(blocks[i].0, blocks[i].1)
    decreases |blocks|
  {
    if blocks != [] {
      var init := blocks[..|blocks| - 1];
      BlockQuantitiesMembers(init, m);
      assert forall i :: 0 <= i < |init| ==> init[i] == blocks[i];
    }
  }

  /** Every block entry counts whole insertions and its total length is the unit length times the count. */
  lemma BlockEntryFacts(name: string, b: BlockInfo)
    requires BlockCounts(b)
    ensures var m := BlockEntry(name, b);
      m.quantity > 0 && m.unitLengthMm > 0.0 && m.totalLengthMm == m.unitLengthMm * m.quantity as real
      && m.totalLengthMm > 0.0 && m.source == "block_count" && m.layer == "BLOCKS"
  {
    assert b.count as real >= 1.0;
    assert b.totalPerimeter * b.count as real >= b.totalPerimeter;
  }

  /** The running totals of one layer. */
  datatype LayerAggregate = LayerAggregate(
    count: nat, totalPerimeter: real, totalArea: real, totalQuantity: int, material: Option<string>)

  const EmptyAggregate := LayerAggregate(0, 0.0, 0.0, 0, None)

  /** Adds one profile: its perimeter and area weighted by its quantity; a material hint, when given, replaces the layer's. */
  function AddToAggregate(a: LayerAggregate, p: ProfileData): LayerAggregate {
    LayerAggregate(a.count + 1, a.totalPerimeter + p.perimeterMm * p.quantity as real,
      a.totalArea + p.areaMm2 * p.quantity as real, a.totalQuantity + p.quantity,
      if Present(p.materialHint) then p.materialHint else a.material)
  }

  /** The `defaultdict` of layer totals, keyed by layer in order of first appearance. */
  function LayerAggregates(ps: seq<ProfileData>): Dict<LayerAggregate>
    decreases |ps|
  {
    if ps == [] then []
    else
      var d := LayerAggregates(ps[..|ps| - 1]);
      var p := ps[|ps| - 1];
      Put(d, p.layer, AddToAggregate(Get(d, p.layer).GetOr(EmptyAggregate), p))
  }

  /** The profiles drawn on one layer, in order. */
  function ProfilesOnLayer(ps: seq<ProfileData>, layer: string): (r: seq<ProfileData>)
    ensures forall p :: p in r <==> p in ps && p.layer == layer
    decreases |ps|
  {
    if ps == [] then []
    else
      var init := ProfilesOnLayer(ps[..|ps| - 1], layer);
      assert ps == ps[..|ps| - 1] + [ps[|ps| - 1]];
      if ps[|ps| - 1].layer == layer then init + [ps[|ps| - 1]] else init
  }

  function FoldAggregate(ps: seq<ProfileData>): LayerAggregate
    decreases |ps|
  {
    if ps == [] then EmptyAggregate else AddToAggregate(FoldAggregate(ps[..|ps| - 1]), ps[|ps| - 1])
  }

  function SumQuantity(ps: seq<ProfileData>): int
    decreases |ps|
  {
    if ps == [] then 0 else SumQuantity(ps[..|ps| - 1]) + ps[|ps| - 1].quantity
  }

  function SumWeightedPerimeter(ps: seq<ProfileData>): real
    decreases |ps|
  {
    if ps == [] then 0.0 else SumWeightedPerimeter(ps[..|ps| - 1]) + ps[|ps| - 1].perimeterMm * ps[|ps| - 1].quantity as real
  }

  lemma {:induction false} FoldAggregateSums(ps: seq<ProfileData>)
    ensures FoldAggregate(ps).count == |ps|
    ensures FoldAggregate(ps).totalQuantity == SumQuantity(ps)
    ensures FoldAggregate(ps).totalPerimeter == SumWeightedPerimeter(ps)
    decreases |ps|
  {
    if ps != [] {
      FoldAggregateSums(ps[..|ps| - 1]);
    }
  }

  /** Each layer's running totals are the totals of the profiles on that layer; a layer with no profile has none. */
  lemma {:induction false} LayerAggregatesGet(ps: seq<ProfileData>, layer: string)
    ensures Get(LayerAggregates(ps), layer)
      == if ProfilesOnLayer(ps, layer) == [] then None else Some(FoldAggregate(ProfilesOnLayer(ps, layer)))
    decreases |ps|
  {
    if ps != [] {
      var init := ps[..|ps| - 1];
      var p := ps[|ps| - 1];
      var d := LayerAggregates(init);
      LayerAggregatesGet(init, layer);
      GetPut(d, p.layer, AddToAggregate(Get(d, p.layer).GetOr(EmptyAggregate), p), layer);
      if p.layer == layer {
        LayerAggregatesGet(init, p.layer);
        var on := ProfilesOnLayer(init, layer);
        assert (on + [p])[..|on + [p]| - 1] == on;
      }
    }
  }

  lemma {:induction false} LayerAggregatesUnique(ps: seq<ProfileData>)
    ensures UniqueKeys(LayerAggregates(ps))
    decreases |ps|
  {
    if ps != [] {
      var d := LayerAggregates(ps[..|ps| - 1]);
      var p := ps[|ps| - 1];
      LayerAggregatesUnique(ps[..|ps| - 1]);
      PutUnique(d, p.layer, AddToAggregate(Get(d, p.layer).GetOr(EmptyAggregate), p));
    }
  }

  function LayerEntry(layer: string, a: LayerAggregate, material: string): MaterialQuantity {
    var n := Max(a.count, 1) as real;
    MaterialQuantity(material, layer, "Layer: " + layer + " (" + NatToString(a.count) + " perfis)",
      a.totalQuantity, a.totalPerimeter / n, a.totalPerimeter, 0.0, 0.0,
      layer, "layer_analysis", a.totalArea / n, a.totalArea)
  }

  /** The material of a layer entry: the layer's last hint, else the layer name's material, else aluminium. */
  function LayerMaterial(patterns: Dict<string -> bool>, layer: string, a: LayerAggregate): string {
    if Present(a.material) then a.material.value
    else OrElse(MaterialFromName(patterns, layer), "aluminio")
  }

  /** One entry per layer whose weighted perimeter is positive, in layer order. */
  function LayerQuantities(patterns: Dict<string -> bool>, d: Dict<LayerAggregate>): (r: seq<MaterialQuantity>)
    ensures forall m :: m in r ==>
      exists i :: 0 <= i < |d| && d[i].1.totalPerimeter > 0.0
        && m == LayerEntry(d[i].0, d[i].1, LayerMaterial(patterns, d[i].0, d[i].1))
    decreases |d|
  {
    if d == [] then []
    else
      var init := LayerQuantities(patterns, d[..|d| - 1]);
      var (layer, a) := d[|d| - 1];
      assert forall i :: 0 <= i < |d| - 1 ==> d[..|d| - 1][i] == d[i];
      if a.totalPerimeter > 0.0 then init + [LayerEntry(layer, a, LayerMaterial(patterns, layer, a))] else init
  }

  /**
   * A layer entry reports, for its layer, the number of pieces drawn on it
   * (the sum of the profiles' quantities) and their total perimeter.
   */
  lemma LayerEntryTotals(patterns: Dict<string -> bool>, ps: seq<ProfileData>, m: MaterialQuantity)
    requires m in LayerQuantities(patterns, LayerAggregates(ps))
    ensures m.layer == m.profileReference && m.source == "layer_analysis"
    ensures m.quantity == SumQuantity(ProfilesOnLayer(ps, m.layer))
    ensures m.totalLengthMm == SumWeightedPerimeter(ProfilesOnLayer(ps, m.layer)) > 0.0
  {
    var d := LayerAggregates(ps);
    var i :| 0 <= i < |d| && d[i].1.totalPerimeter > 0.0
      && m == LayerEntry(d[i].0, d[i].1, LayerMaterial(patterns, d[i].0, d[i].1));
    LayerAggregatesUnique(ps);
    GetEntry(d, i);
    LayerAggregatesGet(ps, d[i].0);
    FoldAggregateSums(ProfilesOnLayer(ps, d[i].0));
  }

  // ---------------------------------------------------------------- feature summary

  function CountType(fs: seq<Feature>, t: string): nat
    decreases |fs|
  {
    if fs == [] then 0 else CountType(fs[..|fs| - 1], t) + (if fs[|fs| - 1].featureType == t then 1 else 0)
  }

  /** `{feature_type: count}` built in detection order. */
  function FeatureCounts(fs: seq<Feature>): Dict<int>
    decreases |fs|
  {
    if fs == [] then []
    else
      var d := FeatureCounts(fs[..|fs| - 1]);
      var t := fs[|fs| - 1].featureType;
      Put(d, t, Get(d, t).GetOr(0) + 1)
  }

  /** The summary holds, for each type present, the number of features of that type, and nothing else. */
  lemma {:induction false} FeatureCountsGet(fs: seq<Feature>, t: string)
    ensures Get(FeatureCounts(fs), t) == if CountType(fs, t) == 0 then None else Some(CountType(fs, t) as int)
    decreases |fs|
  {
    if fs != [] {
      var init := fs[..|fs| - 1];
      var d := FeatureCounts(init);
      var ft := fs[|fs| - 1].featureType;
      var n := Get(d, ft).GetOr(0) + 1;
      assert FeatureCounts(fs) == Put(d, ft, n);
      assert CountType(fs, t) == CountType(init, t) + (if ft == t then 1 else 0);
      GetPut(d, ft, n, t);
      FeatureCountsGet(init, t);
      if ft == t {
        assert n == CountType(init, t) + 1;
      }
    }
  }

  /** The counts of the summary add up to the number of features. */
  lemma {:induction false} FeatureCountsTotal(fs: seq<Feature>)
    ensures SumValues(FeatureCounts(fs)) == |fs|
    decreases |fs|
  {
    if fs != [] {
      var init := fs[..|fs| - 1];
      var d := FeatureCounts(init);
      var ft := fs[|fs| - 1].featureType;
      FeatureCountsTotal(init);
      SumValuesPut(d, ft, Get(d, ft).GetOr(0) + 1);
    }
  }

  /** The per-block loop of `_compile_material_quantities`: one entry per block inserted with a positive perimeter. */
  method CollectBlockQuantities(blocks: Dict<BlockInfo>) returns (fromBlocks: seq<MaterialQuantity>)
    ensures fromBlocks == BlockQuantities(blocks)
  {
    fromBlocks := [];
    for i := 0 to |blocks|
      invariant fromBlocks == BlockQuantities(blocks[..i])
    {
      assert blocks[..i + 1][..i] == blocks[..i];
      if blocks[i].1.count > 0 && blocks[i].1.totalPerimeter > 0.0 {
        fromBlocks := fromBlocks + [BlockEntry(blocks[i].0, blocks[i].1)];
      }
    }
    assert blocks[..|blocks|] == blocks;
  }

  /** The grouping loop of `_compile_material_quantities`: profile totals per layer, in first-seen order. */
  method AggregateLayers(ps: seq<ProfileData>) returns (aggregates: Dict<LayerAggregate>)
    ensures aggregates == LayerAggregates(ps)
  {
    aggregates := [];
    for i := 0 to |ps|
      invariant aggregates == LayerAggregates(ps[..i])
    {
      assert ps[..i + 1][..i] == ps[..i];
      var layer := ps[i].layer;
      var current := Get(aggregates, layer).GetOr(EmptyAggregate);
      aggregates := Put(aggregates, layer, AddToAggregate(current, ps[i]));
    }
    assert ps[..|ps|] == ps;
  }

  // ---------------------------------------------------------------- the parser object

  /**
   * `DXFParser` after the entities have been read: the profiles, features,
   * texts and blocks found, the unit factor of the drawing, and the
   * material quantities compiled from them.
   */
  class DxfParser {
    /** `MATERIAL_PATTERNS`: material name and matcher, in table order. */
    const materialPatterns: Dict<string -> bool>
    /** `QUANTITY_PATTERNS`: each gives the number its first group captures, if it matches. */
    const quantityPatterns: seq<string -> Option<nat>>
    var profiles: seq<ProfileData>
    var features: seq<Feature>
    var texts: seq<TextRecord>
    var blocksAnalyzed: Dict<BlockInfo>
    var materialQuantities: seq<MaterialQuantity>
    var unitFactor: real

    constructor(materialPatterns: Dict<string -> bool>, quantityPatterns: seq<string -> Option<nat>>,
                profiles: seq<ProfileData>, features: seq<Feature>, texts: seq<TextRecord>,
                blocksAnalyzed: Dict<BlockInfo>, unitFactor: real)
      requires Keys(materialPatterns) == MaterialNames && |quantityPatterns| == 6
      ensures this.materialPatterns == materialPatterns && this.quantityPatterns == quantityPatterns
      ensures this.profiles == profiles && this.features == features && this.texts == texts
      ensures this.blocksAnalyzed == blocksAnalyzed && this.unitFactor == unitFactor
      ensures materialQuantities == []
    {
      this.materialPatterns := materialPatterns;
      this.quantityPatterns := quantityPatterns;
      this.profiles := profiles;
      this.features := features;
      this.texts := texts;
      this.blocksAnalyzed := blocksAnalyzed;
      this.unitFactor := unitFactor;
      materialQuantities := [];
    }

    /** `_detect_material_from_name`: tries the material patterns in order on the lower-cased name. */
    method DetectMaterialFromName(name: string) returns (r: Option<string>)
      ensures r == MaterialFromName(materialPatterns, name)
    {
      var lowered := Lower(name);
      for i := 0 to |materialPatterns|
        invariant MaterialPatternIndex(materialPatterns, lowered, 0) == MaterialPatternIndex(materialPatterns, lowered, i)
      {
        if materialPatterns[i].1(lowered) {
          return Some(materialPatterns[i].0);
        }
      }
      return None;
    }

    /** `_extract_quantity_from_text`: the first pattern that captures a quantity in (0, 10000). */
    method ExtractQuantityFromText(text: string) returns (r: Option<nat>)
      ensures r == QuantityFromText(quantityPatterns, text)
    {
      var clean := Strip(text);
      for i := 0 to |quantityPatterns|
        invariant QuantityPatternIndex(quantityPatterns, clean, 0) == QuantityPatternIndex(quantityPatterns, clean, i)
      {
        var m := quantityPatterns[i](clean);
        if m.Some? && 0 < m.value < 10000 {
          return m;
        }
      }
      return None;
    }

    /** `_find_quantity_near_position`: the hint of the first text within the radius, else 1. */
    method FindQuantityNearPosition(position: Point, radius: real) returns (q: int)
      ensures q == NearbyQuantity(texts, position, radius, 0)
    {
      for i := 0 to |texts|
        invariant NearbyQuantity(texts, position, radius, 0) == NearbyQuantity(texts, position, radius, i)
      {
        var t := texts[i];
        if t.quantityHint.Some? && t.quantityHint.value != 0 {
          var dx := position.x - t.position.x;
          var dy := position.y - t.position.y;
          if 0.0 <= radius && dx * dx + dy * dy < radius * radius {
            return t.quantityHint.value;
          }
        }
      }
      return 1;
    }

    /** `_calculate_complexity`: scores every profile against the detected features. */
    method CalculateComplexity()
      modifies this
      ensures profiles == Scored(old(profiles), features)
      ensures features == old(features) && texts == old(texts) && blocksAnalyzed == old(blocksAnalyzed)
      ensures materialQuantities == old(materialQuantities) && unitFactor == old(unitFactor)
    {
      var i := 0;
      while i < |profiles|
        invariant 0 <= i <= |profiles| == |old(profiles)|
        invariant profiles[..i] == Scored(old(profiles)[..i], features)
        invariant profiles[i..] == old(profiles)[i..]
        invariant features == old(features) && texts == old(texts) && blocksAnalyzed == old(blocksAnalyzed)
        invariant materialQuantities == old(materialQuantities) && unitFactor == old(unitFactor)
      {
        assert profiles[i] == old(profiles)[i..][0];
        profiles := profiles[i := WithComplexity(profiles[i], features)];
        assert profiles[..i + 1] == Scored(old(profiles)[..i + 1], features);
        i := i + 1;
      }
    }

    /**
     * `_compile_material_quantities`: first one entry per inserted block,
     * then one per layer with a positive perimeter.
     */
    method CompileMaterialQuantities()
      modifies this
      ensures materialQuantities == old(materialQuantities) + BlockQuantities(blocksAnalyzed)
        + LayerQuantities(materialPatterns, LayerAggregates(profiles))
      ensures profiles == old(profiles) && features == old(features) && texts == old(texts)
      ensures blocksAnalyzed == old(blocksAnalyzed) && unitFactor == old(unitFactor)
    {
      var fromBlocks := CollectBlockQuantities(blocksAnalyzed);
      var aggregates := AggregateLayers(profiles);
      var fromLayers := CollectLayerQuantities(aggregates);
      materialQuantities := materialQuantities + fromBlocks + fromLayers;
    }

    /** The per-layer loop of `_compile_material_quantities`: one entry per layer with a positive perimeter. */
    method CollectLayerQuantities(aggregates: Dict<LayerAggregate>) returns (fromLayers: seq<MaterialQuantity>)
      ensures fromLayers == LayerQuantities(materialPatterns, aggregates)
    {
      fromLayers := [];
      for i := 0 to |aggregates|
        invariant fromLayers == LayerQuantities(materialPatterns, aggregates[..i])
      {
        assert aggregates[..i + 1][..i] == aggregates[..i];
        var (layer, data) := aggregates[i];
        if data.totalPerimeter > 0.0 {
          var material: string;
          if Present(data.material) {
            material := data.material.value;
          } else {
            var detected := DetectMaterialFromName(layer);
            material := OrElse(detected, "aluminio");
          }
          fromLayers := fromLayers + [LayerEntry(layer, data, material)];
        }
      }
      assert aggregates[..|aggregates|] == aggregates;
    }

    /** `_apply_scale_corrections`: converts lengths by the unit factor and areas by its square, unless it is 1. */
    method ApplyScaleCorrections()
      modifies this
      ensures profiles == (if old(unitFactor) == 1.0 then old(profiles) else ScaleProfiles(old(profiles), old(unitFactor)))
      ensures materialQuantities == (if old(unitFactor) == 1.0 then old(materialQuantities)
                                     else ScaleQuantities(old(materialQuantities), old(unitFactor)))
      ensures features == old(features) && texts == old(texts)
      ensures blocksAnalyzed == old(blocksAnalyzed) && unitFactor == old(unitFactor)
    {
      var factor := unitFactor;
      if factor == 1.0 {
        return;
      }
      var scaled: seq<ProfileData> := [];
      for i := 0 to |profiles|
        invariant scaled == ScaleProfiles(profiles[..i], factor)
      {
        scaled := scaled + [ScaleProfile(profiles[i], factor)];
      }
      var corrected: seq<MaterialQuantity> := [];
      for i := 0 to |materialQuantities|
        invariant corrected == ScaleQuantities(materialQuantities[..i], factor)
      {
        corrected := corrected + [ScaleQuantity(materialQuantities[i], factor)];
      }
      assert profiles[..|profiles|] == profiles;
      assert materialQuantities[..|materialQuantities|] == materialQuantities;
      profiles := scaled;
      materialQuantities := corrected;
    }

    /** `_get_features_summary` */
    method GetFeaturesSummary() returns (summary: Dict<int>)
      ensures summary == FeatureCounts(features)
    {
      summary := [];
      for i := 0 to |features|
        invariant summary == FeatureCounts(features[..i])
      {
        assert features[..i + 1][..i] == features[..i];
        var ft := features[i].featureType;
        summary := Put(summary, ft, Get(summary, ft).GetOr(0) + 1);
      }
      assert features[..|features|] == features;
    }
  }

  /** The unit correction keeps every block entry's total length equal to its unit length times its count. */
  lemma ScaleKeepsBlockTotals(m: MaterialQuantity, f: real)
    requires m.totalLengthMm == m.unitLengthMm * m.quantity as real
    ensures var s := ScaleQuantity(m, f); s.totalLengthMm == s.unitLengthMm * s.quantity as real
  {
    assert m.unitLengthMm * m.quantity as real * f == m.unitLengthMm * f * m.quantity as real;
  }
}
