/** The point normaliser and the scene geometry of the 3D options surface.

    Plot input is three named axes of equal length; sample i of the plot is
    (x[i], y[i], z[i]). Each axis is rescaled on its own into the cube
    [-10, 10], the z value also drives a hue, the current price becomes a
    horizontal plane in the y coordinates, and two translucent boxes sit below
    and above that plane. Numbers are exact reals here. */
module ScatterPlot {

  /** Edge length of the normalised cube; coordinates lie in [-Size/2, Size/2]. */
  const Size: real := 20.0
  const Half: real := 10.0

  datatype Axis = Axis(name: string, data: seq<real>)

  datatype AxisData = AxisData(x: Axis, y: Axis, z: Axis)

  /** A normalised point together with the values it was computed from. */
  datatype Point = Point(x: real, y: real, z: real,
                         originalX: real, originalY: real, originalZ: real)

  datatype Vec3 = Vec3(x: real, y: real, z: real)

  /** Hue, saturation and lightness, each in the unit range. */
  datatype Hsl = Hsl(h: real, s: real, l: real)

  datatype Rgb = Rgb(r: real, g: real, b: real)

  /** A box given by its extents along each axis and its centre. */
  datatype Box = Box(width: real, height: real, depth: real, center: Vec3)

  // ---------------------------------------------------------------------
  // Range of an axis
  // ---------------------------------------------------------------------

  /** The least sample, as `Math.min(...data)` gives it. */
  function Min(s: seq<real>): (m: real)
    requires |s| > 0
    ensures m in s
    ensures forall v :: v in s ==> m <= v
  {
    if |s| == 1 then s[0]
    else
      var rest := Min(s[1..]);
      assert forall v :: v in s ==> v == s[0] || v in s[1..];
      if s[0] <= rest then s[0] else rest
  }

  /** The greatest sample, as `Math.max(...data)` gives it. */
  function Max(s: seq<real>): (m: real)
    requires |s| > 0
    ensures m in s
    ensures forall v :: v in s ==> v <= m
  {
    if |s| == 1 then s[0]
    else
      var rest := Max(s[1..]);
      assert forall v :: v in s ==> v == s[0] || v in s[1..];
      if s[0] >= rest then s[0] else rest
  }

  /** An axis that can be rescaled: two of its samples differ. */
  predicate HasSpread(s: seq<real>) {
    |s| > 0 && exists i, j :: 0 <= i < |s| && 0 <= j < |s| && s[i] < s[j]
  }

  /** An axis with a spread has a least sample strictly below its greatest. */
  lemma SpreadBounds(s: seq<real>)
    requires HasSpread(s)
    ensures Min(s) < Max(s)
  {
  }

  /** The plot input normalizeData can handle: three equal-length axes, each
      with a spread unless there are no samples at all. */
  predicate Normalizable(d: AxisData) {
    && |d.y.data| == |d.x.data|
    && |d.z.data| == |d.x.data|
    && (|d.x.data| > 0 ==> HasSpread(d.x.data) && HasSpread(d.y.data) && HasSpread(d.z.data))
  }

  // ---------------------------------------------------------------------
  // Normalisation
  // ---------------------------------------------------------------------

  /** Quotients by a positive divisor keep the order of their dividends. */
  lemma DivOrder(a1: real, a2: real, d: real)
    requires d > 0.0
    ensures a1 <= a2 <==> a1 / d <= a2 / d
    ensures a1 < a2 <==> a1 / d < a2 / d
  {
  }

  /** Dividing by a positive divisor gives 0 exactly for 0 and 1 exactly for the divisor. */
  lemma DivFixedPoints(a: real, d: real)
    requires d > 0.0
    ensures 0.0 / d == 0.0 && d / d == 1.0
    ensures a / d == 0.0 <==> a == 0.0
    ensures a / d == 1.0 <==> a == d
  {
  }

  /** Where v lies in [lo, hi], as a fraction of the range. */
  function Fraction(v: real, lo: real, hi: real): real
    requires lo < hi
  {
    (v - lo) / (hi - lo)
  }

  /** The fraction is 0 exactly at lo and 1 exactly at hi, lies in [0, 1]
      for v in [lo, hi] and outside it otherwise, and keeps the order of
      values in both directions. */
  lemma FractionProperties(v1: real, v2: real, lo: real, hi: real)
    requires lo < hi
    ensures var t1, t2 := Fraction(v1, lo, hi), Fraction(v2, lo, hi);
      && (t1 == 0.0 <==> v1 == lo)
      && (t1 == 1.0 <==> v1 == hi)
      && (lo <= v1 <= hi ==> 0.0 <= t1 <= 1.0)
      && (v1 < lo ==> t1 < 0.0)
      && (hi < v1 ==> 1.0 < t1)
      && (v1 <= v2 <==> t1 <= t2)
  {
    DivFixedPoints(v1 - lo, hi - lo);
    DivOrder(0.0, v1 - lo, hi - lo);
    DivOrder(v1 - lo, hi - lo, hi - lo);
    DivOrder(v1 - lo, v2 - lo, hi - lo);
  }

  /** Linear rescaling of v from [lo, hi] onto [-10, 10]. */
  function Normalize(v: real, lo: real, hi: real): real
    requires lo < hi
  {
    Fraction(v, lo, hi) * Size - Half
  }

  /** Rescaling sends exactly lo to -10 and exactly hi to +10, keeps [lo, hi]
      inside [-10, 10] and everything else outside, and keeps the order of
      values in both directions. */
  lemma NormalizeProperties(v1: real, v2: real, lo: real, hi: real)
    requires lo < hi
    ensures var n1, n2 := Normalize(v1, lo, hi), Normalize(v2, lo, hi);
      && (n1 == -Half <==> v1 == lo)
      && (n1 == Half <==> v1 == hi)
      && (lo <= v1 <= hi ==> -Half <= n1 <= Half)
      && (v1 < lo ==> n1 < -Half)
      && (hi < v1 ==> Half < n1)
      && (v1 <= v2 <==> n1 <= n2)
  {
    FractionProperties(v1, v2, lo, hi);
  }

  /** One axis rescaled sample by sample against its own range. */
  function NormalizeAxis(s: seq<real>): (r: seq<real>)
    requires |s| > 0 ==> HasSpread(s)
    ensures |r| == |s|
  {
    if |s| == 0 then []
    else
      SpreadBounds(s);
      seq(|s|, i requires 0 <= i < |s| => Normalize(s[i], Min(s), Max(s)))
  }

  /** Every rescaled sample lies in [-10, 10]; exactly the least samples map
      to -10 and exactly the greatest to +10; and two samples compare as
      their rescaled values do. */
  lemma NormalizeAxisProperties(s: seq<real>, i: int, j: int)
    requires HasSpread(s)
    requires 0 <= i < |s| && 0 <= j < |s|
    ensures var r := NormalizeAxis(s);
      && -Half <= r[i] <= Half
      && (r[i] == -Half <==> s[i] == Min(s))
      && (r[i] == Half <==> s[i] == Max(s))
      && (s[i] <= s[j] <==> r[i] <= r[j])
  {
    SpreadBounds(s);
    assert s[i] in s;
    var r := NormalizeAxis(s);
    assert r[i] == Normalize(s[i], Min(s), Max(s)) && r[j] == Normalize(s[j], Min(s), Max(s));
    NormalizeProperties(s[i], s[j], Min(s), Max(s));
  }

  /** normalizeData: one point per sample, each coordinate the normalised
      sample of its axis, and the original samples kept alongside. */
  function NormalizeData(d: AxisData): (pts: seq<Point>)
    requires Normalizable(d)
    ensures |pts| == |d.x.data|
    ensures forall i :: 0 <= i < |pts| ==>
      && pts[i].originalX == d.x.data[i]
      && pts[i].originalY == d.y.data[i]
      && pts[i].originalZ == d.z.data[i]
    ensures forall i :: 0 <= i < |pts| ==>
      && pts[i].x == NormalizeAxis(d.x.data)[i]
      && pts[i].y == NormalizeAxis(d.y.data)[i]
      && pts[i].z == NormalizeAxis(d.z.data)[i]
  {
    var n := |d.x.data|;
    var xs, ys, zs := NormalizeAxis(d.x.data), NormalizeAxis(d.y.data), NormalizeAxis(d.z.data);
    var pts := seq(n, i requires 0 <= i < n => Point(xs[i], ys[i], zs[i], d.x.data[i], d.y.data[i], d.z.data[i]));
    assert forall i :: 0 <= i < n ==> pts[i].x == xs[i] && pts[i].y == ys[i] && pts[i].z == zs[i];
    pts
  }

  /** Every normalised point lies in the cube, the extreme samples of each axis
      sit on its faces, and each coordinate orders the points as the original
      samples do. */
  lemma NormalizedPointsInCube(d: AxisData, i: int, j: int)
    requires Normalizable(d)
    requires 0 <= i < |d.x.data| && 0 <= j < |d.x.data|
    ensures var p, q := NormalizeData(d)[i], NormalizeData(d)[j];
      && -Half <= p.x <= Half && -Half <= p.y <= Half && -Half <= p.z <= Half
      && (p.x == -Half <==> d.x.data[i] == Min(d.x.data))
      && (p.x == Half <==> d.x.data[i] == Max(d.x.data))
      && (p.y == -Half <==> d.y.data[i] == Min(d.y.data))
      && (p.y == Half <==> d.y.data[i] == Max(d.y.data))
      && (p.z == -Half <==> d.z.data[i] == Min(d.z.data))
      && (p.z == Half <==> d.z.data[i] == Max(d.z.data))
      && (d.x.data[i] <= d.x.data[j] <==> p.x <= q.x)
      && (d.y.data[i] <= d.y.data[j] <==> p.y <= q.y)
      && (d.z.data[i] <= d.z.data[j] <==> p.z <= q.z)
  {
    NormalizeAxisProperties(d.x.data, i, j);
    NormalizeAxisProperties(d.y.data, i, j);
    NormalizeAxisProperties(d.z.data, i, j);
  }

  // ---------------------------------------------------------------------
  // Colour
  // ---------------------------------------------------------------------

  /** colorScale's hue for value v against the z samples zs. */
  function Hue(v: real, zs: seq<real>): real
    requires HasSpread(zs)
  {
    SpreadBounds(zs);
    0.7 - Fraction(v, Min(zs), Max(zs)) * 0.7
  }

  /** The hue is 0.7 (blue) exactly at the least z sample and 0 (red) exactly
      at the greatest, stays within [0, 0.7] for values in that range, and
      falls as the value rises (and only then). */
  lemma HueProperties(v1: real, v2: real, zs: seq<real>)
    requires HasSpread(zs)
    ensures v1 == Min(zs) <==> Hue(v1, zs) == 0.7
    ensures v1 == Max(zs) <==> Hue(v1, zs) == 0.0
    ensures Min(zs) <= v1 <= Max(zs) ==> 0.0 <= Hue(v1, zs) <= 0.7
    ensures v1 <= v2 <==> Hue(v2, zs) <= Hue(v1, zs)
  {
    SpreadBounds(zs);
    FractionProperties(v1, v2, Min(zs), Max(zs));
  }

  /** The hue of a value can be read off its normalised z coordinate: 0.7 at
      the bottom face of the cube, 0 at the top, linear in between. */
  lemma HueFollowsNormalizedZ(d: AxisData, i: int)
    requires Normalizable(d)
    requires 0 <= i < |d.x.data|
    ensures Hue(d.z.data[i], d.z.data) == 0.035 * (Half - NormalizeData(d)[i].z)
  {
  }

  /** The colour a point gets: its hue at full saturation, half lightness. */
  function PointColor(v: real, zs: seq<real>): Hsl
    requires HasSpread(zs)
  {
    Hsl(Hue(v, zs), 1.0, 0.5)
  }

  // ---------------------------------------------------------------------
  // Price plane and boxes
  // ---------------------------------------------------------------------

  /** normalizedCurrentPrice: the current price under the strike axis's own
      rescaling. */
  function PricePlane(currentPrice: real, ys: seq<real>): real
    requires HasSpread(ys)
  {
    SpreadBounds(ys);
    Normalize(currentPrice, Min(ys), Max(ys))
  }

  /** The price plane lines up with the points: a price equal to a strike
      sample sits at exactly that sample's height, a price at the lowest or
      highest strike sits on the floor or the ceiling of the cube, and a
      price within the strike range lies within the cube. */
  lemma PricePlaneMatchesPoints(d: AxisData, currentPrice: real, i: int)
    requires Normalizable(d)
    requires 0 <= i < |d.x.data|
    ensures d.y.data[i] == currentPrice ==> PricePlane(currentPrice, d.y.data) == NormalizeData(d)[i].y
    ensures PricePlane(currentPrice, d.y.data) == -Half <==> currentPrice == Min(d.y.data)
    ensures PricePlane(currentPrice, d.y.data) == Half <==> currentPrice == Max(d.y.data)
    ensures Min(d.y.data) <= currentPrice <= Max(d.y.data) ==> -Half <= PricePlane(currentPrice, d.y.data) <= Half
  {
    SpreadBounds(d.y.data);
    NormalizeProperties(currentPrice, currentPrice, Min(d.y.data), Max(d.y.data));
  }

  function Bottom(b: Box): real { b.center.y - b.height / 2.0 }

  function Top(b: Box): real { b.center.y + b.height / 2.0 }

  /** The box below the price plane: from the floor of the cube up to p. */
  function LowerBox(p: real): (b: Box)
    ensures Bottom(b) == -Half && Top(b) == p
    ensures b.width == Size && b.depth == Size && b.center.x == 0.0 && b.center.z == 0.0
  {
    Box(Size, p + Half, Size, Vec3(0.0, (p - Half) / 2.0, 0.0))
  }

  /** The box above the price plane: from p up to height 20. */
  function UpperBox(p: real): (b: Box)
    ensures Bottom(b) == p && Top(b) == Size
    ensures b.width == Size && b.depth == Size && b.center.x == 0.0 && b.center.z == 0.0
  {
    Box(Size, Size - p, Size, Vec3(0.0, (Size + p) / 2.0, 0.0))
  }

  /** The two boxes meet at the price plane without overlapping, and together
      they cover the column from -10 to 20; when the price lies within the
      strike range neither box is inverted. */
  lemma BoxesMeetAtPricePlane(currentPrice: real, ys: seq<real>)
    requires HasSpread(ys)
    ensures var p := PricePlane(currentPrice, ys);
      && Top(LowerBox(p)) == p == Bottom(UpperBox(p))
      && Bottom(LowerBox(p)) == -Half && Top(UpperBox(p)) == Size
      && (Min(ys) <= currentPrice <= Max(ys) ==>
            LowerBox(p).height >= 0.0 && UpperBox(p).height >= Half)
  {
    SpreadBounds(ys);
    NormalizeProperties(currentPrice, currentPrice, Min(ys), Max(ys));
  }

  // ---------------------------------------------------------------------
  // Point buffers
  // ---------------------------------------------------------------------

  /** The interleaved position and colour buffers hold, for point i, its
      normalised coordinates at 3i, 3i+1, 3i+2 and the colour of its original
      z value at the same three slots. */
  ghost predicate Buffered(pts: seq<Point>, zs: seq<real>, toRgb: Hsl -> Rgb,
                           positions: seq<real>, colors: seq<real>)
    requires |pts| > 0 ==> HasSpread(zs)
  {
    && |positions| == 3 * |pts|
    && |colors| == 3 * |pts|
    && forall i :: 0 <= i < |pts| ==>
         && positions[3 * i] == pts[i].x
         && positions[3 * i + 1] == pts[i].y
         && positions[3 * i + 2] == pts[i].z
         && colors[3 * i] == toRgb(PointColor(pts[i].originalZ, zs)).r
         && colors[3 * i + 1] == toRgb(PointColor(pts[i].originalZ, zs)).g
         && colors[3 * i + 2] == toRgb(PointColor(pts[i].originalZ, zs)).b
  }

  /** Allocates the two Float32 buffers and fills them point by point. The
      HSL to RGB conversion of the graphics library is the parameter toRgb. */
  method FillBuffers(pts: seq<Point>, zs: seq<real>, toRgb: Hsl -> Rgb)
    returns (positions: array<real>, colors: array<real>)
    requires |pts| > 0 ==> HasSpread(zs)
    ensures fresh(positions) && fresh(colors)
    ensures Buffered(pts, zs, toRgb, positions[..], colors[..])
  {
    positions := new real[3 * |pts|];
    colors := new real[3 * |pts|];
    var i := 0;
    while i < |pts|
      invariant 0 <= i <= |pts|
      invariant forall k :: 0 <= k < i ==>
        && positions[3 * k] == pts[k].x
        && positions[3 * k + 1] == pts[k].y
        && positions[3 * k + 2] == pts[k].z
        && colors[3 * k] == toRgb(PointColor(pts[k].originalZ, zs)).r
        && colors[3 * k + 1] == toRgb(PointColor(pts[k].originalZ, zs)).g
        && colors[3 * k + 2] == toRgb(PointColor(pts[k].originalZ, zs)).b
    {
      var point := pts[i];
      positions[3 * i] := point.x;
      positions[3 * i + 1] := point.y;
      positions[3 * i + 2] := point.z;
      var color := toRgb(PointColor(point.originalZ, zs));
      colors[3 * i] := color.r;
      colors[3 * i + 1] := color.g;
      colors[3 * i + 2] := color.b;
      i := i + 1;
    }
  }

  // ---------------------------------------------------------------------
  // Scene
  // ---------------------------------------------------------------------

  /** Plot input a scene can be built from: normalisable and not empty (the
      price plane needs the strike range). */
  predicate Plottable(d: AxisData) {
    Normalizable(d) && |d.x.data| > 0
  }

  /** The scene objects whose placement the model keeps: the normalised
      points, the reference grid's position and the two price boxes. */
  class Scene {
    var points: seq<Point>
    var gridPosition: Vec3
    var upperBox: Box
    var lowerBox: Box

    /** Places the points, the grid and the boxes for plot input `data` at
        `currentPrice`. */
    constructor (data: AxisData, currentPrice: real)
      requires Plottable(data)
      ensures points == NormalizeData(data)
      ensures gridPosition == Vec3(0.0, PricePlane(currentPrice, data.y.data), 0.0)
      ensures lowerBox == LowerBox(PricePlane(currentPrice, data.y.data))
      ensures upperBox == UpperBox(PricePlane(currentPrice, data.y.data))
    {
      var p := PricePlane(currentPrice, data.y.data);
      points := NormalizeData(data);
      gridPosition := Vec3(0.0, p, 0.0);
      upperBox := UpperBox(p);
      lowerBox := LowerBox(p);
    }

    /** Moves the reference grid to the price plane of `currentPrice`; only
        its height changes and nothing else in the scene does. */
    method RepositionGrid(data: AxisData, currentPrice: real)
      requires HasSpread(data.y.data)
      modifies this`gridPosition
      ensures gridPosition == old(gridPosition).(y := PricePlane(currentPrice, data.y.data))
    {
      gridPosition := gridPosition.(y := PricePlane(currentPrice, data.y.data));
    }
  }

  /** One render of the plot: the scene is built with its point buffers, then
      the price effect repositions the grid for the same input. The grid ends
      where the build placed it, at the plane where the two boxes meet. */
  method RenderPlot(data: AxisData, currentPrice: real, toRgb: Hsl -> Rgb)
    returns (scene: Scene, positions: array<real>, colors: array<real>)
    requires Plottable(data)
    ensures fresh(scene) && fresh(positions) && fresh(colors)
    ensures scene.points == NormalizeData(data)
    ensures Buffered(scene.points, data.z.data, toRgb, positions[..], colors[..])
    ensures scene.gridPosition == Vec3(0.0, PricePlane(currentPrice, data.y.data), 0.0)
    ensures Bottom(scene.upperBox) == scene.gridPosition.y == Top(scene.lowerBox)
  {
    scene := new Scene(data, currentPrice);
    positions, colors := FillBuffers(scene.points, data.z.data, toRgb);
    scene.RepositionGrid(data, currentPrice);
  }
}
