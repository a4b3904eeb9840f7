/** The projector-to-camera calibrators: the enabled flag and its toggle, the
    physical-scale setters, the three-dot 30-60-90 pattern, the angle-based ordering
    of three detected dots, and the two affine transforms solved from them.

    Blob detection is not modelled: the detected keypoints are an input. The angle of
    a vertex, `|arccos(cos)|` in the source, is replaced by a key that is strictly
    increasing in the angle (see `Key` and `KeyOrdersLikeAngle`), which is all the
    argsort looks at. */
module Calibration {
  import opened Errors
  import opened Geometry
  import opened Sorting
  import opened Numerics

  // ---------------------------------------------------------------------------
  // Calibrator state

  /** The subclass-specific part of a calibrator. */
  datatype Kind =
    | Base
    | Cross(lineLengthPx: int)
    | Circle(dh: int, r: int, points: Option<Tri>, pointsCam: Option<Tri>,
             projToCam: Option<Affine>, camToProj: Option<Affine>)

  /** A calibrator object. `enabled` and `mmPx` are `None` while the attribute does
      not exist: `CircleCalibrator.__init__` never runs the base constructor, so a
      fresh circle calibrator has neither. The flag is Python's `enabled`, an int
      once toggled, with False read as 0. */
  datatype Calibrator = Calibrator(enabled: Option<int>, mmPx: Option<real>,
                                   lengthToMeasure: string, kind: Kind)

  /** `Calibrator(mm_px)`. */
  function NewCalibrator(mmPx: real): (c: Calibrator)
    ensures c.enabled == Some(0) && c.mmPx == Some(mmPx) && c.kind == Base
  {
    Calibrator(Some(0), Some(mmPx), "pixel", Base)
  }

  /** `CrossCalibrator(mm_px)`: the base fields, and a line length of one pixel. */
  function NewCross(mmPx: real): (c: Calibrator)
    ensures c.enabled == Some(0) && c.mmPx == Some(mmPx) && c.kind == Cross(1)
  {
    Calibrator(Some(0), Some(mmPx), "a line in the cross", Cross(1))
  }

  /** `CircleCalibrator(dh=dh, r=r)`: the base constructor is skipped, so there is no
      `enabled` and no `mm_px`, and every point and matrix field is None. */
  function NewCircle(dh: int, r: int): (c: Calibrator)
    ensures c.enabled.None? && c.mmPx.None?
    ensures c.kind == Circle(dh, r, None, None, None, None)
  {
    Calibrator(None, None, "the largest distance between the points",
               Circle(dh, r, None, None, None, None))
  }

  /** Whether the flag reads as true in Python. */
  predicate IsEnabled(c: Calibrator)
  {
    c.enabled.Some? && c.enabled.value != 0
  }

  /** `self.enabled = ~self.enabled`: bitwise not, so e becomes -e - 1; an
      AttributeError on a calibrator that has no flag. */
  function Toggle(c: Calibrator): (r: Result<Calibrator>)
    ensures r.Err? <==> c.enabled.None?
    ensures r.Err? ==> r.error == AttributeError("enabled")
    ensures r.Ok? ==> r.value.enabled.Some? && r.value.enabled.value + c.enabled.value == -1
    ensures r.Ok? ==> r.value.(enabled := c.enabled) == c
  {
    match c.enabled
    case None => Err(AttributeError("enabled"))
    case Some(e) => Ok(c.(enabled := Some(-e - 1)))
  }

  /** Toggling twice restores the calibrator. */
  lemma ToggleInvolution(c: Calibrator)
    requires c.enabled.Some?
    ensures Toggle(c).Ok? && Toggle(Toggle(c).value) == Ok(c)
  {
  }

  /** The calibrator after n toggles, or the first error. */
  function ToggleTimes(c: Calibrator, n: nat): Result<Calibrator>
  {
    if n == 0 then Ok(c)
    else
      var d :- ToggleTimes(c, n - 1);
      Toggle(d)
  }

  /** From False (0) the flag alternates between 0 and -1, so it is truthy exactly
      after an odd number of toggles. */
  lemma {:induction false} ToggleAlternates(c: Calibrator, n: nat)
    requires c.enabled == Some(0)
    ensures ToggleTimes(c, n).Ok?
    ensures ToggleTimes(c, n).value == c.(enabled := Some(if n % 2 == 0 then 0 else -1))
    ensures IsEnabled(ToggleTimes(c, n).value) <==> n % 2 == 1
  {
    if n > 0 {
      ToggleAlternates(c, n - 1);
    }
  }

  /** The pixel length the physical measurement divides by: 1 for the base class,
      the line length for the cross, dh for the circle pattern. */
  function PixelLength(k: Kind): int
  {
    match k
    case Base => 1
    case Cross(l) => l
    case Circle(dh, _, _, _, _, _) => dh
  }

  /** `set_physical_scale(measured_distance)`: millimetres per pixel, the measured
      distance over the pattern's pixel length; ZeroDivisionError for a zero length. */
  function SetPhysicalScale(c: Calibrator, measured: real): (r: Result<Calibrator>)
    ensures r.Err? <==> PixelLength(c.kind) == 0
    ensures r.Err? ==> r.error == ZeroDivisionError
    ensures r.Ok? ==> r.value.mmPx.Some? && r.value.mmPx.value * PixelLength(c.kind) as real == measured
    ensures r.Ok? ==> r.value.(mmPx := c.mmPx) == c
  {
    match c.kind
    case Base => Ok(c.(mmPx := Some(measured)))
    case Cross(l) =>
      if l == 0 then Err(ZeroDivisionError) else Ok(c.(mmPx := Some(measured / l as real)))
    case Circle(dh, _, _, _, _, _) =>
      if dh == 0 then Err(ZeroDivisionError) else Ok(c.(mmPx := Some(measured / dh as real)))
  }

  // ---------------------------------------------------------------------------
  // The calibration pattern

  /** An integer pixel position (x, y). */
  datatype Pixel = Pixel(x: int, y: int)

  function ToPoint(p: Pixel): Point
  {
    Point(p.x as real, p.y as real)
  }

  /** `int(dh * math.sqrt(3))` over exact reals: dh * sqrt(3) truncated toward zero,
      so its magnitude is the integer square root of 3 * dh * dh and its sign that
      of dh. */
  function SqrtThreeTimes(dh: int): (n: int)
    ensures dh >= 0 ==> n >= 0 && n == ISqrt(3 * (dh * dh))
    ensures dh < 0 ==> n <= 0 && -n == ISqrt(3 * (dh * dh))
  {
    var s: int := ISqrt(3 * (dh * dh));
    if dh >= 0 then s else -s
  }

  /** The three dot centres for a pattern of size dh on an h x w canvas. */
  function Centres(dh: int, h: int, w: int): (cs: seq<Pixel>)
    ensures |cs| == 3
    ensures cs[0].y == cs[1].y && cs[0].x == cs[2].x
    ensures cs[1].x - cs[0].x == 2 * (dh / 2) && cs[0].y - cs[2].y == 2 * (SqrtThreeTimes(dh) / 2)
    ensures cs[0].x + cs[1].x == 2 * (w / 2) && cs[0].y + cs[2].y == 2 * (h / 2)
  {
    var d2h := dh / 2;
    var d2w := SqrtThreeTimes(dh) / 2;
    var ch := h / 2;
    var cw := w / 2;
    DotCentres(cw, ch, d2h, d2w)
  }

  /** Dots at (cw - a, ch + b), (cw + a, ch + b) and (cw - a, ch - b): the corners
      of a right triangle with its right angle at the first dot, legs of 2a along x
      and 2b along y, and its bounding box centred on (cw, ch). */
  function DotCentres(cw: int, ch: int, a: int, b: int): (cs: seq<Pixel>)
    ensures |cs| == 3
    ensures cs[0].y == cs[1].y && cs[0].x == cs[2].x
    ensures cs[1].x - cs[0].x == 2 * a && cs[0].y - cs[2].y == 2 * b
    ensures cs[0].x + cs[1].x == 2 * cw && cs[0].y + cs[2].y == 2 * ch
  {
    [Pixel(cw - a, ch + b), Pixel(cw + a, ch + b), Pixel(cw - a, ch - b)]
  }

  function CentreTri(dh: int, h: int, w: int): Tri
  {
    var cs := Centres(dh, h, w);
    [ToPoint(cs[0]), ToPoint(cs[1]), ToPoint(cs[2])]
  }

  /** The integer dot product of the edges from c0 to c1 and from c0 to c2. */
  function EdgeDot(c0: Pixel, c1: Pixel, c2: Pixel): int
  {
    (c1.x - c0.x) * (c2.x - c0.x) + (c1.y - c0.y) * (c2.y - c0.y)
  }

  /** The first centre is the right-angle vertex: the integer dot product of its two
      edges is zero, whatever the sizes. */
  lemma CentresRightAngle(dh: int, h: int, w: int)
    ensures var cs := Centres(dh, h, w); EdgeDot(cs[0], cs[1], cs[2]) == 0
  {
    DotCentresRightAngle(w / 2, h / 2, dh / 2, SqrtThreeTimes(dh) / 2);
  }

  lemma DotCentresRightAngle(cw: int, ch: int, a: int, b: int)
    ensures var cs := DotCentres(cw, ch, a, b); EdgeDot(cs[0], cs[1], cs[2]) == 0
  {
    var cs := DotCentres(cw, ch, a, b);
    assert cs[2].x - cs[0].x == 0 && cs[1].y - cs[0].y == 0;
  }

  /** The points `make_calibration_pattern` stores: the centres reordered by angle. */
  function PatternPoints(dh: int, h: int, w: int): (t: Tri)
    ensures Rearranges(t, CentreTri(dh, h, w))
  {
    SortByAngle(CentreTri(dh, h, w))
  }

  /** For dh >= 3 the horizontal half-offset is positive and smaller than the
      vertical one, so the three dots are distinct and not collinear. */
  lemma OffsetsOrdered(dh: int)
    requires dh >= 3
    ensures 0 < dh / 2 < SqrtThreeTimes(dh) / 2
  {
    SquareBound(dh);
    ISqrtAtLeast(3 * (dh * dh), dh + 2);
    assert dh + 2 <= SqrtThreeTimes(dh);
  }

  lemma SquareBound(k: int)
    requires k >= 3
    ensures (k + 2) * (k + 2) <= 3 * (k * k)
  {
    assert k * k >= 3 * k;
  }

  /** The key of a right angle is zero. */
  lemma RightAngleKey(ux: real, uy: real, vx: real, vy: real, n1: real, n2: real)
    requires ux * vx + uy * vy == 0.0
    requires n1 == ux * ux + uy * uy && n2 == vx * vx + vy * vy && 0.0 < n1 && 0.0 < n2
    ensures KeyOf(ux, uy, vx, vy) == 0.0
  {
    assert SignedSquare(ux * vx + uy * vy) == 0.0;
    PositiveProduct(n1, n2);
  }

  lemma PositiveProduct(p: real, q: real)
    requires 0.0 < p && 0.0 < q
    ensures 0.0 < p * q
  {
  }

  /** The key at a vertex whose first edge (ux, uy) is also the projection of the
      second edge onto it: -|u|^2 / |v|^2, the negated squared cosine. */
  lemma ProjectionKey(ux: real, uy: real, vx: real, vy: real, n: real, m: real)
    requires n == ux * ux + uy * uy && n == ux * vx + uy * vy && m == vx * vx + vy * vy
    requires 0.0 < n && 0.0 < m
    ensures KeyOf(ux, uy, vx, vy) == -n / m
  {
    assert SignedSquare(n) == n * n;
    FractionCancel(n, n, m);
  }

  lemma FractionCancel(x: real, k: real, m: real)
    requires 0.0 < k && 0.0 < m
    ensures -(x * k) / (k * m) == -x / m
  {
  }

  lemma TimesPositive(p: real, q: real)
    requires 0.0 < p && 0.0 < q
    ensures 0.0 < Times(p, q)
  {
  }

  lemma SquaresOrdered(a: real, b: real)
    requires 0.0 < a < b
    ensures Times(a, a) < Times(b, b)
  {
    assert a * a < a * b;
    assert a * b < b * b;
  }

  /** Dots at (X - a, Y + b), (X + a, Y + b) and (X - a, Y - b). */
  function PatternTri(x: real, y: real, a: real, b: real): Tri
  {
    [Point(x - a, y + b), Point(x + a, y + b), Point(x - a, y - b)]
  }

  /** The angle keys of the three dots of `PatternTri` with 0 < a < b: the right
      angle has the largest key, the vertex whose opposite side is the shorter one
      the smallest. */
  lemma PatternKeys(x: real, y: real, a: real, b: real)
    requires 0.0 < a < b
    ensures var k := Angles(PatternTri(x, y, a, b)); k[2] < k[1] < k[0]
  {
    var aa, bb := Times(2.0 * a, 2.0 * a), Times(2.0 * b, 2.0 * b);
    TimesPositive(2.0 * a, 2.0 * a);
    TimesPositive(2.0 * b, 2.0 * b);
    SquaresOrdered(2.0 * a, 2.0 * b);
    FractionsOrdered(aa, bb);
    PatternKey0(x, y, a, b);
    PatternKey1(x, y, a, b);
    PatternKey2(x, y, a, b);
  }

  lemma PatternKey0(x: real, y: real, a: real, b: real)
    requires 0.0 < a && 0.0 < b
    ensures VertexKey(PatternTri(x, y, a, b), 0) == 0.0
  {
    var aa, bb := Times(2.0 * a, 2.0 * a), Times(2.0 * b, 2.0 * b);
    TimesPositive(2.0 * a, 2.0 * a);
    TimesPositive(2.0 * b, 2.0 * b);
    var t := PatternTri(x, y, a, b);
    assert VertexKey(t, 0) == KeyOf(0.0, -2.0 * b, 2.0 * a, 0.0);
    RightAngleKey(0.0, -2.0 * b, 2.0 * a, 0.0, bb, aa);
  }

  lemma PatternKey1(x: real, y: real, a: real, b: real)
    requires 0.0 < a && 0.0 < b
    ensures var aa, bb := Times(2.0 * a, 2.0 * a), Times(2.0 * b, 2.0 * b);
            0.0 < aa && 0.0 < bb && VertexKey(PatternTri(x, y, a, b), 1) == -aa / (aa + bb)
  {
    var aa, bb := Times(2.0 * a, 2.0 * a), Times(2.0 * b, 2.0 * b);
    TimesPositive(2.0 * a, 2.0 * a);
    TimesPositive(2.0 * b, 2.0 * b);
    var t := PatternTri(x, y, a, b);
    assert VertexKey(t, 1) == KeyOf(-2.0 * a, 0.0, -2.0 * a, -2.0 * b);
    ProjectionKey(-2.0 * a, 0.0, -2.0 * a, -2.0 * b, aa, aa + bb);
  }

  lemma PatternKey2(x: real, y: real, a: real, b: real)
    requires 0.0 < a && 0.0 < b
    ensures var aa, bb := Times(2.0 * a, 2.0 * a), Times(2.0 * b, 2.0 * b);
            0.0 < aa && 0.0 < bb && VertexKey(PatternTri(x, y, a, b), 2) == -bb / (aa + bb)
  {
    var aa, bb := Times(2.0 * a, 2.0 * a), Times(2.0 * b, 2.0 * b);
    TimesPositive(2.0 * a, 2.0 * a);
    TimesPositive(2.0 * b, 2.0 * b);
    var t := PatternTri(x, y, a, b);
    KeySymmetric(t[2], t[1], t[0]);
    assert VertexKey(t, 2) == KeyOf(0.0, 2.0 * b, 2.0 * a, 2.0 * b);
    ProjectionKey(0.0, 2.0 * b, 2.0 * a, 2.0 * b, bb, aa + bb);
  }

  /** For dh >= 3 the sorted pattern lists the 30-degree dot, then the 60-degree dot,
      then the right-angle dot: the centres in reverse order. */
  lemma PatternOrder(dh: int, h: int, w: int)
    requires dh >= 3
    ensures var t := CentreTri(dh, h, w);
            PatternPoints(dh, h, w) == [t[2], t[1], t[0]]
  {
    OffsetsOrdered(dh);
    var t := CentreTri(dh, h, w);
    var a, b := (dh / 2) as real, (SqrtThreeTimes(dh) / 2) as real;
    var x, y := (w / 2) as real, (h / 2) as real;
    assert t == PatternTri(x, y, a, b);
    PatternKeys(x, y, a, b);
    var idx: seq<nat> := [2, 1, 0];
    assert Sorted(Angles(t), idx);
    assert IsPermutation(idx, 3) by {
      assert idx[2] == 0 && idx[1] == 1 && idx[0] == 2;
    }
    ArgSortUnique(Angles(t), idx);
  }

  lemma FractionsOrdered(x: real, y: real)
    requires 0.0 < x < y
    ensures -y / (x + y) < -x / (x + y) < 0.0
  {
  }

  /** `make_calibration_pattern(p, h, w)` without the painting: the base class does
      nothing, the cross records half the height as its line length, the circle
      pattern stores its sorted points. */
  function MakeCalibrationPattern(c: Calibrator, h: int, w: int): (r: Calibrator)
    ensures r.enabled == c.enabled && r.mmPx == c.mmPx && r.lengthToMeasure == c.lengthToMeasure
    ensures c.kind.Base? ==> r == c
    ensures c.kind.Cross? ==> r.kind.Cross? && 2 * r.kind.lineLengthPx <= h < 2 * r.kind.lineLengthPx + 2
    ensures c.kind.Circle? ==> r.kind == c.kind.(points := Some(PatternPoints(c.kind.dh, h, w)))
  {
    match c.kind
    case Base => c
    case Cross(_) => c.(kind := Cross(h / 2))
    case Circle(dh, _, _, _, _, _) => c.(kind := c.kind.(points := Some(PatternPoints(dh, h, w))))
  }

  // ---------------------------------------------------------------------------
  // Vertex angles

  /** The key of the angle at a vertex whose edges are (ux, uy) and (vx, vy). With
      cos the cosine of the angle it is -cos * |cos|, computed without square roots
      as -(dot * |dot|) / (|u|^2 * |v|^2); it grows strictly with the angle. An edge
      of length zero makes numpy's cosine nan, which sorts after every number; the
      key is then 2, above every other key. */
  function KeyOf(ux: real, uy: real, vx: real, vy: real): (r: real)
    ensures ux * ux + uy * uy == 0.0 || vx * vx + vy * vy == 0.0 ==> r == 2.0
    ensures ux * ux + uy * uy != 0.0 && vx * vx + vy * vy != 0.0 ==> -1.0 <= r <= 1.0
  {
    var dot := ux * vx + uy * vy;
    var n1 := ux * ux + uy * uy;
    var n2 := vx * vx + vy * vy;
    if n1 == 0.0 || n2 == 0.0 then 2.0
    else
      CauchySchwarz(ux, uy, vx, vy);
      UnitBound(SignedSquare(dot), n1 * n2);
      -SignedSquare(dot) / (n1 * n2)
  }

  function Abs(x: real): real
  {
    if x < 0.0 then -x else x
  }

  /** x * |x|: the square with the sign of x. */
  function SignedSquare(x: real): real
  {
    x * Abs(x)
  }

  /** dot(u, v)^2 <= |u|^2 |v|^2, by Lagrange's identity. */
  lemma CauchySchwarz(ux: real, uy: real, vx: real, vy: real)
    ensures SignedSquare(ux * vx + uy * vy) <= (ux * ux + uy * uy) * (vx * vx + vy * vy)
    ensures -((ux * ux + uy * uy) * (vx * vx + vy * vy)) <= SignedSquare(ux * vx + uy * vy)
  {
    var cross := ux * vy - uy * vx;
    assert (ux * ux + uy * uy) * (vx * vx + vy * vy)
        == (ux * vx + uy * vy) * (ux * vx + uy * vy) + cross * cross;
    assert 0.0 <= cross * cross;
  }

  lemma UnitBound(q: real, d: real)
    requires 0.0 < d && -d <= q <= d
    ensures -1.0 <= -q / d <= 1.0
  {
  }

  /** The key of the angle at `pt` between the edges to `prev` and `next`. */
  function Key(pt: Point, prev: Point, next: Point): real
  {
    KeyOf(prev.x - pt.x, prev.y - pt.y, next.x - pt.x, next.y - pt.y)
  }

  /** The angle formula is symmetric in its two neighbours. */
  lemma KeySymmetric(pt: Point, a: Point, b: Point)
    ensures Key(pt, a, b) == Key(pt, b, a)
  {
    var ux, uy, vx, vy := a.x - pt.x, a.y - pt.y, b.x - pt.x, b.y - pt.y;
    assert ux * vx + uy * vy == vx * ux + vy * uy;
    assert (ux * ux + uy * uy) * (vx * vx + vy * vy) == (vx * vx + vy * vy) * (ux * ux + uy * uy);
  }

  /** x * |x| is strictly increasing. */
  lemma SignedSquareMonotone(x: real, y: real)
    ensures x < y <==> SignedSquare(x) < SignedSquare(y)
  {
    if x < y {
      SignedSquareIncreasing(x, y);
    } else if y < x {
      SignedSquareIncreasing(y, x);
    }
  }

  lemma SignedSquareIncreasing(x: real, y: real)
    requires x < y
    ensures SignedSquare(x) < SignedSquare(y)
  {
    if 0.0 <= x {
      SquaresIncreasing(x, y);
      assert SignedSquare(x) == Times(x, x) && SignedSquare(y) == Times(y, y);
    } else if y <= 0.0 {
      SquaresIncreasing(-y, -x);
      assert SignedSquare(x) == -Times(-x, -x) && SignedSquare(y) == -Times(-y, -y);
    } else {
      assert SignedSquare(x) == -(x * x);
      assert 0.0 < y * y;
    }
  }

  lemma SquaresIncreasing(x: real, y: real)
    requires 0.0 <= x < y
    ensures Times(x, x) < Times(y, y)
  {
    if x == 0.0 {
      TimesPositive(y, y);
    } else {
      SquaresOrdered(x, y);
    }
  }

  /** With s the product of the two edge lengths (s > 0, s * s == |u|^2 |v|^2), the
      key is -c * |c| for the cosine c == dot / s that `np.arccos` receives. */
  lemma KeyIsSignedCosineSquare(dot: real, n: real, s: real)
    requires 0.0 < s && 0.0 < n && s * s == n
    ensures -SignedSquare(dot) / n == -SignedSquare(dot / s)
  {
    var c := dot / s;
    assert dot == c * s;
    assert Abs(dot) == Abs(c) * s;
    assert dot * Abs(dot) == (c * Abs(c)) * n;
    CancelDivision(-(c * Abs(c)), n);
  }

  lemma CancelDivision(a: real, n: real)
    requires n != 0.0
    ensures (a * n) / n == a
  {
  }

  /** With s the product of the two edge lengths, the key is -c * |c| for the
      cosine c == dot / s that `np.arccos` receives. */
  lemma KeyIsCosine(ux: real, uy: real, vx: real, vy: real, s: real)
    requires ux * ux + uy * uy != 0.0 && vx * vx + vy * vy != 0.0
    requires 0.0 < s && s * s == (ux * ux + uy * uy) * (vx * vx + vy * vy)
    ensures KeyOf(ux, uy, vx, vy) == -SignedSquare((ux * vx + uy * vy) / s)
  {
    var n := (ux * ux + uy * uy) * (vx * vx + vy * vy);
    assert 0.0 < s * s;
    KeyIsSignedCosineSquare(ux * vx + uy * vy, n, s);
  }

  /** Comparing two keys compares the angles: a smaller key means a larger cosine,
      so a smaller arccos. Each vertex is given by its edges and by `s`, the product
      of its two edge lengths. */
  lemma KeyOrdersLikeAngle(ux: real, uy: real, vx: real, vy: real, s: real,
                           px: real, py: real, qx: real, qy: real, t: real)
    requires ux * ux + uy * uy != 0.0 && vx * vx + vy * vy != 0.0
    requires px * px + py * py != 0.0 && qx * qx + qy * qy != 0.0
    requires 0.0 < s && s * s == (ux * ux + uy * uy) * (vx * vx + vy * vy)
    requires 0.0 < t && t * t == (px * px + py * py) * (qx * qx + qy * qy)
    ensures KeyOf(ux, uy, vx, vy) < KeyOf(px, py, qx, qy)
        <==> (px * qx + py * qy) / t < (ux * vx + uy * vy) / s
  {
    KeyIsCosine(ux, uy, vx, vy, s);
    KeyIsCosine(px, py, qx, qy, t);
    SignedSquareMonotone((px * qx + py * qy) / t, (ux * vx + uy * vy) / s);
  }

  /** The angle key of vertex i: its neighbours are the points at (i - 1) % 3 and
      (i + 1) % 3, a non-negative remainder as in Python. */
  function VertexKey(t: Tri, i: nat): real
    requires i < 3
  {
    Key(t[i], t[(i - 1) % 3], t[(i + 1) % 3])
  }

  /** `_find_angles(kps)`: the angle key of each of the three points. */
  function Angles(t: Tri): (k: seq<real>)
    ensures |k| == 3
    ensures k[0] == Key(t[0], t[1], t[2]) && k[1] == Key(t[1], t[0], t[2]) && k[2] == Key(t[2], t[0], t[1])
  {
    KeySymmetric(t[0], t[2], t[1]);
    KeySymmetric(t[1], t[0], t[2]);
    KeySymmetric(t[2], t[1], t[0]);
    [VertexKey(t, 0), VertexKey(t, 1), VertexKey(t, 2)]
  }

  /** Three distinct indices below 3: the second and third are the two neighbours of
      the first, in one order or the other. */
  lemma OtherTwo(x: int, y: int, z: int)
    requires 0 <= x < 3 && 0 <= y < 3 && 0 <= z < 3 && x != y && y != z && x != z
    ensures (y == (x - 1) % 3 && z == (x + 1) % 3) || (y == (x + 1) % 3 && z == (x - 1) % 3)
  {
  }

  /** A permutation of three indices lists 0, 1 and 2 once each. */
  lemma PermutationOfThree(p: seq<nat>)
    requires IsPermutation(p, 3)
    ensures p[0] < 3 && p[1] < 3 && p[2] < 3
    ensures p[0] != p[1] && p[1] != p[2] && p[0] != p[2]
  {
    assert p == [p[0], p[1], p[2]];
    assert 0 in p && 1 in p && 2 in p;
  }

  /** Each point's angle depends only on the point and the other two, not on their
      order: reordering the input reorders the angles the same way. */
  lemma AnglesPermute(t: Tri, p: seq<nat>)
    requires IsPermutation(p, 3)
    ensures forall a :: 0 <= a < 3 ==> Angles(Permute(t, p))[a] == Angles(t)[p[a]]
  {
    PermutationOfThree(p);
    var u: Tri := Permute(t, p);
    forall a | 0 <= a < 3 ensures Angles(u)[a] == Angles(t)[p[a]] {
      var j: int := p[a];
      var y, z := p[(a - 1) % 3], p[(a + 1) % 3];
      OtherTwo(j, y, z);
      if y != (j - 1) % 3 {
        KeySymmetric(t[j], t[y], t[z]);
      }
    }
  }

  // ---------------------------------------------------------------------------
  // Finding the triangle

  /** `kps[np.argsort(_find_angles(kps))]`: the three points in ascending angle
      order, as a rearrangement of the input. */
  function SortByAngle(t: Tri): (r: Tri)
    ensures Rearranges(r, t)
    ensures Angles(r)[0] <= Angles(r)[1] <= Angles(r)[2]
  {
    var idx := ArgSort(Angles(t));
    PermutationOfThree(idx);
    AnglesPermute(t, idx);
    assert Before(Angles(t), idx[0], idx[1]) && Before(Angles(t), idx[1], idx[2]);
    Permute(t, idx)
  }

  /** `_find_triangle` given the detected keypoints: exactly three are needed. */
  function FindTriangle(kps: seq<Point>): (r: Result<Tri>)
    ensures r.Err? <==> |kps| != 3
    ensures r.Err? ==> r.error == CalibrationException
    ensures r.Ok? ==> Rearranges(r.value, kps)
    ensures r.Ok? ==> Angles(r.value)[0] <= Angles(r.value)[1] <= Angles(r.value)[2]
  {
    if |kps| != 3 then Err(CalibrationException) else Ok(SortByAngle(kps))
  }

  /** With three distinct angles the detected order does not matter: every
      rearrangement of the keypoints yields the same sorted triangle. */
  lemma FindTriangleOrderInvariant(t: Tri, p: seq<nat>)
    requires IsPermutation(p, 3) && Distinct(Angles(t))
    ensures FindTriangle(Permute(t, p)) == FindTriangle(t)
  {
    PermutationOfThree(p);
    var u: Tri := Permute(t, p);
    AnglesPermute(t, p);
    assert Distinct(Angles(u));
    ArgSortOfRearranged(Angles(t), Angles(u), p);
    assert SortByAngle(u) == SortByAngle(t);
  }

  // ---------------------------------------------------------------------------
  // Solving the transforms

  /** `find_transform_matrix` given the detected keypoints. The steps run in the
      source's order and each assignment stays when a later step raises: a failed
      detection changes nothing; then `points_cam` is stored; a pattern that was never
      drawn has `points` None, and reading its `.T` raises; then `proj_to_cam`
      (LinAlgError if the projector points are collinear) and `cam_to_proj`
      (LinAlgError if the camera points are collinear) are stored one after the
      other. Only the circle calibrator has the method. */
  function FindTransformMatrix(c: Calibrator, kps: seq<Point>): (r: (Calibrator, Outcome))
    ensures !c.kind.Circle? ==> r == (c, Fail(AttributeError("find_transform_matrix")))
    ensures c.kind.Circle? && |kps| != 3 ==> r == (c, Fail(CalibrationException))
    ensures r.0.enabled == c.enabled && r.0.mmPx == c.mmPx && r.0.lengthToMeasure == c.lengthToMeasure
    ensures c.kind.Circle? ==> r.0.kind.Circle? && r.0.kind.dh == c.kind.dh && r.0.kind.r == c.kind.r
                               && r.0.kind.points == c.kind.points
    ensures c.kind.Circle? && |kps| == 3 ==> r.0.kind.pointsCam == Some(SortByAngle(kps))
  {
    if !c.kind.Circle? then (c, Fail(AttributeError("find_transform_matrix")))
    else
      match FindTriangle(kps)
      case Err(e) => (c, Fail(e))
      case Ok(cam) =>
        var c1 := c.(kind := c.kind.(pointsCam := Some(cam)));
        match c.kind.points
        case None => (c1, Fail(AttributeError("T")))
        case Some(proj) =>
          match SolveAffine(proj, cam)
          case Err(e) => (c1, Fail(e))
          case Ok(projToCam) =>
            var c2 := c1.(kind := c1.kind.(projToCam := Some(projToCam)));
            match SolveAffine(cam, proj)
            case Err(e) => (c2, Fail(e))
            case Ok(camToProj) => (c2.(kind := c2.kind.(camToProj := Some(camToProj))), Pass)
  }

  /** `find_transform_matrix` succeeds exactly when both point sets span a triangle,
      and then `proj_to_cam` sends each projector point to the camera point with the
      same index and `cam_to_proj` sends it back. */
  lemma FindTransformMatrixSolves(c: Calibrator, kps: seq<Point>)
    ensures var r := FindTransformMatrix(c, kps);
            (r.1 == Pass <==> c.kind.Circle? && |kps| == 3 && c.kind.points.Some?
                              && Orientation(c.kind.points.value) != 0.0
                              && Orientation(SortByAngle(kps)) != 0.0)
            && (r.1 == Pass ==>
                  r.0.kind.Circle? && r.0.kind.points.Some? && r.0.kind.pointsCam.Some?
                  && r.0.kind.projToCam.Some? && r.0.kind.camToProj.Some?
                  && MapsPoints(r.0.kind.projToCam.value, r.0.kind.points.value, r.0.kind.pointsCam.value)
                  && MapsPoints(r.0.kind.camToProj.value, r.0.kind.pointsCam.value, r.0.kind.points.value))
  {
    if c.kind.Circle? && |kps| == 3 && c.kind.points.Some? {
      HomogeneousSingularIffCollinear(c.kind.points.value);
      HomogeneousSingularIffCollinear(SortByAngle(kps));
    }
  }

  /** Which fields a failing `find_transform_matrix` has already assigned. */
  lemma FindTransformMatrixPartial(c: Calibrator, kps: seq<Point>)
    requires c.kind.Circle? && |kps| == 3
    ensures var r := FindTransformMatrix(c, kps);
            (c.kind.points.None? ==>
               r.1 == Fail(AttributeError("T")) && r.0.kind == c.kind.(pointsCam := Some(SortByAngle(kps))))
            && (c.kind.points.Some? && Orientation(c.kind.points.value) == 0.0 ==>
                  r.1 == Fail(LinAlgError) && r.0.kind == c.kind.(pointsCam := Some(SortByAngle(kps))))
            && (c.kind.points.Some? && Orientation(c.kind.points.value) != 0.0
                && Orientation(SortByAngle(kps)) == 0.0 ==>
                  r.1 == Fail(LinAlgError) && r.0.kind.pointsCam == Some(SortByAngle(kps))
                  && r.0.kind.camToProj == c.kind.camToProj && r.0.kind.projToCam.Some?
                  && MapsPoints(r.0.kind.projToCam.value, c.kind.points.value, SortByAngle(kps)))
  {
    if c.kind.points.Some? {
      HomogeneousSingularIffCollinear(c.kind.points.value);
      HomogeneousSingularIffCollinear(SortByAngle(kps));
    }
  }
}
