/** The seamlessly tiled background stimuli: the translation matrix handed to
    `cv2.warpAffine`, the 3 x 3 tiling `SeamlessPainterStimulus.paint` draws, and
    `MovingSeamless`, which reads its position from a motion table. */
module Seamless {
  import opened Errors
  import opened Geometry
  import opened StimulusState
  import opened Interpolation

  // ---------------------------------------------------------------------------
  // The translation matrix

  /** `_transform_mat(dims)` at angle zero: the 2 x 3 matrix [[1, 0, y], [0, 1, x]].
      The image column is shifted by the stimulus's y and the row by its x. */
  function TranslationMat(x: real, y: real): (m: Affine)
    ensures forall p :: Apply(m, p) == Point(p.x + y, p.y + x)
  {
    Affine(1.0, 0.0, y, 0.0, 1.0, x)
  }

  /** The matrix at angle zero is a pure translation by (y, x). */
  lemma TransformMatTranslates(x: real, y: real, p: Point)
    ensures Apply(TranslationMat(x, y), p) == Point(p.x + y, p.y + x)
  {
  }

  // ---------------------------------------------------------------------------
  // Tiling

  /** `x - np.floor(x / n) * n`: x reduced into [0, n). */
  function Wrap(x: real, n: real): (c: real)
    requires n > 0.0
    ensures 0.0 <= c < n
  {
    var f := (x / n).Floor as real;
    FloorRemainder(x, n, f);
    x - Times(f, n)
  }

  lemma FloorRemainder(x: real, n: real, f: real)
    requires n > 0.0 && f <= x / n < f + 1.0
    ensures 0.0 <= x - Times(f, n) < n
  {
    DivTimes(x, n);
    TimesLe(f, x / n, n);
    TimesLt(x / n, f + 1.0, n);
    TimesSucc(f, n);
  }

  /** Moving by a whole image width does not change the wrapped offset. */
  lemma WrapPeriodic(x: real, n: real)
    requires n > 0.0
    ensures Wrap(x + n, n) == Wrap(x, n)
  {
    ShiftQuotient(x, n);
    var f := (x / n).Floor;
    var g := ((x + n) / n).Floor;
    assert g == f + 1;
    assert Wrap(x, n) == x - Times(f as real, n);
    assert Wrap(x + n, n) == x + n - Times(g as real, n);
    TimesSucc(f as real, n);
  }

  lemma ShiftQuotient(x: real, n: real)
    requires n != 0.0
    ensures (x + n) / n == x / n + 1.0
  {
    DivTimes(x, n);
    DivTimes(x + n, n);
    TimesSucc(x / n, n);
    TimesCancel((x + n) / n, x / n + 1.0, n);
  }

  /** An offset already in [0, n) is left as it is. */
  lemma WrapInRange(x: real, n: real)
    requires 0.0 <= x < n
    ensures Wrap(x, n) == x
  {
    assert 0.0 <= x / n < 1.0;
  }

  /** What was taken off is a whole number of widths. */
  lemma WrapRemovesWholeWidths(x: real, n: real)
    requires n > 0.0
    ensures var q := (x - Wrap(x, n)) / n; q == q.Floor as real
  {
    var f := (x / n).Floor as real;
    assert x - Wrap(x, n) == Times(f, n);
    DivTimes(Times(f, n), n);
    TimesCancel(Times(f, n) / n, f, n);
  }

  /** The wrapped offset is the only value in [0, n) that differs from x by a whole
      number of widths. */
  lemma WrapUnique(x: real, n: real, c: real, k: int)
    requires n > 0.0 && 0.0 <= c < n && x == c + Times(k as real, n)
    ensures Wrap(x, n) == c
  {
    DivTimes(x, n);
    DivTimes(c, n);
    assert Times(c / n + k as real, n) == Times(x / n, n);
    TimesCancel(c / n + k as real, x / n, n);
    FractionOfWidth(c, n);
    assert (x / n).Floor == k;
  }

  lemma FractionOfWidth(c: real, n: real)
    requires n > 0.0 && 0.0 <= c < n
    ensures 0.0 <= c / n < 1.0
  {
    DivTimes(c, n);
    if c / n < 0.0 {
      TimesLt(c / n, 0.0, n);
      ZeroTimes(n);
    } else if 1.0 <= c / n {
      TimesLe(1.0, c / n, n);
    }
  }

  /** The nine tile origins `(dx + imw * i, dy + imh * j)` for i and j in -1, 0, 1,
      in the order of `product(range(-1, 2), range(-1, 2))`. */
  function Tiles(dx: real, dy: real, imw: real, imh: real): (r: seq<Point>)
    ensures |r| == 9
    ensures forall k :: 0 <= k < 9 ==>
              r[k] == Point(dx + imw * (k / 3 - 1) as real, dy + imh * (k % 3 - 1) as real)
  {
    var r := [Point(dx - imw, dy - imh), Point(dx - imw, dy), Point(dx - imw, dy + imh),
              Point(dx, dy - imh), Point(dx, dy), Point(dx, dy + imh),
              Point(dx + imw, dy - imh), Point(dx + imw, dy), Point(dx + imw, dy + imh)];
    assert forall k :: 0 <= k < 9 ==>
             r[k] == Point(dx + imw * (k / 3 - 1) as real, dy + imh * (k % 3 - 1) as real) by {
      forall k | 0 <= k < 9
        ensures r[k] == Point(dx + imw * (k / 3 - 1) as real, dy + imh * (k % 3 - 1) as real)
      {
        if k < 3 {
          assert k / 3 - 1 == -1;
        } else if k < 6 {
          assert k / 3 - 1 == 0;
        } else {
          assert k / 3 - 1 == 1;
        }
      }
    }
    r
  }

  /** The tile origins `paint(p, w, h)` draws the background at, for a stimulus at
      (x, y), a w x h display and an imw x imh image. The wrapped offset divides by
      the image size, so an empty image raises ZeroDivisionError. The horizontal
      offset is added and the vertical one subtracted. */
  function PaintTiles(x: real, y: real, w: int, h: int, imw: nat, imh: nat): (r: Result<seq<Point>>)
    ensures r.Err? <==> imw == 0 || imh == 0
    ensures r.Err? ==> r.error == ZeroDivisionError
    ensures r.Ok? ==> |r.value| == 9
    ensures r.Ok? ==> r.value == Tiles(w as real / 2.0 - imw as real / 2.0 + Wrap(x, imw as real),
                                       h as real / 2.0 - imh as real / 2.0 - Wrap(y, imh as real),
                                       imw as real, imh as real)
  {
    if imw == 0 || imh == 0 then Err(ZeroDivisionError)
    else
      var cx := Wrap(x, imw as real);
      var cy := Wrap(y, imh as real);
      var dx := w as real / 2.0 - imw as real / 2.0 + cx;
      var dy := h as real / 2.0 - imh as real / 2.0 - cy;
      Ok(Tiles(dx, dy, imw as real, imh as real))
  }

  /** Shifting the stimulus by a whole image width or height draws the same tiles:
      the background scrolls without a jump. */
  lemma PaintTilesPeriodic(x: real, y: real, w: int, h: int, imw: nat, imh: nat)
    requires imw > 0 && imh > 0
    ensures PaintTiles(x + imw as real, y, w, h, imw, imh) == PaintTiles(x, y, w, h, imw, imh)
    ensures PaintTiles(x, y + imh as real, w, h, imw, imh) == PaintTiles(x, y, w, h, imw, imh)
  {
    WrapPeriodic(x, imw as real);
    WrapPeriodic(y, imh as real);
  }

  /** A point `p` lies in the image drawn with its top-left corner at `o`. */
  predicate InTile(o: Point, imw: real, imh: real, p: Point)
  {
    o.x <= p.x < o.x + imw && o.y <= p.y < o.y + imh
  }

  /** When the image is at least as large as the display, the nine tiles cover
      every point of the display (before the rotation is applied). */
  lemma TilesCoverDisplay(x: real, y: real, w: int, h: int, imw: nat, imh: nat, p: Point)
    requires 0 < w <= imw && 0 < h <= imh
    requires 0.0 <= p.x < w as real && 0.0 <= p.y < h as real
    ensures exists k :: 0 <= k < 9 && InTile(PaintTiles(x, y, w, h, imw, imh).value[k], imw as real, imh as real, p)
  {
    var W, H := imw as real, imh as real;
    var cx, cy := Wrap(x, W), Wrap(y, H);
    var dx := w as real / 2.0 - W / 2.0 + cx;
    var dy := h as real / 2.0 - H / 2.0 - cy;
    var ts := PaintTiles(x, y, w, h, imw, imh).value;
    var i := if p.x < dx then -1 else if p.x < dx + W then 0 else 1;
    var j := if p.y < dy then -1 else if p.y < dy + H then 0 else 1;
    var k := 3 * (i + 1) + (j + 1);
    assert InTile(ts[k], W, H, p);
  }

  // ---------------------------------------------------------------------------
  // Painted and moving seamless stimuli

  /** What `qimage2ndarray.array2qimage` accepts: a numpy array of two or three
      dimensions. */
  predicate ImageArray(v: Value)
  {
    v.Array? && 2 <= v.ndim <= 3
  }

  /** `SeamlessPainterStimulus(background=..., dynamic_parameters=...)`. The class
      also accepts a misspelled `dynamic_paramters` keyword, which is captured by
      its own signature and never used. The background array is replaced by its
      QImage, an opaque object; anything else, including the default None, makes
      the conversion raise ValueError. */
  function NewSeamlessPainter(duration: real, background: Value,
                              dynamicParameters: Option<seq<string>>,
                              dynamicParamters: seq<string>): (r: Result<Attrs>)
    ensures r.Err? <==> !ImageArray(background)
    ensures r.Err? ==> r.error == ValueError
    ensures r.Ok? ==> IsDynamic(r.value) && "elapsed" in r.value && r.value["elapsed"] == Float(0.0)
    ensures r.Ok? ==> "x" in r.value && "y" in r.value && "theta" in r.value
                      && r.value["x"] == r.value["y"] == r.value["theta"] == Int(0)
    ensures r.Ok? ==> "_background" in r.value && r.value["_background"] == Object(false)
  {
    if !ImageArray(background) then Err(ValueError)
    else
      var s := WithDynamicParameters(NewStimulus(duration), dynamicParameters);
      assert s["elapsed"] == Float(0.0);
      Ok(WithBackground(s, background)["_background" := Object(false)])
  }

  /** Whatever is passed as the misspelled keyword, a painted seamless stimulus
      built without `dynamic_parameters` records nothing, whatever its class. */
  lemma SeamlessPainterRecordsNothing(duration: real, background: Value,
                                      dynamicParamters: seq<string>, cls: Attrs)
    ensures var r := NewSeamlessPainter(duration, background, None, dynamicParamters);
            r.Ok? ==> GetDynamicState(r.value, cls) == []
  {
  }

  /** The three attributes `MovingSeamless.update` sets, in the order it sets them. */
  datatype Coord = X | Y | Theta

  /** The attribute's name, which is also the name of its motion-table column. */
  function Column(a: Coord): string
  {
    match a
    case X => "x"
    case Y => "y"
    case Theta => "theta"
  }

  /** The attributes of a `MovingSeamless` that `update` reads and writes: the
      elapsed time, the position and angle, and the motion table (a DataFrame, or
      anything else when none was given). */
  datatype Moving = Moving(elapsed: real, x: real, y: real, theta: real, motion: Value)

  function Get(m: Moving, a: Coord): real
  {
    match a
    case X => m.x
    case Y => m.y
    case Theta => m.theta
  }

  function WithCoord(m: Moving, a: Coord, v: real): (r: Moving)
    ensures Get(r, a) == v && r.elapsed == m.elapsed && r.motion == m.motion
    ensures forall b :: b != a ==> Get(r, b) == Get(m, b)
  {
    match a
    case X => m.(x := v)
    case Y => m.(y := v)
    case Theta => m.(theta := v)
  }

  /** `MovingSeamless(motion=...)`: a painted seamless stimulus with a motion table,
      starting where `SeamlessPainterStimulus.__init__` leaves it, or its error. */
  function NewMovingSeamless(duration: real, background: Value,
                             dynamicParameters: Option<seq<string>>, motion: Value): (r: Result<Moving>)
    ensures r.Err? <==> !ImageArray(background)
    ensures r.Err? ==> r.error == ValueError
    ensures r.Ok? ==> var m := r.value;
              m.elapsed == 0.0 && m.x == 0.0 && m.y == 0.0 && m.theta == 0.0 && m.motion == motion
  {
    var s :- NewSeamlessPainter(duration, background, dynamicParameters, ["x", "y", "theta"]);
    Ok(Moving(Num(s, "elapsed"), Num(s, "x"), Num(s, "y"), Num(s, "theta"), motion))
  }

  /** The motion table has a `t` column and a column for `a`; otherwise reading it
      raises AttributeError or KeyError, which `update` catches. */
  predicate HasTrack(m: Moving, a: Coord)
  {
    m.motion.Table? && "t" in m.motion.columns && Column(a) in m.motion.columns
  }

  /** The table's column for `a` cannot be interpolated: its time column is empty
      or the two columns differ in length. */
  predicate BadTrack(m: Moving, a: Coord)
    requires HasTrack(m, a)
  {
    var cols := m.motion.columns;
    |cols["t"]| == 0 || |cols["t"]| != |cols[Column(a)]|
  }

  /** One iteration of `MovingSeamless.update`: set `a` to its column interpolated
      at the elapsed time; a missing table or column is skipped, and numpy's
      ValueError escapes. */
  function TrackAttr(m: Moving, a: Coord): (r: (Moving, Outcome))
    ensures r.0.elapsed == m.elapsed && r.0.motion == m.motion
    ensures r.1.Fail? <==> HasTrack(m, a) && BadTrack(m, a)
    ensures r.1.Fail? ==> r.0 == m && r.1.error == ValueError
    ensures forall b :: b != a || !HasTrack(m, a) ==> Get(r.0, b) == Get(m, b)
    ensures HasTrack(m, a) && !BadTrack(m, a) ==>
              var cols := m.motion.columns;
              Get(r.0, a) == Interp(m.elapsed, cols["t"], cols[Column(a)]).value
  {
    if !HasTrack(m, a) then (m, Pass)
    else
      var cols := m.motion.columns;
      match Interp(m.elapsed, cols["t"], cols[Column(a)])
      case Err(e) => (m, Fail(e))
      case Ok(v) => (WithCoord(m, a, v), Pass)
  }

  /** `MovingSeamless.update()`: x, y and theta in turn, stopping at the first error.
      It fails, with ValueError, exactly when some tracked column cannot be
      interpolated; the elapsed time and the table never change, and an attribute
      without a column keeps its value. */
  function MovingSeamlessUpdate(m: Moving): (r: (Moving, Outcome))
    ensures r.1.Fail? <==> exists a :: HasTrack(m, a) && BadTrack(m, a)
    ensures r.1.Fail? ==> r.1.error == ValueError
    ensures r.0.elapsed == m.elapsed && r.0.motion == m.motion
    ensures forall a :: !HasTrack(m, a) ==> Get(r.0, a) == Get(m, a)
  {
    var (m1, o1) := TrackAttr(m, X);
    if o1.Fail? then (m1, o1)
    else
      assert HasTrack(m1, Y) == HasTrack(m, Y) && HasTrack(m1, Theta) == HasTrack(m, Theta);
      var (m2, o2) := TrackAttr(m1, Y);
      if o2.Fail? then (m2, o2)
      else
        assert HasTrack(m2, Theta) == HasTrack(m, Theta);
        TrackAttr(m2, Theta)
  }

  /** When the table's times never decrease, every column has as many rows as the
      time column and the elapsed time is the time of row j (the last row with that
      time), each tracked attribute takes row j's value. */
  lemma MovingSeamlessAtSample(m: Moving, j: nat)
    requires m.motion.Table? && "t" in m.motion.columns
    requires var cols := m.motion.columns; var ts := cols["t"];
             NonDecreasing(ts) && j < |ts| && m.elapsed == ts[j]
             && (j == |ts| - 1 || ts[j] < ts[j + 1])
             && forall a :: HasTrack(m, a) ==> |cols[Column(a)]| == |ts|
    ensures var r := MovingSeamlessUpdate(m);
            r.1 == Pass && forall a :: HasTrack(m, a) ==> Get(r.0, a) == m.motion.columns[Column(a)][j]
  {
    var cols := m.motion.columns;
    var ts := cols["t"];
    forall a | HasTrack(m, a)
      ensures Interp(ts[j], ts, cols[Column(a)]) == Ok(cols[Column(a)][j])
    {
      InterpAtSample(ts, cols[Column(a)], j);
    }
  }
}
