/**
 * What one fragment of each layer program computes (the `render`, `f`,
 * `grad` and `de` bodies of the four shader sources of script.js), over
 * `real` instead of `mediump float`. The built-ins `step`, `fract`,
 * `smoothstep`, `mix`, `max`, `min` and `abs` follow section 8.3 (Common
 * Functions) of the OpenGL ES Shading Language 3.00 specification.
 */
module Shading {
  import opened Wrappers

  datatype Rgb = Rgb(r: real, g: real, b: real)

  datatype Vec2 = Vec2(x: real, y: real)

  const Black := Rgb(0.0, 0.0, 0.0)

  /**
   * The uniforms a layer program reads: `bg_color`, `line_color`,
   * `resolution`, `zoom` and, in the curve programs, `enable_range` and
   * `continuous_range` (lo, hi) as x and y.
   */
  datatype Uniforms = Uniforms(
    bgColor: Rgb, lineColor: Rgb, resolution: Vec2, zoom: real,
    enableRange: int, continuousRange: Vec2)

  /** A positive resolution: the divisions of the coordinate map are defined. */
  predicate PositiveResolution(res: Vec2) {
    res.x > 0.0 && res.y > 0.0
  }

  // ---------------------------------------------------------------------
  // Built-in functions

  function Abs(x: real): (r: real)
    ensures r >= 0.0 && (r == x || r == -x)
  {
    if x < 0.0 then -x else x
  }

  function Min(a: real, b: real): (r: real)
    ensures r <= a && r <= b && (r == a || r == b)
  {
    if b < a then b else a
  }

  function Max(a: real, b: real): (r: real)
    ensures r >= a && r >= b && (r == a || r == b)
  {
    if a < b then b else a
  }

  /** Componentwise `c >= a`. */
  predicate AtLeast(c: Rgb, a: Rgb) {
    c.r >= a.r && c.g >= a.g && c.b >= a.b
  }

  /** `max` on `vec3`: the least colour at least as bright as both, in every channel. */
  function MaxRgb(a: Rgb, b: Rgb): (c: Rgb)
    ensures AtLeast(c, a) && AtLeast(c, b)
    ensures forall d :: AtLeast(d, a) && AtLeast(d, b) ==> AtLeast(d, c)
  {
    Rgb(Max(a.r, b.r), Max(a.g, b.g), Max(a.b, b.b))
  }

  /** `step(edge, x)`: 0 when `x < edge`, 1 otherwise. */
  function Step(edge: real, x: real): (r: real)
    ensures r == 0.0 || r == 1.0
    ensures r == 1.0 <==> edge <= x
  {
    if x < edge then 0.0 else 1.0
  }

  /** `fract(x) = x - floor(x)`: the distance from x down to the nearest integer. */
  function Fract(x: real): (r: real)
    ensures 0.0 <= r < 1.0
    ensures x - r == (x - r).Floor as real
  {
    var n := x.Floor;
    assert (n as real).Floor == n;
    x - n as real
  }

  /** `clamp(x, lo, hi)`. */
  function Clamp(x: real, lo: real, hi: real): (r: real)
    requires lo <= hi
    ensures lo <= r <= hi
    ensures lo <= x <= hi ==> r == x
  {
    Min(Max(x, lo), hi)
  }

  /**
   * `smoothstep(e0, e1, x)`: `t * t * (3 - 2 * t)` with
   * `t = clamp((x - e0) / (e1 - e0), 0, 1)`. The standard leaves the result
   * undefined when `e0 >= e1`.
   */
  function Smoothstep(e0: real, e1: real, x: real): (r: real)
    requires e0 < e1
    ensures 0.0 <= r <= 1.0
    ensures x <= e0 ==> r == 0.0
    ensures e1 <= x ==> r == 1.0
  {
    var t := Clamp((x - e0) / (e1 - e0), 0.0, 1.0);
    DivideByPositive(x - e0, e1 - e0);
    SmoothUnit(t);
    t * t * (3.0 - 2.0 * t)
  }

  /** The cubic of smoothstep maps [0, 1] into [0, 1]. */
  lemma SmoothUnit(t: real)
    requires 0.0 <= t <= 1.0
    ensures 0.0 <= t * t * (3.0 - 2.0 * t) <= 1.0
  {
    // 1 - t^2 (3 - 2t) = (1 - t)^2 (1 + 2t)
    assert 1.0 - t * t * (3.0 - 2.0 * t) == (1.0 - t) * (1.0 - t) * (1.0 + 2.0 * t);
    ProductNonnegative((1.0 - t) * (1.0 - t), 1.0 + 2.0 * t);
    ProductNonnegative(t * t, 3.0 - 2.0 * t);
  }

  lemma ProductNonnegative(a: real, b: real)
    requires 0.0 <= a && 0.0 <= b
    ensures 0.0 <= a * b
  {
  }

  /** Dividing by a positive number keeps the sign and the comparison with 1. */
  lemma DivideByPositive(a: real, d: real)
    requires 0.0 < d
    ensures a <= 0.0 ==> a / d <= 0.0
    ensures d <= a ==> 1.0 <= a / d
  {
    var q := a / d;
    assert q * d == a;
    if q > 0.0 && a <= 0.0 {
      ProductNonnegative(q, d);
    }
    if q < 1.0 && d <= a {
      ProductNonnegative(1.0 - q, d);
    }
  }

  /** `mix(x, y, a) = x * (1 - a) + y * a`. */
  function Mix(x: real, y: real, a: real): (r: real)
    ensures a == 0.0 ==> r == x
    ensures a == 1.0 ==> r == y
    ensures 0.0 <= a <= 1.0 ==> Min(x, y) <= r <= Max(x, y)
  {
    if 0.0 <= a <= 1.0 then MixBetween(x, y, a); x * (1.0 - a) + y * a
    else x * (1.0 - a) + y * a
  }

  /** A convex combination lies between its ends. */
  lemma MixBetween(x: real, y: real, a: real)
    requires 0.0 <= a <= 1.0
    ensures Min(x, y) <= x * (1.0 - a) + y * a <= Max(x, y)
  {
    assert x * (1.0 - a) + y * a == x + (y - x) * a;
    ProductNonnegative(Abs(y - x), a);
    ProductNonnegative(Abs(y - x), 1.0 - a);
    assert Abs(y - x) * a + Abs(y - x) * (1.0 - a) == Abs(y - x);
    if x <= y {
      assert (y - x) * a == Abs(y - x) * a;
    } else {
      assert (y - x) * a == -(Abs(y - x) * a);
    }
  }

  /** `mix` on `vec3` with a scalar weight. */
  function MixRgb(x: Rgb, y: Rgb, a: real): Rgb {
    Rgb(Mix(x.r, y.r, a), Mix(x.g, y.g, a), Mix(x.b, y.b, a))
  }

  /** Every channel of `c` lies between the same channels of `x` and `y`. */
  predicate Between(c: Rgb, x: Rgb, y: Rgb) {
    && Min(x.r, y.r) <= c.r <= Max(x.r, y.r)
    && Min(x.g, y.g) <= c.g <= Max(x.g, y.g)
    && Min(x.b, y.b) <= c.b <= Max(x.b, y.b)
  }

  lemma ProductPositive(a: real, b: real)
    requires 0.0 < a && 0.0 < b
    ensures 0.0 < a * b
  {
  }

  /** Multiplying both sides by a positive number keeps an inequality. */
  lemma ScaleCompare(a: real, b: real, s: real)
    requires 0.0 < s
    ensures a * s <= b * s <==> a <= b
  {
    if a <= b {
      ProductNonnegative(b - a, s);
    } else {
      ProductPositive(a - b, s);
    }
    assert b * s - a * s == (b - a) * s;
  }

  // ---------------------------------------------------------------------
  // The coordinate map shared by every layer (script.js:24-26, 66-68,
  // 127-129, 199-201)

  /** `uv = (2 * frag_coord - resolution) / min(resolution.x, resolution.y) * zoom`. */
  function Uv(p: Vec2, res: Vec2, zoom: real): Vec2
    requires PositiveResolution(res)
  {
    var m := Min(res.x, res.y);
    Vec2((2.0 * p.x - res.x) / m * zoom, (2.0 * p.y - res.y) / m * zoom)
  }

  /** `width = 1. / min(resolution.x, resolution.y) * zoom`: one pixel in uv units. */
  function PixelWidth(res: Vec2, zoom: real): real
    requires PositiveResolution(res)
  {
    1.0 / Min(res.x, res.y) * zoom
  }

  /** The coordinate map is `(2p - res) * width`: the same scale on both axes. */
  lemma UvScale(p: Vec2, res: Vec2, zoom: real)
    requires PositiveResolution(res)
    ensures Uv(p, res, zoom).x == (2.0 * p.x - res.x) * PixelWidth(res, zoom)
    ensures Uv(p, res, zoom).y == (2.0 * p.y - res.y) * PixelWidth(res, zoom)
  {
  }

  /** The centre of the screen maps to the origin, whatever the zoom. */
  lemma UvCentre(res: Vec2, zoom: real)
    requires PositiveResolution(res)
    ensures Uv(Vec2(res.x / 2.0, res.y / 2.0), res, zoom) == Vec2(0.0, 0.0)
  {
  }

  /**
   * Moving by the same number of pixels along either axis moves uv by the
   * same amount: the map does not stretch the longer side.
   */
  lemma UvNoStretch(p: Vec2, q: Vec2, res: Vec2, zoom: real)
    requires PositiveResolution(res)
    ensures Uv(p, res, zoom).x - Uv(q, res, zoom).x == 2.0 * (p.x - q.x) * PixelWidth(res, zoom)
    ensures Uv(p, res, zoom).y - Uv(q, res, zoom).y == 2.0 * (p.y - q.y) * PixelWidth(res, zoom)
  {
    UvScale(p, res, zoom);
    UvScale(q, res, zoom);
    var w := PixelWidth(res, zoom);
    assert (2.0 * p.x - res.x) * w - (2.0 * q.x - res.x) * w == 2.0 * (p.x - q.x) * w;
    assert (2.0 * p.y - res.y) * w - (2.0 * q.y - res.y) * w == 2.0 * (p.y - q.y) * w;
  }

  /**
   * The shorter side spans [-zoom, zoom], ends included: when the width is
   * the shorter side its pixels 0..width map onto it along x, and when the
   * height is, its pixels 0..height map onto it along y.
   */
  lemma ShortSideSpansZoom(p: Vec2, res: Vec2, zoom: real)
    requires PositiveResolution(res) && 0.0 < zoom
    ensures res.x <= res.y ==>
      && (0.0 <= p.x <= res.x ==> -zoom <= Uv(p, res, zoom).x <= zoom)
      && Uv(Vec2(0.0, p.y), res, zoom).x == -zoom
      && Uv(Vec2(res.x, p.y), res, zoom).x == zoom
    ensures res.y <= res.x ==>
      && (0.0 <= p.y <= res.y ==> -zoom <= Uv(p, res, zoom).y <= zoom)
      && Uv(Vec2(p.x, 0.0), res, zoom).y == -zoom
      && Uv(Vec2(p.x, res.y), res, zoom).y == zoom
  {
    if res.x <= res.y {
      assert Min(res.x, res.y) == res.x;
      ShortAxisSpan(p.x, res.x, zoom);
    }
    if res.y <= res.x {
      assert Min(res.x, res.y) == res.y;
      ShortAxisSpan(p.y, res.y, zoom);
    }
  }

  /** Along a side of `r` pixels, `(2q - r) / r * zoom` spans [-zoom, zoom] for q in 0..r. */
  lemma ShortAxisSpan(q: real, r: real, zoom: real)
    requires 0.0 < r && 0.0 < zoom
    ensures 0.0 <= q <= r ==> -zoom <= (2.0 * q - r) / r * zoom <= zoom
    ensures (2.0 * 0.0 - r) / r * zoom == -zoom
    ensures (2.0 * r - r) / r * zoom == zoom
  {
    if 0.0 <= q <= r {
      UnitRatio(2.0 * q - r, r);
      var t := (2.0 * q - r) / r;
      ScaleCompare(-1.0, t, zoom);
      ScaleCompare(t, 1.0, zoom);
    }
  }

  /** A number between -d and d, divided by d > 0, lies between -1 and 1. */
  lemma UnitRatio(a: real, d: real)
    requires 0.0 < d && -d <= a <= d
    ensures -1.0 <= a / d <= 1.0
  {
    var q := a / d;
    assert q * d == a;
    if q > 1.0 {
      ProductPositive(q - 1.0, d);
    }
    if q < -1.0 {
      ProductPositive(-1.0 - q, d);
    }
  }

  /** A band `|a * w| <= k * w` with `w > 0` is the band `|a| <= k`. */
  lemma ScaledBand(a: real, k: real, w: real)
    requires 0.0 < w
    ensures Abs(a * w) <= k * w <==> Abs(a) <= k
  {
    ScaleCompare(a, k, w);
    ScaleCompare(-a, k, w);
    assert (-a) * w == -(a * w);
  }

  // ---------------------------------------------------------------------
  // The start of every layer: the backdrop sampled at this fragment, raised
  // to the background colour (script.js:23, 28, 65, 70, 126, 131, 198, 203)

  /** `max(bg_color, texture(prev_texture, frag_coord / resolution).xyz)`. */
  function Start(u: Uniforms, backdrop: Rgb): (c: Rgb)
    ensures AtLeast(c, backdrop) && AtLeast(c, u.bgColor)
  {
    MaxRgb(u.bgColor, backdrop)
  }

  // ---------------------------------------------------------------------
  // The axis layer (script.js:22-42)

  /** Within 3.5 pixel widths of the vertical or the horizontal axis, in uv units. */
  predicate OnAxis(u: Uniforms, p: Vec2)
    requires PositiveResolution(u.resolution)
  {
    var uv, width := Uv(p, u.resolution, u.zoom), PixelWidth(u.resolution, u.zoom);
    Abs(uv.x) <= 3.5 * width || Abs(uv.y) <= 3.5 * width
  }

  /**
   * The axis program's `render`: the line colour on the axes, hard-edged;
   * elsewhere the start colour, never darker than the backdrop.
   */
  function AxisShade(u: Uniforms, p: Vec2, backdrop: Rgb): (c: Rgb)
    requires PositiveResolution(u.resolution)
    ensures OnAxis(u, p) ==> c == u.lineColor
    ensures !OnAxis(u, p) ==> c == Start(u, backdrop) && AtLeast(c, backdrop)
  {
    var color := Start(u, backdrop);
    var uv := Uv(p, u.resolution, u.zoom);
    var width := PixelWidth(u.resolution, u.zoom);
    var m := 3.5;
    var verticalAxis := Step(Abs(uv.x), m * width);
    var horizontalAxis := Step(Abs(uv.y), m * width);
    if verticalAxis > 0.0 || horizontalAxis > 0.0 then u.lineColor else color
  }

  /**
   * With a positive zoom the axes are the pixels within 1.75 pixels of the
   * screen's centre lines, whatever the zoom: a band 3.5 pixels wide.
   */
  lemma AxisBandInPixels(u: Uniforms, p: Vec2)
    requires PositiveResolution(u.resolution) && 0.0 < u.zoom
    ensures OnAxis(u, p) <==>
      Abs(p.x - u.resolution.x / 2.0) <= 1.75 || Abs(p.y - u.resolution.y / 2.0) <= 1.75
  {
    AxisBandX(u, p);
    AxisBandY(u, p);
  }

  /** The vertical axis test in pixels. */
  lemma AxisBandX(u: Uniforms, p: Vec2)
    requires PositiveResolution(u.resolution) && 0.0 < u.zoom
    ensures Abs(Uv(p, u.resolution, u.zoom).x) <= 3.5 * PixelWidth(u.resolution, u.zoom)
        <==> Abs(p.x - u.resolution.x / 2.0) <= 1.75
  {
    CentredBand(p.x, u.resolution.x, Min(u.resolution.x, u.resolution.y), u.zoom);
  }

  /** The horizontal axis test in pixels. */
  lemma AxisBandY(u: Uniforms, p: Vec2)
    requires PositiveResolution(u.resolution) && 0.0 < u.zoom
    ensures Abs(Uv(p, u.resolution, u.zoom).y) <= 3.5 * PixelWidth(u.resolution, u.zoom)
        <==> Abs(p.y - u.resolution.y / 2.0) <= 1.75
  {
    CentredBand(p.y, u.resolution.y, Min(u.resolution.x, u.resolution.y), u.zoom);
  }

  /** With a positive zoom a pixel has a positive width in uv units. */
  lemma PositivePixelWidth(res: Vec2, zoom: real)
    requires PositiveResolution(res) && 0.0 < zoom
    ensures 0.0 < PixelWidth(res, zoom)
  {
    ProductPositive(1.0 / Min(res.x, res.y), zoom);
  }

  /** One coordinate of the axis test: `|uv| <= 3.5 * width` is `|q - r / 2| <= 1.75`. */
  lemma CentredBand(q: real, r: real, m: real, zoom: real)
    requires 0.0 < m && 0.0 < zoom
    ensures Abs((2.0 * q - r) / m * zoom) <= 3.5 * (1.0 / m * zoom) <==> Abs(q - r / 2.0) <= 1.75
  {
    var w := 1.0 / m * zoom;
    ProductPositive(1.0 / m, zoom);
    assert (2.0 * q - r) / m * zoom == (2.0 * q - r) * w;
    ScaledBand(2.0 * q - r, 3.5, w);
  }

  /** With a negative zoom the axis layer draws nothing. */
  lemma AxisNegativeZoom(u: Uniforms, p: Vec2, backdrop: Rgb)
    requires PositiveResolution(u.resolution) && u.zoom < 0.0
    ensures AxisShade(u, p, backdrop) == Start(u, backdrop)
  {
    var m := Min(u.resolution.x, u.resolution.y);
    assert 0.0 < 1.0 / m;
    ProductPositive(1.0 / m, -u.zoom);
    assert PixelWidth(u.resolution, u.zoom) < 0.0;
  }

  // ---------------------------------------------------------------------
  // The grid layer (script.js:64-84)

  /** Within 2 pixel widths above an integer line of x or of y, in uv units. */
  predicate OnGrid(u: Uniforms, p: Vec2)
    requires PositiveResolution(u.resolution)
  {
    var uv, width := Uv(p, u.resolution, u.zoom), PixelWidth(u.resolution, u.zoom);
    Fract(uv.x) <= 2.0 * width || Fract(uv.y) <= 2.0 * width
  }

  /**
   * The grid program's `render`: the line colour on the grid lines,
   * hard-edged; elsewhere the start colour, never darker than the backdrop.
   */
  function GridShade(u: Uniforms, p: Vec2, backdrop: Rgb): (c: Rgb)
    requires PositiveResolution(u.resolution)
    ensures OnGrid(u, p) ==> c == u.lineColor
    ensures !OnGrid(u, p) ==> c == Start(u, backdrop) && AtLeast(c, backdrop)
  {
    var color := Start(u, backdrop);
    var uv := Uv(p, u.resolution, u.zoom);
    var width := PixelWidth(u.resolution, u.zoom);
    var m := 2.0;
    var verticalLines := Step(Fract(uv.x), m * width);
    var horizontalLines := Step(Fract(uv.y), m * width);
    if verticalLines > 0.0 || horizontalLines > 0.0 then u.lineColor else color
  }

  /** Between the integers n and n + 1, `fract(x) <= c` is the band [n, n + c]. */
  lemma GridBand(x: real, n: int, c: real)
    requires n as real <= x < n as real + 1.0
    ensures Fract(x) <= c <==> x <= n as real + c
  {
    assert x.Floor == n;
  }

  /**
   * The band is not centred on the line: just below an integer n, closer
   * than 1 - c, no point is on it.
   */
  lemma GridBandOneSided(n: int, e: real, c: real)
    requires 0.0 < e && e + c < 1.0
    ensures c < Fract(n as real - e)
  {
    var x := n as real - e;
    if e < 1.0 {
      assert x.Floor == n - 1;
    } else {
      assert e + c < 1.0;
    }
  }

  /**
   * With a positive zoom, within the cell [n, n + 1) of uv, the vertical grid
   * line n covers exactly the pixels from X to X + 1, where X is the pixel
   * column at which uv is n: grid lines are one pixel wide and lie on the
   * positive side of the line.
   */
  lemma GridLineOnePixel(q: real, r: real, m: real, zoom: real, n: int)
    requires 0.0 < m && 0.0 < zoom
    requires var uv := (2.0 * q - r) / m * zoom; n as real <= uv < n as real + 1.0
    ensures var w := 1.0 / m * zoom; var column := r / 2.0 + n as real / (2.0 * w);
      && column <= q
      && (Fract((2.0 * q - r) / m * zoom) <= 2.0 * w <==> q <= column + 1.0)
  {
    var w := 1.0 / m * zoom;
    var uv := (2.0 * q - r) / m * zoom;
    ProductPositive(1.0 / m, zoom);
    UvAsScaled(q, r, m, zoom);
    GridBand(uv, n, 2.0 * w);
    ColumnOfLine(n as real, w);
    var a := n as real / w;
    ScaledCompare(n as real, uv, a, 2.0 * q - r, w);
    ScaledCompare(uv, n as real + 2.0 * w, 2.0 * q - r, a + 2.0, w);
  }

  /** The uv coordinate is the pixel offset `2q - r` scaled by one pixel width. */
  lemma UvAsScaled(q: real, r: real, m: real, zoom: real)
    requires 0.0 < m
    ensures (2.0 * q - r) / m * zoom == (2.0 * q - r) * (1.0 / m * zoom)
  {
  }

  /** The uv value `v` sits at `v / w` scaled pixels, half that in pixels. */
  lemma ColumnOfLine(v: real, w: real)
    requires 0.0 < w
    ensures v == (v / w) * w
    ensures v + 2.0 * w == (v / w + 2.0) * w
    ensures v / (2.0 * w) == (v / w) / 2.0
  {
  }

  /** Two values scaled by the same positive factor compare as the values do. */
  lemma ScaledCompare(x: real, y: real, a: real, b: real, w: real)
    requires 0.0 < w && x == a * w && y == b * w
    ensures x <= y <==> a <= b
  {
    ScaleCompare(a, b, w);
  }

  // ---------------------------------------------------------------------
  // The curve layers (script.js:125-150, 197-222)

  /**
   * `should_render`: with `enable_range == 1` the fragment's uv.x must lie in
   * [lo, hi]; with `enable_range == 0` every fragment is drawn; any other
   * value draws nothing.
   */
  predicate Eligible(u: Uniforms, p: Vec2)
    requires PositiveResolution(u.resolution)
  {
    var uv := Uv(p, u.resolution, u.zoom);
    (u.enableRange == 1 && u.continuousRange.x <= uv.x <= u.continuousRange.y) || u.enableRange == 0
  }

  /**
   * The curve programs' `render`, given the distance estimate `de` of the
   * fragment and the spliced constant `stroke` (`pix_size * stroke_scale`):
   * the start colour blended towards the line colour by
   * `1 - smoothstep(0, stroke * zoom, de)`.
   */
  function CurveShade(u: Uniforms, stroke: real, p: Vec2, backdrop: Rgb, de: real): (c: Rgb)
    requires PositiveResolution(u.resolution) && 0.0 < stroke * u.zoom
    ensures !Eligible(u, p) ==> c == Start(u, backdrop)
    ensures Eligible(u, p) && de <= 0.0 ==> c == u.lineColor
    ensures Eligible(u, p) && stroke * u.zoom <= de ==> c == Start(u, backdrop)
    ensures Between(c, Start(u, backdrop), u.lineColor)
  {
    var color := Start(u, backdrop);
    var uv := Uv(p, u.resolution, u.zoom);
    var shouldRender :=
      (u.enableRange == 1 && uv.x >= u.continuousRange.x && uv.x <= u.continuousRange.y)
      || u.enableRange == 0;
    if shouldRender then MixRgb(color, u.lineColor, 1.0 - Smoothstep(0.0, stroke * u.zoom, de))
    else color
  }

  /**
   * Where a layer's stroke is opaque its line colour replaces whatever the
   * earlier layers left, however bright: at such pixels the composite is not
   * the componentwise maximum of the line colours.
   */
  lemma OpaqueStrokeReplaces(u: Uniforms, stroke: real, p: Vec2)
    requires PositiveResolution(u.resolution) && 0.0 < stroke * u.zoom
    requires Eligible(u, p) && u.lineColor == Rgb(1.0, 0.0, 0.0)
    ensures var white := Rgb(1.0, 1.0, 1.0);
      CurveShade(u, stroke, p, white, 0.0) == u.lineColor != MaxRgb(white, u.lineColor)
  {
  }

  // ---------------------------------------------------------------------
  // Distance estimates (script.js:113-123, 182-195). `sqrt` and `length`
  // are not computed: a distance `d` is characterised by `d >= 0` and
  // `d * d` times the squared normaliser equal to the squared residual.

  /** The finite-difference step `h = 0.001`. */
  const H: real := 0.001

  /** `grad(x) = (f(x + h) - f(x - h)) / (2 * h)` of the 1D template. */
  function Grad1D(f: real -> real, x: real): real {
    (f(x + H) - f(x - H)) / (2.0 * H)
  }

  /**
   * `pow(x, 2.)` as section 8.2 (Exponential Functions) of the OpenGL ES
   * Shading Language 3.00 specification defines it: undefined for `x < 0`.
   */
  function Pow2(x: real): (r: Option<real>)
    ensures r.Some? <==> 0.0 <= x
    ensures r.Some? ==> r.value == x * x
  {
    if x < 0.0 then None else Some(x * x)
  }

  /** `g = 1. + pow(grad(p.x), 2.)` as written: undefined where the slope is negative. */
  function Slope1DAsWritten(f: real -> real, x: real): Option<real> {
    match Pow2(Grad1D(f, x))
    case None => None
    case Some(s) => Some(1.0 + s)
  }

  /** The intended `g = 1 + grad(x)^2`, defined for every slope. */
  function Slope1D(f: real -> real, x: real): (g: real)
    ensures 1.0 <= g
  {
    1.0 + Grad1D(f, x) * Grad1D(f, x)
  }

  /** The formula `return -x;` has slope -1 everywhere, so `g` as written is never defined. */
  lemma DecreasingFormulaUndefined(x: real)
    ensures Slope1DAsWritten(t => -t, x) == None
  {
    assert Grad1D(t => -t, x) == -1.0;
  }

  /** Where `g` as written is defined, it is the intended one; it is defined for every rising slope. */
  lemma Slope1DAgrees(f: real -> real, x: real)
    ensures Slope1DAsWritten(f, x).Some? <==> 0.0 <= Grad1D(f, x)
    ensures Slope1DAsWritten(f, x).Some? ==> Slope1DAsWritten(f, x).value == Slope1D(f, x)
  {
  }

  /** `d` is `de(p) = |f(p.x) - p.y| / sqrt(g)` of the 1D template (with the intended g). */
  predicate IsDe1D(f: real -> real, p: Vec2, d: real) {
    var v := f(p.x) - p.y;
    0.0 <= d && d * d * Slope1D(f, p.x) == v * v
  }

  /** Two non-negative numbers with equal squares are equal. */
  lemma SquareRootUnique(d1: real, d2: real)
    requires 0.0 <= d1 && 0.0 <= d2 && d1 * d1 == d2 * d2
    ensures d1 == d2
  {
    assert (d1 - d2) * (d1 + d2) == 0.0;
    if d1 != d2 {
      ProductPositive(d1 + d2, d1 + d2);
    }
  }

  /** The 1D distance estimate is a function of the point: at most one d fits. */
  lemma De1DUnique(f: real -> real, p: Vec2, d1: real, d2: real)
    requires IsDe1D(f, p, d1) && IsDe1D(f, p, d2)
    ensures d1 == d2
  {
    var g := Slope1D(f, p.x);
    assert (d1 * d1) * g == (d2 * d2) * g;
    assert d1 * d1 == d2 * d2 by {
      if d1 * d1 < d2 * d2 {
        ScaleCompare(d2 * d2, d1 * d1, g);
      } else if d2 * d2 < d1 * d1 {
        ScaleCompare(d1 * d1, d2 * d2, g);
      }
    }
    SquareRootUnique(d1, d2);
  }

  /**
   * For a straight line `y = a x + b` the central difference is exact and
   * the 1D estimate is the Euclidean distance `|a x + b - y| / sqrt(1 + a^2)`.
   */
  lemma De1DLine(a: real, b: real, p: Vec2, d: real)
    ensures IsDe1D(t => a * t + b, p, d) <==>
      0.0 <= d && d * d * (1.0 + a * a) == (a * p.x + b - p.y) * (a * p.x + b - p.y)
  {
    var f := t => a * t + b;
    assert f(p.x + H) - f(p.x - H) == a * (2.0 * H);
    assert Grad1D(f, p.x) == a;
  }

  /** For `f(x) = 0`, the x-axis itself, the estimate is exactly |p.y|. */
  lemma De1DFlat(p: Vec2, d: real)
    ensures IsDe1D(t => 0.0, p, d) <==> d == Abs(p.y)
  {
    assert Grad1D(t => 0.0, p.x) == 0.0;
    if IsDe1D(t => 0.0, p, d) {
      SquareRootUnique(d, Abs(p.y));
    }
  }

  /** `grad(p)` of the 2D template: central differences along x and y over `2 * h`. */
  function Grad2D(f: Vec2 -> real, p: Vec2): Vec2 {
    Vec2(
      (f(Vec2(p.x + H, p.y)) - f(Vec2(p.x - H, p.y))) / (2.0 * H),
      (f(Vec2(p.x, p.y + H)) - f(Vec2(p.x, p.y - H))) / (2.0 * H))
  }

  /** `d` is `de(p) = |f(p)| / length(grad(p))` of the 2D template. */
  predicate IsDe2D(f: Vec2 -> real, p: Vec2, d: real) {
    var g := Grad2D(f, p);
    0.0 <= d && d * d * (g.x * g.x + g.y * g.y) == f(p) * f(p)
  }

  /** For a straight line `a x + b y + c = 0` the 2D estimate is the Euclidean distance. */
  lemma De2DLine(a: real, b: real, c: real, p: Vec2, d: real)
    ensures IsDe2D((q: Vec2) => a * q.x + b * q.y + c, p, d) <==>
      0.0 <= d && d * d * (a * a + b * b) == (a * p.x + b * p.y + c) * (a * p.x + b * p.y + c)
  {
    var f := (q: Vec2) => a * q.x + b * q.y + c;
    assert f(Vec2(p.x + H, p.y)) - f(Vec2(p.x - H, p.y)) == a * (2.0 * H);
    assert f(Vec2(p.x, p.y + H)) - f(Vec2(p.x, p.y - H)) == b * (2.0 * H);
    assert Grad2D(f, p) == Vec2(a, b);
  }

  /**
   * For the circle `x^2 + y^2 - r^2 = 0` the central differences are exact,
   * the gradient is (2x, 2y), and the estimate is |x^2 + y^2 - r^2| / (2 |p|).
   */
  lemma De2DCircle(r: real, p: Vec2, d: real)
    ensures var v := p.x * p.x + p.y * p.y - r * r;
      IsDe2D((q: Vec2) => q.x * q.x + q.y * q.y - r * r, p, d) <==>
      0.0 <= d && d * d * (4.0 * (p.x * p.x + p.y * p.y)) == v * v
  {
    var f := (q: Vec2) => q.x * q.x + q.y * q.y - r * r;
    assert (p.x + H) * (p.x + H) - (p.x - H) * (p.x - H) == 2.0 * p.x * (2.0 * H);
    assert (p.y + H) * (p.y + H) - (p.y - H) * (p.y - H) == 2.0 * p.y * (2.0 * H);
    assert f(Vec2(p.x + H, p.y)) - f(Vec2(p.x - H, p.y)) == 2.0 * p.x * (2.0 * H);
    assert f(Vec2(p.x, p.y + H)) - f(Vec2(p.x, p.y - H)) == 2.0 * p.y * (2.0 * H);
    assert Grad2D(f, p) == Vec2(2.0 * p.x, 2.0 * p.y);
    assert 2.0 * p.x * (2.0 * p.x) + 2.0 * p.y * (2.0 * p.y) == 4.0 * (p.x * p.x + p.y * p.y);
  }
}
