/**
 * The paint list of one frame (`line_fs_shaders`, script.js:519-529) and the
 * layer-to-source step (`to_fs_shader`, script.js:388-425).
 */
module Layers {
  import opened Wrappers
  import opened Shading
  import Templates

  /** A `continuous_range` [lo, hi] on uv.x. */
  datatype Interval = Interval(lo: real, hi: real)

  /** One layer of the paint list. */
  datatype Layer =
    | Axis(color: Rgb)
    | Grid(color: Rgb)
    | Curve1D(formula: string, color: Rgb, range: Option<Interval>)
    | Curve2D(formula: string, color: Rgb, range: Option<Interval>)

  /** A user function (`Function1D` or `Function2D`, both a `BaseFunction`). */
  type Function = l: Layer | l.Curve1D? || l.Curve2D? witness Curve1D([], Black, None)

  /**
   * `LineFsShader`: a fragment source, a line colour and an optional range.
   * The source is kept as which fixed source or template it is;
   * `Templates.Text` gives its text.
   */
  datatype LineFsShader = LineFsShader(src: Templates.Source, color: Rgb, range: Option<Interval>)

  /** The fields of `variables` the paint list reads. */
  datatype Variables = Variables(axisColor: Rgb, gridColor: Rgb, enableGrid: bool, functions: seq<Function>)

  /** The number of fixed layers before the user functions. */
  function FixedCount(vars: Variables): nat {
    if vars.enableGrid then 2 else 1
  }

  /**
   * The paint list: the axis first, then the grid exactly when it is
   * enabled, then every user function in order.
   */
  function LayerList(vars: Variables): (ls: seq<Layer>)
    ensures |ls| == FixedCount(vars) + |vars.functions|
    ensures ls[0] == Axis(vars.axisColor)
    ensures vars.enableGrid ==> ls[1] == Grid(vars.gridColor)
    ensures forall j :: 0 <= j < |vars.functions| ==> ls[FixedCount(vars) + j] == vars.functions[j]
  {
    var fixed := [Axis(vars.axisColor)] + (if vars.enableGrid then [Grid(vars.gridColor)] else []);
    var ls := fixed + vars.functions;
    assert forall j :: 0 <= j < |vars.functions| ==> ls[|fixed| + j] == vars.functions[j];
    ls
  }

  /** The paint list holds exactly one axis, first, and a grid only second, only when enabled. */
  lemma LayerListKinds(vars: Variables)
    ensures var ls := LayerList(vars);
      && (forall i :: 0 <= i < |ls| ==> (ls[i].Axis? <==> i == 0))
      && (forall i :: 0 <= i < |ls| ==> (ls[i].Grid? <==> vars.enableGrid && i == 1))
  {
    var ls, n := LayerList(vars), FixedCount(vars);
    forall i | n <= i < |ls|
      ensures ls[i].Curve1D? || ls[i].Curve2D?
    {
      assert ls[i] == vars.functions[i - n];
    }
  }

  /**
   * `to_fs_shader` for the user functions, and the fixed sources for the axis
   * and the grid (whose range is `null`).
   */
  function ToFsShader(l: Layer): LineFsShader {
    match l
    case Axis(color) => LineFsShader(Templates.AxisFs, color, None)
    case Grid(color) => LineFsShader(Templates.GridFs, color, None)
    case Curve1D(formula, color, range) => LineFsShader(Templates.Fs1D(formula), color, range)
    case Curve2D(formula, color, range) => LineFsShader(Templates.Fs2D(formula), color, range)
  }

  /** The layer a shader was made from. */
  function LayerOf(s: LineFsShader): Layer {
    match s.src
    case AxisFs => Axis(s.color)
    case GridFs => Grid(s.color)
    case Fs1D(formula) => Curve1D(formula, s.color, s.range)
    case Fs2D(formula) => Curve2D(formula, s.color, s.range)
  }

  /** `to_fs_shader` loses nothing: the layer can be read back from its shader. */
  lemma ShaderRoundTrip(l: Layer)
    ensures LayerOf(ToFsShader(l)) == l
  {
  }

  /** The shaders of a paint list, one per layer, in order. */
  function Shaders(ls: seq<Layer>): (ss: seq<LineFsShader>)
    ensures |ss| == |ls|
    ensures forall i :: 0 <= i < |ls| ==> ss[i] == ToFsShader(ls[i])
  {
    if ls == [] then [] else Shaders(ls[..|ls| - 1]) + [ToFsShader(ls[|ls| - 1])]
  }

  /** Extending a prefix of a paint list by one layer extends its shaders by one. */
  lemma ShadersOfLongerPrefix(ls: seq<Layer>, k: nat)
    requires 0 < k <= |ls|
    ensures Shaders(ls[..k]) == Shaders(ls[..k - 1]) + [ToFsShader(ls[k - 1])]
  {
    assert ls[..k][..k - 1] == ls[..k - 1];
  }

  /** `line_fs_shaders()`: pushes the axis, the grid if enabled, then each function's shader. */
  method LineFsShaders(vars: Variables) returns (arr: seq<LineFsShader>)
    ensures arr == Shaders(LayerList(vars))
  {
    ghost var ls := LayerList(vars);
    var n := FixedCount(vars);
    arr := [LineFsShader(Templates.AxisFs, vars.axisColor, None)];
    ShadersOfLongerPrefix(ls, 1);
    if vars.enableGrid {
      arr := arr + [LineFsShader(Templates.GridFs, vars.gridColor, None)];
      ShadersOfLongerPrefix(ls, 2);
    }
    var i := 0;
    while i < |vars.functions|
      invariant 0 <= i <= |vars.functions|
      invariant arr == Shaders(ls[..n + i])
    {
      ShadersOfLongerPrefix(ls, n + i + 1);
      arr := arr + [ToFsShader(vars.functions[i])];
      i := i + 1;
    }
    assert ls[..n + i] == ls;
  }
}
