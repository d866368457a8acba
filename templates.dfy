/**
 * The fragment-shader sources of script.js: the two fixed sources (axis and
 * grid) and the two generators `gen_1d_fs_shader` and `gen_2d_fs_shader`,
 * which splice the user formula verbatim, between braces, into the body of
 * `f`, and interpolate the number `pix_size * stroke_scale` into the
 * smoothstep call of `render`.
 *
 * Strings are `seq<char>`. The interpolated number is taken as its decimal
 * text `stroke`; how JavaScript prints a number is not modelled. The
 * properties of the templates are proved for every `Template`, so that the
 * long texts below only enter the proofs that read their characters.
 */
module Templates {
  import opened Wrappers

  // ---------------------------------------------------------------------
  // The fixed sources of the axis and grid layers (script.js:8-48, 50-90).
  // They are the same text except for the marks section.

  /** The declarations both fixed sources open with (script.js:8-21, 50-63). */
  const FixedHeader: string :=
    "#version 300 es\n" +
    "precision mediump float;\n" +
    "\n" +
    "// uniforms\n" +
    "uniform vec3 bg_color;\n" +
    "uniform vec3 line_color;\n" +
    "uniform vec2 resolution;\n" +
    "uniform sampler2D prev_texture;\n" +
    "uniform float zoom;\n" +
    "uniform int enable_grid;\n" +
    "\n" +
    "// out color\n" +
    "out vec4 out_color;\n" +
    "\n"

  /** The start of `render` in both fixed sources, up to the value of `m` (script.js:22-32, 64-74). */
  const RenderOpen: string :=
    "vec3 render(in vec2 frag_coord) {\n" +
    "    vec3 color = bg_color;\n" +
    "    vec2 uv = (2. * frag_coord - resolution) / min(resolution.x, resolution.y);\n" +
    "\n" +
    "    uv = uv * zoom;\n" +
    "\n" +
    "    color = max(color, texture(prev_texture, frag_coord / resolution).xyz);\n" +
    "    \n" +
    "    float width = 1. / min(resolution.x, resolution.y) * zoom;\n" +
    "\n" +
    "    float m = "

  /** The axis marks: `m = 3.5` and the two `step(abs(..))` tests (script.js:32-37). */
  const AxisMarks: string :=
    "3.5;\n" +
    "    \n" +
    "    float vertical_axis = step(abs(uv.x), m * width);\n" +
    "    float horizontal_axis = step(abs(uv.y), m * width);\n" +
    "\n" +
    "    if (vertical_axis > 0. || horizontal_axis > 0.) {\n"

  /** The grid marks: `m = 2.` and the two `step(fract(..))` tests (script.js:74-79). */
  const GridMarks: string :=
    "2.;\n" +
    "    \n" +
    "    float vertical_lines = step(fract(uv.x), m * width);\n" +
    "    float horizontal_lines = step(fract(uv.y), m * width);\n" +
    "\n" +
    "    if (vertical_lines > 0. || horizontal_lines > 0.) {\n"

  /** The end of `render` and `main` in both fixed sources (script.js:38-47, 80-89). */
  const FixedClose: string :=
    "        color = line_color;\n" +
    "    }\n" +
    "    \n" +
    "    return color;\n" +
    "}\n" +
    "\n" +
    "void main() {\n" +
    "    vec3 color = render(gl_FragCoord.xy);\n" +
    "    out_color = vec4(color, 1);\n" +
    "}\n"

  /** A fixed source with the given marks section. */
  function Fixed(marks: string): string {
    FixedHeader + RenderOpen + marks + FixedClose
  }

  /** `axis_fs_shader` (script.js:8-48). */
  const AxisSource: string := Fixed(AxisMarks)

  /** `grid_fs_shader` (script.js:50-90). */
  const GridSource: string := Fixed(GridMarks)

  // ---------------------------------------------------------------------
  // The pieces of the two generated templates (script.js:92-229). Both
  // templates open with the same uniform declarations and close with the
  // same `render` and `main`; they differ in the definitions of f, grad
  // and de.

  /** The declarations both templates open with (script.js:93-108, 160-175). */
  const Header: string :=
    "#version 300 es\n" +
    "\n" +
    "    precision mediump float;\n" +
    "    \n" +
    "    // uniforms\n" +
    "    uniform vec3 bg_color;\n" +
    "    uniform vec3 line_color;\n" +
    "    uniform vec2 resolution;\n" +
    "    uniform sampler2D prev_texture;\n" +
    "    uniform float zoom;\n" +
    "    uniform int enable_range;\n" +
    "    uniform vec2 continuous_range;\n" +
    "    \n" +
    "    // out color\n" +
    "    out vec4 out_color;\n" +
    "    \n"

  /** The signature of `f` in the 1D template, up to the formula (script.js:109-110). */
  const Signature1D: string :=
    "    float f(in float x) {\n" +
    "        "

  /** The rest of `f`, then `grad` and `de` in the 1D template (script.js:110-123). */
  const Body1D: string :=
    "\n" +
    "    }\n" +
    "    \n" +
    "    float grad(in float x) {\n" +
    "        float h = 0.001;\n" +
    "        return (f(x + h) - f(x - h)) / (2.0 * h);\n" +
    "    }\n" +
    "    \n" +
    "    float de(in vec2 p) {\n" +
    "        float v = f(p.x) - p.y;\n" +
    "        float g = 1. + pow(grad(p.x), 2.);\n" +
    "        float de = abs(v) / sqrt(g); \n" +
    "        return de;\n" +
    "    }\n"

  /** The signature of `f` in the 2D template, up to the formula (script.js:176-179). */
  const Signature2D: string :=
    "    float f(in vec2 p) {\n" +
    "        float x = p.x;\n" +
    "        float y = p.y;\n" +
    "        "

  /** The rest of `f`, then `grad` and `de` in the 2D template (script.js:179-195). */
  const Body2D: string :=
    "\n" +
    "    }\n" +
    "    \n" +
    "    vec2 grad(in vec2 p) {\n" +
    "        float h = 0.001;\n" +
    "        return vec2(\n" +
    "            f(p + vec2(h, 0.)) - f(p - vec2(h, 0.)), \n" +
    "            f(p + vec2(0., h)) - f(p - vec2(0., h))\n" +
    "        ) / (2. * h);\n" +
    "    }\n" +
    "    \n" +
    "    float de(in vec2 p) {\n" +
    "        float v = f(p);\n" +
    "        vec2 g = grad(p);\n" +
    "        float de = abs(v) / length(g); \n" +
    "        return de;\n" +
    "    }\n"

  /** The `render` of both templates, up to the stroke width (script.js:124-145, 196-217). */
  const RenderHead: string :=
    "    \n" +
    "    vec3 render(in vec2 frag_coord) {\n" +
    "        vec3 color = bg_color;\n" +
    "        vec2 uv = (2. * frag_coord - resolution) / min(resolution.x, resolution.y);\n" +
    "    \n" +
    "        uv = uv * zoom;\n" +
    "    \n" +
    "        color = max(color, texture(prev_texture, frag_coord / resolution).xyz);\n" +
    "        \n" +
    "        bool should_render = false;\n" +
    "        should_render = should_render ||\n" +
    "            (enable_range == 1 && \n" +
    "            uv.x >= continuous_range.x && \n" +
    "            uv.x <= continuous_range.y);\n" +
    "        should_render = should_render ||\n" +
    "            (enable_range == 0);\n" +
    "        \n" +
    "        if (should_render) {\n" +
    "            color = mix(\n" +
    "                color,\n" +
    "                line_color,\n" +
    "                1.0 - smoothstep(0.0, "

  /** The rest of `render`, and `main` (script.js:145-156, 217-228). */
  const RenderTail: string :=
    " * zoom, de(uv))\n" +
    "            );\n" +
    "        }\n" +
    "    \n" +
    "        return color;\n" +
    "    }\n" +
    "    \n" +
    "    void main() {\n" +
    "        vec3 color = render(gl_FragCoord.xy);\n" +
    "        out_color = vec4(color, 1);\n" +
    "    }\n" +
    "    "

  /**
   * A curve template: the declarations and the signature of `f` before the
   * formula, the rest of `f` with `grad` and `de` after it, and `render`
   * with `main`, split where the stroke width goes.
   */
  datatype Template = Template(
    head: string, signature: string, body: string, renderHead: string, renderTail: string)

  /** The template of `gen_1d_fs_shader` (script.js:92-157). */
  const OneD: Template := Template(Header, Signature1D, Body1D, RenderHead, RenderTail)

  /** The template of `gen_2d_fs_shader` (script.js:159-229). */
  const TwoD: Template := Template(Header, Signature2D, Body2D, RenderHead, RenderTail)

  /** Everything before the formula: ends in the opening brace. */
  function Prefix(t: Template): string { t.head + t.signature + "{" }

  /** `render` and `main`, with the stroke width spliced in. */
  function Render(t: Template, stroke: string): string { t.renderHead + stroke + t.renderTail }

  /** Everything after the formula: starts with the closing brace. */
  function Suffix(t: Template, stroke: string): string { "}" + t.body + Render(t, stroke) }

  /** The source a template makes of a formula and a stroke text. */
  function Gen(t: Template, formula: string, stroke: string): string {
    Prefix(t) + formula + Suffix(t, stroke)
  }

  /** `gen_1d_fs_shader(func_src)`: the source of a `y = f(x)` layer. */
  function Gen1D(formula: string, stroke: string): string { Gen(OneD, formula, stroke) }

  /** `gen_2d_fs_shader(func_src)`: the source of an `f(x, y) = 0` layer. */
  function Gen2D(formula: string, stroke: string): string { Gen(TwoD, formula, stroke) }

  // ---------------------------------------------------------------------
  // Reading the formula back out

  /**
   * The middle of `src` when `src` starts with `prefix` and ends with
   * `suffix` (and they do not overlap); `None` otherwise.
   */
  function Unsplice(src: string, prefix: string, suffix: string): (r: Option<string>)
    ensures r.Some? ==> |r.value| == |src| - |prefix| - |suffix|
  {
    if |prefix| + |suffix| <= |src| && src[..|prefix|] == prefix && src[|src| - |suffix|..] == suffix
    then Some(src[|prefix|..|src| - |suffix|])
    else None
  }

  /** Unsplicing is the exact inverse of splicing, in both directions. */
  lemma UnspliceIff(src: string, prefix: string, body: string, suffix: string)
    ensures Unsplice(src, prefix, suffix) == Some(body) <==> src == prefix + body + suffix
  {
    if src == prefix + body + suffix {
      assert src[..|prefix|] == prefix;
      assert src[|src| - |suffix|..] == suffix;
      assert src[|prefix|..|src| - |suffix|] == body;
    }
    if Unsplice(src, prefix, suffix) == Some(body) {
      assert src == src[..|prefix|] + src[|prefix|..|src| - |suffix|] + src[|src| - |suffix|..];
    }
  }

  /** The formula of a source made by template `t` with stroke text `stroke`, if it is one. */
  function FormulaOf(t: Template, src: string, stroke: string): Option<string> {
    Unsplice(src, Prefix(t), Suffix(t, stroke))
  }

  /**
   * A template splices the formula verbatim: it can be read back out of the
   * source, and a source it can be read out of is the template's output.
   * So the output determines the formula, for either template.
   */
  lemma FormulaIff(t: Template, src: string, formula: string, stroke: string)
    ensures FormulaOf(t, src, stroke) == Some(formula) <==> src == Gen(t, formula, stroke)
  {
    UnspliceIff(src, Prefix(t), formula, Suffix(t, stroke));
  }

  /** Two formulas that give the same source are the same formula. */
  lemma GenInjective(t: Template, formula1: string, formula2: string, stroke: string)
    requires Gen(t, formula1, stroke) == Gen(t, formula2, stroke)
    ensures formula1 == formula2
  {
    FormulaIff(t, Gen(t, formula1, stroke), formula1, stroke);
    FormulaIff(t, Gen(t, formula1, stroke), formula2, stroke);
  }

  /** The formula sits between an opening and a closing brace, unchanged. */
  lemma FormulaBetweenBraces(t: Template, formula: string, stroke: string)
    ensures var src, n := Gen(t, formula, stroke), |Prefix(t)|;
      && n + |formula| < |src|
      && src[n - 1] == '{' && src[n..n + |formula|] == formula && src[n + |formula|] == '}'
  {
    var src, n := Gen(t, formula, stroke), |Prefix(t)|;
    assert Prefix(t)[n - 1] == '{';
    assert Suffix(t, stroke)[0] == '}';
    assert src[n..n + |formula|] == formula;
  }

  // ---------------------------------------------------------------------
  // What the sources share and where they differ

  /** A concatenation of two pieces starts with the first and ends with the second. */
  lemma Ends(a: string, z: string)
    ensures (a + z)[..|a|] == a && (a + z)[|a + z| - |z|..] == z
  {
  }

  /** A prefix of a prefix is a prefix. */
  lemma PrefixOfPrefix(a: string, z: string, n: nat)
    requires n <= |a|
    ensures n <= |a + z| && (a + z)[..n] == a[..n]
  {
  }

  /** The last piece of a concatenation is its suffix. */
  lemma EndsWith(x: string, m: string, t: string)
    ensures var s := x + (m + t); |t| <= |s| && s[|s| - |t|..] == t
  {
    assert x + (m + t) == (x + m) + t;
  }

  /** A source opens with the head and the signature of `f`. */
  lemma OpensWith(t: Template, formula: string, stroke: string)
    ensures var s, p := Gen(t, formula, stroke), t.head + t.signature;
      |p| <= |s| && s[..|p|] == p
  {
    var p := t.head + t.signature;
    PrefixOfPrefix(p, "{", |p|);
    PrefixOfPrefix(Prefix(t), formula, |p|);
    PrefixOfPrefix(Prefix(t) + formula, Suffix(t, stroke), |p|);
  }

  /** A source opens with the head and closes with `render` and `main`. */
  lemma HeadAndRender(t: Template, formula: string, stroke: string)
    ensures var s, r := Gen(t, formula, stroke), Render(t, stroke);
      |t.head| <= |s| && s[..|t.head|] == t.head && |r| <= |s| && s[|s| - |r|..] == r
  {
    OpensWith(t, formula, stroke);
    Ends(t.head, t.signature);
    PrefixOfPrefix(t.head + t.signature, [], |t.head|);
    EndsWith(Prefix(t) + formula, "}" + t.body, Render(t, stroke));
  }

  /** The stroke text sits right after the head of `render`. */
  lemma StrokeInRender(t: Template, stroke: string)
    ensures var r := Render(t, stroke);
      |t.renderHead| + |stroke| <= |r| && r[|t.renderHead|..|t.renderHead| + |stroke|] == stroke
  {
    Ends(t.renderHead, stroke);
    PrefixOfPrefix(t.renderHead + stroke, t.renderTail, |t.renderHead| + |stroke|);
  }

  /**
   * Two templates with the same head and the same `render` differ only in
   * the f/grad/de section: for any two formulas and the same stroke text,
   * their sources start with the same declarations and end with the same
   * `render` and `main`, into which the stroke text is spliced at the same
   * place.
   */
  lemma SharedFrame(t1: Template, t2: Template, formula1: string, formula2: string, stroke: string)
    ensures t1.head == t2.head && t1.renderHead == t2.renderHead && t1.renderTail == t2.renderTail ==>
      var s1, s2, n, r := Gen(t1, formula1, stroke), Gen(t2, formula2, stroke), |t1.head|, Render(t1, stroke);
      && n <= |s1| && n <= |s2| && s1[..n] == s2[..n] == t1.head
      && r == Render(t2, stroke)
      && |r| <= |s1| && |r| <= |s2| && s1[|s1| - |r|..] == s2[|s2| - |r|..] == r
      && r[|t1.renderHead|..|t1.renderHead| + |stroke|] == stroke
  {
    HeadAndRender(t1, formula1, stroke);
    HeadAndRender(t2, formula2, stroke);
    StrokeInRender(t1, stroke);
  }

  /** The 1D and 2D templates share their head and their `render`. */
  lemma OneDAndTwoDShareFrame()
    ensures OneD.head == TwoD.head && OneD.renderHead == TwoD.renderHead && OneD.renderTail == TwoD.renderTail
  {
  }

  /**
   * Two templates with the same head whose signatures of `f` differ at
   * position `i` make different sources, whatever the formulas.
   */
  lemma SignaturesSeparate(t1: Template, t2: Template, formula1: string, formula2: string, stroke: string, i: nat)
    ensures t1.head == t2.head && i < |t1.signature| && i < |t2.signature| && t1.signature[i] != t2.signature[i]
      ==> Gen(t1, formula1, stroke) != Gen(t2, formula2, stroke)
  {
    if t1.head == t2.head && i < |t1.signature| && i < |t2.signature| && t1.signature[i] != t2.signature[i] {
      var s1, s2, n := Gen(t1, formula1, stroke), Gen(t2, formula2, stroke), |t1.head| + i;
      OpensWith(t1, formula1, stroke);
      OpensWith(t2, formula2, stroke);
      assert s1[n] == (t1.head + t1.signature)[n] == t1.signature[i];
      assert s2[n] == (t2.head + t2.signature)[n] == t2.signature[i];
    }
  }

  /**
   * The parameter of `f` is a float in the 1D template and a vec2 in the
   * 2D one, so their signatures differ at position 15 and, by
   * `SignaturesSeparate`, no 1D source is a 2D source.
   */
  lemma SignatureLetters()
    ensures 15 < |OneD.signature| && OneD.signature[15] == 'f'
    ensures 15 < |TwoD.signature| && TwoD.signature[15] == 'v'
  {
  }

  /**
   * A template whose head differs at position `i` from the opening `p` of
   * another source `other` does not make `other`, whatever the formula.
   */
  lemma HeadSeparates(t: Template, formula: string, stroke: string, other: string, p: string, i: nat)
    ensures |p| <= |other| && other[..|p|] == p && i < |t.head| && i < |p| && t.head[i] != p[i]
      ==> Gen(t, formula, stroke) != other
  {
    if |p| <= |other| && other[..|p|] == p && i < |t.head| && i < |p| && t.head[i] != p[i] {
      var s := Gen(t, formula, stroke);
      HeadAndRender(t, formula, stroke);
      assert s[i] == s[..|t.head|][i] == t.head[i];
      assert other[i] == other[..|p|][i] == p[i];
    }
  }

  /** Both fixed sources open with the fixed declarations. */
  lemma FixedOpensWith(marks: string)
    ensures |FixedHeader| <= |Fixed(marks)| && Fixed(marks)[..|FixedHeader|] == FixedHeader
  {
    Ends(FixedHeader, RenderOpen);
    PrefixOfPrefix(FixedHeader + RenderOpen, marks, |FixedHeader|);
    PrefixOfPrefix(FixedHeader + RenderOpen + marks, FixedClose, |FixedHeader|);
  }

  /**
   * The 17th character is the newline of a blank line in both templates
   * and the `p` of `precision` in the fixed sources, so, by `HeadSeparates`
   * and `FixedOpensWith`, no generated source is a fixed one.
   */
  lemma HeaderLetters()
    ensures 16 < |OneD.head| && OneD.head == TwoD.head && OneD.head[16] == '\n'
    ensures 16 < |FixedHeader| && FixedHeader[16] == 'p'
  {
  }

  /**
   * A template whose head has a newline at position 16 never makes a fixed
   * source, whatever the formula and the marks: the fixed sources have the
   * `p` of `precision` there.
   */
  lemma NotFixed(t: Template, formula: string, stroke: string, marks: string)
    requires 16 < |t.head| && t.head[16] == '\n'
    ensures Gen(t, formula, stroke) != Fixed(marks)
  {
    HeaderLetters();
    FixedOpensWith(marks);
    HeadSeparates(t, formula, stroke, Fixed(marks), FixedHeader, 16);
  }

  /** No 1D or 2D source is a fixed source. */
  lemma TemplateIsNotFixed(t: Template, formula: string, stroke: string, marks: string)
    requires t == OneD || t == TwoD
    ensures Gen(t, formula, stroke) != Fixed(marks)
  {
    HeaderLetters();
    NotFixed(t, formula, stroke, marks);
  }

  /**
   * Two templates with the same head, whose signatures of `f` take a float
   * and a vec2, never make the same source, whatever the formulas.
   */
  lemma FloatIsNotVec2(t1: Template, t2: Template, formula1: string, formula2: string, stroke: string)
    requires t1.head == t2.head
    requires 15 < |t1.signature| && t1.signature[15] == 'f'
    requires 15 < |t2.signature| && t2.signature[15] == 'v'
    ensures Gen(t1, formula1, stroke) != Gen(t2, formula2, stroke)
  {
    SignaturesSeparate(t1, t2, formula1, formula2, stroke, 15);
  }

  /** No 1D source is a 2D source, whatever the two formulas. */
  lemma OneDIsNotTwoD(formula1: string, formula2: string, stroke: string)
    ensures Gen(OneD, formula1, stroke) != Gen(TwoD, formula2, stroke)
  {
    SignatureLetters();
    OneDAndTwoDShareFrame();
    FloatIsNotVec2(OneD, TwoD, formula1, formula2, stroke);
  }

  /** The two fixed sources differ: their marks sections have different lengths. */
  lemma AxisIsNotGrid()
    ensures AxisSource != GridSource
  {
    assert |AxisMarks| != |GridMarks|;
  }

  // ---------------------------------------------------------------------
  // Which source a layer program is compiled from

  /** The four kinds of fragment source: the two fixed ones and the two templates. */
  datatype Source = AxisFs | GridFs | Fs1D(formula: string) | Fs2D(formula: string)

  /** The text of a source, the curve templates filled with the stroke text. */
  function Text(s: Source, stroke: string): string {
    match s
    case AxisFs => AxisSource
    case GridFs => GridSource
    case Fs1D(formula) => Gen1D(formula, stroke)
    case Fs2D(formula) => Gen2D(formula, stroke)
  }

  /**
   * Different sources have different texts: the text of a layer's program
   * tells which fixed source or which template it is, and with which
   * formula.
   */
  lemma TextInjective(a: Source, b: Source, stroke: string)
    ensures Text(a, stroke) == Text(b, stroke) ==> a == b
  {
    if a.AxisFs? || a.GridFs? {
      FixedText(a, b, stroke);
    } else {
      CurveText(a, b, stroke);
    }
  }

  /** Only the same fixed source has the text of a fixed source. */
  lemma FixedText(a: Source, b: Source, stroke: string)
    requires a.AxisFs? || a.GridFs?
    ensures Text(a, stroke) == Text(b, stroke) ==> a == b
  {
    var marks := if a.AxisFs? then AxisMarks else GridMarks;
    assert Text(a, stroke) == Fixed(marks);
    match b
    case AxisFs => if a.GridFs? { AxisIsNotGrid(); }
    case GridFs => if a.AxisFs? { AxisIsNotGrid(); }
    case Fs1D(f) => TemplateIsNotFixed(OneD, f, stroke, marks);
    case Fs2D(f) => TemplateIsNotFixed(TwoD, f, stroke, marks);
  }

  /** Only the same template with the same formula has the text of a curve source. */
  lemma CurveText(a: Source, b: Source, stroke: string)
    requires a.Fs1D? || a.Fs2D?
    ensures Text(a, stroke) == Text(b, stroke) ==> a == b
  {
    if a.Fs1D? {
      OneDText(a.formula, b, stroke);
    } else {
      TwoDText(a.formula, b, stroke);
    }
  }

  /** Only the same formula in the 1D template gives a 1D source's text. */
  lemma OneDText(formula: string, b: Source, stroke: string)
    ensures Gen(OneD, formula, stroke) == Text(b, stroke) ==> b == Fs1D(formula)
  {
    match b
    case AxisFs => TemplateIsNotFixed(OneD, formula, stroke, AxisMarks);
    case GridFs => TemplateIsNotFixed(OneD, formula, stroke, GridMarks);
    case Fs1D(f) =>
      if Gen(OneD, f, stroke) == Gen(OneD, formula, stroke) { GenInjective(OneD, formula, f, stroke); }
    case Fs2D(f) => OneDIsNotTwoD(formula, f, stroke);
  }

  /** Only the same formula in the 2D template gives a 2D source's text. */
  lemma TwoDText(formula: string, b: Source, stroke: string)
    ensures Gen(TwoD, formula, stroke) == Text(b, stroke) ==> b == Fs2D(formula)
  {
    match b
    case AxisFs => TemplateIsNotFixed(TwoD, formula, stroke, AxisMarks);
    case GridFs => TemplateIsNotFixed(TwoD, formula, stroke, GridMarks);
    case Fs1D(f) => OneDIsNotTwoD(f, formula, stroke);
    case Fs2D(f) =>
      if Gen(TwoD, f, stroke) == Gen(TwoD, formula, stroke) { GenInjective(TwoD, formula, f, stroke); }
  }
}
