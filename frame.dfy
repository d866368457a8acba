/**
 * One frame at one pixel: the colours the draws of `render_line_fs_shaders`
 * (script.js:562-631) write, with each program shading as its `render`
 * says. When every layer compiles, the canvas ends with the left fold of
 * the layers' shading, starting from the blank texture; when the layers
 * from some point on fail to compile, the last layer that compiled is
 * shaded once more over its own output.
 */
module Frame {
  import opened Shading
  import Templates
  import opened Layers
  import opened Compositor

  /**
   * A program the shading rules cover: a positive canvas and, for the
   * curve programs, a positive stroke.
   */
  predicate Shadable(src: Templates.Source, u: Uniforms, stroke: real) {
    PositiveResolution(u.resolution) && ((src.Fs1D? || src.Fs2D?) ==> 0.0 < stroke * u.zoom)
  }

  /**
   * The colour a program writes at pixel `p` over `backdrop`, the colour
   * `prev_texture` holds there; `de` is the fragment's distance estimate,
   * which only the curve programs use, and `stroke` the spliced
   * `pix_size * stroke_scale`.
   */
  function ShadeSource(src: Templates.Source, u: Uniforms, stroke: real, p: Vec2, backdrop: Rgb, de: real): Rgb
    requires Shadable(src, u, stroke)
  {
    match src
    case AxisFs => AxisShade(u, p, backdrop)
    case GridFs => GridShade(u, p, backdrop)
    case Fs1D(_) => CurveShade(u, stroke, p, backdrop, de)
    case Fs2D(_) => CurveShade(u, stroke, p, backdrop, de)
  }

  /**
   * The colour a draw leaves in its target: render targets are `RGBA`
   * `UNSIGNED_BYTE` textures (script.js:311-320) and the canvas an 8-bit
   * drawing buffer, so each channel is clamped to [0, 1]. The rounding to
   * multiples of 1/255 is not modelled.
   */
  function Stored(c: Rgb): (s: Rgb)
    ensures 0.0 <= s.r <= 1.0 && 0.0 <= s.g <= 1.0 && 0.0 <= s.b <= 1.0
    ensures (0.0 <= c.r <= 1.0 && 0.0 <= c.g <= 1.0 && 0.0 <= c.b <= 1.0) ==> s == c
  {
    Rgb(Clamp(c.r, 0.0, 1.0), Clamp(c.g, 0.0, 1.0), Clamp(c.b, 0.0, 1.0))
  }

  /** The colours at one pixel: of every texture drawn into so far, and of the canvas. */
  datatype Pixel = Pixel(textures: map<Handle, Rgb>, canvas: Rgb)

  /** A texture's colour; one never drawn into holds the zeros it was created with. */
  function Sample(px: Pixel, texture: Handle): Rgb {
    if texture in px.textures then px.textures[texture] else Black
  }

  /** A draw whose program the shading rules cover. */
  predicate Drawable(d: Draw, stroke: real) {
    Shadable(d.source, d.uniforms, stroke)
  }

  /** Every layer's program, with the frame's uniform values, is covered by the shading rules. */
  predicate Shades(shaders: seq<LineFsShader>, view: View, stroke: real) {
    forall i :: 0 <= i < |shaders| ==> Shadable(shaders[i].src, LayerUniforms(shaders[i], view), stroke)
  }

  /**
   * The pixel after the first `k` draws, each shading the texture it
   * samples and writing the texture of the framebuffer it targets, or the
   * canvas; `canvas` is the colour the canvas was cleared to and `de` the
   * distance estimate each fragment source computes at `p`.
   */
  function Replay(draws: seq<Draw>, framebuffers: map<Handle, Handle>, stroke: real, p: Vec2,
                  de: Templates.Source -> real, canvas: Rgb, k: nat): Pixel
    requires k <= |draws|
    requires forall j :: 0 <= j < |draws| ==> Drawable(draws[j], stroke)
  {
    if k == 0 then Pixel(map[], canvas)
    else
      var px := Replay(draws, framebuffers, stroke, p, de, canvas, k - 1);
      var d := draws[k - 1];
      var c := Stored(ShadeSource(d.source, d.uniforms, stroke, p, Sample(px, d.texture), de(d.source)));
      match d.target
      case Screen => px.(canvas := c)
      case Offscreen(fbo) =>
        if fbo in framebuffers then px.(textures := px.textures[framebuffers[fbo] := c]) else px
  }

  /** The colour a draw left where it wrote. */
  function Written(px: Pixel, d: Draw, framebuffers: map<Handle, Handle>): Rgb {
    match d.target
    case Screen => px.canvas
    case Offscreen(fbo) => if fbo in framebuffers then Sample(px, framebuffers[fbo]) else Black
  }

  /** The first `k` layers shaded over one another, each stored, starting from black. */
  function Composite(shaders: seq<LineFsShader>, view: View, stroke: real, p: Vec2,
                     de: Templates.Source -> real, k: nat): Rgb
    requires k <= |shaders| && Shades(shaders, view, stroke)
  {
    if k == 0 then Black
    else
      var backdrop := Composite(shaders, view, stroke, p, de, k - 1);
      var src := shaders[k - 1].src;
      Stored(ShadeSource(src, LayerUniforms(shaders[k - 1], view), stroke, p, backdrop, de(src)))
  }

  /**
   * Draws that run the first `k` layers in order and sample, each, the
   * texture the draw before wrote: after `k` of them, the `k`-th has
   * written the composite of the first `k` layers.
   */
  lemma {:induction false} ReplayTracks(draws: seq<Draw>, framebuffers: map<Handle, Handle>, shaders: seq<LineFsShader>,
                                       view: View, stroke: real, p: Vec2, de: Templates.Source -> real, canvas: Rgb, k: nat)
    requires 0 < k <= |draws| && k <= |shaders| && Shades(shaders, view, stroke)
    requires forall j :: 0 <= j < |draws| ==> Drawable(draws[j], stroke)
    requires forall j :: 0 <= j < k ==>
      draws[j].source == shaders[j].src && draws[j].uniforms == LayerUniforms(shaders[j], view)
    requires forall j :: 0 <= j < k - 1 ==>
      && draws[j].target.Offscreen? && draws[j].target.fbo in framebuffers
      && framebuffers[draws[j].target.fbo] == draws[j + 1].texture
    requires draws[k - 1].target.Offscreen? ==> draws[k - 1].target.fbo in framebuffers
    ensures Written(Replay(draws, framebuffers, stroke, p, de, canvas, k), draws[k - 1], framebuffers)
         == Composite(shaders, view, stroke, p, de, k)
  {
    if k > 1 {
      ReplayTracks(draws, framebuffers, shaders, view, stroke, p, de, canvas, k - 1);
    }
  }

  /**
   * Draws onto the canvas leave every texture as it was: after draws
   * `n` to `k - 1`, all onto the canvas, the canvas holds the shading of
   * the latest over what it sampled after the first `n` draws.
   */
  lemma {:induction false} ReplayScreenTail(draws: seq<Draw>, framebuffers: map<Handle, Handle>, stroke: real, p: Vec2,
                                           de: Templates.Source -> real, canvas: Rgb, n: nat, k: nat)
    requires n <= k <= |draws|
    requires forall j :: 0 <= j < |draws| ==> Drawable(draws[j], stroke)
    requires forall j :: n <= j < k ==> draws[j].target == Screen
    ensures var px := Replay(draws, framebuffers, stroke, p, de, canvas, n);
      var px' := Replay(draws, framebuffers, stroke, p, de, canvas, k);
      && px'.textures == px.textures
      && (n < k ==> var d := draws[k - 1];
            px'.canvas == Stored(ShadeSource(d.source, d.uniforms, stroke, p, Sample(px, d.texture), de(d.source))))
  {
    if n < k {
      ReplayScreenTail(draws, framebuffers, stroke, p, de, canvas, n, k - 1);
    }
  }

  /**
   * A frame in which every layer compiles leaves on the canvas, at every
   * pixel, the layers' shading folded from the left over the blank first
   * texture: the canvas shows layer N over layer N-1 over ... over layer 1
   * over black.
   */
  lemma FrameIsFold(s: GlState, shaders: seq<LineFsShader>, compiled: seq<bool>, view: View,
                    stroke: real, p: Vec2, de: Templates.Source -> real, canvas: Rgb)
    requires 0 < |shaders| == |compiled| && AllCompile(compiled) && Allocated(s)
    requires Shades(shaders, view, stroke)
    ensures var s' := RenderSpec(s, shaders, compiled, view);
      && |s'.log| == |s.log| + |shaders|
      && var draws := s'.log[|s.log|..];
      && (forall j :: 0 <= j < |draws| ==> Drawable(draws[j], stroke))
      && Replay(draws, s'.framebuffers, stroke, p, de, canvas, |draws|).canvas
         == Composite(shaders, view, stroke, p, de, |shaders|)
  {
    var s' := RenderSpec(s, shaders, compiled, view);
    var b := |s.log|;
    RenderDraws(s, shaders, compiled, view);
    RenderChain(s, shaders, compiled, view);
    var draws := s'.log[b..];
    forall j | 0 <= j < |draws|
      ensures draws[j] == s'.log[b + j]
      ensures draws[j].source == shaders[j].src && draws[j].uniforms == LayerUniforms(shaders[j], view)
    {
    }
    LayersDrawable(draws, shaders, view, stroke);
    ReplayTracks(draws, s'.framebuffers, shaders, view, stroke, p, de, canvas, |draws|);
  }

  /** Draws that each run some layer's program with its uniform values are covered by the shading rules. */
  lemma LayersDrawable(draws: seq<Draw>, shaders: seq<LineFsShader>, view: View, stroke: real)
    requires |draws| <= |shaders| && Shades(shaders, view, stroke)
    requires forall j :: 0 <= j < |draws| ==>
      draws[j].source == shaders[j].src && draws[j].uniforms == LayerUniforms(shaders[j], view)
    ensures forall j :: 0 <= j < |draws| ==> Drawable(draws[j], stroke)
  {
  }

  /**
   * A frame whose layers compile up to layer `n - 1` and then throw: the
   * draws from `n` on repeat layer `n - 1`'s program onto the canvas over
   * the texture layer `n - 1` wrote, so the canvas shows layer `n - 1`
   * shaded over the composite of the first `n` layers, that is, over its
   * own output, and the failing layers not at all.
   */
  lemma FrameFailedTail(s: GlState, shaders: seq<LineFsShader>, compiled: seq<bool>, view: View,
                        stroke: real, p: Vec2, de: Templates.Source -> real, canvas: Rgb, n: nat)
    requires 0 < n < |shaders| == |compiled| && Allocated(s)
    requires forall i :: 0 <= i < |compiled| ==> (compiled[i] <==> i < n)
    requires Shades(shaders, view, stroke)
    ensures var s' := RenderSpec(s, shaders, compiled, view);
      && |s'.log| == |s.log| + |shaders|
      && var draws := s'.log[|s.log|..];
      && (forall j :: 0 <= j < |draws| ==> Drawable(draws[j], stroke))
      && var src := shaders[n - 1].src;
      && Replay(draws, s'.framebuffers, stroke, p, de, canvas, |draws|).canvas
         == Stored(ShadeSource(src, LayerUniforms(shaders[n - 1], view), stroke, p,
                               Composite(shaders, view, stroke, p, de, n), de(src)))
  {
    var s' := RenderSpec(s, shaders, compiled, view);
    var b := |s.log|;
    RenderFailedTail(s, shaders, compiled, view, n);
    var draws := s'.log[b..];
    assert forall j :: 0 <= j < |draws| ==> draws[j] == s'.log[b + j];
    var fb := s'.framebuffers;
    ReplayTracks(draws, fb, shaders, view, stroke, p, de, canvas, n);
    ReplayScreenTail(draws, fb, stroke, p, de, canvas, n, |draws|);
  }

  /**
   * The axis and grid programs shaded and stored twice over a backdrop
   * give what they give once: on a line the stored line colour, elsewhere
   * the backdrop raised to the background colour and clamped, which
   * raising and clamping again does not change.
   */
  lemma FixedShadeIdempotent(src: Templates.Source, u: Uniforms, stroke: real, p: Vec2, backdrop: Rgb, de: real)
    requires (src.AxisFs? || src.GridFs?) && Shadable(src, u, stroke)
    ensures var once := Stored(ShadeSource(src, u, stroke, p, backdrop, de));
      Stored(ShadeSource(src, u, stroke, p, once, de)) == once
  {
    var once := Stored(ShadeSource(src, u, stroke, p, backdrop, de));
    var start := Start(u, backdrop);
    RaiseClampIdempotent(u.bgColor.r, backdrop.r);
    RaiseClampIdempotent(u.bgColor.g, backdrop.g);
    RaiseClampIdempotent(u.bgColor.b, backdrop.b);
    assert Stored(Start(u, Stored(start))) == Stored(start);
  }

  /** Raising to `bg` and clamping, done twice, is done once. */
  lemma RaiseClampIdempotent(bg: real, x: real)
    ensures var once := Clamp(Max(bg, x), 0.0, 1.0);
      Clamp(Max(bg, once), 0.0, 1.0) == once
  {
  }

  /**
   * When the last layer that compiles is the axis or the grid, the frame
   * whose later layers throw shows exactly the layers up to it, as though
   * the failing layers were not there.
   */
  lemma FallbackFixedLayer(s: GlState, shaders: seq<LineFsShader>, compiled: seq<bool>, view: View,
                           stroke: real, p: Vec2, de: Templates.Source -> real, canvas: Rgb, n: nat)
    requires 0 < n < |shaders| == |compiled| && Allocated(s)
    requires forall i :: 0 <= i < |compiled| ==> (compiled[i] <==> i < n)
    requires Shades(shaders, view, stroke)
    requires shaders[n - 1].src.AxisFs? || shaders[n - 1].src.GridFs?
    ensures var s' := RenderSpec(s, shaders, compiled, view);
      && |s'.log| == |s.log| + |shaders|
      && var draws := s'.log[|s.log|..];
      && (forall j :: 0 <= j < |draws| ==> Drawable(draws[j], stroke))
      && Replay(draws, s'.framebuffers, stroke, p, de, canvas, |draws|).canvas
         == Composite(shaders, view, stroke, p, de, n)
  {
    FrameFailedTail(s, shaders, compiled, view, stroke, p, de, canvas, n);
    var src := shaders[n - 1].src;
    FixedShadeIdempotent(src, LayerUniforms(shaders[n - 1], view), stroke, p,
      Composite(shaders, view, stroke, p, de, n - 1), de(src));
  }

  /**
   * A curve program shaded twice is not shaded once: at half the stroke
   * width from a white curve on black, one pass writes mid grey and a
   * second pass over it writes a lighter grey. A frame whose last
   * compiling layer is a curve, followed by a layer that throws, draws
   * that curve's antialiased edge brighter than the frame without the
   * failing layer.
   */
  lemma CurveShadeTwice()
    ensures var u := Uniforms(Black, Rgb(1.0, 1.0, 1.0), Vec2(2.0, 2.0), 1.0, 0, Vec2(0.0, 0.0));
      var once := Stored(ShadeSource(Templates.Fs1D("x"), u, 1.0, Vec2(1.0, 1.0), Black, 0.5));
      && once == Rgb(0.5, 0.5, 0.5)
      && Stored(ShadeSource(Templates.Fs1D("x"), u, 1.0, Vec2(1.0, 1.0), once, 0.5)) == Rgb(0.75, 0.75, 0.75)
  {
    var u := Uniforms(Black, Rgb(1.0, 1.0, 1.0), Vec2(2.0, 2.0), 1.0, 0, Vec2(0.0, 0.0));
    assert Smoothstep(0.0, 1.0, 0.5) == 0.5;
  }
}
