/**
 * The compositor of script.js: `render_line_fs_shaders` (script.js:562-631)
 * and the WebGL calls it makes, over an abstract GL state. Objects are
 * handles drawn from one counter; a draw is recorded with the program in
 * use, the bound framebuffer and the texture bound to unit 0. Whether a
 * layer's shaders compile is decided by the driver and is a parameter.
 */
module Compositor {
  import opened Wrappers
  import opened Shading
  import Templates
  import opened Layers

  type Handle = nat

  /** The framebuffer a draw writes: the canvas (`null`) or a render target. */
  datatype Target = Screen | Offscreen(fbo: Handle)

  /**
   * One `drawArrays(TRIANGLES, 0, 6)`: the program in use with its fragment
   * source and uniform values, the bound framebuffer and the texture on
   * unit 0 that `prev_texture` samples.
   */
  datatype Draw = Draw(
    program: Handle, source: Templates.Source, uniforms: Uniforms, target: Target, texture: Handle)

  /** The view every layer shares: canvas size, background colour and zoom. */
  datatype View = View(resolution: Vec2, bgColor: Rgb, zoom: real)

  /**
   * The abstract GL state: the next fresh handle, the objects created (a
   * program with its fragment source, a framebuffer with its colour
   * texture), the programs passed to `deleteProgram`, the current program,
   * each program's uniform values, the bound framebuffer, the texture on
   * unit 0 and the draws so far.
   */
  datatype GlState = GlState(
    next: nat,
    programs: map<Handle, Templates.Source>,
    deleted: set<Handle>,
    textures: set<Handle>,
    framebuffers: map<Handle, Handle>,
    current: Option<Handle>,
    uniforms: map<Handle, Uniforms>,
    bound: Target,
    unit0: Option<Handle>,
    log: seq<Draw>)

  /** The uniform values of a freshly linked program: all zero. */
  const Zero := Uniforms(Black, Black, Vec2(0.0, 0.0), 0.0, 0, Vec2(0.0, 0.0))

  // ---------------------------------------------------------------------
  // The GL calls, as functions of the state

  /** `gl_init_texture()`: a new texture, left bound on unit 0. */
  function WithTexture(s: GlState): GlState {
    s.(next := s.next + 1, textures := s.textures + {s.next}, unit0 := Some(s.next))
  }

  /**
   * `gl_init_render_target()`: a new texture and a new framebuffer with it
   * attached; the framebuffer is left bound.
   */
  function WithRenderTarget(s: GlState): GlState {
    var t := WithTexture(s);
    t.(next := t.next + 1, framebuffers := t.framebuffers[t.next := s.next],
       bound := Offscreen(t.next))
  }

  /**
   * `gl_compile_program(base_vs, src, ..)` up to its compile check: a vertex
   * and a fragment shader, and a program with both attached. Whether the
   * call then throws does not change the state, so a program whose
   * shaders fail stays allocated.
   */
  function WithProgram(s: GlState, src: Templates.Source): GlState {
    s.(next := s.next + 3, programs := s.programs[s.next + 2 := src])
  }

  /** `deleteProgram`: flags the program; it stays usable while it is current. */
  function WithDeleted(s: GlState, p: Handle): GlState {
    s.(deleted := s.deleted + {p})
  }

  /** `useProgram`. */
  function WithCurrent(s: GlState, p: Handle): GlState {
    s.(current := Some(p))
  }

  /** `gl_set_vaa`: a new vertex buffer for the full-screen quad. */
  function WithBuffer(s: GlState): GlState {
    s.(next := s.next + 1)
  }

  /** The `uniform*` calls: they set values of the current program. */
  function WithUniforms(s: GlState, u: Uniforms): GlState {
    if s.current.Some? then s.(uniforms := s.uniforms[s.current.value := u]) else s
  }

  /** `bindFramebuffer`. */
  function WithFramebuffer(s: GlState, target: Target): GlState {
    s.(bound := target)
  }

  /** `gl_set_texture(texture, .., 0)`: binds the texture on unit 0. */
  function WithUnit0(s: GlState, texture: Handle): GlState {
    s.(unit0 := Some(texture))
  }

  /** The uniform values of a program. */
  function UniformsOf(s: GlState, p: Handle): Uniforms {
    if p in s.uniforms then s.uniforms[p] else Zero
  }

  /** `drawArrays`: a draw with the current program; without one GL draws nothing. */
  function WithDraw(s: GlState): GlState {
    if s.current.Some? && s.current.value in s.programs && s.unit0.Some? then
      var p := s.current.value;
      s.(log := s.log + [Draw(p, s.programs[p], UniformsOf(s, p), s.bound, s.unit0.value)])
    else s
  }

  // ---------------------------------------------------------------------
  // The GL context, updated in place

  class Gl {
    var next: nat
    var programs: map<Handle, Templates.Source>
    var deleted: set<Handle>
    var textures: set<Handle>
    var framebuffers: map<Handle, Handle>
    var current: Option<Handle>
    var uniforms: map<Handle, Uniforms>
    var bound: Target
    var unit0: Option<Handle>
    var log: seq<Draw>

    /** The context's state as a value. */
    function State(): GlState
      reads this
    {
      GlState(next, programs, deleted, textures, framebuffers,
              current, uniforms, bound, unit0, log)
    }

    /** A context with nothing created, the canvas bound and nothing drawn. */
    constructor ()
      ensures State() == GlState(0, map[], {}, {}, map[], None, map[], Screen, None, [])
    {
      next, programs, deleted, textures := 0, map[], {}, {};
      framebuffers, current, uniforms, bound, unit0, log := map[], None, map[], Screen, None, [];
    }

    method CreateTexture() returns (texture: Handle)
      modifies this
      ensures texture == old(next) && State() == WithTexture(old(State()))
    {
      texture := next;
      next, textures, unit0 := next + 1, textures + {texture}, Some(texture);
    }

    method CreateRenderTarget() returns (texture: Handle, fbo: Handle)
      modifies this
      ensures texture == old(next) && fbo == old(next) + 1
      ensures State() == WithRenderTarget(old(State()))
    {
      texture := CreateTexture();
      fbo := next;
      next, framebuffers, bound := next + 1, framebuffers[fbo := texture], Offscreen(fbo);
    }

    method CompileProgram(src: Templates.Source) returns (program: Handle)
      modifies this
      ensures program == old(next) + 2 && State() == WithProgram(old(State()), src)
    {
      program := next + 2;
      next, programs := next + 3, programs[program := src];
    }

    method DeleteProgram(p: Handle)
      modifies this
      ensures State() == WithDeleted(old(State()), p)
    {
      deleted := deleted + {p};
    }

    method UseProgram(p: Handle)
      modifies this
      ensures State() == WithCurrent(old(State()), p)
    {
      current := Some(p);
    }

    method CreateBuffer() returns (buffer: Handle)
      modifies this
      ensures buffer == old(next) && State() == WithBuffer(old(State()))
    {
      buffer := next;
      next := next + 1;
    }

    method SetUniforms(u: Uniforms)
      modifies this
      ensures State() == WithUniforms(old(State()), u)
    {
      if current.Some? {
        uniforms := uniforms[current.value := u];
      }
    }

    method BindFramebuffer(target: Target)
      modifies this
      ensures State() == WithFramebuffer(old(State()), target)
    {
      bound := target;
    }

    method BindTexture(texture: Handle)
      modifies this
      ensures State() == WithUnit0(old(State()), texture)
    {
      unit0 := Some(texture);
    }

    method DrawArrays()
      modifies this
      ensures State() == WithDraw(old(State()))
    {
      if current.Some? && current.value in programs && unit0.Some? {
        var p := current.value;
        log := log + [Draw(p, programs[p], if p in uniforms then uniforms[p] else Zero, bound, unit0.value)];
      }
    }
  }

  // ---------------------------------------------------------------------
  // One pass per layer

  /**
   * The uniform values a layer's program gets: `resolution`, `bg_color`,
   * `line_color` and `zoom`; `enable_range` (1 with a range, else 0) and
   * `continuous_range` only where the program has an `enable_range`
   * location, that is in the curve programs; the others keep zero.
   */
  function LayerUniforms(shader: LineFsShader, view: View): Uniforms {
    var ranged := (shader.src.Fs1D? || shader.src.Fs2D?) && shader.range.Some?;
    Uniforms(view.bgColor, shader.color, view.resolution, view.zoom,
      if ranged then 1 else 0,
      if ranged then Vec2(shader.range.value.lo, shader.range.value.hi) else Vec2(0.0, 0.0))
  }

  /** The variables threaded through the passes: `last_texture` and `last_prog`. */
  datatype Pass = Pass(lastTexture: Handle, lastProg: Option<Handle>)

  /**
   * A layer whose program `prog` compiled: use it, draw with it into a
   * fresh render target (or the canvas, for the last layer) sampling the
   * previous texture, and make it the previous program.
   */
  function Drawn(s: GlState, q: Pass, prog: Handle, shader: LineFsShader, isLast: bool, view: View)
    : (GlState, Pass)
  {
    var s1 := WithBuffer(WithCurrent(s, prog));
    var s2 := if isLast then s1 else WithRenderTarget(s1);
    var target := if isLast then Screen else Offscreen(s1.next + 1);
    var s3 := WithUniforms(s2, LayerUniforms(shader, view));
    (WithDraw(WithUnit0(WithFramebuffer(s3, target), q.lastTexture)),
     Pass(if isLast then q.lastTexture else s1.next, Some(prog)))
  }

  /** The `catch` of a layer that threw: redraw onto the canvas with the current program. */
  function Redrawn(s: GlState, q: Pass): GlState {
    if q.lastProg.Some? then WithDraw(WithUnit0(WithFramebuffer(s, Screen), q.lastTexture)) else s
  }

  /**
   * One iteration of `render_line_fs_shaders`: delete the previous program
   * and compile this layer's; then draw with it if it compiled, or fall
   * back to a redraw if the compile threw.
   */
  function LayerStep(s: GlState, q: Pass, shader: LineFsShader, compiled: bool, isLast: bool, view: View)
    : (GlState, Pass)
  {
    var s1 := if q.lastProg.Some? then WithDeleted(s, q.lastProg.value) else s;
    var s2 := WithProgram(s1, shader.src);
    if compiled then Drawn(s2, q, s1.next + 2, shader, isLast, view) else (Redrawn(s2, q), q)
  }

  /** The pass of layer `i` of `shaders`, whose compile succeeds when `compiled[i]`. */
  function PassStep(s: GlState, q: Pass, shaders: seq<LineFsShader>, compiled: seq<bool>, view: View, i: nat)
    : (GlState, Pass)
    requires i < |shaders| == |compiled|
  {
    LayerStep(s, q, shaders[i], compiled[i], i + 1 == |shaders|, view)
  }

  /** The state and the variables after the first `k` layers. */
  function Passes(s: GlState, q: Pass, shaders: seq<LineFsShader>, compiled: seq<bool>, view: View, k: nat)
    : (GlState, Pass)
    requires k <= |shaders| == |compiled|
  {
    if k == 0 then (s, q)
    else
      var r := Passes(s, q, shaders, compiled, view, k - 1);
      PassStep(r.0, r.1, shaders, compiled, view, k - 1)
  }

  /** `render_line_fs_shaders`: a blank texture, then one pass per layer. */
  function RenderSpec(s: GlState, shaders: seq<LineFsShader>, compiled: seq<bool>, view: View): GlState
    requires |shaders| == |compiled|
  {
    Passes(WithTexture(s), Pass(s.next, None), shaders, compiled, view, |shaders|).0
  }

  /** The `try` block after a successful compile of program `prog`. */
  method DrawLayer(gl: Gl, q: Pass, prog: Handle, shader: LineFsShader, isLast: bool, view: View)
    returns (q': Pass)
    modifies gl
    ensures (gl.State(), q') == Drawn(old(gl.State()), q, prog, shader, isLast, view)
  {
    gl.UseProgram(prog);
    var _ := gl.CreateBuffer();
    var target, targetTexture := Screen, q.lastTexture;
    if !isLast {
      var texture, fbo := gl.CreateRenderTarget();
      target, targetTexture := Offscreen(fbo), texture;
    }
    gl.SetUniforms(LayerUniforms(shader, view));
    gl.BindFramebuffer(target);
    gl.BindTexture(q.lastTexture);
    gl.DrawArrays();
    q' := Pass(targetTexture, Some(prog));
  }

  /** The `catch` block: with a previous program, draw once more onto the canvas. */
  method Redraw(gl: Gl, q: Pass)
    modifies gl
    ensures gl.State() == Redrawn(old(gl.State()), q)
  {
    if q.lastProg.Some? {
      gl.BindFramebuffer(Screen);
      gl.BindTexture(q.lastTexture);
      gl.DrawArrays();
    }
  }

  /** The body of the loop of `render_line_fs_shaders` for one layer. */
  method LayerPass(gl: Gl, q: Pass, shader: LineFsShader, compiled: bool, isLast: bool, view: View)
    returns (q': Pass)
    modifies gl
    ensures (gl.State(), q') == LayerStep(old(gl.State()), q, shader, compiled, isLast, view)
  {
    if q.lastProg.Some? {
      gl.DeleteProgram(q.lastProg.value);
    }
    var prog := gl.CompileProgram(shader.src);
    if compiled {
      q' := DrawLayer(gl, q, prog, shader, isLast, view);
    } else {
      Redraw(gl, q);
      q' := q;
    }
  }

  /**
   * `render_line_fs_shaders(shaders)`, with `compiled[i]` whether layer
   * `i`'s shaders compile.
   */
  method RenderLineFsShaders(gl: Gl, shaders: seq<LineFsShader>, compiled: seq<bool>, view: View)
    requires |shaders| == |compiled|
    modifies gl
    ensures gl.State() == RenderSpec(old(gl.State()), shaders, compiled, view)
  {
    ghost var s0 := gl.State();
    var lastTexture := gl.CreateTexture();
    ghost var s1 := gl.State();
    var pass := Pass(lastTexture, None);
    var i := 0;
    while i < |shaders|
      invariant 0 <= i <= |shaders|
      invariant (gl.State(), pass) == Passes(s1, Pass(s0.next, None), shaders, compiled, view, i)
    {
      pass := LayerPass(gl, pass, shaders[i], compiled[i], i == |shaders| - 1, view);
      i := i + 1;
    }
  }

  /**
   * `render` for one frame, without the clear and the vertex array: build
   * the layer list from `vars` and composite it.
   */
  method RenderFrame(gl: Gl, vars: Variables, compiled: seq<bool>, view: View)
    requires |compiled| == |LayerList(vars)|
    modifies gl
    ensures gl.State() == RenderSpec(old(gl.State()), Shaders(LayerList(vars)), compiled, view)
  {
    var shaders := LineFsShaders(vars);
    RenderLineFsShaders(gl, shaders, compiled, view);
  }

  // ---------------------------------------------------------------------
  // What one pass does

  /** Every handle in use was handed out before `next`. */
  predicate Allocated(s: GlState) {
    && (forall p :: p in s.deleted ==> p < s.next)
    && (forall p :: p in s.programs ==> p < s.next)
    && (forall f :: f in s.framebuffers ==> f < s.next && s.framebuffers[f] < s.next)
  }

  /**
   * Every handle in use was handed out before `next`, and the current
   * program is the previous layer's program, if there is one.
   */
  predicate Valid(s: GlState, q: Pass) {
    && Allocated(s)
    && q.lastTexture < s.next
    && (q.lastProg.Some? ==> q.lastProg.value in s.programs && s.current == q.lastProg)
  }

  /**
   * Nothing is ever destroyed: handles and textures are kept, programs keep their source, framebuffers keep their texture,
   * deleted programs stay deleted and the draws so far stay logged.
   */
  predicate Grows(s: GlState, s': GlState) {
    && s.next <= s'.next
    && s.textures <= s'.textures
    && s.deleted <= s'.deleted
    && (forall p :: p in s.programs ==> p in s'.programs && s'.programs[p] == s.programs[p])
    && (forall f :: f in s.framebuffers ==> f in s'.framebuffers && s'.framebuffers[f] == s.framebuffers[f])
    && s.log <= s'.log
  }

  /** A layer that compiles keeps the state valid and destroys nothing. */
  lemma CompiledStepKeeps(s: GlState, q: Pass, shader: LineFsShader, isLast: bool, view: View)
    requires Valid(s, q)
    ensures var (s', q') := LayerStep(s, q, shader, true, isLast, view); Valid(s', q') && Grows(s, s')
  {
  }

  /**
   * A layer that compiles deletes the previous program and compiles a
   * fresh one (`next + 2`), which becomes current and the previous
   * program; it draws once with it, sampling the previous texture: onto
   * the canvas if it is the last layer, otherwise into a fresh
   * framebuffer (`next + 5`) whose fresh texture (`next + 4`) becomes
   * `last_texture`.
   */
  lemma CompiledStep(s: GlState, q: Pass, shader: LineFsShader, isLast: bool, view: View)
    ensures var r := LayerStep(s, q, shader, true, isLast, view);
      var prog := s.next + 2;
      var target := if isLast then Screen else Offscreen(s.next + 5);
      && r.0.log == s.log + [Draw(prog, shader.src, LayerUniforms(shader, view), target, q.lastTexture)]
      && r.1 == Pass(if isLast then q.lastTexture else s.next + 4, Some(prog))
      && r.0.next == s.next + (if isLast then 4 else 6)
      && r.0.framebuffers == (if isLast then s.framebuffers else s.framebuffers[s.next + 5 := s.next + 4])
      && r.0.deleted == (if q.lastProg.Some? then s.deleted + {q.lastProg.value} else s.deleted)
      && r.0.current == Some(prog)
      && prog in r.0.programs && r.0.programs[prog] == shader.src
      && UniformsOf(r.0, prog) == LayerUniforms(shader, view)
  {
  }

  /**
   * A layer whose compile throws leaves `last_texture` and `last_prog` as
   * they were and leaks its program; with a previous program it draws once
   * onto the canvas with that program, which is deleted but still current,
   * sampling the previous texture; without one it draws nothing.
   */
  lemma FailedStep(s: GlState, q: Pass, shader: LineFsShader, isLast: bool, view: View)
    requires Valid(s, q)
    ensures var (s', q') := LayerStep(s, q, shader, false, isLast, view);
      && q' == q && Valid(s', q') && Grows(s, s')
      && s.next + 2 < s'.next && s.next + 2 in s'.programs
      && s'.programs[s.next + 2] == shader.src
      && s'.deleted == s.deleted + (if q.lastProg.Some? then {q.lastProg.value} else {})
      && s'.framebuffers == s.framebuffers && s'.uniforms == s.uniforms
      && (q.lastProg.None? ==> s'.log == s.log)
      && (q.lastProg.Some? ==>
            var p := q.lastProg.value;
            && p in s'.deleted && s'.current == Some(p)
            && s'.log == s.log + [Draw(p, s.programs[p], UniformsOf(s, p), Screen, q.lastTexture)])
  {
  }

  /** `Grows` is transitive. */
  lemma GrowsTransitive(s: GlState, s': GlState, s'': GlState)
    requires Grows(s, s') && Grows(s', s'')
    ensures Grows(s, s'')
  {
  }

  // ---------------------------------------------------------------------
  // What the passes do together

  /**
   * Induction over the passes: a property of the state and the variables
   * that holds before the first layer and that every pass keeps holds
   * after any number of passes.
   */
  lemma {:induction false} PassesInduction(inv: (GlState, Pass, nat) -> bool, s: GlState, q: Pass, shaders: seq<LineFsShader>, compiled: seq<bool>, view: View, k: nat)
    requires k <= |shaders| == |compiled| && inv(s, q, 0)
    requires forall i: nat, s1: GlState, q1: Pass | i < |shaders| && inv(s1, q1, i) ::
      var r := PassStep(s1, q1, shaders, compiled, view, i); inv(r.0, r.1, i + 1)
    ensures var r := Passes(s, q, shaders, compiled, view, k); inv(r.0, r.1, k)
  {
    if k > 0 {
      PassesInduction(inv, s, q, shaders, compiled, view, k - 1);
    }
  }


  /** A pass keeps the state valid and destroys nothing. */
  lemma StepGrows(s: GlState, q: Pass, shader: LineFsShader, compiled: bool, isLast: bool, view: View)
    requires Valid(s, q)
    ensures var r := LayerStep(s, q, shader, compiled, isLast, view); Valid(r.0, r.1) && Grows(s, r.0)
  {
    if compiled {
      CompiledStepKeeps(s, q, shader, isLast, view);
    } else {
      FailedStep(s, q, shader, isLast, view);
    }
  }

  /** Any run of passes keeps the state valid and destroys nothing. */
  lemma PassesGrow(s: GlState, q: Pass, shaders: seq<LineFsShader>, compiled: seq<bool>, view: View, k: nat)
    requires k <= |shaders| == |compiled| && Valid(s, q)
    ensures var r := Passes(s, q, shaders, compiled, view, k); Valid(r.0, r.1) && Grows(s, r.0)
  {
    var inv := (s1: GlState, q1: Pass, i: nat) => Valid(s1, q1) && Grows(s, s1);
    assert inv(s, q, 0);
    forall i: nat, s1: GlState, q1: Pass | i < |shaders| && inv(s1, q1, i)
      ensures var r := PassStep(s1, q1, shaders, compiled, view, i); inv(r.0, r.1, i + 1)
    {
      StepGrows(s1, q1, shaders[i], compiled[i], i + 1 == |shaders|, view);
      GrowsTransitive(s, s1, PassStep(s1, q1, shaders, compiled, view, i).0);
    }
    PassesInduction(inv, s, q, shaders, compiled, view, k);
  }

  /**
   * From draw `from` on, no draw samples the texture of the framebuffer it
   * writes: there is no feedback loop.
   */
  predicate NoFeedbackFrom(s: GlState, from: nat) {
    forall i :: from <= i < |s.log| && s.log[i].target.Offscreen? ==>
      s.log[i].target.fbo in s.framebuffers && s.framebuffers[s.log[i].target.fbo] != s.log[i].texture
  }

  /** A pass adds no feedback loop and keeps the earlier draws free of one. */
  lemma StepNoFeedback(s: GlState, q: Pass, shader: LineFsShader, compiled: bool, isLast: bool, view: View, from: nat)
    requires Valid(s, q) && NoFeedbackFrom(s, from)
    ensures NoFeedbackFrom(LayerStep(s, q, shader, compiled, isLast, view).0, from)
  {
    if compiled {
      CompiledStepKeeps(s, q, shader, isLast, view);
      CompiledStep(s, q, shader, isLast, view);
    } else {
      FailedStep(s, q, shader, isLast, view);
    }
  }

  /** Whatever compiles, no draw of the passes reads the texture it writes. */
  lemma {:induction false} PassesNoFeedback(s: GlState, q: Pass, shaders: seq<LineFsShader>, compiled: seq<bool>, view: View, k: nat)
    requires k <= |shaders| == |compiled| && Valid(s, q)
    ensures NoFeedbackFrom(Passes(s, q, shaders, compiled, view, k).0, |s.log|)
  {
    if k > 0 {
      PassesNoFeedback(s, q, shaders, compiled, view, k - 1);
      PassesGrow(s, q, shaders, compiled, view, k - 1);
      var r := Passes(s, q, shaders, compiled, view, k - 1);
      StepNoFeedback(r.0, r.1, shaders[k - 1], compiled[k - 1], k == |shaders|, view, |s.log|);
    }
  }

  // ---------------------------------------------------------------------
  // When a compile throws

  /** While no layer has compiled, a layer whose compile throws draws nothing. */
  lemma {:induction false} LeadingFailuresDrawNothing(s: GlState, q: Pass, shaders: seq<LineFsShader>, compiled: seq<bool>, view: View, k: nat)
    requires k <= |shaders| == |compiled| && Valid(s, q) && q.lastProg.None?
    requires forall i :: 0 <= i < k ==> !compiled[i]
    ensures var (s', q') := Passes(s, q, shaders, compiled, view, k); s'.log == s.log && q' == q
  {
    if k > 0 {
      LeadingFailuresDrawNothing(s, q, shaders, compiled, view, k - 1);
      PassesGrow(s, q, shaders, compiled, view, k - 1);
      var r := Passes(s, q, shaders, compiled, view, k - 1);
      FailedStep(r.0, r.1, shaders[k - 1], k == |shaders|, view);
    }
  }

  /**
   * Program `p` exists with source `src`, is not deleted and is not the
   * previous program.
   */
  predicate Leaked(s: GlState, q: Pass, p: Handle, src: Templates.Source) {
    p in s.programs && s.programs[p] == src && p !in s.deleted && p < s.next && q.lastProg != Some(p)
  }

  /** A pass deletes no program but the previous one, and compiles a fresh one. */
  lemma StepKeepsLeaked(s: GlState, q: Pass, shader: LineFsShader, compiled: bool, isLast: bool, view: View, p: Handle, src: Templates.Source)
    requires Leaked(s, q, p, src)
    ensures var r := LayerStep(s, q, shader, compiled, isLast, view); Leaked(r.0, r.1, p, src)
  {
  }

  /** Once leaked, a program stays leaked through the passes from `j` to `k`. */
  lemma {:induction false} PassesKeepLeaked(s: GlState, q: Pass, shaders: seq<LineFsShader>, compiled: seq<bool>, view: View, j: nat, k: nat, p: Handle, src: Templates.Source)
    requires j <= k <= |shaders| == |compiled|
    requires var r := Passes(s, q, shaders, compiled, view, j); Leaked(r.0, r.1, p, src)
    ensures var r := Passes(s, q, shaders, compiled, view, k); Leaked(r.0, r.1, p, src)
  {
    if j < k {
      PassesKeepLeaked(s, q, shaders, compiled, view, j, k - 1, p, src);
      var r := Passes(s, q, shaders, compiled, view, k - 1);
      StepKeepsLeaked(r.0, r.1, shaders[k - 1], compiled[k - 1], k == |shaders|, view, p, src);
    }
  }

  /** The layer whose compile throws leaves its program leaked. */
  lemma FailedStepLeaks(s: GlState, q: Pass, shader: LineFsShader, isLast: bool, view: View)
    requires Valid(s, q)
    ensures var r := LayerStep(s, q, shader, false, isLast, view); Leaked(r.0, r.1, s.next + 2, shader.src)
  {
  }

  /**
   * The program of a layer whose compile throws is never deleted: after
   * the last layer it is still allocated, with that layer's source.
   */
  lemma FailedProgramLeaks(s: GlState, q: Pass, shaders: seq<LineFsShader>, compiled: seq<bool>, view: View, j: nat)
    requires j < |shaders| == |compiled| && Valid(s, q) && !compiled[j]
    ensures var p := Passes(s, q, shaders, compiled, view, j).0.next + 2;
      var s' := Passes(s, q, shaders, compiled, view, |shaders|).0;
      p in s'.programs && p !in s'.deleted && s'.programs[p] == shaders[j].src
  {
    PassesGrow(s, q, shaders, compiled, view, j);
    var r := Passes(s, q, shaders, compiled, view, j);
    FailedStepLeaks(r.0, r.1, shaders[j], j + 1 == |shaders|, view);
    PassesKeepLeaked(s, q, shaders, compiled, view, j + 1, |shaders|, r.0.next + 2, shaders[j].src);
  }

  /**
   * `t` is `r` after `m` passes whose compile threw, with `p` the previous
   * program throughout: each redrew onto the canvas with `p`, its source
   * and its uniform values, sampling the same `last_texture`; the loop
   * variables, the framebuffers and `p` stayed as they were.
   */
  predicate FallbackFrom(r: GlState, rq: Pass, t: GlState, tq: Pass, p: Handle, m: nat) {
    && tq == rq && Valid(t, tq) && rq.lastProg == Some(p)
    && t.framebuffers == r.framebuffers && t.uniforms == r.uniforms
    && p in r.programs && p in t.programs && t.programs[p] == r.programs[p]
    && |t.log| == |r.log| + m && t.log[..|r.log|] == r.log
    && forall j :: |r.log| <= j < |t.log| ==>
         t.log[j] == Draw(p, r.programs[p], UniformsOf(r, p), Screen, rq.lastTexture)
  }

  /** One more pass whose compile throws extends `FallbackFrom` by its redraw. */
  lemma FallbackStep(r: GlState, rq: Pass, t: GlState, tq: Pass, p: Handle, m: nat,
                     shader: LineFsShader, isLast: bool, view: View)
    requires FallbackFrom(r, rq, t, tq, p, m)
    ensures var t' := LayerStep(t, tq, shader, false, isLast, view); FallbackFrom(r, rq, t'.0, t'.1, p, m + 1)
  {
    FailedStep(t, tq, shader, isLast, view);
    var t' := LayerStep(t, tq, shader, false, isLast, view);
    assert t'.0.log[..|r.log|] == t.log[..|r.log|];
  }

  /**
   * After a layer that compiled, the passes from `n` to `k` whose compile
   * throws each redraw onto the canvas with the previous program.
   */
  lemma {:induction false} FailedTail(s: GlState, q: Pass, shaders: seq<LineFsShader>, compiled: seq<bool>, view: View, n: nat, k: nat)
    requires n <= k <= |shaders| == |compiled|
    requires forall i :: n <= i < k ==> !compiled[i]
    requires var r := Passes(s, q, shaders, compiled, view, n); Valid(r.0, r.1) && r.1.lastProg.Some?
    ensures var r := Passes(s, q, shaders, compiled, view, n);
      var t := Passes(s, q, shaders, compiled, view, k);
      FallbackFrom(r.0, r.1, t.0, t.1, r.1.lastProg.value, k - n)
  {
    var r := Passes(s, q, shaders, compiled, view, n);
    if k == n {
      assert r.0.log[..|r.0.log|] == r.0.log;
    } else {
      FailedTail(s, q, shaders, compiled, view, n, k - 1);
      var t1 := Passes(s, q, shaders, compiled, view, k - 1);
      FallbackStep(r.0, r.1, t1.0, t1.1, r.1.lastProg.value, k - 1 - n, shaders[k - 1], k == |shaders|, view);
    }
  }

  // ---------------------------------------------------------------------
  // When every layer compiles

  /** Every layer's shaders compile. */
  predicate AllCompile(compiled: seq<bool>) {
    forall i :: 0 <= i < |compiled| ==> compiled[i]
  }

  /**
   * The draws after the first `k` passes from `s` are `k` draws in layer
   * order: draw `i` runs layer `i`'s fragment source with that layer's
   * uniform values, and only the last layer's draw goes to the canvas;
   * the draws before them are untouched.
   */
  predicate LayerDraws(s: GlState, s': GlState, shaders: seq<LineFsShader>, view: View, k: nat) {
    && k <= |shaders|
    && |s'.log| == |s.log| + k && s'.log[..|s.log|] == s.log
    && forall j :: |s.log| <= j < |s'.log| ==>
         && s'.log[j].source == shaders[j - |s.log|].src
         && s'.log[j].uniforms == LayerUniforms(shaders[j - |s.log|], view)
         && (s'.log[j].target == Screen <==> j - |s.log| == |shaders| - 1)
  }

  /** One more compiled layer extends `LayerDraws` by its draw. */
  lemma LayerDrawsStep(s: GlState, s1: GlState, s2: GlState, shaders: seq<LineFsShader>, view: View, k: nat, d: Draw)
    requires 0 < k <= |shaders| && LayerDraws(s, s1, shaders, view, k - 1) && s2.log == s1.log + [d]
    requires d.source == shaders[k - 1].src && d.uniforms == LayerUniforms(shaders[k - 1], view)
    requires d.target == Screen <==> k == |shaders|
    ensures LayerDraws(s, s2, shaders, view, k)
  {
    assert s2.log[..|s.log|] == s1.log[..|s.log|];
  }

  /** While every compile succeeds, the passes draw the layers in order. */
  lemma CompiledDraws(s: GlState, q: Pass, shaders: seq<LineFsShader>, compiled: seq<bool>, view: View, k: nat)
    requires k <= |shaders| == |compiled| && forall i :: 0 <= i < k ==> compiled[i]
    ensures LayerDraws(s, Passes(s, q, shaders, compiled, view, k).0, shaders, view, k)
  {
    var inv := (s1: GlState, q1: Pass, i: nat) => i <= k ==> LayerDraws(s, s1, shaders, view, i);
    assert s.log[..|s.log|] == s.log;
    assert inv(s, q, 0);
    forall i: nat, s1: GlState, q1: Pass | i < |shaders| && inv(s1, q1, i)
      ensures var r := PassStep(s1, q1, shaders, compiled, view, i); inv(r.0, r.1, i + 1)
    {
      if i < k {
        CompiledStep(s1, q1, shaders[i], i + 1 == |shaders|, view);
        var r := PassStep(s1, q1, shaders, compiled, view, i);
        LayerDrawsStep(s, s1, r.0, shaders, view, i + 1, r.0.log[|s1.log|]);
      }
    }
    PassesInduction(inv, s, q, shaders, compiled, view, k);
  }

  /**
   * The draws after the first `k` passes from `(s, q)` form a chain: the
   * first samples `q`'s `last_texture`; each draw but the latest writes a
   * framebuffer created by these passes, whose texture the next draw
   * samples; the latest, if it writes a framebuffer, leaves its texture
   * as `last_texture`.
   */
  predicate Chained(s: GlState, q: Pass, s': GlState, q': Pass, k: nat) {
    var b := |s.log|;
    && |s'.log| == b + k && s.next <= s'.next
    && (k == 0 ==> q'.lastTexture == q.lastTexture)
    && (k > 0 ==> s'.log[b].texture == q.lastTexture)
    && (forall j :: b <= j < |s'.log| && s'.log[j].target.Offscreen? ==>
          s.next <= s'.log[j].target.fbo < s'.next)
    && (forall j :: b <= j < |s'.log| - 1 ==>
          && s'.log[j].target.Offscreen?
          && s'.log[j].target.fbo in s'.framebuffers
          && s'.framebuffers[s'.log[j].target.fbo] == s'.log[j + 1].texture)
    && (k > 0 && s'.log[b + k - 1].target.Offscreen? ==>
          && s'.log[b + k - 1].target.fbo in s'.framebuffers
          && s'.framebuffers[s'.log[b + k - 1].target.fbo] == q'.lastTexture)
  }

  /** A draw sampling `last_texture` after an offscreen draw extends the chain. */
  lemma ChainedStep(s: GlState, q: Pass, s1: GlState, q1: Pass, s2: GlState, q2: Pass, k: nat, d: Draw)
    requires 0 < k && Chained(s, q, s1, q1, k - 1)
    requires k > 1 ==> s1.log[|s1.log| - 1].target.Offscreen?
    requires s2.log == s1.log + [d] && d.texture == q1.lastTexture && s1.next <= s2.next
    requires d.target.Screen? ==> s2.framebuffers == s1.framebuffers
    requires d.target.Offscreen? ==>
      s1.next <= d.target.fbo < s2.next && s2.framebuffers == s1.framebuffers[d.target.fbo := q2.lastTexture]
    ensures Chained(s, q, s2, q2, k)
  {
  }

  /** While every compile succeeds, the passes chain their draws. */
  lemma CompiledChain(s: GlState, q: Pass, shaders: seq<LineFsShader>, compiled: seq<bool>, view: View, k: nat)
    requires k <= |shaders| == |compiled| && forall i :: 0 <= i < k ==> compiled[i]
    ensures var r := Passes(s, q, shaders, compiled, view, k); Chained(s, q, r.0, r.1, k)
  {
    var inv := (s1: GlState, q1: Pass, i: nat) =>
      i <= k ==> LayerDraws(s, s1, shaders, view, i) && Chained(s, q, s1, q1, i);
    assert s.log[..|s.log|] == s.log;
    assert LayerDraws(s, s, shaders, view, 0);
    assert Chained(s, q, s, q, 0);
    assert inv(s, q, 0);
    forall i: nat, s1: GlState, q1: Pass | i < |shaders| && inv(s1, q1, i)
      ensures var r := PassStep(s1, q1, shaders, compiled, view, i); inv(r.0, r.1, i + 1)
    {
      if i < k {
        CompiledStep(s1, q1, shaders[i], i + 1 == |shaders|, view);
        var r := PassStep(s1, q1, shaders, compiled, view, i);
        LayerDrawsStep(s, s1, r.0, shaders, view, i + 1, r.0.log[|s1.log|]);
        ChainedStep(s, q, s1, q1, r.0, r.1, i + 1, r.0.log[|s1.log|]);
      }
    }
    PassesInduction(inv, s, q, shaders, compiled, view, k);
  }

  /**
   * The draws after the first `k` passes from `(s, q)` use programs
   * created by these passes, in increasing order; every one but the
   * latest is deleted, and the latest is current, not deleted, and the
   * next `last_prog`.
   */
  predicate ProgramsUsed(s: GlState, q: Pass, s': GlState, q': Pass, k: nat) {
    var b := |s.log|;
    && |s'.log| == b + k && s.next <= s'.next
    && (forall p :: p in s'.deleted ==> p < s'.next)
    && (q'.lastProg.Some? ==> q'.lastProg.value < s'.next)
    && (k == 0 ==> q'.lastProg == q.lastProg)
    && (forall j :: b <= j < |s'.log| ==> s.next <= s'.log[j].program < s'.next)
    && (forall i, j :: b <= i < j < |s'.log| ==> s'.log[i].program < s'.log[j].program)
    && (forall j :: b <= j < |s'.log| - 1 ==> s'.log[j].program in s'.deleted)
    && (k > 0 ==>
          && q'.lastProg == Some(s'.log[b + k - 1].program) && s'.current == q'.lastProg
          && s'.log[b + k - 1].program !in s'.deleted)
  }

  /** A draw with a fresh program, deleting the previous one, extends `ProgramsUsed`. */
  lemma ProgramsUsedStep(s: GlState, q: Pass, s1: GlState, q1: Pass, s2: GlState, q2: Pass, k: nat, d: Draw)
    requires 0 < k && ProgramsUsed(s, q, s1, q1, k - 1)
    requires s2.log == s1.log + [d] && s1.next <= d.program < s2.next
    requires s2.deleted == (if q1.lastProg.Some? then s1.deleted + {q1.lastProg.value} else s1.deleted)
    requires q2.lastProg == Some(d.program) && s2.current == q2.lastProg
    ensures ProgramsUsed(s, q, s2, q2, k)
  {
  }

  /** With every compile succeeding, each program is deleted by the pass after it. */
  lemma CompiledPrograms(s: GlState, q: Pass, shaders: seq<LineFsShader>, compiled: seq<bool>, view: View, k: nat)
    requires k <= |shaders| == |compiled| && AllCompile(compiled) && Valid(s, q)
    ensures var r := Passes(s, q, shaders, compiled, view, k); ProgramsUsed(s, q, r.0, r.1, k)
  {
    var inv := (s1: GlState, q1: Pass, i: nat) => ProgramsUsed(s, q, s1, q1, i);
    forall i: nat, s1: GlState, q1: Pass | i < |shaders| && inv(s1, q1, i)
      ensures var r := PassStep(s1, q1, shaders, compiled, view, i); inv(r.0, r.1, i + 1)
    {
      CompiledStep(s1, q1, shaders[i], i + 1 == |shaders|, view);
      var r := PassStep(s1, q1, shaders, compiled, view, i);
      ProgramsUsedStep(s, q, s1, q1, r.0, r.1, i + 1, r.0.log[|s1.log|]);
    }
    PassesInduction(inv, s, q, shaders, compiled, view, k);
  }

  // ---------------------------------------------------------------------
  // One frame

  /**
   * `render_line_fs_shaders` with every compile succeeding makes exactly
   * one draw per layer, in layer order, with the layer's source and
   * uniform values, and only the last draws onto the canvas.
   */
  lemma RenderDraws(s: GlState, shaders: seq<LineFsShader>, compiled: seq<bool>, view: View)
    requires |shaders| == |compiled| && AllCompile(compiled)
    ensures var s' := RenderSpec(s, shaders, compiled, view);
      var b := |s.log|;
      && |s'.log| == b + |shaders| && s'.log[..b] == s.log
      && (forall j :: b <= j < |s'.log| ==>
            && s'.log[j].source == shaders[j - b].src
            && s'.log[j].uniforms == LayerUniforms(shaders[j - b], view)
            && (s'.log[j].target == Screen <==> j == |s'.log| - 1))
  {
    CompiledDraws(WithTexture(s), Pass(s.next, None), shaders, compiled, view, |shaders|);
  }

  /**
   * `render_line_fs_shaders` with every compile succeeding: the first
   * draw samples the blank texture it created, and each draw but the last
   * writes a framebuffer that did not exist before, whose texture the
   * next draw samples.
   */
  lemma RenderChain(s: GlState, shaders: seq<LineFsShader>, compiled: seq<bool>, view: View)
    requires |shaders| == |compiled| && AllCompile(compiled) && Allocated(s)
    ensures var s' := RenderSpec(s, shaders, compiled, view);
      var b := |s.log|;
      && |s'.log| == b + |shaders|
      && (|shaders| > 0 ==> s'.log[b].texture == s.next && s.next in s'.textures)
      && (forall j :: b <= j < |s'.log| - 1 ==>
            && s'.log[j].target.Offscreen? && s'.log[j].target.fbo !in s.framebuffers
            && s'.log[j].target.fbo in s'.framebuffers
            && s'.framebuffers[s'.log[j].target.fbo] == s'.log[j + 1].texture)
  {
    var s1, q1 := WithTexture(s), Pass(s.next, None);
    CompiledChain(s1, q1, shaders, compiled, view, |shaders|);
    PassesGrow(s1, q1, shaders, compiled, view, |shaders|);
  }

  /**
   * `render_line_fs_shaders` with every compile succeeding: each draw
   * uses its own program; every program but the last is deleted, and the
   * last stays current and undeleted.
   */
  lemma RenderPrograms(s: GlState, shaders: seq<LineFsShader>, compiled: seq<bool>, view: View)
    requires |shaders| == |compiled| && AllCompile(compiled) && Allocated(s)
    ensures var s' := RenderSpec(s, shaders, compiled, view);
      var b := |s.log|;
      && |s'.log| == b + |shaders|
      && (forall i, j :: b <= i < j < |s'.log| ==> s'.log[i].program != s'.log[j].program)
      && (forall j :: b <= j < |s'.log| - 1 ==> s'.log[j].program in s'.deleted)
      && (|shaders| > 0 ==>
            s'.current == Some(s'.log[|s'.log| - 1].program) && s'.log[|s'.log| - 1].program !in s'.deleted)
  {
    CompiledPrograms(WithTexture(s), Pass(s.next, None), shaders, compiled, view, |shaders|);
  }

  /** Whatever compiles, no draw of a frame samples the texture it writes. */
  lemma RenderNoFeedback(s: GlState, shaders: seq<LineFsShader>, compiled: seq<bool>, view: View)
    requires |shaders| == |compiled| && Allocated(s)
    ensures NoFeedbackFrom(RenderSpec(s, shaders, compiled, view), |s.log|)
  {
    PassesNoFeedback(WithTexture(s), Pass(s.next, None), shaders, compiled, view, |shaders|);
  }

  /**
   * When no layer compiles, the frame draws nothing: without a previous
   * program the fallback does not draw.
   */
  lemma RenderNothingCompiles(s: GlState, shaders: seq<LineFsShader>, compiled: seq<bool>, view: View)
    requires |shaders| == |compiled| && Allocated(s)
    requires forall i :: 0 <= i < |compiled| ==> !compiled[i]
    ensures RenderSpec(s, shaders, compiled, view).log == s.log
  {
    LeadingFailuresDrawNothing(WithTexture(s), Pass(s.next, None), shaders, compiled, view, |shaders|);
  }

  /**
   * `render_line_fs_shaders` when the layers up to `n` compile and every
   * later one throws: the first `n` draws are those of a frame that
   * compiles, except that the last of them writes a render target, not the
   * canvas; then each failing layer draws once more onto the canvas with
   * layer `n - 1`'s program, source and uniform values, sampling the very
   * texture that program has just written.
   */
  lemma RenderFailedTail(s: GlState, shaders: seq<LineFsShader>, compiled: seq<bool>, view: View, n: nat)
    requires 0 < n < |shaders| == |compiled| && Allocated(s)
    requires forall i :: 0 <= i < |compiled| ==> (compiled[i] <==> i < n)
    ensures FallbackFrame(RenderSpec(s, shaders, compiled, view), |s.log|, s.next, shaders, view, n)
  {
    var s1, q1 := WithTexture(s), Pass(s.next, None);
    assert Valid(s1, q1);
    CompiledPrefix(s1, q1, shaders, compiled, view, n);
    var r := Passes(s1, q1, shaders, compiled, view, n);
    FailedTail(s1, q1, shaders, compiled, view, n, |shaders|);
    var t := Passes(s1, q1, shaders, compiled, view, |shaders|);
    TailDraws(s1, q1, r.0, r.1, t.0, t.1, shaders, view, n, r.1.lastProg.value);
  }

  /**
   * After `n` passes that all compile, the latest draw ran the program
   * that is now `last_prog`, which holds layer `n - 1`'s source and
   * uniform values.
   */
  lemma CompiledPrefix(s: GlState, q: Pass, shaders: seq<LineFsShader>, compiled: seq<bool>, view: View, n: nat)
    requires 0 < n < |shaders| == |compiled| && Valid(s, q)
    requires forall i :: 0 <= i < n ==> compiled[i]
    ensures var r := Passes(s, q, shaders, compiled, view, n);
      && LayerDraws(s, r.0, shaders, view, n) && Chained(s, q, r.0, r.1, n) && Valid(r.0, r.1)
      && r.1.lastProg.Some?
      && var p := r.1.lastProg.value;
      && r.0.log[|r.0.log| - 1].program == p
      && p in r.0.programs && r.0.programs[p] == shaders[n - 1].src
      && UniformsOf(r.0, p) == LayerUniforms(shaders[n - 1], view)
  {
    CompiledDraws(s, q, shaders, compiled, view, n);
    CompiledChain(s, q, shaders, compiled, view, n);
    PassesGrow(s, q, shaders, compiled, view, n);
    var r0 := Passes(s, q, shaders, compiled, view, n - 1);
    CompiledStep(r0.0, r0.1, shaders[n - 1], false, view);
  }

  /**
   * The draws from log position `b` on in a frame whose layers compile up
   * to `n` and then throw: the first `n` are the layers' own draws in
   * order, chained through render targets starting from texture `tex`;
   * after them every draw goes to the canvas with the program, source and
   * uniform values of layer `n - 1`, sampling the texture the draw of
   * layer `n - 1` wrote.
   */
  predicate FallbackFrame(t: GlState, b: nat, tex: Handle, shaders: seq<LineFsShader>, view: View, n: nat)
    requires 0 < n < |shaders|
  {
      && |t.log| == b + |shaders|
      && (forall j :: b <= j < b + n ==>
            && t.log[j].source == shaders[j - b].src
            && t.log[j].uniforms == LayerUniforms(shaders[j - b], view))
      && t.log[b].texture == tex
      && (forall j :: b <= j < b + n ==>
            && t.log[j].target.Offscreen?
            && t.log[j].target.fbo in t.framebuffers
            && t.framebuffers[t.log[j].target.fbo] == t.log[j + 1].texture)
      && (forall j :: b + n <= j < |t.log| ==>
            && t.log[j].program == t.log[b + n - 1].program
            && t.log[j].source == shaders[n - 1].src
            && t.log[j].uniforms == LayerUniforms(shaders[n - 1], view)
            && t.log[j].target == Screen
            && t.log[j].texture == t.log[b + n].texture)
  }

  /**
   * The draws of a frame whose layers compile up to `n` and then throw,
   * read off the state `r` after the `n` compiled passes and the state
   * `t` after the failing ones.
   */
  lemma TailDraws(s1: GlState, q1: Pass, r: GlState, rq: Pass, t: GlState, tq: Pass,
                  shaders: seq<LineFsShader>, view: View, n: nat, p: Handle)
    requires 0 < n < |shaders|
    requires LayerDraws(s1, r, shaders, view, n) && Chained(s1, q1, r, rq, n)
    requires r.log[|r.log| - 1].program == p
    requires p in r.programs && r.programs[p] == shaders[n - 1].src
    requires UniformsOf(r, p) == LayerUniforms(shaders[n - 1], view)
    requires FallbackFrom(r, rq, t, tq, p, |shaders| - n)
    ensures FallbackFrame(t, |s1.log|, q1.lastTexture, shaders, view, n)
  {
    var b := |s1.log|;
    forall j | b <= j < b + n
      ensures t.log[j] == r.log[j]
    {
      assert t.log[j] == t.log[..|r.log|][j];
    }
    assert t.log[b + n] == Draw(p, r.programs[p], UniformsOf(r, p), Screen, rq.lastTexture);
  }

}
