# WebGL2 graph plotter: a Dafny model of its rendering core

The plotter draws one frame as a stack of full-screen layers. The axis
layer comes first, then the grid layer when the grid is enabled, then one
layer for each user function: a 1D curve `y = f(x)` or a 2D implicit curve
`f(x, y) = 0`.

- **Fragment sources.** Each layer is a fragment shader. The axis and the
  grid use fixed sources. The curves use one of two templates, into which
  the user's GLSL formula is spliced verbatim together with the stroke
  width `pix_size * stroke_scale`.
- **Compositing.** `render_line_fs_shaders` runs one pass per layer. Each
  pass compiles the layer's program and draws a full-screen quad. It samples
  the texture the previous layer drew into, and writes a fresh render target,
  or the canvas for the last layer. When a compile throws, the pass falls back
  to drawing the previous program once more onto the canvas.

The project models four parts of `script.js`:

- `layers.dfy`: the paint list (`line_fs_shaders`, `to_fs_shader`). The
  list-building loop is a method proved against a function.
- `templates.dfy`: the exact text of the two fixed sources and of the two
  templates, and splicing as string concatenation with its inverse.
- `shading.dfy`: what one fragment of each program computes, over `real`.
  The GLSL built-ins follow section 8.3 (Common Functions) of the OpenGL ES
  Shading Language 3.00 specification. `pow` follows section 8.2.
- `compositor.dfy`: the pass loop over an abstract GL context. The context
  is a class `Gl` whose methods are the GL calls the loop makes. The loop
  is a method whose loop invariant ties it to a fold of one pass function.
  Lemmas state what a pass and a run of passes do to programs, textures,
  framebuffers and the log of draws.
- `frame.dfy`: the shading and the compositor combined. When every layer
  compiles, the canvas at any pixel is the left fold of the layers' shading
  over the blank texture. When the layers compile up to some layer and every
  later one throws, the canvas shows the last compiled layer shaded once more
  over its own output.

GL objects are handles drawn from one counter, in the order the source
creates them:

- every pass creates a vertex shader, a fragment shader and a program
  (`gl_compile_program`), whether or not the compile then throws;
- a pass whose compile succeeds then creates a vertex buffer, and, unless it
  is the last layer, a texture and a framebuffer;
- a pass whose compile throws creates nothing more.

Whether a layer's shaders compile is decided by the driver. It is a
parameter of the model (`compiled[i]`).

## Model

| member | source | states |
|---|---|---|
| Layers.LayerList | script.js:519-529 | The paint list has 1 + (grid ? 1 : 0) + #functions entries. The axis comes first, the grid second exactly when enabled, then every user function in order. |
| Layers.LayerListKinds | script.js:519-529 | Exactly one axis, at index 0. A grid appears only at index 1, and only when the grid is enabled. |
| Layers.ToFsShader | script.js:388-425 | `to_fs_shader` as a definition, with the axis and grid shaders built at script.js:521-523: the fixed source and no range for the axis and the grid; the template applied to the formula, the colour and the range as given for a curve. `Layers.ShaderRoundTrip` states that nothing is lost. |
| Layers.Shaders | script.js:519-529 | One shader per layer, in order: shader i is `to_fs_shader` of layer i. |
| Layers.ShaderRoundTrip | script.js:388-425 | `to_fs_shader` loses nothing. The layer, with its formula, colour and range, can be read back from its shader. |
| Layers.ShadersOfLongerPrefix | script.js:525-527 | Pushing the next layer's shader extends the shaders of the list prefix by exactly that shader. |
| Layers.LineFsShaders | script.js:519-529 | The push loop returns exactly the shaders of the paint list. |
| Templates.Unsplice | script.js:92-157 | A recovered body has the length of the source minus the prefix and the suffix. |
| Templates.Gen | script.js:92-229 | A template's output as a definition: declarations and `f`'s signature, the formula between braces, then `grad`, `de`, `render` with the stroke text, and `main`. `Templates.FormulaIff`, `Templates.GenInjective` and `Templates.FormulaBetweenBraces` state its properties. |
| Templates.Gen1D | script.js:92-157 | `gen_1d_fs_shader` as a definition: `Templates.Gen` of the 1D template. `Templates.OneDText` and `Templates.OneDIsNotTwoD` state its properties. |
| Templates.Gen2D | script.js:159-229 | `gen_2d_fs_shader` as a definition: `Templates.Gen` of the 2D template. `Templates.TwoDText` and `Templates.OneDIsNotTwoD` state its properties. |
| Templates.UnspliceIff | script.js:109-111 | Unsplicing returns `body` if and only if the source is prefix + body + suffix. |
| Templates.FormulaIff | script.js:92-229 | For either template, `FormulaOf` recovers `formula` exactly when the source is the template's output for that formula and stroke text. |
| Templates.GenInjective | script.js:109-111 | Two formulas that give the same source are equal: the splice is deterministic and injective. |
| Templates.FormulaBetweenBraces | script.js:109-111 | The output is prefix, `{`, the formula verbatim, `}`, then the suffix. |
| Templates.OpensWith | script.js:93-110 | Every output opens with the template's declarations and the signature of `f`. |
| Templates.HeadAndRender | script.js:93-156 | Every output opens with the declarations and ends with `render` and `main`, with the stroke text spliced in. |
| Templates.StrokeInRender | script.js:145 | The stroke text sits right after the head of `render`. |
| Templates.SharedFrame | script.js:92-229 | Two templates with the same head and `render` give outputs with the same prefix of declarations and the same tail, for any two formulas. |
| Templates.OneDAndTwoDShareFrame | script.js:92-229 | The 1D and 2D templates have the same declarations and the same `render` and `main`. They differ only in `f`, `grad` and `de`. |
| Templates.SignaturesSeparate | script.js:109-176 | Templates whose `f` signatures differ at some position never produce the same source, whatever the formulas. |
| Templates.SignatureLetters | script.js:109-176 | The `f` signature takes `float x` in the 1D template and `vec2 p` in the 2D one. |
| Templates.HeadSeparates | script.js:8-95 | A template output never equals a source that opens differently from the template's head. |
| Templates.FixedOpensWith | script.js:8-63 | Both fixed sources open with the same declarations. |
| Templates.HeaderLetters | script.js:8-95 | The templates put a blank line after `#version 300 es`, where the fixed sources put `precision`. `Templates.TemplateIsNotFixed` draws the consequence. |
| Templates.AxisIsNotGrid | script.js:8-90 | The axis source and the grid source differ. |
| Templates.Fixed | script.js:8-90 | The axis and the grid source as one definition: the shared header and `render` opening, the layer's band marks, and the shared close. `Templates.FixedOpensWith`, `Templates.AxisIsNotGrid` and `Templates.TemplateIsNotFixed` state its properties. |
| Templates.Text | script.js:388-425 | The `src` text of a layer's shader as a definition: the axis or grid source, or the template applied to the formula. `Templates.TextInjective` states that the text determines the source. |
| Templates.NotFixed | script.js:8-95 | A template output whose head has a blank line at position 16 is never a fixed source, whatever its formula, stroke text and marks. |
| Templates.TemplateIsNotFixed | script.js:8-95 | No output of the 1D or the 2D template is the axis or the grid source. |
| Templates.FloatIsNotVec2 | script.js:109-176 | Two templates with the same head whose signatures read `f` and `v` at position 15 never give the same source. |
| Templates.OneDIsNotTwoD | script.js:92-229 | No 1D output equals any 2D output, whatever the two formulas. |
| Templates.TextInjective | script.js:8-229 | Two layer sources with the same text are the same source: the same kind and, for curves, the same formula. |
| Templates.FixedText | script.js:8-90 | A fixed source's text is the text of no other source. |
| Templates.CurveText | script.js:92-229 | A curve source's text determines the curve source. |
| Templates.OneDText | script.js:92-157 | A 1D output is the text of exactly one source: the 1D source with that formula. |
| Templates.TwoDText | script.js:159-229 | A 2D output is the text of exactly one source: the 2D source with that formula. |
| Shading.Abs | script.js:34-35 | `abs` is non-negative and is x or -x. |
| Shading.Min | script.js:24-30 | `min` is at most both arguments and is one of them. |
| Shading.Max | script.js:28 | `max` is at least both arguments and is one of them. |
| Shading.MaxRgb | script.js:28 | Componentwise `max` is the least colour at least as bright as both. |
| Shading.Step | script.js:34-35 | `step(edge, x)` is 1 exactly when edge <= x, and 0 otherwise. |
| Shading.Fract | script.js:76-77 | `fract(x)` lies in [0, 1) and x - fract(x) is an integer. |
| Shading.Clamp | script.js:145 | `clamp` stays in [lo, hi] and fixes values inside it. |
| Shading.Smoothstep | script.js:145 | `smoothstep` lies in [0, 1]. It is 0 at or below e0 and 1 at or above e1. |
| Shading.Mix | script.js:142-146 | `mix(x, y, a)` is x at a = 0 and y at a = 1. For a in [0, 1] it lies between x and y. |
| Shading.MixRgb | script.js:142-146 | `mix` on colours as a definition: componentwise `Shading.Mix`. `Shading.CurveShade` states the bounds it gives. |
| Shading.UvScale | script.js:24-30 | uv is (2p - res) times one pixel width, the same scale on both axes. |
| Shading.UvCentre | script.js:24-26 | The centre pixel res / 2 maps to uv (0, 0), whatever the zoom. |
| Shading.UvNoStretch | script.js:24-26 | Equal pixel steps along x and y move uv by equal amounts. |
| Shading.Uv | script.js:24-26 | The uv map as a definition: (2p - res) / min(res.x, res.y), times zoom. `Shading.UvScale`, `Shading.UvCentre`, `Shading.UvNoStretch` and `Shading.ShortSideSpansZoom` state its properties. |
| Shading.PixelWidth | script.js:30 | One pixel's width in uv units as a definition: 1 / min(res.x, res.y) * zoom. `Shading.UvScale` ties it to the uv map. |
| Shading.ShortSideSpansZoom | script.js:24-26 | With a positive zoom, the pixels 0..w of the shorter side, x or y, map onto [-zoom, zoom]. Both ends are reached. |
| Shading.ShortAxisSpan | script.js:24-26 | Along one axis of length r, pixel q maps into [-zoom, zoom] when 0 <= q <= r, and the two ends map to -zoom and zoom. |
| Shading.Start | script.js:23-28 | The start colour is at least the backdrop and at least `bg_color`. |
| Shading.AxisShade | script.js:22-42 | On the axis band the axis program writes `line_color`. Elsewhere it writes the start colour, never darker than the backdrop. |
| Shading.OnAxis | script.js:34-35 | The axis band test as a definition: \|uv.x\| or \|uv.y\| at most 3.5 pixel widths. `Shading.AxisShade` states what it selects; `Shading.AxisBandX`, `Shading.AxisBandY` and `Shading.AxisBandInPixels` give it in pixels. |
| Shading.AxisBandInPixels | script.js:30-35 | With a positive zoom, the axis band is the pixels within 1.75 px of the centre lines, whatever the zoom. |
| Shading.AxisBandX | script.js:34 | The vertical-axis test in pixels: \|uv.x\| <= 3.5 * width iff \|p.x - res.x/2\| <= 1.75. |
| Shading.AxisBandY | script.js:35 | The horizontal-axis test in pixels, the same for y. |
| Shading.AxisNegativeZoom | script.js:30-39 | With a negative zoom the width is negative, so no fragment is on an axis. |
| Shading.GridShade | script.js:64-84 | On the grid band the grid program writes `line_color`. Elsewhere it writes the start colour, never darker than the backdrop. |
| Shading.OnGrid | script.js:76-77 | The grid band test as a definition: `fract(uv.x)` or `fract(uv.y)` at most 2 pixel widths. `Shading.GridShade` states what it selects; `Shading.GridBand` and `Shading.GridLineOnePixel` describe the band. |
| Shading.GridBand | script.js:76-77 | Within the cell [n, n+1), `fract(x) <= c` is exactly x in [n, n+c]. |
| Shading.GridBandOneSided | script.js:76-77 | Just below an integer, no point is on the band. The band is not centred on the line. |
| Shading.GridLineOnePixel | script.js:72-79 | With a positive zoom, grid line n covers exactly one pixel column, on the positive side of the line. It is stated for one coordinate, `q` against `r`, so it covers both axes: x with `res.x`, y with `res.y`. |
| Shading.Eligible | script.js:133-139 | `should_render` as a definition: uv.x within the range when `enable_range` is 1, always when it is 0. `Shading.CurveShade` states what each case draws. |
| Shading.CurveShade | script.js:125-150 | An ineligible fragment keeps the start colour. An eligible one is `line_color` at de <= 0, keeps the start colour at de >= stroke * zoom, and otherwise lies between the two. |
| Shading.OpaqueStrokeReplaces | script.js:141-146 | Where the stroke is opaque, `line_color` replaces a brighter backdrop. The composite is not a componentwise max. |
| Shading.Pow2 | script.js:120 | `pow(x, 2.)` is defined exactly for x >= 0, where it is x * x. |
| Shading.Grad1D | script.js:113-116 | `grad` of the 1D template as a definition: the central difference with h = 0.001. `Shading.De1DLine` and `Shading.DecreasingFormulaUndefined` state what it gives. |
| Shading.Slope1DAsWritten | script.js:120 | `g` as written as a definition: 1 + `pow(grad, 2.)`, undefined where `pow` is. `Shading.Slope1DAgrees` relates it to the intended `g`. |
| Shading.Slope1D | script.js:120 | The intended normaliser 1 + grad^2 is at least 1. |
| Shading.DecreasingFormulaUndefined | script.js:113-120 | For `return -x;` the slope is -1, so `g` as written is undefined everywhere. |
| Shading.Slope1DAgrees | script.js:120 | `g` as written is defined iff the slope is non-negative. Where it is defined, it equals the intended `g`. |
| Shading.SquareRootUnique | script.js:121 | Two non-negative numbers with equal squares are equal. |
| Shading.De1DUnique | script.js:118-123 | At most one d satisfies the 1D distance equation at a point. |
| Shading.IsDe1D | script.js:118-123 | The 1D `de` as a definition: d >= 0 and d^2 * g = v^2, with v = f(x) - y and g the intended normaliser. `Shading.De1DUnique`, `Shading.De1DLine` and `Shading.De1DFlat` state its properties. |
| Shading.De1DLine | script.js:113-123 | For `y = a x + b` the 1D estimate is the Euclidean distance \|ax + b - y\| / sqrt(1 + a^2). |
| Shading.De1DFlat | script.js:118-123 | For `f(x) = 0` the 1D estimate is \|y\|. |
| Shading.De2DLine | script.js:182-195 | For `a x + b y + c = 0` the 2D estimate is the Euclidean distance. |
| Shading.IsDe2D | script.js:190-195 | The 2D `de` as a definition: d >= 0 and d^2 * \|grad\|^2 = f(p)^2. `Shading.De2DLine` and `Shading.De2DCircle` state its properties. |
| Shading.Grad2D | script.js:182-188 | `grad` of the 2D template as a definition: central differences in x and y with h = 0.001. `Shading.De2DLine` and `Shading.De2DCircle` state what it gives. |
| Shading.De2DCircle | script.js:182-195 | For a circle the central differences are exact, and the estimate is \|x^2 + y^2 - r^2\| / (2\|p\|). |
| Compositor.Gl.constructor | script.js:562-631 | A fresh context: nothing created, the canvas bound, nothing drawn. |
| Compositor.Gl.CreateTexture | script.js:303-322 | `gl_init_texture`: a fresh texture handle, bound on unit 0. |
| Compositor.Gl.CreateRenderTarget | script.js:323-332 | `gl_init_render_target`: a fresh texture and a fresh framebuffer with it attached, left bound. |
| Compositor.Gl.CompileProgram | script.js:248-265 | `gl_compile_program` up to its compile checks: two shaders and a program with the fragment source. The program exists whether or not the compile then throws. |
| Compositor.Gl.DeleteProgram | script.js:571 | The program is flagged deleted. Nothing else changes. |
| Compositor.Gl.UseProgram | script.js:583 | The program becomes current. |
| Compositor.Gl.CreateBuffer | script.js:294-301 | `gl_set_vaa`: a fresh vertex buffer handle. |
| Compositor.Gl.SetUniforms | script.js:598-609 | The current program's uniform values are set. |
| Compositor.Gl.BindFramebuffer | script.js:610-614 | The bound framebuffer is set. |
| Compositor.Gl.BindTexture | script.js:334-338 | The texture on unit 0 is set. |
| Compositor.Gl.DrawArrays | script.js:616 | One draw is logged with the current program, its source and uniforms, the bound framebuffer and the texture on unit 0. With no program current, nothing is drawn. The model also draws nothing when no texture is bound on unit 0, where GL would sample black; in a frame this never happens, because the blank texture is bound at script.js:563 before any draw. |
| Compositor.LayerUniforms | script.js:598-609 | The uniform values a layer's draw sets, as a definition: resolution, `bg_color`, the layer's colour, zoom, and `enable_range` 1 with the range only for a ranged curve. `Compositor.CompiledStep` states that a compiled pass's program holds them. |
| Compositor.Drawn | script.js:583-620 | The `try` body after a compile, as a function of the state. `Compositor.CompiledStep` states what it does. |
| Compositor.Redrawn | script.js:621-628 | The `catch` body as a function of the state. `Compositor.FailedStep` states what it does. |
| Compositor.LayerStep | script.js:568-630 | One loop iteration as a function of the state. `Compositor.CompiledStep`, `Compositor.FailedStep` and `Compositor.StepGrows` state what it does. |
| Compositor.PassStep | script.js:567-630 | Iteration i of the loop: `Compositor.LayerStep` on layer i, flagged last when i is the last index. |
| Compositor.Passes | script.js:567-630 | The first k iterations as a fold of `Compositor.PassStep`. `Compositor.PassesInduction` is its induction principle. |
| Compositor.RenderSpec | script.js:562-631 | `render_line_fs_shaders` as a function: a blank texture, then every iteration. `Compositor.RenderLineFsShaders` is proved against it. |
| Compositor.DrawLayer | script.js:583-620 | The `try` body after a successful compile. It yields the next `last_texture` and `last_prog`. |
| Compositor.Redraw | script.js:621-628 | The `catch` body: with a previous program, one more canvas draw sampling `last_texture`. |
| Compositor.LayerPass | script.js:568-630 | One loop iteration: delete the previous program, compile, then draw or fall back. |
| Compositor.RenderLineFsShaders | script.js:562-631 | The whole loop. The final context is the blank texture followed by the fold of the passes over the layers. |
| Compositor.RenderFrame | script.js:643-647 | `render` without the clear: the paint list, then the compositor over it. |
| Compositor.CompiledStepKeeps | script.js:568-620 | A compiled pass keeps every handle below `next` and `last_prog` current. It destroys nothing. |
| Compositor.CompiledStep | script.js:570-620 | A compiled pass deletes the previous program and makes the fresh program current and the new `last_prog`. It logs exactly one draw, sampling the old `last_texture`: to a fresh framebuffer whose texture becomes `last_texture`, or to the canvas on the last layer. |
| Compositor.FailedStep | script.js:569-628 | A pass whose compile throws leaves `last_texture` and `last_prog` unchanged. Its program stays allocated and undeleted, and no framebuffer is created. Without a previous program nothing is drawn. With one, exactly one canvas draw uses the deleted but still current program, with its own source and uniforms. |
| Compositor.GrowsTransitive | script.js:562-631 | "Nothing destroyed" composes. |
| Compositor.PassesInduction | script.js:567-630 | A property that holds before the loop and that every pass keeps holds after any number of passes. |
| Compositor.StepGrows | script.js:568-629 | Any pass keeps the context valid and destroys nothing. |
| Compositor.PassesGrow | script.js:567-630 | Any run of passes keeps the context valid. Textures, framebuffers, programs and logged draws are never removed. |
| Compositor.StepNoFeedback | script.js:589-616 | A pass never draws into the framebuffer of the texture it samples. |
| Compositor.PassesNoFeedback | script.js:567-630 | Whatever compiles, no draw of the passes samples the texture it writes. |
| Compositor.LeadingFailuresDrawNothing | script.js:569-628 | While no layer has compiled, failing layers draw nothing and leave the loop variables unchanged. |
| Compositor.StepKeepsLeaked | script.js:569-573 | A pass deletes no program except the previous one. |
| Compositor.PassesKeepLeaked | script.js:567-630 | A program that is neither deleted nor `last_prog` stays so through later passes. |
| Compositor.FailedStepLeaks | script.js:251-265 | The program of a failed compile is allocated, undeleted and never `last_prog`. |
| Compositor.FailedProgramLeaks | script.js:569-573 | The program of a layer whose compile throws is never deleted. After the loop it is still allocated with that layer's source. |
| Compositor.LayerDrawsStep | script.js:593-616 | One more compiled layer extends the draws-in-order invariant by its draw. |
| Compositor.CompiledDraws | script.js:567-630 | With every compile succeeding, k passes add exactly k draws in layer order, with each layer's source and uniforms. Only the last layer draws to the canvas. |
| Compositor.ChainedStep | script.js:589-619 | A draw that samples `last_texture` after an offscreen draw extends the chain. |
| Compositor.CompiledChain | script.js:567-630 | With every compile succeeding, each draw samples the texture of the framebuffer the previous draw wrote, and the framebuffers are fresh. |
| Compositor.ProgramsUsedStep | script.js:570-620 | A draw with a fresh program, after deleting the previous one, extends the programs invariant. |
| Compositor.CompiledPrograms | script.js:567-630 | With every compile succeeding, the programs are distinct and increasing. Each is deleted by the next pass, and the latest stays current and undeleted. |
| Compositor.RenderDraws | script.js:562-631 | Every compile succeeds: exactly N draws, in layer order, with each layer's source and uniforms. Only the last one draws to the canvas. Earlier log entries are untouched. |
| Compositor.RenderChain | script.js:562-631 | Every compile succeeds: the first draw samples the blank texture created at line 563. Every other draw but the last writes a framebuffer that did not exist before the frame, whose texture the next draw samples. |
| Compositor.RenderPrograms | script.js:562-631 | Every compile succeeds: each draw uses its own program. All of them are deleted except the last, which stays current. |
| Compositor.RenderNoFeedback | script.js:562-631 | Whatever compiles, no draw of the frame samples the texture it writes. |
| Compositor.RenderNothingCompiles | script.js:562-631 | If no layer compiles, the frame draws nothing. |
| Compositor.FallbackStep | script.js:621-628 | One more failing pass after the last compiled one adds one canvas draw with that program, its source and uniforms, sampling the same `last_texture`, and changes no framebuffer. |
| Compositor.FailedTail | script.js:567-630 | After the last compiled pass, a run of failing passes adds one such canvas draw each and leaves the earlier draws untouched. |
| Compositor.CompiledPrefix | script.js:567-630 | After n passes that all compile, the latest draw used the program now in `last_prog`, which holds layer n-1's source and uniform values. |
| Compositor.TailDraws | script.js:567-630 | The draws of a frame that compiles up to layer n-1 and then fails, read off the states before and after the failing passes. |
| Compositor.RenderFailedTail | script.js:562-631 | Layers 0..n-1 compile and the rest throw: the first n draws chain the layers in order, the last of them into a render target. Each later draw goes to the canvas with layer n-1's program, source and uniforms, sampling the texture layer n-1 wrote. |
| Frame.ReplayTracks | script.js:562-631 | Draws that run the layers in order, each sampling what the previous one wrote: after k of them, the k-th has written the composite of the first k layers. |
| Frame.FrameIsFold | script.js:562-631 | When every layer compiles, the canvas at any pixel is the left fold of the layers' shading over the blank texture, each layer's output clamped to [0, 1] as its 8-bit target stores it. |
| Frame.Stored | script.js:311-320 | What an 8-bit `RGBA` `UNSIGNED_BYTE` target keeps of a colour: every channel in [0, 1], and a colour already in range unchanged. |
| Frame.Replay | script.js:610-616 | What the first k draws write at one pixel, as a definition: each shades the texture it samples and stores the result in its framebuffer's texture or on the canvas. `Frame.ReplayTracks` and `Frame.ReplayScreenTail` state its properties. |
| Frame.ShadeSource | script.js:8-229 | What a layer's program writes at a pixel, as a definition: `Shading.AxisShade`, `Shading.GridShade` or `Shading.CurveShade`, by source. Their contracts state it. |
| Frame.Composite | script.js:562-631 | The first k layers shaded over one another from black, each stored through `Frame.Stored`, as a definition. `Frame.FrameIsFold` and `Frame.FrameFailedTail` state that the canvas is built from it. |
| Frame.ReplayScreenTail | script.js:621-628 | Canvas draws leave every texture unchanged. After a run of them the canvas holds the latest draw's shading over what it sampled. |
| Frame.FrameFailedTail | script.js:562-631 | When layers 0..n-1 compile and the rest throw, the canvas shows layer n-1 shaded over the composite of layers 0..n-1, that is, over its own output. |
| Frame.FixedShadeIdempotent | script.js:22-84 | The axis and grid programs shaded over their own output give the same colour. |
| Frame.RaiseClampIdempotent | script.js:23-28 | Raising a channel to `bg_color` and clamping it, done twice, gives what it gives once. |
| Frame.FallbackFixedLayer | script.js:562-631 | When the last compiling layer is the axis or the grid, the canvas of a frame whose later layers throw is the composite of the layers up to it. |
| Frame.CurveShadeTwice | script.js:141-146 | A curve shaded over its own output differs from one pass: 0.5 grey once, 0.75 twice, at half the stroke width. |

## Left out

- DOM and UI glue: the control panel, the function rows, the `eval` of colour and range text, and the debug view. This is browser input and output.
- Canvas sizing, the `pix_size` computation, timing, frame counters and `requestAnimationFrame` scheduling. These read the DOM and clocks. The canvas size, background colour and zoom come in as a `View`.
- `gl_clear` and `gl_create_vao`, called by `render`, are not modelled, and neither are texture parameters, `viewport`, attribute locations or the sampler uniform `prev_texture`. The model always samples unit 0, as the source does.
- Link status, which the source never checks. A program whose shaders compile is taken to link and draw.
- Shader objects and vertex buffers are not tracked beyond consuming handles. The buffer created by every pass is never deleted, which the model does not record.
- Sampling `prev_texture` at `frag_coord / resolution` is modelled as reading the same pixel. Textures nobody drew into read as black, because they are created from `null` data.
- `mediump` precision and rounding are not modelled: all shading is over `real`. The 8-bit render targets and canvas clamp every stored channel to [0, 1], which `Frame.Stored` models.
- Frame.FrameIsFold: the stored colour is clamped but not rounded to a multiple of 1/255, so the canvas it states can differ from the 8-bit one by that rounding, accumulated over the layers. The same holds for `Frame.FrameFailedTail` and `Frame.FallbackFixedLayer`.
- `sqrt` and `length` are not computed. The curve shading takes the distance estimate `de` as an input; in `frame.dfy` it is a function of the fragment source at the pixel. `Shading.IsDe1D` and `Shading.IsDe2D` characterise it by d >= 0 and d^2 * g = v^2.
- Shading.CurveShade: requires stroke * zoom > 0, because `smoothstep` is undefined in GLSL when its edges are equal or reversed. So a zero or negative zoom is not modelled for curves. `Frame.Shadable` asks this only of the curve programs.
- Shading.Uv: requires a positive resolution. A zero-sized canvas divides by zero.
- The stroke constant `pix_size * stroke_scale` is its decimal text in the templates and a `real` in the shading. JavaScript's number-to-text conversion is not modelled.
- The fixed sources and the templates are kept as their exact text. `Layers.LineFsShader` records which source a layer uses (`Templates.Source`); `Templates.Text` gives the text.
- `Compositor.RenderSpec` describes one frame. `render` resets `last_prog` to `null` every frame, so the last program of each frame is never deleted: it leaks from frame to frame. `Compositor.RenderPrograms` shows it is left undeleted. Frames in sequence are not modelled.
- The fallback draw after a failed compile reuses the previous layer's program, with that layer's `line_color` and uniforms. It samples `last_texture`, which after a compiled pass that is not the last is the texture that program itself wrote (script.js:617-618). So the last compiled layer is shaded again over its own output. The model records this as written (`Compositor.FailedStep`, `Compositor.RenderFailedTail`, `Frame.FrameFailedTail`). Frames whose failures are interleaved with successes get no composite lemma; the per-pass lemmas cover them.
- Only a throw from the compile is modelled (`compiled[i]`). The `try` body can also throw after `useProgram` (script.js:583), for instance in the `uniform2fv`/`uniform3fv` calls at script.js:598-609 when an `eval`'d colour or range is not an array. The `catch` then draws with the new, undeleted program rather than the previous one, and the render target created at script.js:596 leaks. Throws after a successful compile are not modelled.
- The `add_example` presets and `main` startup are not modelled.
- With `enable_range` other than 0 or 1 a curve draws nothing (`Shading.Eligible`). Only 0 and 1 are ever set.

## Findings

| source | as written | input that shows it | evidently intended | confidence | as-written member | corrected member |
|---|---|---|---|---|---|---|
| script.js:120 | `g = 1. + pow(grad(p.x), 2.)`. Section 8.2 of the OpenGL ES Shading Language 3.00 specification leaves `pow(x, y)` undefined for x < 0. | The formula `return -x;`, whose slope is -1 everywhere. | `g = 1 + grad^2`, defined for every slope. | not executed; low to medium (drivers commonly return x*x for an integral exponent) | Shading.DecreasingFormulaUndefined | Shading.Slope1D |

Other notes on the source:

- The axis band is 3.5 pixel widths on each side of an axis in uv units, 1.75 pixels each side in screen pixels: 3.5 pixels in all.
- A curve's stroke replaces the backdrop where it is opaque (`Shading.OpaqueStrokeReplaces`). It does not take a componentwise maximum.
- When a layer throws after an axis or grid layer compiled, the frame looks as if the failing layer were absent, because those programs shaded twice give what they give once (`Frame.FallbackFixedLayer`). After a curve layer it does not: the curve is shaded twice, and its antialiased edge comes out brighter (`Frame.CurveShadeTwice`: 0.5 grey once, 0.75 twice). Either way the failing layer itself never shows.
