# vai-gl render engine, modelled in Dafny

vai-gl draws many rounded rectangles with one WebGL2 instanced draw call. This
project models its engine, `src/vai/RenderEngine.ts`. The model covers:

- the binding of the unit quad as the per-vertex attribute `a_position`;
- the binding of the per-instance attributes (`v_box`, `v_color`, `v_corner`,
  `v_window`, `v_sigma`, laid out as 4, 4, 4, 2 and 1 floats);
- the compilation and linking of the shader program;
- the `RenderEngine` class: construction, `_rebindAttributes`,
  `resizeHandler` and `render`.

WebGL is the class `WebGL.Context`. Each entry point is a method that appends
one `Event` to a ghost `trace` and answers from fixed configuration:

- attribute locations;
- the shader sources that compile and their compiler logs;
- whether linking succeeds, and its log;
- which shader kinds `createShader` answers `null` for.

Object handles are numbered from a counter. Float32 values are carried as
their 32-bit patterns (`bv32`). They are only copied, never computed on.

Modules:

- `Wrappers`: `Option` and `Result`.
- `WebGL`: the call events, counting of calls by entry point, and the
  recording context.
- `Layout`: `bindInstancedVertexPrimitive` and `bindInstancedVertexAttributes`.
  It also holds the float count (the sum of the lengths), the stride
  (4 bytes per float) and the byte offsets (prefix sums), and the exact calls
  each binding makes.
- `Program`: `compileProgram` and its inner `compileShader`, against the
  call sequence they make. That sequence includes the early stop at a failing
  stage and the silent skip of a `null` shader.
- `Packing`: the packing loop of `render`, as a function on sequences with
  its properties.
- `Engine`: the canvas, the resize arithmetic, the upload and draw calls of
  a frame, and the class `RenderEngine`.

In `RenderEngine`, the frame array `attributeArrayF32` is an `array` written
in place. Its fields are updated by methods with field-level `modifies`
frames. The invariant `Valid` ties the frame array's length to
`numInstances` × the float count, and `#initialized` to the presence of a
context.

A thrown error is the `Failure` case of a `Result`. The constructor is the
factory `RenderEngine.Create`, which fails with the compile or link error
that `compileProgram` throws. The GL calls made before the throw stay in
the trace.

Behaviour followed from the code:

- The constructor and `_rebindAttributes` bind the module's own defaults:
  `a_position` with 2 floats, and the five attributes above. The caller's
  overrides are stored in the object but not used (`:189-190`, `:197-198`,
  `:225-226`). The float count of an initialised engine is therefore
  always 15.
- `contextLost` is set only by `render` on an engine without a context or
  not initialised. Nothing resets it. Nothing sets it on an initialised
  engine.
- When a chunk overflows the frame, `render` returns after the rebind (if
  there was one) and after writing the chunks that fitted. Neither is undone.
- `bindInstancedVertexAttributes` calls `bindBuffer` once per attribute
  (`src/vai/RenderEngine.ts:58`). The unit test at
  `__tests__/RenderEngine.tests.ts:144` expects two calls per attribute. The
  model follows the code.

## Model

| member | source | states |
|---|---|---|
| Layout.AttributeSlices | src/vai/RenderEngine.ts:50-68 | The first byte offset is 0. Each next offset adds 4 bytes per float of the previous attribute. Every attribute's slice ends within the stride. |
| Layout.DefaultLayout | src/vai/RenderEngine.ts:10-11 | For the default lengths `[4,4,4,2,1]`: the float count is 15, the stride is 60 bytes and the byte offsets are `[0,16,32,48,56]`. |
| Layout.MockBinding | __tests__/RenderEngine.tests.ts:109-140 | On a context with the test's mock locations, binding the defaults gives locations `[2,3,4,5,6]` in input order, five consecutive new buffers, and a float count of 15. |
| Layout.BindInstancedVertexPrimitive | src/vai/RenderEngine.ts:15-37 | It returns one new buffer and the name's location. The calls are: create, locate, bind, upload the data once with static usage, enable, and point with stride 0 and offset 0. |
| Layout.BindAttribute | src/vai/RenderEngine.ts:55-68 | One attribute: a new buffer sized numInstances × stride with dynamic usage, its location, pointer with the stride and its byte offset, divisor 1, in the order of the code. |
| Layout.BindInstancedVertexAttributes | src/vai/RenderEngine.ts:39-77 | One location and one consecutive new buffer per name, in input order. The float count is the sum of the lengths. The trace is the per-attribute setups in order. |
| Layout.AttributeEventsBlocks | src/vai/RenderEngine.ts:54-69 | The attribute trace has 7 calls per attribute. Block `i` is exactly attribute `i`'s setup: its size, stride, offset and divisor 1. |
| Layout.AttributeCallCounts | src/vai/RenderEngine.ts:54-69 | Over `k` attributes, each of createBuffer, getAttribLocation, bindBuffer, bufferData, enableVertexAttribArray, vertexAttribPointer and vertexAttribDivisor is called exactly `k` times. No other entry point is called. |
| Program.CompileStage | src/vai/RenderEngine.ts:85-95 | One stage follows the stage specification. A `null` shader is skipped silently. A failing compile status stops the stage with the info log as the error. Otherwise the shader is attached. |
| Program.CompileProgram | src/vai/RenderEngine.ts:79-107 | The calls, the new handles, the recorded sources and the result are those of the compilation specification: create a program, then the vertex stage, the fragment stage, and the link check. |
| Program.CompileOutcome | src/vai/RenderEngine.ts:85-106 | Compilation succeeds iff both stages pass and the link succeeds. On success it returns the program created first. A failing vertex stage reports a vertex compile error, even if the fragment stage would also fail. A failing fragment stage reports a fragment error. A link failure reports the link log. |
| Program.PassingStageCalls | src/vai/RenderEngine.ts:86-94 | A stage that compiles calls createShader, shaderSource, compileShader, getShaderParameter and attachShader once each, and nothing else. |
| Program.VertexFailureStops | src/vai/RenderEngine.ts:85-99 | When the vertex stage fails, the fragment shader is never created. The calls are exactly one program creation and the vertex stage's createShader, shaderSource, compileShader, getShaderParameter and getShaderInfoLog. There is no attach and no link. |
| Program.SuccessShape | src/vai/RenderEngine.ts:97-106 | A successful compilation is the program creation, the two passing stages, the link and the link-status query, in that order. |
| Program.SuccessCallCounts | src/vai/RenderEngine.ts:97-106 | A successful compilation makes two createShader, shaderSource, compileShader, getShaderParameter and attachShader calls. It makes one createProgram, linkProgram and getProgramParameter call, and no other calls. |
| Packing.Pack | src/vai/RenderEngine.ts:259-271 | Packing keeps the frame's length. The final offset never decreases and never passes the frame's end. |
| Packing.PackAccepted | src/vai/RenderEngine.ts:259-271 | Let `k` be the number of leading chunks that fit one after the other. Those `k` chunks, concatenated, are written at the offset, and every other position keeps its value. The frame is accepted iff `k` is the number of chunks. Otherwise chunk `k` would pass the capacity. |
| Packing.PackFitsIff | src/vai/RenderEngine.ts:264 | A frame is accepted iff the total length of all chunks fits after the starting offset. |
| Packing.PackWholeFrame | src/vai/RenderEngine.ts:259-271 | A frame that fits holds the concatenated chunks in its prefix and its previous contents after them. Underfill is not detected. |
| Packing.ExactFillFits | src/vai/RenderEngine.ts:259-271 | Two 15-float chunks exactly fill the 30-float frame of two default instances, and are accepted. |
| Engine.Multiplier | src/vai/RenderEngine.ts:234-235 | The multiplier is the ratio when it is positive, 1 when it is missing or 0, and 0 when it is negative. |
| Engine.ToInt32 | src/vai/RenderEngine.ts:236-237 | `x \| 0` is the signed 32-bit integer congruent to `x` modulo 2^32. |
| Engine.ScaledDimensionExact | src/vai/RenderEngine.ts:236-237 | Within the 32-bit range, the new size is the argument (or the client size, when the argument is missing or 0) times the multiplier. |
| Engine.ResizeExample | src/vai/RenderEngine.ts:232-241 | A ratio of 2 turns a 500 × 300 client area into a 1000 × 600 canvas. |
| Engine.Canvas.SetWidth | src/vai/RenderEngine.ts:239 | Assigning the canvas width sets it and counts one size write. |
| Engine.Canvas.SetHeight | src/vai/RenderEngine.ts:240 | Assigning the canvas height sets it and counts one size write. |
| Engine.UploadEventsShape | src/vai/RenderEngine.ts:278-281 | Buffer `i` is bound and then receives the whole frame array at offset 0, for every buffer in order. |
| Engine.UploadCounts | src/vai/RenderEngine.ts:278-281 | The upload loop calls bindBuffer and bufferSubData once per buffer, and nothing else. |
| Engine.DrawCalls | src/vai/RenderEngine.ts:273-283 | A frame that fits calls viewport, clear, bindVertexArray and drawArraysInstanced once each. It calls bindBuffer and bufferSubData once per attribute buffer, and nothing else. |
| Engine.DrawOnce | src/vai/RenderEngine.ts:273-283 | A frame that fits makes exactly one `drawArraysInstanced(TRIANGLES, 0, 6, numInstances)`, as its last call, after one full upload per buffer. |
| Engine.FrameCallCounts | src/vai/RenderEngine.ts:255-283 | `render` on a live engine makes the per-attribute calls five times each iff it rebinds. It makes the viewport, clear, upload and draw calls iff every chunk fitted. An overflowing frame never draws. |
| Engine.SetupProgram | src/vai/RenderEngine.ts:183-202 | After compilation: a new vertex array, bound; the quad as `a_position` with 2 floats; the default attributes for 0 instances; then `useProgram`. It uses exactly seven new handles. |
| Engine.ConstructionStops | src/vai/RenderEngine.ts:171-181 | Proof helper of `Create`: unfolds the construction calls for a program that fails (the blending and clear-colour calls, then the compilation calls), so that `Create`'s own proof stays small. |
| Engine.ConstructionContinues | src/vai/RenderEngine.ts:171-203 | Proof helper of `Create`: the same unfolding for a program that compiles, where the setup calls follow. |
| Engine.RenderEngine.Init | src/vai/RenderEngine.ts:123-169 | The field defaults (100 × 100, multiplier 1, 0 instances, empty frame array, not lost). Each override takes effect only when present and truthy. |
| Engine.RenderEngine.Create | src/vai/RenderEngine.ts:147-206 | Without a context: an uninitialised engine with no calls. With one: the construction trace. The call fails iff compilation fails, with its error. On success the engine holds the new program, the vertex array, the quad binding and the default attributes. Its float count is 15 and `Valid` holds. The handle counter ends past every handle handed out. Every engine it builds owns a new frame array, has multiplier 1, and stores the overrides as the `\|\|` fallbacks give them. Without a context, it also has no vertex array and an unbound quad. |
| Engine.RenderEngine.RebindAttributes | src/vai/RenderEngine.ts:213-230 | On a live engine: a fresh zeroed frame array of `n` × float count, the new count, and the defaults bound again with five new buffers for `n` instances. Otherwise nothing changes and no call is made. |
| Engine.RenderEngine.ResizeHandler | src/vai/RenderEngine.ts:232-243 | The multiplier and the scaled width and height are stored. The canvas takes that size, and is assigned (two size writes) only when the size differed. |
| Engine.RepeatedResize | src/vai/RenderEngine.ts:238-241 | A second resize with the same inputs makes no canvas write. |
| Engine.RenderEngine.PackFrame | src/vai/RenderEngine.ts:259-271 | The in-place packing loop leaves the frame array and the fits flag that the packing function gives. |
| Engine.RenderEngine.DrawFrame | src/vai/RenderEngine.ts:273-283 | The draw part of `render` makes exactly the frame's viewport, clear, vertex array, upload and draw calls. |
| Engine.RenderEngine.Render | src/vai/RenderEngine.ts:245-287 | `contextLost` becomes set iff it was set or the engine is uninitialised. A lost or uninitialised engine changes nothing else and makes no call. Otherwise `render` rebinds iff the count changed, taking five new buffer handles, and the count becomes the requested one. The frame array is the packing of the previous (or fresh zeroed) contents. The trace is the rebinding calls, then the draw calls only when every chunk fitted. |

## Left out

- `src/vai/Shaders.ts` is not part of this model. Its GLSL text is stood for by the names `RectangleShaderVertex` and `RectangleShaderFragment`.
- `src/vai/Vai.ts` is not part of this model. It is the DOM and `ResizeObserver` wrapper that drives the engine.
- `canvas.getContext('webgl2', …)` (`:161`): the context, or its absence (`null`), is a parameter of `RenderEngine.Create`.
- Blending and clear colour (`:173-175`) are recorded as calls without their arguments. The background colour, its override and the `background_color` setter (`:208-211`) are not modelled, because they only set GPU colour state.
- `console.log` output (`:251`, `:268`) is left out.
- Rendered pixels, GPU memory and WebGL's own error states are left out. The context always hands out a fresh handle from `createProgram`, `createVertexArray` and `createBuffer`. Only `createShader` may answer `null`.
- `window.devicePixelRatio` is an optional integer rather than a floating-point number. `Engine.ScaledDimension` truncates an integer product, not a real one.
- `Engine.RenderEngine.Render` takes the instance count as a natural number, so it models neither a fractional nor a negative count. A fractional count is accepted by the source: `new Float32Array` (`:219`), `bufferData`'s size (`:59`) and `drawArraysInstanced`'s instance count (`:283`) truncate it. A negative count throws a `RangeError` at `:219`, after `attributeArrayF32BufferLength` has already been set at `:218`, and that error escapes `render`. The chunk length is taken as a float count, i.e. `byteLength/4`.
- `Program.ProgramError`: the stage tag of `CompileError` belongs to the model. The source throws `new Error(log)` (`:91`, `:103`), which carries only the log text, so only `.log` corresponds to the thrown message: a vertex and a fragment failure with equal logs are the same error in the source. A `null` info log becomes the message `"null"` in the source, while the model's compiler log is a string and has no `null` case.
- `Layout.BindInstancedVertexAttributes` requires at least as many lengths as names. Both callers pass the module's constants, which meet this. With fewer lengths, the source would pass `undefined` as a pointer size to `vertexAttribPointer` (`:62`) and turn `byteOffset` into `NaN` (`:68`). That case is not modelled.
- The canvas width and height are kept as integers. The DOM's unsigned conversion on assignment is not modelled.
- `Engine.RenderEngine.ResizeHandler` does not model the `this.canvas` guard (`:233`), because the canvas is always present in the model.
