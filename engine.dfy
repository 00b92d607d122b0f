/**
 * The `RenderEngine` class: construction, rebinding on a new instance count,
 * resizing, and the per-frame `render` that packs, uploads and draws.
 */
module Engine {
  import opened Wrappers
  import opened WebGL
  import opened Layout
  import opened Program
  import opened Packing

  /**
   * The built-in shader pair, `RectangleShaderVertex` and `RectangleShaderFragment`.
   * Their GLSL text is not part of this model; these names stand for it.
   */
  const DefaultVertexSource: string := "RectangleShaderVertex"
  const DefaultFragmentSource: string := "RectangleShaderFragment"

  /** The constructor's optional overrides; `None` is an absent field. */
  datatype Options = Options(
    vertexSource: Option<string>,
    fragmentSource: Option<string>,
    vertexAttributeName: Option<string>,
    vertexAttributeLength: Option<int>,
    attributeNameArray: Option<seq<string>>,
    attributeFloatLengthArray: Option<seq<nat>>)

  /** JavaScript's `option || fallback` for a string: absent and empty strings are falsy. */
  function OrString(option: Option<string>, fallback: string): (r: string) {
    if option.Some? && option.value != "" then option.value else fallback
  }

  /** JavaScript's `option || fallback` for a number: absent and 0 are falsy. */
  function OrNumber(option: Option<int>, fallback: int): (r: int) {
    if option.Some? && option.value != 0 then option.value else fallback
  }

  /** JavaScript's `option || fallback` for an array: every array is truthy. */
  function OrArray<T>(option: Option<seq<T>>, fallback: seq<T>): (r: seq<T>) {
    if option.Some? then option.value else fallback
  }

  /** `Math.max(0, devicePixelRatio || 1)`, with the ratio taken as an integer. */
  function Multiplier(devicePixelRatio: Option<int>): (m: nat)
    ensures devicePixelRatio.Some? && devicePixelRatio.value > 0 ==> m == devicePixelRatio.value
    ensures devicePixelRatio == None || devicePixelRatio == Some(0) ==> m == 1
    ensures devicePixelRatio.Some? && devicePixelRatio.value < 0 ==> m == 0
  {
    var ratio := OrNumber(devicePixelRatio, 1);
    if ratio < 0 then 0 else ratio
  }

  /** `x | 0` for an integer `x`: the signed 32-bit integer congruent to `x`. */
  function ToInt32(x: int): (r: int)
    ensures -0x8000_0000 <= r < 0x8000_0000
    ensures (x - r) % 0x1_0000_0000 == 0
  {
    var m := x % 0x1_0000_0000;
    if m >= 0x8000_0000 then m - 0x1_0000_0000 else m
  }

  /** `(arg ? arg : client) * multiplier | 0`: a missing or zero argument falls back to the client size. */
  function ScaledDimension(arg: Option<int>, client: int, multiplier: nat): (r: int) {
    ToInt32((if arg.Some? && arg.value != 0 then arg.value else client) * multiplier)
  }

  /** Within the 32-bit range the truncation is the identity: the size is the scaled dimension. */
  lemma ScaledDimensionExact(arg: Option<int>, client: int, multiplier: nat)
    requires var d := (if arg.Some? && arg.value != 0 then arg.value else client) * multiplier;
      -0x8000_0000 <= d < 0x8000_0000
    ensures ScaledDimension(arg, client, multiplier)
            == (if arg.Some? && arg.value != 0 then arg.value else client) * multiplier
  {
    var d := (if arg.Some? && arg.value != 0 then arg.value else client) * multiplier;
    var r := ToInt32(d);
    assert (d - r) % 0x1_0000_0000 == 0;
    assert -0x1_0000_0000 < d - r < 0x1_0000_0000;
  }

  /** A device pixel ratio of 2 turns a 500 by 300 client area into a 1000 by 600 canvas. */
  lemma ResizeExample()
    ensures Multiplier(Some(2)) == 2
    ensures ScaledDimension(None, 500, 2) == 1000 && ScaledDimension(None, 300, 2) == 600
  {
  }

  /** The HTML canvas the engine draws on. */
  class Canvas {
    var width: int
    var height: int
    var clientWidth: int
    var clientHeight: int
    /** How many times `width` or `height` has been assigned; each assignment resets the drawing buffer. */
    ghost var sizeWrites: nat

    constructor (clientWidth: int, clientHeight: int)
      ensures width == 300 && height == 150
      ensures this.clientWidth == clientWidth && this.clientHeight == clientHeight && sizeWrites == 0
    {
      width, height := 300, 150;
      this.clientWidth, this.clientHeight := clientWidth, clientHeight;
      sizeWrites := 0;
    }

    method SetWidth(w: int)
      modifies this`width, this`sizeWrites
      ensures width == w && sizeWrites == old(sizeWrites) + 1
    {
      width := w;
      sizeWrites := sizeWrites + 1;
    }

    method SetHeight(h: int)
      modifies this`height, this`sizeWrites
      ensures height == h && sizeWrites == old(sizeWrites) + 1
    {
      height := h;
      sizeWrites := sizeWrites + 1;
    }
  }

  /** A zeroed frame array of `n` floats, as `new Float32Array(n)` makes. */
  function Zeros(n: nat): (r: seq<Float>) {
    seq(n, _ => 0)
  }

  /** The calls that upload `data` into each of `buffers`, in order. */
  function UploadEvents(buffers: seq<Option<Handle>>, data: seq<Float>): (r: seq<Event>) {
    if buffers == [] then []
    else UploadEvents(buffers[..|buffers| - 1], data)
         + [BindArrayBuffer(buffers[|buffers| - 1]), BufferSubData(0, data)]
  }

  /** The calls of a frame that fits: viewport, clear, vertex array, uploads, one instanced draw. */
  function DrawEvents(width: int, height: int, vao: Option<Handle>, buffers: seq<Option<Handle>>,
                      data: seq<Float>, numInstances: nat): (r: seq<Event>)
  {
    [Viewport(0, 0, width, height), ClearColorBuffer, BindVertexArray(vao)]
    + UploadEvents(buffers, data)
    + [DrawArraysInstanced(Triangles, 0, 6, numInstances)]
  }

  /** Buffer `i` is bound and then receives the whole of `data` at offset 0, for every `i` in order. */
  lemma {:induction false} UploadEventsShape(buffers: seq<Option<Handle>>, data: seq<Float>)
    ensures |UploadEvents(buffers, data)| == 2 * |buffers|
    ensures forall i :: 0 <= i < |buffers| ==>
      UploadEvents(buffers, data)[2 * i] == BindArrayBuffer(buffers[i]) &&
      UploadEvents(buffers, data)[2 * i + 1] == BufferSubData(0, data)
  {
    if buffers != [] {
      var n := |buffers| - 1;
      UploadEventsShape(buffers[..n], data);
    }
  }

  lemma {:induction false} UploadCounts(buffers: seq<Option<Handle>>, data: seq<Float>, c: Call)
    ensures Count(UploadEvents(buffers, data), c)
            == if c == BindBufferCall || c == BufferSubDataCall then |buffers| else 0
  {
    if buffers != [] {
      var n := |buffers| - 1;
      UploadCounts(buffers[..n], data, c);
      CountConcat(UploadEvents(buffers[..n], data), [BindArrayBuffer(buffers[n]), BufferSubData(0, data)], c);
      CountDistinct([BindArrayBuffer(buffers[n]), BufferSubData(0, data)], [BindBufferCall, BufferSubDataCall], c);
    }
  }

  lemma DrawHeadCount(width: int, height: int, vao: Option<Handle>, c: Call)
    ensures Count([Viewport(0, 0, width, height), ClearColorBuffer, BindVertexArray(vao)], c)
            == if c == ViewportCall || c == ClearCall || c == BindVertexArrayCall then 1 else 0
  {
    CountDistinct([Viewport(0, 0, width, height), ClearColorBuffer, BindVertexArray(vao)],
                  [ViewportCall, ClearCall, BindVertexArrayCall], c);
  }

  lemma DrawTailCount(numInstances: nat, c: Call)
    ensures Count([DrawArraysInstanced(Triangles, 0, 6, numInstances)], c)
            == if c == DrawArraysInstancedCall then 1 else 0
  {
    CountDistinct([DrawArraysInstanced(Triangles, 0, 6, numInstances)], [DrawArraysInstancedCall], c);
  }

  /** How often a frame that fits, with `bufferCount` attribute buffers, calls entry point `c`. */
  function DrawCallCount(c: Call, bufferCount: nat): (r: nat) {
    if c == ViewportCall || c == ClearCall || c == BindVertexArrayCall || c == DrawArraysInstancedCall then 1
    else if c == BindBufferCall || c == BufferSubDataCall then bufferCount else 0
  }

  /** The calls through each entry point in a frame that fits. */
  lemma {:induction false} DrawCalls(width: int, height: int, vao: Option<Handle>, buffers: seq<Option<Handle>>,
                                     data: seq<Float>, numInstances: nat, c: Call)
    ensures Count(DrawEvents(width, height, vao, buffers, data, numInstances), c) == DrawCallCount(c, |buffers|)
  {
    var head := [Viewport(0, 0, width, height), ClearColorBuffer, BindVertexArray(vao)];
    var upload := UploadEvents(buffers, data);
    var tail := [DrawArraysInstanced(Triangles, 0, 6, numInstances)];
    CountConcat(head, upload, c);
    CountConcat(head + upload, tail, c);
    DrawHeadCount(width, height, vao, c);
    DrawTailCount(numInstances, c);
    UploadCounts(buffers, data, c);
  }

  /**
   * A frame that fits makes exactly one instanced draw, of six vertices per
   * instance and `numInstances` instances, as its last call, after exactly one
   * full upload per attribute buffer.
   */
  lemma DrawOnce(width: int, height: int, vao: Option<Handle>, buffers: seq<Option<Handle>>,
                 data: seq<Float>, numInstances: nat)
    ensures var events := DrawEvents(width, height, vao, buffers, data, numInstances);
      Count(events, DrawArraysInstancedCall) == 1 &&
      Count(events, BufferSubDataCall) == |buffers| &&
      events[|events| - 1] == DrawArraysInstanced(Triangles, 0, 6, numInstances)
  {
    DrawCalls(width, height, vao, buffers, data, numInstances, DrawArraysInstancedCall);
    DrawCalls(width, height, vao, buffers, data, numInstances, BufferSubDataCall);
  }

  /**
   * The calls `render` makes on an initialised engine whose context is not
   * lost: the attribute rebinding when the instance count changed, then the
   * upload and draw when the packed frame fits.
   */
  function FrameEvents(gl: Context, program: Handle, rebind: bool, n: nat, first: Handle, packed: Packed,
                       width: int, height: int, vao: Option<Handle>, buffers: seq<Option<Handle>>): (r: seq<Event>)
  {
    (if rebind then AttributeEvents(gl, program, DefaultNames, DefaultLengths, n, first, |DefaultNames|) else [])
    + (if packed.fits then DrawEvents(width, height, vao, buffers, packed.contents, n) else [])
  }

  /**
   * A frame makes the per-attribute calls once per default attribute exactly
   * when it rebinds, and the viewport, clear, upload and draw calls exactly
   * when every chunk fitted; so an overflowing frame never draws.
   */
  lemma FrameCallCounts(gl: Context, program: Handle, rebind: bool, n: nat, first: Handle, packed: Packed,
                        width: int, height: int, vao: Option<Handle>, buffers: seq<Option<Handle>>, c: Call)
    ensures Count(FrameEvents(gl, program, rebind, n, first, packed, width, height, vao, buffers), c)
            == (if rebind && c in PerAttributeCalls then |DefaultNames| else 0)
             + (if packed.fits then DrawCallCount(c, |buffers|) else 0)
  {
    var setup := if rebind then AttributeEvents(gl, program, DefaultNames, DefaultLengths, n, first, |DefaultNames|) else [];
    var draw := if packed.fits then DrawEvents(width, height, vao, buffers, packed.contents, n) else [];
    CountConcat(setup, draw, c);
    if rebind {
      AttributeCallCounts(gl, program, DefaultNames, DefaultLengths, n, first, |DefaultNames|, c);
    }
    if packed.fits {
      DrawCalls(width, height, vao, buffers, packed.contents, n, c);
    }
  }

  /**
   * The calls of construction on a context: blending and clear colour, the
   * program, then (when it compiled) the vertex array, the quad bound as
   * `a_position` with 2 floats per vertex, the default attributes sized for
   * zero instances, and `useProgram`.
   */
  function ConstructionEvents(gl: Context, vertexSource: string, fragmentSource: string,
                              next: Handle, sources: map<Handle, string>): (r: seq<Event>)
  {
    var c := CompileSpec(gl, vertexSource, fragmentSource, next, sources);
    [BlendFunc, EnableBlend, ClearColor] + c.events +
    if c.result.Failure? then [] else SetupEvents(gl, c.result.value, c.next)
  }

  /**
   * Construction on a program that does not compile stops after the
   * compilation calls: a trace `before`, extended by the three prelude calls
   * and then by the compilation, is `before` plus the construction calls.
   */
  lemma ConstructionStops(gl: Context, vertexSource: string, fragmentSource: string,
                          next: Handle, sources: map<Handle, string>,
                          before: seq<Event>, prelude: seq<Event>, after: seq<Event>)
    requires CompileSpec(gl, vertexSource, fragmentSource, next, sources).result.Failure?
    requires prelude == before + [BlendFunc, EnableBlend, ClearColor]
    requires after == prelude + CompileSpec(gl, vertexSource, fragmentSource, next, sources).events
    ensures after == before + ConstructionEvents(gl, vertexSource, fragmentSource, next, sources)
  {
  }

  /** Construction on a program that compiles goes on with the setup calls. */
  lemma ConstructionContinues(gl: Context, vertexSource: string, fragmentSource: string,
                              next: Handle, sources: map<Handle, string>,
                              before: seq<Event>, prelude: seq<Event>, after: seq<Event>)
    requires CompileSpec(gl, vertexSource, fragmentSource, next, sources).result.Success?
    requires prelude == before + [BlendFunc, EnableBlend, ClearColor]
    requires var c := CompileSpec(gl, vertexSource, fragmentSource, next, sources);
      after == prelude + c.events + SetupEvents(gl, c.result.value, c.next)
    ensures after == before + ConstructionEvents(gl, vertexSource, fragmentSource, next, sources)
  {
  }

  /** The calls that follow a successful compilation, the vertex array being handle `vao`. */
  function SetupEvents(gl: Context, program: Handle, vao: Handle): (r: seq<Event>) {
    [CreateVertexArray(vao), BindVertexArray(Some(vao))]
    + PrimitiveEvents(gl, program, PrimitiveName, PrimitiveSize, Quad, vao + 1)
    + AttributeEvents(gl, program, DefaultNames, DefaultLengths, 0, vao + 2, |DefaultNames|)
    + [UseProgram(program)]
  }

  /** The part of the constructor after `compileProgram` (:183-202). */
  method SetupProgram(gl: Context, program: Handle)
    returns (vao: Handle, vertex: PrimitiveBinding, attributes: AttributeBinding)
    modifies gl`trace, gl`nextHandle
    ensures vao == old(gl.nextHandle)
    ensures vertex == PrimitiveBinding(Some(vao + 1), gl.Location(PrimitiveName))
    ensures attributes == BindingFor(gl, DefaultNames, DefaultLengths, vao + 2)
    ensures gl.nextHandle == vao + 2 + |DefaultNames|
    ensures gl.trace == old(gl.trace) + SetupEvents(gl, program, vao)
  {
    vao := gl.CreateVertexArray();
    gl.BindVertexArray(Some(vao));
    vertex := BindInstancedVertexPrimitive(gl, program, PrimitiveName, PrimitiveSize, Quad);
    attributes := BindInstancedVertexAttributes(gl, program, DefaultNames, DefaultLengths, 0);
    gl.UseProgram(program);
  }

  /** The attribute binding before any is made: no locations, one `null` buffer, no floats. */
  const Unbound: AttributeBinding := AttributeBinding([], [None], 0)

  class RenderEngine {
    /** `null` when the canvas gave no WebGL2 context. */
    const gl: Context?
    const canvas: Canvas
    const program: Option<Handle>
    const vao: Option<Handle>
    const vertex: PrimitiveBinding
    /** `#initialized`: whether construction found a context and bound everything. */
    const initialized: bool
    const vertexSource: string
    const fragmentSource: string
    /** The overrides are stored, but the bindings use the module defaults. */
    const vertexAttributeName: string
    const vertexAttributeLength: int
    const attributeNameArray: seq<string>
    const attributeFloatLengthArray: seq<nat>

    var width: int
    var height: int
    var multiplier: nat
    var numInstances: nat
    var vertexAttributes: AttributeBinding
    var attributeArrayF32: array<Float>
    var attributeArrayF32BufferLength: nat
    var contextLost: bool

    ghost predicate Valid()
      reads this
    {
      attributeArrayF32.Length == attributeArrayF32BufferLength &&
      attributeArrayF32BufferLength == numInstances * vertexAttributes.floatCount &&
      (initialized <==> gl != null) &&
      (initialized ==>
         program.Some? && vao.Some? &&
         vertexAttributes.floatCount == Sum(DefaultLengths) &&
         |vertexAttributes.buffers| == |DefaultNames|)
    }

    /** Whether `_rebindAttributes` does anything. */
    predicate CanRebind()
      reads this
    {
      gl != null && program.Some? && initialized && !contextLost
    }

    /** Field initialisation of the constructor; `Create` makes the GL calls. */
    constructor Init(canvas: Canvas, gl: Context?, options: Options, initialized: bool, program: Option<Handle>,
                     vao: Option<Handle>, vertex: PrimitiveBinding, vertexAttributes: AttributeBinding)
      ensures this.canvas == canvas && this.gl == gl && this.initialized == initialized
      ensures this.program == program && this.vao == vao && this.vertex == vertex
      ensures this.vertexAttributes == vertexAttributes
      ensures vertexSource == OrString(options.vertexSource, DefaultVertexSource)
      ensures fragmentSource == OrString(options.fragmentSource, DefaultFragmentSource)
      ensures vertexAttributeName == OrString(options.vertexAttributeName, PrimitiveName)
      ensures vertexAttributeLength == OrNumber(options.vertexAttributeLength, PrimitiveSize)
      ensures attributeNameArray == OrArray(options.attributeNameArray, DefaultNames)
      ensures attributeFloatLengthArray == OrArray(options.attributeFloatLengthArray, DefaultLengths)
      ensures width == 100 && height == 100 && multiplier == 1 && numInstances == 0
      ensures fresh(attributeArrayF32) && attributeArrayF32.Length == 0
      ensures attributeArrayF32BufferLength == 0 && !contextLost
    {
      this.canvas := canvas;
      this.gl := gl;
      this.initialized := initialized;
      this.program := program;
      this.vao := vao;
      this.vertex := vertex;
      this.vertexAttributes := vertexAttributes;
      vertexSource := OrString(options.vertexSource, DefaultVertexSource);
      fragmentSource := OrString(options.fragmentSource, DefaultFragmentSource);
      vertexAttributeName := OrString(options.vertexAttributeName, PrimitiveName);
      vertexAttributeLength := OrNumber(options.vertexAttributeLength, PrimitiveSize);
      attributeNameArray := OrArray(options.attributeNameArray, DefaultNames);
      attributeFloatLengthArray := OrArray(options.attributeFloatLengthArray, DefaultLengths);
      width, height, multiplier, numInstances := 100, 100, 1, 0;
      attributeArrayF32 := new Float[0];
      attributeArrayF32BufferLength := 0;
      contextLost := false;
    }

    /**
     * `new RenderEngine(...)`, where `gl` is what `canvas.getContext('webgl2')`
     * answered. Without a context the engine is built uninitialised; with one it
     * compiles the program (a failure is thrown, as `Failure`) and binds the quad
     * and the default attributes for zero instances.
     */
    static method Create(canvas: Canvas, gl: Context?, options: Options) returns (r: Result<RenderEngine, ProgramError>)
      modifies gl
      ensures r.Success? ==> fresh(r.value) && r.value.Valid() && r.value.canvas == canvas && r.value.gl == gl
      ensures r.Success? ==> r.value.numInstances == 0 && r.value.attributeArrayF32BufferLength == 0
      ensures r.Success? ==> !r.value.contextLost && r.value.width == 100 && r.value.height == 100
      ensures r.Success? ==> fresh(r.value.attributeArrayF32) && r.value.multiplier == 1
      ensures r.Success? ==> r.value.initialized == (gl != null)
      ensures r.Success? ==>
        r.value.vertexSource == OrString(options.vertexSource, DefaultVertexSource) &&
        r.value.fragmentSource == OrString(options.fragmentSource, DefaultFragmentSource) &&
        r.value.vertexAttributeName == OrString(options.vertexAttributeName, PrimitiveName) &&
        r.value.vertexAttributeLength == OrNumber(options.vertexAttributeLength, PrimitiveSize) &&
        r.value.attributeNameArray == OrArray(options.attributeNameArray, DefaultNames) &&
        r.value.attributeFloatLengthArray == OrArray(options.attributeFloatLengthArray, DefaultLengths)
      ensures gl == null ==>
        r.Success? && r.value.vertexAttributes == Unbound && r.value.program == None &&
        r.value.vao == None && r.value.vertex == PrimitiveBinding(None, 0)
      ensures gl != null ==>
        var vs := OrString(options.vertexSource, DefaultVertexSource);
        var fs := OrString(options.fragmentSource, DefaultFragmentSource);
        var c := CompileSpec(gl, vs, fs, old(gl.nextHandle), old(gl.shaderSources));
        gl.trace == old(gl.trace) + ConstructionEvents(gl, vs, fs, old(gl.nextHandle), old(gl.shaderSources)) &&
        gl.shaderSources == c.sources &&
        gl.nextHandle == (if c.result.Success? then c.next + 2 + |DefaultNames| else c.next) &&
        (r.Success? <==> c.result.Success?) &&
        (r.Failure? ==> r.error == c.result.error) &&
        (r.Success? ==>
           r.value.program == Some(c.result.value) && r.value.vao == Some(c.next) &&
           r.value.vertex == PrimitiveBinding(Some(c.next + 1), gl.Location(PrimitiveName)) &&
           r.value.vertexAttributes == BindingFor(gl, DefaultNames, DefaultLengths, c.next + 2))
    {
      var vs := OrString(options.vertexSource, DefaultVertexSource);
      var fs := OrString(options.fragmentSource, DefaultFragmentSource);
      if gl == null {
        var e := new RenderEngine.Init(canvas, null, options, false, None, None, PrimitiveBinding(None, 0), Unbound);
        return Success(e);
      }
      ghost var n0, s0 := gl.nextHandle, gl.shaderSources;
      ghost var c := CompileSpec(gl, vs, fs, n0, s0);
      gl.BlendFunc();
      gl.EnableBlend();
      gl.ClearColor();
      ghost var prelude := gl.trace;
      var compiled := CompileProgram(gl, vs, fs);
      assert gl.trace == prelude + c.events;
      if compiled.Failure? {
        ConstructionStops(gl, vs, fs, n0, s0, old(gl.trace), prelude, gl.trace);
        return Failure(compiled.error);
      }
      var program := compiled.value;
      var vao, vertex, attributes := SetupProgram(gl, program);
      ConstructionContinues(gl, vs, fs, n0, s0, old(gl.trace), prelude, gl.trace);
      var e := new RenderEngine.Init(canvas, gl, options, true, Some(program), Some(vao), vertex, attributes);
      DefaultLayout();
      r := Success(e);
    }

    /**
     * `_rebindAttributes`: when the engine is usable, a fresh zeroed frame array
     * for `n` instances and the default attributes bound again with buffers
     * sized for `n`; otherwise nothing.
     */
    method RebindAttributes(n: nat)
      requires Valid()
      modifies this`attributeArrayF32BufferLength, this`attributeArrayF32, this`numInstances,
               this`vertexAttributes, gl
      ensures Valid()
      ensures !old(CanRebind()) ==> unchanged(this) && (gl != null ==> unchanged(gl))
      ensures old(CanRebind()) ==>
        attributeArrayF32BufferLength == n * old(vertexAttributes.floatCount) &&
        fresh(attributeArrayF32) && attributeArrayF32[..] == Zeros(attributeArrayF32BufferLength) &&
        numInstances == n &&
        vertexAttributes == BindingFor(gl, DefaultNames, DefaultLengths, old(gl.nextHandle)) &&
        gl.nextHandle == old(gl.nextHandle) + |DefaultNames| &&
        gl.shaderSources == old(gl.shaderSources) &&
        gl.trace == old(gl.trace)
          + AttributeEvents(gl, program.value, DefaultNames, DefaultLengths, n, old(gl.nextHandle), |DefaultNames|)
    {
      if gl != null && program.Some? && initialized && !contextLost {
        attributeArrayF32BufferLength := n * vertexAttributes.floatCount;
        attributeArrayF32 := new Float[attributeArrayF32BufferLength](_ => 0);
        numInstances := n;
        vertexAttributes := BindInstancedVertexAttributes(gl, program.value, DefaultNames, DefaultLengths, numInstances);
      }
    }

    /**
     * `resizeHandler`: the canvas size becomes the scaled size, and the canvas
     * is assigned only when that size differs from its current one.
     */
    method ResizeHandler(w: Option<int>, h: Option<int>, devicePixelRatio: Option<int>)
      modifies this`multiplier, this`width, this`height, canvas`width, canvas`height, canvas`sizeWrites
      ensures multiplier == Multiplier(devicePixelRatio)
      ensures width == ScaledDimension(w, canvas.clientWidth, multiplier)
      ensures height == ScaledDimension(h, canvas.clientHeight, multiplier)
      ensures canvas.width == width && canvas.height == height
      ensures canvas.sizeWrites
              == old(canvas.sizeWrites) + if old(canvas.width) != width || old(canvas.height) != height then 2 else 0
    {
      multiplier := Multiplier(devicePixelRatio);
      width := ScaledDimension(w, canvas.clientWidth, multiplier);
      height := ScaledDimension(h, canvas.clientHeight, multiplier);
      if canvas.width != width || canvas.height != height {
        canvas.SetWidth(width);
        canvas.SetHeight(height);
      }
    }

    /** The packing loop of `render`, in place on the frame array. */
    method PackFrame(chunks: seq<seq<Float>>) returns (fits: bool)
      requires Valid()
      modifies attributeArrayF32
      ensures var p := Pack(old(attributeArrayF32[..]), chunks, 0);
        attributeArrayF32[..] == p.contents && fits == p.fits
    {
      ghost var initial := attributeArrayF32[..];
      var bufferOffset: nat := 0;
      for i := 0 to |chunks|
        invariant bufferOffset <= attributeArrayF32.Length
        invariant Pack(attributeArrayF32[..], chunks[i..], bufferOffset) == Pack(initial, chunks, 0)
      {
        var chunk := chunks[i];
        assert chunks[i..][0] == chunk && chunks[i..][1..] == chunks[i + 1..];
        if bufferOffset + |chunk| <= attributeArrayF32BufferLength {
          ghost var before := attributeArrayF32[..];
          forall j | 0 <= j < |chunk| {
            attributeArrayF32[bufferOffset + j] := chunk[j];
          }
          assert attributeArrayF32[..] == Write(before, bufferOffset, chunk);
          bufferOffset := bufferOffset + |chunk|;
        } else {
          return false;
        }
      }
      assert chunks[|chunks|..] == [];
      return true;
    }

    /** The upload and draw of `render`. */
    method DrawFrame()
      requires Valid() && initialized
      modifies gl`trace
      ensures gl.trace == old(gl.trace)
        + DrawEvents(width, height, vao, vertexAttributes.buffers, attributeArrayF32[..], numInstances)
    {
      gl.Viewport(0, 0, width, height);
      gl.ClearColorBuffer();
      gl.BindVertexArray(vao);
      ghost var head := gl.trace;
      var buffers := vertexAttributes.buffers;
      for i := 0 to |buffers|
        invariant gl.trace == head + UploadEvents(buffers[..i], attributeArrayF32[..])
      {
        gl.BindArrayBuffer(buffers[i]);
        gl.BufferSubData(0, attributeArrayF32[..]);
        assert buffers[..i + 1][..i] == buffers[..i];
      }
      assert buffers[..|buffers|] == buffers;
      gl.DrawArraysInstanced(Triangles, 0, 6, numInstances);
    }

    /**
     * `render`: on an initialised engine whose context is not lost, rebind when
     * the instance count changes, pack the chunks, and, only when they all fit,
     * upload the whole frame array to every attribute buffer and draw once.
     * Without a context or initialisation it marks the context lost; once
     * lost it makes no call at all.
     */
    method Render(chunks: seq<seq<Float>>, n: nat)
      requires Valid()
      modifies this`numInstances, this`vertexAttributes, this`attributeArrayF32,
               this`attributeArrayF32BufferLength, this`contextLost, attributeArrayF32, gl
      ensures Valid()
      ensures contextLost == (old(contextLost) || !initialized)
      ensures old(contextLost) || !initialized ==>
        numInstances == old(numInstances) && vertexAttributes == old(vertexAttributes) &&
        attributeArrayF32 == old(attributeArrayF32) && attributeArrayF32[..] == old(attributeArrayF32[..]) &&
        (gl != null ==> unchanged(gl))
      ensures initialized && !old(contextLost) ==>
        var rebind := old(numInstances) != n;
        var first := old(gl.nextHandle);
        var before := if rebind then Zeros(n * Sum(DefaultLengths)) else old(attributeArrayF32[..]);
        var packed := Pack(before, chunks, 0);
        numInstances == n &&
        (rebind ==> fresh(attributeArrayF32) &&
                    vertexAttributes == BindingFor(gl, DefaultNames, DefaultLengths, first)) &&
        (!rebind ==> attributeArrayF32 == old(attributeArrayF32) && vertexAttributes == old(vertexAttributes)) &&
        attributeArrayF32[..] == packed.contents &&
        gl.nextHandle == old(gl.nextHandle) + (if rebind then |DefaultNames| else 0) &&
        gl.shaderSources == old(gl.shaderSources) &&
        gl.trace == old(gl.trace)
          + FrameEvents(gl, program.value, rebind, n, first, packed, width, height, vao, vertexAttributes.buffers)
    {
      if gl != null && initialized {
        if contextLost {
          return;
        }
        if numInstances != n {
          RebindAttributes(n);
        }
        var fits := PackFrame(chunks);
        if !fits {
          return;
        }
        DrawFrame();
      } else {
        contextLost := true;
      }
    }
  }

  /** A second resize with the same arguments and client size leaves the canvas untouched. */
  method RepeatedResize(engine: RenderEngine, w: Option<int>, h: Option<int>, devicePixelRatio: Option<int>)
    returns (ghost writesAfterFirst: nat)
    modifies engine`multiplier, engine`width, engine`height
    modifies engine.canvas`width, engine.canvas`height, engine.canvas`sizeWrites
    ensures writesAfterFirst <= old(engine.canvas.sizeWrites) + 2
    ensures engine.canvas.sizeWrites == writesAfterFirst
  {
    engine.ResizeHandler(w, h, devicePixelRatio);
    writesAfterFirst := engine.canvas.sizeWrites;
    engine.ResizeHandler(w, h, devicePixelRatio);
  }
}
