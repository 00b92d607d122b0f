/**
 * An abstract WebGL2 rendering context. It does not draw anything: every call it
 * receives is appended, as an `Event`, to a ghost trace, and the few calls that
 * answer something (attribute locations, compile and link status, info logs,
 * new object handles) answer from the context's own configuration.
 */
module WebGL {
  import opened Wrappers

  /** One value of a Float32Array, as its IEEE-754 bit pattern; the engine only copies these. */
  type Float = bv32

  /** An opaque WebGL object: program, shader, buffer or vertex array. */
  type Handle = nat

  datatype ShaderKind = VertexShader | FragmentShader

  /** The usage hint given to `bufferData`. */
  datatype Usage = StaticDraw | DynamicDraw

  /** The primitive given to `drawArraysInstanced`; the engine only draws triangles. */
  datatype DrawMode = Triangles

  /** The entry points of the context, one per method name. */
  datatype Call =
    | BlendFuncCall | EnableCall | ClearColorCall
    | CreateProgramCall | CreateShaderCall | ShaderSourceCall | CompileShaderCall
    | GetShaderParameterCall | GetShaderInfoLogCall | AttachShaderCall | LinkProgramCall
    | GetProgramParameterCall | GetProgramInfoLogCall | UseProgramCall
    | CreateVertexArrayCall | BindVertexArrayCall
    | CreateBufferCall | GetAttribLocationCall | BindBufferCall | BufferDataCall
    | EnableVertexAttribArrayCall | VertexAttribPointerCall | VertexAttribDivisorCall
    | ViewportCall | ClearCall | BufferSubDataCall | DrawArraysInstancedCall

  /**
   * One call received by the context, with the arguments that matter to the engine.
   * Buffer calls always target ARRAY_BUFFER and attribute pointers are always
   * FLOAT, not normalised, so those arguments are not recorded.
   */
  datatype Event =
    | BlendFunc                      // blendFunc(SRC_ALPHA, ONE_MINUS_SRC_ALPHA)
    | EnableBlend                    // enable(BLEND)
    | ClearColor                     // clearColor(r, g, b, a); the colour is not modelled
    | CreateProgram(program: Handle)
    | CreateShader(kind: ShaderKind, created: Option<Handle>)
    | ShaderSource(shader: Handle, source: string)
    | CompileShader(shader: Handle)
    | GetShaderParameter(shader: Handle)   // COMPILE_STATUS
    | GetShaderInfoLog(shader: Handle)
    | AttachShader(program: Handle, shader: Handle)
    | LinkProgram(program: Handle)
    | GetProgramParameter(program: Handle) // LINK_STATUS
    | GetProgramInfoLog(program: Handle)
    | UseProgram(program: Handle)
    | CreateVertexArray(vao: Handle)
    | BindVertexArray(boundArray: Option<Handle>)
    | CreateBuffer(buffer: Handle)
    | GetAttribLocation(program: Handle, name: string)
    | BindArrayBuffer(boundBuffer: Option<Handle>)
    | BufferDataFrom(data: seq<Float>, usage: Usage)
    | BufferDataSized(size: int, usage: Usage)
    | EnableVertexAttribArray(location: int)
    | VertexAttribPointer(location: int, size: int, stride: int, offset: int)
    | VertexAttribDivisor(location: int, divisor: int)
    | Viewport(x: int, y: int, width: int, height: int)
    | ClearColorBuffer                     // clear(COLOR_BUFFER_BIT)
    | BufferSubData(offset: int, data: seq<Float>)
    | DrawArraysInstanced(mode: DrawMode, first: int, count: int, instances: int)
  {
    /** The entry point this event was received through. */
    function Call(): (r: Call) {
      match this
      case BlendFunc => BlendFuncCall
      case EnableBlend => EnableCall
      case ClearColor => ClearColorCall
      case CreateProgram(_) => CreateProgramCall
      case CreateShader(_, _) => CreateShaderCall
      case ShaderSource(_, _) => ShaderSourceCall
      case CompileShader(_) => CompileShaderCall
      case GetShaderParameter(_) => GetShaderParameterCall
      case GetShaderInfoLog(_) => GetShaderInfoLogCall
      case AttachShader(_, _) => AttachShaderCall
      case LinkProgram(_) => LinkProgramCall
      case GetProgramParameter(_) => GetProgramParameterCall
      case GetProgramInfoLog(_) => GetProgramInfoLogCall
      case UseProgram(_) => UseProgramCall
      case CreateVertexArray(_) => CreateVertexArrayCall
      case BindVertexArray(_) => BindVertexArrayCall
      case CreateBuffer(_) => CreateBufferCall
      case GetAttribLocation(_, _) => GetAttribLocationCall
      case BindArrayBuffer(_) => BindBufferCall
      case BufferDataFrom(_, _) => BufferDataCall
      case BufferDataSized(_, _) => BufferDataCall
      case EnableVertexAttribArray(_) => EnableVertexAttribArrayCall
      case VertexAttribPointer(_, _, _, _) => VertexAttribPointerCall
      case VertexAttribDivisor(_, _) => VertexAttribDivisorCall
      case Viewport(_, _, _, _) => ViewportCall
      case ClearColorBuffer => ClearCall
      case BufferSubData(_, _) => BufferSubDataCall
      case DrawArraysInstanced(_, _, _, _) => DrawArraysInstancedCall
    }
  }

  /** How many events of `trace` were received through entry point `c`. */
  function Count(trace: seq<Event>, c: Call): (n: nat)
    ensures n <= |trace|
  {
    if trace == [] then 0
    else Count(trace[..|trace| - 1], c) + (if trace[|trace| - 1].Call() == c then 1 else 0)
  }

  lemma {:induction false} CountConcat(a: seq<Event>, b: seq<Event>, c: Call)
    ensures Count(a + b, c) == Count(a, c) + Count(b, c)
    decreases |b|
  {
    if b != [] {
      assert (a + b)[..|a + b| - 1] == a + b[..|b| - 1];
      CountConcat(a, b[..|b| - 1], c);
    } else {
      assert a + b == a;
    }
  }

  /**
   * A block of calls through pairwise distinct entry points has each of those
   * entry points exactly once and no other.
   */
  lemma {:induction false} CountDistinct(block: seq<Event>, calls: seq<Call>, c: Call)
    requires |block| == |calls|
    requires forall i :: 0 <= i < |block| ==> block[i].Call() == calls[i]
    requires forall i, j :: 0 <= i < j < |calls| ==> calls[i] != calls[j]
    ensures Count(block, c) == if c in calls then 1 else 0
    decreases |block|
  {
    if block != [] {
      var n := |block| - 1;
      CountDistinct(block[..n], calls[..n], c);
      assert calls == calls[..n] + [calls[n]];
    }
  }

  /** The location `getAttribLocation` answers for `name`: -1 when the program has no such attribute. */
  function LocationIn(locations: map<string, int>, name: string): (r: int) {
    if name in locations then locations[name] else -1
  }

  /** The call-recording context. */
  class Context {
    ghost var trace: seq<Event>
    /** The handle the next created object receives. */
    var nextHandle: Handle
    /** The source text given to each shader by `shaderSource`. */
    var shaderSources: map<Handle, string>

    /** Attribute locations of the (single) linked program, by attribute name. */
    const attribLocations: map<string, int>
    /** The shader sources whose compilation succeeds. */
    const compilingSources: set<string>
    /** The compiler's info log, by shader source. */
    const compilerLogs: map<string, string>
    const linkSucceeds: bool
    const linkLog: string
    /** The shader kinds for which `createShader` answers `null`. */
    const nullShaderKinds: set<ShaderKind>

    constructor (attribLocations: map<string, int>, compilingSources: set<string>,
                 compilerLogs: map<string, string>, linkSucceeds: bool, linkLog: string,
                 nullShaderKinds: set<ShaderKind>)
      ensures trace == [] && shaderSources == map[]
      ensures this.attribLocations == attribLocations && this.compilingSources == compilingSources
      ensures this.compilerLogs == compilerLogs && this.linkSucceeds == linkSucceeds
      ensures this.linkLog == linkLog && this.nullShaderKinds == nullShaderKinds
    {
      this.attribLocations := attribLocations;
      this.compilingSources := compilingSources;
      this.compilerLogs := compilerLogs;
      this.linkSucceeds := linkSucceeds;
      this.linkLog := linkLog;
      this.nullShaderKinds := nullShaderKinds;
      trace := [];
      nextHandle := 1;
      shaderSources := map[];
    }

    function Location(name: string): (r: int) {
      LocationIn(attribLocations, name)
    }

    function CompilerLog(source: string): (r: string) {
      if source in compilerLogs then compilerLogs[source] else ""
    }

    method BlendFunc()
      modifies this`trace
      ensures trace == old(trace) + [Event.BlendFunc]
    {
      trace := trace + [Event.BlendFunc];
    }

    method EnableBlend()
      modifies this`trace
      ensures trace == old(trace) + [Event.EnableBlend]
    {
      trace := trace + [Event.EnableBlend];
    }

    method ClearColor()
      modifies this`trace
      ensures trace == old(trace) + [Event.ClearColor]
    {
      trace := trace + [Event.ClearColor];
    }

    method CreateProgram() returns (p: Handle)
      modifies this`trace, this`nextHandle
      ensures p == old(nextHandle) && nextHandle == p + 1
      ensures trace == old(trace) + [Event.CreateProgram(p)]
    {
      p := nextHandle;
      nextHandle := nextHandle + 1;
      trace := trace + [Event.CreateProgram(p)];
    }

    method CreateShader(kind: ShaderKind) returns (s: Option<Handle>)
      modifies this`trace, this`nextHandle
      ensures kind in nullShaderKinds ==> s == None && nextHandle == old(nextHandle)
      ensures kind !in nullShaderKinds ==> s == Some(old(nextHandle)) && nextHandle == old(nextHandle) + 1
      ensures trace == old(trace) + [Event.CreateShader(kind, s)]
    {
      if kind in nullShaderKinds {
        s := None;
      } else {
        s := Some(nextHandle);
        nextHandle := nextHandle + 1;
      }
      trace := trace + [Event.CreateShader(kind, s)];
    }

    method ShaderSource(shader: Handle, source: string)
      modifies this`trace, this`shaderSources
      ensures shaderSources == old(shaderSources)[shader := source]
      ensures trace == old(trace) + [Event.ShaderSource(shader, source)]
    {
      shaderSources := shaderSources[shader := source];
      trace := trace + [Event.ShaderSource(shader, source)];
    }

    method CompileShader(shader: Handle)
      modifies this`trace
      ensures trace == old(trace) + [Event.CompileShader(shader)]
    {
      trace := trace + [Event.CompileShader(shader)];
    }

    /** COMPILE_STATUS: whether the source given to `shader` compiles. */
    method GetShaderParameter(shader: Handle) returns (ok: bool)
      modifies this`trace
      ensures ok <==> shader in shaderSources && shaderSources[shader] in compilingSources
      ensures trace == old(trace) + [Event.GetShaderParameter(shader)]
    {
      ok := shader in shaderSources && shaderSources[shader] in compilingSources;
      trace := trace + [Event.GetShaderParameter(shader)];
    }

    method GetShaderInfoLog(shader: Handle) returns (log: string)
      modifies this`trace
      ensures log == if shader in shaderSources then CompilerLog(shaderSources[shader]) else ""
      ensures trace == old(trace) + [Event.GetShaderInfoLog(shader)]
    {
      log := if shader in shaderSources then CompilerLog(shaderSources[shader]) else "";
      trace := trace + [Event.GetShaderInfoLog(shader)];
    }

    method AttachShader(program: Handle, shader: Handle)
      modifies this`trace
      ensures trace == old(trace) + [Event.AttachShader(program, shader)]
    {
      trace := trace + [Event.AttachShader(program, shader)];
    }

    method LinkProgram(program: Handle)
      modifies this`trace
      ensures trace == old(trace) + [Event.LinkProgram(program)]
    {
      trace := trace + [Event.LinkProgram(program)];
    }

    /** LINK_STATUS. */
    method GetProgramParameter(program: Handle) returns (ok: bool)
      modifies this`trace
      ensures ok == linkSucceeds
      ensures trace == old(trace) + [Event.GetProgramParameter(program)]
    {
      ok := linkSucceeds;
      trace := trace + [Event.GetProgramParameter(program)];
    }

    method GetProgramInfoLog(program: Handle) returns (log: string)
      modifies this`trace
      ensures log == linkLog
      ensures trace == old(trace) + [Event.GetProgramInfoLog(program)]
    {
      log := linkLog;
      trace := trace + [Event.GetProgramInfoLog(program)];
    }

    method UseProgram(program: Handle)
      modifies this`trace
      ensures trace == old(trace) + [Event.UseProgram(program)]
    {
      trace := trace + [Event.UseProgram(program)];
    }

    method CreateVertexArray() returns (vao: Handle)
      modifies this`trace, this`nextHandle
      ensures vao == old(nextHandle) && nextHandle == vao + 1
      ensures trace == old(trace) + [Event.CreateVertexArray(vao)]
    {
      vao := nextHandle;
      nextHandle := nextHandle + 1;
      trace := trace + [Event.CreateVertexArray(vao)];
    }

    method BindVertexArray(vao: Option<Handle>)
      modifies this`trace
      ensures trace == old(trace) + [Event.BindVertexArray(vao)]
    {
      trace := trace + [Event.BindVertexArray(vao)];
    }

    method CreateBuffer() returns (buffer: Handle)
      modifies this`trace, this`nextHandle
      ensures buffer == old(nextHandle) && nextHandle == buffer + 1
      ensures trace == old(trace) + [Event.CreateBuffer(buffer)]
    {
      buffer := nextHandle;
      nextHandle := nextHandle + 1;
      trace := trace + [Event.CreateBuffer(buffer)];
    }

    method GetAttribLocation(program: Handle, name: string) returns (location: int)
      modifies this`trace
      ensures location == Location(name)
      ensures trace == old(trace) + [Event.GetAttribLocation(program, name)]
    {
      location := Location(name);
      trace := trace + [Event.GetAttribLocation(program, name)];
    }

    method BindArrayBuffer(buffer: Option<Handle>)
      modifies this`trace
      ensures trace == old(trace) + [Event.BindArrayBuffer(buffer)]
    {
      trace := trace + [Event.BindArrayBuffer(buffer)];
    }

    method BufferDataFrom(data: seq<Float>, usage: Usage)
      modifies this`trace
      ensures trace == old(trace) + [Event.BufferDataFrom(data, usage)]
    {
      trace := trace + [Event.BufferDataFrom(data, usage)];
    }

    method BufferDataSized(size: int, usage: Usage)
      modifies this`trace
      ensures trace == old(trace) + [Event.BufferDataSized(size, usage)]
    {
      trace := trace + [Event.BufferDataSized(size, usage)];
    }

    method EnableVertexAttribArray(location: int)
      modifies this`trace
      ensures trace == old(trace) + [Event.EnableVertexAttribArray(location)]
    {
      trace := trace + [Event.EnableVertexAttribArray(location)];
    }

    method VertexAttribPointer(location: int, size: int, stride: int, offset: int)
      modifies this`trace
      ensures trace == old(trace) + [Event.VertexAttribPointer(location, size, stride, offset)]
    {
      trace := trace + [Event.VertexAttribPointer(location, size, stride, offset)];
    }

    method VertexAttribDivisor(location: int, divisor: int)
      modifies this`trace
      ensures trace == old(trace) + [Event.VertexAttribDivisor(location, divisor)]
    {
      trace := trace + [Event.VertexAttribDivisor(location, divisor)];
    }

    method Viewport(x: int, y: int, width: int, height: int)
      modifies this`trace
      ensures trace == old(trace) + [Event.Viewport(x, y, width, height)]
    {
      trace := trace + [Event.Viewport(x, y, width, height)];
    }

    method ClearColorBuffer()
      modifies this`trace
      ensures trace == old(trace) + [Event.ClearColorBuffer]
    {
      trace := trace + [Event.ClearColorBuffer];
    }

    method BufferSubData(offset: int, data: seq<Float>)
      modifies this`trace
      ensures trace == old(trace) + [Event.BufferSubData(offset, data)]
    {
      trace := trace + [Event.BufferSubData(offset, data)];
    }

    method DrawArraysInstanced(mode: DrawMode, first: int, count: int, instances: int)
      modifies this`trace
      ensures trace == old(trace) + [Event.DrawArraysInstanced(mode, first, count, instances)]
    {
      trace := trace + [Event.DrawArraysInstanced(mode, first, count, instances)];
    }
  }
}
