/**
 * `compileProgram`: compile a vertex and a fragment stage, attach them to a
 * freshly created program, link it, and throw on the first failed status.
 */
module Program {
  import opened Wrappers
  import opened WebGL

  /** The error `compileProgram` throws, carrying the info log as its message. */
  datatype ProgramError = CompileError(stage: ShaderKind, log: string) | LinkError(log: string)

  /** What one `compileShader` call does: the calls it makes, the handles and sources afterwards, the error it throws. */
  datatype Stage = Stage(events: seq<Event>, next: Handle, sources: map<Handle, string>, error: Option<ProgramError>)

  /**
   * The inner `compileShader(kind, source)`, starting from handle `next` and
   * shader sources `sources`. A `null` shader is skipped without error.
   */
  function StageSpec(gl: Context, kind: ShaderKind, source: string, program: Handle,
                     next: Handle, sources: map<Handle, string>): (r: Stage)
  {
    if kind in gl.nullShaderKinds then Stage([CreateShader(kind, None)], next, sources, None)
    else
      var shader := next;
      var compiled := [CreateShader(kind, Some(shader)), ShaderSource(shader, source),
                       CompileShader(shader), GetShaderParameter(shader)];
      if source in gl.compilingSources then
        Stage(compiled + [AttachShader(program, shader)], next + 1, sources[shader := source], None)
      else
        Stage(compiled + [GetShaderInfoLog(shader)], next + 1, sources[shader := source],
              Some(CompileError(kind, gl.CompilerLog(source))))
  }

  /** What `compileProgram` does: the calls, the handles and sources afterwards, and the program or the error. */
  datatype Compilation = Compilation(events: seq<Event>, next: Handle, sources: map<Handle, string>,
                                     result: Result<Handle, ProgramError>)

  function CompileSpec(gl: Context, vertexSource: string, fragmentSource: string,
                       next: Handle, sources: map<Handle, string>): (r: Compilation)
  {
    var program := next;
    var vertex := StageSpec(gl, VertexShader, vertexSource, program, next + 1, sources);
    var start := [CreateProgram(program)] + vertex.events;
    if vertex.error.Some? then
      Compilation(start, vertex.next, vertex.sources, Failure(vertex.error.value))
    else
      var fragment := StageSpec(gl, FragmentShader, fragmentSource, program, vertex.next, vertex.sources);
      var compiled := start + fragment.events;
      if fragment.error.Some? then
        Compilation(compiled, fragment.next, fragment.sources, Failure(fragment.error.value))
      else
        var linked := compiled + [LinkProgram(program), GetProgramParameter(program)];
        if gl.linkSucceeds then
          Compilation(linked, fragment.next, fragment.sources, Success(program))
        else
          Compilation(linked + [GetProgramInfoLog(program)], fragment.next, fragment.sources,
                      Failure(LinkError(gl.linkLog)))
  }

  /** The inner `compileShader` of `compileProgram`. */
  method CompileStage(gl: Context, kind: ShaderKind, source: string, program: Handle)
    returns (error: Option<ProgramError>)
    modifies gl`trace, gl`nextHandle, gl`shaderSources
    ensures var s := StageSpec(gl, kind, source, program, old(gl.nextHandle), old(gl.shaderSources));
      gl.trace == old(gl.trace) + s.events && gl.nextHandle == s.next &&
      gl.shaderSources == s.sources && error == s.error
  {
    error := None;
    var shader := gl.CreateShader(kind);
    if shader.Some? {
      gl.ShaderSource(shader.value, source);
      gl.CompileShader(shader.value);
      var ok := gl.GetShaderParameter(shader.value);
      if !ok {
        var log := gl.GetShaderInfoLog(shader.value);
        return Some(CompileError(kind, log));
      }
      gl.AttachShader(program, shader.value);
    }
  }

  /** `compileProgram`: the program created first, or the first error thrown. */
  method CompileProgram(gl: Context, vertexSource: string, fragmentSource: string)
    returns (r: Result<Handle, ProgramError>)
    modifies gl`trace, gl`nextHandle, gl`shaderSources
    ensures var c := CompileSpec(gl, vertexSource, fragmentSource, old(gl.nextHandle), old(gl.shaderSources));
      gl.trace == old(gl.trace) + c.events && gl.nextHandle == c.next &&
      gl.shaderSources == c.sources && r == c.result
  {
    var program := gl.CreateProgram();
    var vertexError := CompileStage(gl, VertexShader, vertexSource, program);
    if vertexError.Some? {
      return Failure(vertexError.value);
    }
    var fragmentError := CompileStage(gl, FragmentShader, fragmentSource, program);
    if fragmentError.Some? {
      return Failure(fragmentError.value);
    }
    gl.LinkProgram(program);
    var linked := gl.GetProgramParameter(program);
    if !linked {
      var log := gl.GetProgramInfoLog(program);
      return Failure(LinkError(log));
    }
    r := Success(program);
  }

  /** Whether a stage lets compilation go on: its shader is `null`, or its source compiles. */
  predicate StagePasses(gl: Context, kind: ShaderKind, source: string) {
    kind in gl.nullShaderKinds || source in gl.compilingSources
  }

  /**
   * `compileProgram` succeeds exactly when both stages pass and the program
   * links, and then returns the program it created first; otherwise it throws
   * the first failure, with that stage's or the linker's info log.
   */
  lemma CompileOutcome(gl: Context, vertexSource: string, fragmentSource: string,
                       next: Handle, sources: map<Handle, string>)
    ensures var r := CompileSpec(gl, vertexSource, fragmentSource, next, sources).result;
      (r.Success? <==> StagePasses(gl, VertexShader, vertexSource)
                       && StagePasses(gl, FragmentShader, fragmentSource) && gl.linkSucceeds) &&
      (r.Success? ==> r.value == next) &&
      (!StagePasses(gl, VertexShader, vertexSource) ==>
         r == Failure(CompileError(VertexShader, gl.CompilerLog(vertexSource)))) &&
      (StagePasses(gl, VertexShader, vertexSource) && !StagePasses(gl, FragmentShader, fragmentSource) ==>
         r == Failure(CompileError(FragmentShader, gl.CompilerLog(fragmentSource)))) &&
      ((StagePasses(gl, VertexShader, vertexSource) && StagePasses(gl, FragmentShader, fragmentSource) &&
        !gl.linkSucceeds) ==> r == Failure(LinkError(gl.linkLog)))
  {
  }

  /** The entry points a compiling stage calls once each. */
  const StageCalls: seq<Call> :=
    [CreateShaderCall, ShaderSourceCall, CompileShaderCall, GetShaderParameterCall, AttachShaderCall]

  lemma PassingStageCalls(gl: Context, kind: ShaderKind, source: string, program: Handle,
                          next: Handle, sources: map<Handle, string>, c: Call)
    requires kind !in gl.nullShaderKinds && source in gl.compilingSources
    ensures Count(StageSpec(gl, kind, source, program, next, sources).events, c) == if c in StageCalls then 1 else 0
  {
    CountDistinct(StageSpec(gl, kind, source, program, next, sources).events, StageCalls, c);
  }

  /**
   * A vertex stage that fails to compile stops everything: the only shader
   * created is the vertex one, it is compiled once, nothing is attached, and
   * neither the fragment stage nor the link runs.
   */
  lemma VertexFailureStops(gl: Context, vertexSource: string, fragmentSource: string,
                           next: Handle, sources: map<Handle, string>, c: Call)
    requires !StagePasses(gl, VertexShader, vertexSource)
    ensures var events := CompileSpec(gl, vertexSource, fragmentSource, next, sources).events;
      events[1] == CreateShader(VertexShader, Some(next + 1)) &&
      Count(events, c) == if c in [CreateProgramCall, CreateShaderCall, ShaderSourceCall, CompileShaderCall,
                                   GetShaderParameterCall, GetShaderInfoLogCall] then 1 else 0
  {
    var events := CompileSpec(gl, vertexSource, fragmentSource, next, sources).events;
    CountDistinct(events, [CreateProgramCall, CreateShaderCall, ShaderSourceCall, CompileShaderCall,
                           GetShaderParameterCall, GetShaderInfoLogCall], c);
  }

  /** A successful compilation is: create the program, two passing stages, link and query. */
  lemma SuccessShape(gl: Context, vertexSource: string, fragmentSource: string,
                     next: Handle, sources: map<Handle, string>)
    requires CompileSpec(gl, vertexSource, fragmentSource, next, sources).result.Success?
    ensures var vertex := StageSpec(gl, VertexShader, vertexSource, next, next + 1, sources);
      var fragment := StageSpec(gl, FragmentShader, fragmentSource, next, vertex.next, vertex.sources);
      vertex.error == None && fragment.error == None &&
      CompileSpec(gl, vertexSource, fragmentSource, next, sources).events
        == [CreateProgram(next)] + vertex.events + fragment.events + [LinkProgram(next), GetProgramParameter(next)]
  {
  }

  /**
   * A successful compilation with both shaders created makes exactly one
   * program, two shaders (each sourced, compiled, queried and attached once),
   * one link and one link-status query, and no other call.
   */
  lemma SuccessCallCounts(gl: Context, vertexSource: string, fragmentSource: string,
                          next: Handle, sources: map<Handle, string>, c: Call)
    requires VertexShader !in gl.nullShaderKinds && FragmentShader !in gl.nullShaderKinds
    requires CompileSpec(gl, vertexSource, fragmentSource, next, sources).result.Success?
    ensures Count(CompileSpec(gl, vertexSource, fragmentSource, next, sources).events, c)
            == if c in [CreateProgramCall, LinkProgramCall, GetProgramParameterCall] then 1
               else if c in StageCalls then 2 else 0
  {
    CompileOutcome(gl, vertexSource, fragmentSource, next, sources);
    SuccessShape(gl, vertexSource, fragmentSource, next, sources);
    var vertex := StageSpec(gl, VertexShader, vertexSource, next, next + 1, sources);
    var fragment := StageSpec(gl, FragmentShader, fragmentSource, next, vertex.next, vertex.sources);
    var head, tail := [CreateProgram(next)], [LinkProgram(next), GetProgramParameter(next)];
    CountConcat(head, vertex.events, c);
    CountConcat(head + vertex.events, fragment.events, c);
    CountConcat(head + vertex.events + fragment.events, tail, c);
    CountDistinct(head, [CreateProgramCall], c);
    CountDistinct(tail, [LinkProgramCall, GetProgramParameterCall], c);
    PassingStageCalls(gl, VertexShader, vertexSource, next, next + 1, sources, c);
    PassingStageCalls(gl, FragmentShader, fragmentSource, next, vertex.next, vertex.sources, c);
  }
}
