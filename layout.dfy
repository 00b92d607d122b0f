/**
 * Instanced vertex layout: the static quad bound once per vertex, and the
 * per-instance attributes, each read from its own buffer at a byte offset
 * inside an interleaved record of `Stride(lengths)` bytes.
 */
module Layout {
  import opened Wrappers
  import opened WebGL

  /** Bit patterns of the single-precision values 1.0 and 0.0. */
  const One: Float := 0x3F80_0000
  const Zero: Float := 0

  /** The base quad: six 2-D vertices forming two triangles. */
  const Quad: seq<Float> := [One, Zero, Zero, One, One, One, Zero, Zero, One, Zero, Zero, One]

  /** The module defaults for the per-instance record: box, color, corner, window, sigma. */
  const DefaultNames: seq<string> := ["v_box", "v_color", "v_corner", "v_window", "v_sigma"]
  const DefaultLengths: seq<nat> := [4, 4, 4, 2, 1]

  /** The static vertex attribute the engine binds. */
  const PrimitiveName: string := "a_position"
  const PrimitiveSize: nat := 2

  /** The left fold `lengths.reduce((a, b) => a + b, 0)`. */
  function Sum(lengths: seq<nat>): (r: nat) {
    if lengths == [] then 0 else Sum(lengths[..|lengths| - 1]) + lengths[|lengths| - 1]
  }

  /** Bytes per instance record: four bytes per float. */
  function Stride(lengths: seq<nat>): (r: nat) {
    4 * Sum(lengths)
  }

  /** The byte offset of attribute `i` inside an instance record. */
  function ByteOffset(lengths: seq<nat>, i: nat): (r: nat)
    requires i <= |lengths|
  {
    4 * Sum(lengths[..i])
  }

  lemma SumStep(lengths: seq<nat>, i: nat)
    requires i < |lengths|
    ensures Sum(lengths[..i + 1]) == Sum(lengths[..i]) + lengths[i]
  {
    assert lengths[..i + 1][..i] == lengths[..i];
  }

  /** A prefix never sums to more than the whole. */
  lemma {:induction false} SumPrefixBound(lengths: seq<nat>, i: nat)
    requires i <= |lengths|
    ensures Sum(lengths[..i]) <= Sum(lengths)
    decreases |lengths| - i
  {
    if i < |lengths| {
      SumStep(lengths, i);
      SumPrefixBound(lengths, i + 1);
    } else {
      assert lengths[..i] == lengths;
    }
  }

  /**
   * The attributes tile the instance record: attribute `i` starts where
   * attribute `i - 1` ends, the first starts at 0, and each attribute's bytes
   * lie inside the stride.
   */
  lemma AttributeSlices(lengths: seq<nat>, i: nat)
    requires i < |lengths|
    ensures ByteOffset(lengths, 0) == 0
    ensures ByteOffset(lengths, i + 1) == ByteOffset(lengths, i) + 4 * lengths[i]
    ensures ByteOffset(lengths, i) + 4 * lengths[i] <= Stride(lengths)
  {
    SumStep(lengths, i);
    SumPrefixBound(lengths, i + 1);
  }

  /** The result of `bindInstancedVertexPrimitive`. */
  datatype PrimitiveBinding = PrimitiveBinding(buffer: Option<Handle>, location: int)

  /** The result of `bindInstancedVertexAttributes`. */
  datatype AttributeBinding = AttributeBinding(locations: seq<int>, buffers: seq<Option<Handle>>, floatCount: nat)

  /** The binding of `names` when their buffers are created from handle `first` on. */
  function BindingFor(gl: Context, names: seq<string>, lengths: seq<nat>, first: Handle): (r: AttributeBinding) {
    AttributeBinding(seq(|names|, i requires 0 <= i < |names| => gl.Location(names[i])),
                     seq(|names|, i => Some(first + i)), Sum(lengths))
  }

  /** The calls `bindInstancedVertexPrimitive` makes when `createBuffer` answers `buffer`. */
  function PrimitiveEvents(gl: Context, program: Handle, name: string, size: int,
                           data: seq<Float>, buffer: Handle): (r: seq<Event>)
  {
    var location := gl.Location(name);
    [CreateBuffer(buffer), GetAttribLocation(program, name), BindArrayBuffer(Some(buffer)),
     BufferDataFrom(data, StaticDraw), EnableVertexAttribArray(location),
     VertexAttribPointer(location, size, 0, 0)]
  }

  /** The seven calls that set up attribute `i`, whose buffer is handle `first + i`. */
  function AttributeSetup(gl: Context, program: Handle, names: seq<string>, lengths: seq<nat>,
                          numInstances: nat, first: Handle, i: nat): (r: seq<Event>)
    requires i < |names| <= |lengths|
  {
    var buffer := first + i;
    var location := gl.Location(names[i]);
    [CreateBuffer(buffer), GetAttribLocation(program, names[i]), BindArrayBuffer(Some(buffer)),
     BufferDataSized(numInstances * Stride(lengths), DynamicDraw),
     EnableVertexAttribArray(location),
     VertexAttribPointer(location, lengths[i], Stride(lengths), ByteOffset(lengths, i)),
     VertexAttribDivisor(location, 1)]
  }

  /** The calls that set up the first `k` attributes, in order. */
  function AttributeEvents(gl: Context, program: Handle, names: seq<string>, lengths: seq<nat>,
                           numInstances: nat, first: Handle, k: nat): (r: seq<Event>)
    requires k <= |names| <= |lengths|
  {
    if k == 0 then []
    else AttributeEvents(gl, program, names, lengths, numInstances, first, k - 1)
         + AttributeSetup(gl, program, names, lengths, numInstances, first, k - 1)
  }

  /** The calls made once per attribute. */
  const PerAttributeCalls: set<Call> :=
    {CreateBufferCall, GetAttribLocationCall, BindBufferCall, BufferDataCall,
     EnableVertexAttribArrayCall, VertexAttribPointerCall, VertexAttribDivisorCall}

  /**
   * The trace of the first `k` attributes is `k` blocks of seven calls, block `i`
   * being the setup of attribute `i`: its buffer sized `numInstances * stride`,
   * its pointer at stride `Stride(lengths)` and offset `ByteOffset(lengths, i)`,
   * and divisor 1.
   */
  lemma {:induction false} AttributeEventsBlocks(gl: Context, program: Handle, names: seq<string>,
                                                 lengths: seq<nat>, numInstances: nat, first: Handle, k: nat)
    requires k <= |names| <= |lengths|
    ensures |AttributeEvents(gl, program, names, lengths, numInstances, first, k)| == 7 * k
    ensures forall i :: 0 <= i < k ==>
      AttributeEvents(gl, program, names, lengths, numInstances, first, k)[7 * i .. 7 * i + 7]
        == AttributeSetup(gl, program, names, lengths, numInstances, first, i)
  {
    if k > 0 {
      AttributeEventsBlocks(gl, program, names, lengths, numInstances, first, k - 1);
      var prev := AttributeEvents(gl, program, names, lengths, numInstances, first, k - 1);
      var all := AttributeEvents(gl, program, names, lengths, numInstances, first, k);
      forall i | 0 <= i < k
        ensures all[7 * i .. 7 * i + 7] == AttributeSetup(gl, program, names, lengths, numInstances, first, i)
      {
        if i < k - 1 {
          assert all[7 * i .. 7 * i + 7] == prev[7 * i .. 7 * i + 7];
        }
      }
    }
  }

  /** Exactly one call of each per-attribute entry point per attribute, and no other call. */
  lemma {:induction false} AttributeCallCounts(gl: Context, program: Handle, names: seq<string>,
                                               lengths: seq<nat>, numInstances: nat, first: Handle, k: nat, c: Call)
    requires k <= |names| <= |lengths|
    ensures Count(AttributeEvents(gl, program, names, lengths, numInstances, first, k), c)
            == if c in PerAttributeCalls then k else 0
  {
    if k > 0 {
      AttributeCallCounts(gl, program, names, lengths, numInstances, first, k - 1, c);
      var block := AttributeSetup(gl, program, names, lengths, numInstances, first, k - 1);
      CountConcat(AttributeEvents(gl, program, names, lengths, numInstances, first, k - 1), block, c);
      SetupCallCount(gl, program, names, lengths, numInstances, first, k - 1, c);
    }
  }

  lemma SetupCallCount(gl: Context, program: Handle, names: seq<string>, lengths: seq<nat>,
                        numInstances: nat, first: Handle, i: nat, c: Call)
    requires i < |names| <= |lengths|
    ensures Count(AttributeSetup(gl, program, names, lengths, numInstances, first, i), c)
            == if c in PerAttributeCalls then 1 else 0
  {
    CountDistinct(AttributeSetup(gl, program, names, lengths, numInstances, first, i),
                  [CreateBufferCall, GetAttribLocationCall, BindBufferCall, BufferDataCall,
                   EnableVertexAttribArrayCall, VertexAttribPointerCall, VertexAttribDivisorCall], c);
  }

  /**
   * `bindInstancedVertexPrimitive`: one static buffer holding `data`, read
   * `size` floats per vertex, tightly packed (stride 0, offset 0), with no divisor.
   */
  method BindInstancedVertexPrimitive(gl: Context, program: Handle, name: string, size: int,
                                      data: seq<Float>) returns (b: PrimitiveBinding)
    modifies gl`trace, gl`nextHandle
    ensures gl.nextHandle == old(gl.nextHandle) + 1
    ensures b == PrimitiveBinding(Some(old(gl.nextHandle)), gl.Location(name))
    ensures gl.trace == old(gl.trace) + PrimitiveEvents(gl, program, name, size, data, old(gl.nextHandle))
  {
    var buffer := gl.CreateBuffer();
    var location := gl.GetAttribLocation(program, name);
    gl.BindArrayBuffer(Some(buffer));
    gl.BufferDataFrom(data, StaticDraw);
    gl.EnableVertexAttribArray(location);
    gl.VertexAttribPointer(location, size, 0, 0);
    b := PrimitiveBinding(Some(buffer), location);
  }

  /** One iteration of the attribute loop of `bindInstancedVertexAttributes`. */
  method BindAttribute(gl: Context, program: Handle, names: seq<string>, lengths: seq<nat>,
                       numInstances: nat, ghost first: Handle, i: nat, stride: nat, byteOffset: nat)
    returns (buffer: Handle, location: int)
    requires i < |names| <= |lengths| && gl.nextHandle == first + i
    requires stride == Stride(lengths) && byteOffset == ByteOffset(lengths, i)
    modifies gl`trace, gl`nextHandle
    ensures buffer == old(gl.nextHandle) && gl.nextHandle == buffer + 1
    ensures location == gl.Location(names[i])
    ensures gl.trace == old(gl.trace)
      + AttributeSetup(gl, program, names, lengths, numInstances, first, i)
  {
    buffer := gl.CreateBuffer();
    location := gl.GetAttribLocation(program, names[i]);
    gl.BindArrayBuffer(Some(buffer));
    gl.BufferDataSized(numInstances * stride, DynamicDraw);
    gl.EnableVertexAttribArray(location);
    gl.VertexAttribPointer(location, lengths[i], stride, byteOffset);
    gl.VertexAttribDivisor(location, 1);
  }

  /**
   * `bindInstancedVertexAttributes`: one buffer, one location and one read
   * configuration per attribute, in input order. Lengths beyond the last name
   * still count towards the float count, as the source's `reduce` does.
   */
  method BindInstancedVertexAttributes(gl: Context, program: Handle, names: seq<string>,
                                       lengths: seq<nat>, numInstances: nat) returns (b: AttributeBinding)
    requires |names| <= |lengths|
    modifies gl`trace, gl`nextHandle
    ensures gl.nextHandle == old(gl.nextHandle) + |names|
    ensures b == BindingFor(gl, names, lengths, old(gl.nextHandle))
    ensures gl.trace == old(gl.trace)
      + AttributeEvents(gl, program, names, lengths, numInstances, old(gl.nextHandle), |names|)
  {
    var locations: seq<int> := [];
    var buffers: seq<Option<Handle>> := [];
    var floatCount := Sum(lengths);
    var bytesPerInstance := 4 * floatCount;
    var byteOffset := 0;
    ghost var first := gl.nextHandle;
    for i := 0 to |names|
      invariant gl.nextHandle == first + i
      invariant byteOffset == ByteOffset(lengths, i)
      invariant |locations| == |buffers| == i
      invariant forall j :: 0 <= j < i ==>
        locations[j] == gl.Location(names[j]) && buffers[j] == Some(first + j)
      invariant gl.trace == old(gl.trace) + AttributeEvents(gl, program, names, lengths, numInstances, first, i)
    {
      var buffer, location := BindAttribute(gl, program, names, lengths, numInstances, first, i, bytesPerInstance, byteOffset);
      locations := locations + [location];
      buffers := buffers + [Some(buffer)];
      SumStep(lengths, i);
      byteOffset := byteOffset + lengths[i] * 4;
    }
    b := AttributeBinding(locations, buffers, floatCount);
    assert b.locations == BindingFor(gl, names, lengths, first).locations;
    assert b.buffers == BindingFor(gl, names, lengths, first).buffers;
  }

  /** The default record is 15 floats, 60 bytes, with byte offsets 0, 16, 32, 48, 56. */
  lemma DefaultLayout()
    ensures Sum(DefaultLengths) == 15 && Stride(DefaultLengths) == 60
    ensures seq(5, i requires 0 <= i < 5 => ByteOffset(DefaultLengths, i)) == [0, 16, 32, 48, 56]
  {
    assert DefaultLengths[..0] == [];
    assert DefaultLengths[..1] == [4];
    assert DefaultLengths[..2] == [4, 4];
    assert DefaultLengths[..3] == [4, 4, 4];
    assert DefaultLengths[..4] == [4, 4, 4, 2];
    assert [4, 4, 4, 2][..3] == [4, 4, 4];
    assert [4, 4, 4][..2] == [4, 4];
    assert [4, 4][..1] == [4];
    assert [4][..0] == [];
  }

  /** The attribute locations of the test suite's mock context. */
  const MockLocations: map<string, int> :=
    map["v_box" := 2, "v_color" := 3, "v_corner" := 4, "v_window" := 5, "v_sigma" := 6]

  /**
   * On a context with the mock's locations, binding the default attributes
   * yields locations 2 to 6 in input order, five consecutive new buffers and
   * a float count of 15.
   */
  lemma MockBinding(gl: Context, first: Handle)
    requires gl.attribLocations == MockLocations
    ensures var b := BindingFor(gl, DefaultNames, DefaultLengths, first);
      b.locations == [2, 3, 4, 5, 6] &&
      b.buffers == [Some(first), Some(first + 1), Some(first + 2), Some(first + 3), Some(first + 4)] &&
      b.floatCount == 15
  {
    DefaultLayout();
  }
}
