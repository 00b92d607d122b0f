/**
 * Packing the caller's chunks into the frame array, as the loop of `render`
 * does: chunks are written in order at a running offset, each only if it fits
 * whole, and the first one that does not fit stops the frame.
 */
module Packing {
  import opened WebGL

  /** The chunks laid end to end. */
  function Concat(chunks: seq<seq<Float>>): (r: seq<Float>) {
    if chunks == [] then [] else chunks[0] + Concat(chunks[1..])
  }

  /** `frame` with `values` copied in at position `at`, as `Float32Array.set(values, at)` does. */
  function Write(frame: seq<Float>, at: nat, values: seq<Float>): (r: seq<Float>)
    requires at + |values| <= |frame|
  {
    frame[..at] + values + frame[at + |values|..]
  }

  /** The frame after packing, the offset reached, and whether every chunk fitted. */
  datatype Packed = Packed(contents: seq<Float>, offset: nat, fits: bool)

  /** Pack `chunks` into `frame` starting at `offset`; the capacity is the frame's length. */
  function Pack(frame: seq<Float>, chunks: seq<seq<Float>>, offset: nat): (p: Packed)
    requires offset <= |frame|
    ensures |p.contents| == |frame| && offset <= p.offset <= |frame|
    decreases |chunks|
  {
    if chunks == [] then Packed(frame, offset, true)
    else if offset + |chunks[0]| <= |frame| then
      Pack(Write(frame, offset, chunks[0]), chunks[1..], offset + |chunks[0]|)
    else Packed(frame, offset, false)
  }

  /** How many leading chunks fit, one after the other, from `offset` within `capacity`. */
  function Accepted(chunks: seq<seq<Float>>, offset: nat, capacity: nat): (k: nat)
    ensures k <= |chunks|
  {
    if chunks == [] then 0
    else if offset + |chunks[0]| <= capacity then 1 + Accepted(chunks[1..], offset + |chunks[0]|, capacity)
    else 0
  }

  lemma WriteTwice(frame: seq<Float>, at: nat, a: seq<Float>, b: seq<Float>)
    requires at + |a| + |b| <= |frame|
    ensures Write(Write(frame, at, a), at + |a|, b) == Write(frame, at, a + b)
  {
    var once := Write(frame, at, a);
    assert once[..at + |a|] == frame[..at] + a;
    assert once[at + |a| + |b|..] == frame[at + |a| + |b|..];
  }

  /**
   * What packing leaves behind. With `k` the number of leading chunks that fit:
   * those `k` chunks, concatenated, are written from `offset` on and nothing
   * else in the frame changes (in particular the positions past the final
   * offset keep their old values); the frame is accepted exactly when all
   * chunks fit; and otherwise chunk `k` is the one that would overflow.
   */
  lemma {:induction false} PackAccepted(frame: seq<Float>, chunks: seq<seq<Float>>, offset: nat)
    requires offset <= |frame|
    ensures var k := Accepted(chunks, offset, |frame|);
      var done := Concat(chunks[..k]);
      var p := Pack(frame, chunks, offset);
      k <= |chunks| && offset + |done| <= |frame| &&
      p.offset == offset + |done| && p.contents == Write(frame, offset, done) &&
      (p.fits <==> k == |chunks|) &&
      (k < |chunks| ==> p.offset + |chunks[k]| > |frame|)
    decreases |chunks|
  {
    if chunks == [] {
      assert Write(frame, offset, []) == frame;
    } else if offset + |chunks[0]| <= |frame| {
      var c := chunks[0];
      var next := Write(frame, offset, c);
      PackAccepted(next, chunks[1..], offset + |c|);
      var k' := Accepted(chunks[1..], offset + |c|, |frame|);
      var done' := Concat(chunks[1..][..k']);
      assert chunks[..k' + 1][0] == c && chunks[..k' + 1][1..] == chunks[1..][..k'];
      assert Concat(chunks[..k' + 1]) == c + done';
      WriteTwice(frame, offset, c, done');
      if k' < |chunks[1..]| {
        assert chunks[1..][k'] == chunks[k' + 1];
      }
    } else {
      assert chunks[..0] == [];
      assert Write(frame, offset, []) == frame;
    }
  }

  /** The frame is accepted exactly when all the chunks together fit after `offset`. */
  lemma {:induction false} PackFitsIff(frame: seq<Float>, chunks: seq<seq<Float>>, offset: nat)
    requires offset <= |frame|
    ensures Pack(frame, chunks, offset).fits <==> offset + |Concat(chunks)| <= |frame|
    decreases |chunks|
  {
    if chunks != [] && offset + |chunks[0]| <= |frame| {
      PackFitsIff(Write(frame, offset, chunks[0]), chunks[1..], offset + |chunks[0]|);
    }
  }

  /**
   * A frame packed from the start that fits holds the concatenated chunks in
   * its prefix and its old contents after them: an underfilled frame is not
   * detected.
   */
  lemma PackWholeFrame(frame: seq<Float>, chunks: seq<seq<Float>>)
    requires |Concat(chunks)| <= |frame|
    ensures var p := Pack(frame, chunks, 0);
      p.fits && p.offset == |Concat(chunks)| &&
      p.contents == Concat(chunks) + frame[|Concat(chunks)|..]
  {
    PackFitsIff(frame, chunks, 0);
    PackAccepted(frame, chunks, 0);
    assert chunks[..|chunks|] == chunks;
  }

  /** Two 15-float chunks exactly fill the frame of two default instances. */
  lemma ExactFillFits(frame: seq<Float>, a: seq<Float>, b: seq<Float>)
    requires |frame| == 30 && |a| == 15 && |b| == 15
    ensures Pack(frame, [a, b], 0) == Packed(a + b, 30, true)
  {
    assert [a, b][1..] == [b] && [b][1..] == [];
    assert Concat([b]) == b;
    assert Concat([a, b]) == a + b;
    PackWholeFrame(frame, [a, b]);
  }
}
