/**
  Interleaved vertex buffers as the text and offscreen-framebuffer demos build
  them: one position pair and one texture-coordinate pair per vertex, packed
  tightly, and the attribute descriptors through which the device reads them.
*/
module VertexLayout {
  import opened CTypes

  const POSITION_COMPONENTS: nat := 2
  const TEXCOORD_COMPONENTS: nat := 2
  /** Floats per vertex; offsets below are written `4 * i` (and `2 * i` per table) with the values spelled out. */
  const VERTEX_COMPONENTS: nat := POSITION_COMPONENTS + TEXCOORD_COMPONENTS

  /**
    What `glVertexAttribPointer(location, components, GL_FLOAT, GL_FALSE,
    stride, offset)` tells the device: vertex v's value is the `components`
    floats that start `offset + v * stride` bytes into the buffer.
  */
  datatype Attribute = Attribute(components: nat, strideBytes: nat, offsetBytes: nat)

  /** Index of the first float the device reads for vertex `v`. */
  function FirstFloat(a: Attribute, v: nat): nat
  {
    (a.offsetBytes + v * a.strideBytes) / FLOAT_BYTES
  }

  /** With stride and offset whole floats, vertex `v` starts `offset + v * stride` floats in. */
  lemma FirstFloatAt(a: Attribute, v: nat, strideFloats: nat, offsetFloats: nat)
    requires a.strideBytes == 4 * strideFloats && a.offsetBytes == 4 * offsetFloats
    ensures FirstFloat(a, v) == offsetFloats + strideFloats * v
  {
    assert FLOAT_BYTES == 4;
    assert a.offsetBytes + v * a.strideBytes == 4 * (offsetFloats + strideFloats * v);
  }

  predicate CanFetch(buffer: seq<real>, a: Attribute, v: nat)
  {
    FirstFloat(a, v) + a.components <= |buffer|
  }

  /** The value of attribute `a` that the device reads for vertex `v`. */
  function Fetch(buffer: seq<real>, a: Attribute, v: nat): (r: seq<real>)
    requires CanFetch(buffer, a, v)
    ensures |r| == a.components
    ensures forall c :: 0 <= c < a.components ==> r[c] == buffer[FirstFloat(a, v) + c]
  {
    buffer[FirstFloat(a, v)..FirstFloat(a, v) + a.components]
  }

  /** A vertex whose first float is `start` is read as the slice of the buffer from `start`. */
  lemma FetchAt(buffer: seq<real>, a: Attribute, v: nat, start: nat)
    requires FirstFloat(a, v) == start && start + a.components <= |buffer|
    ensures CanFetch(buffer, a, v) && Fetch(buffer, a, v) == buffer[start..start + a.components]
  {
  }

  /** Two-component entry `i` of a flat table such as `positions[]`. */
  function Pair(table: seq<real>, i: nat): (real, real)
    requires 2 * i + 1 < |table|
  {
    (table[2 * i], table[2 * i + 1])
  }

  /**
    Float `j` of the interleaved buffer: component `j % 4` of vertex `j / 4`,
    the first two taken from the position table, the last two from the
    texture-coordinate table.
  */
  function InterleavedFloat(positions: seq<real>, texcoords: seq<real>, n: nat, j: nat): real
    requires |positions| == 2 * n && |texcoords| == 2 * n
    requires j < 4 * n
  {
    var v, c := j / 4, j % 4;
    if c < POSITION_COMPONENTS then positions[2 * v + c]
    else texcoords[2 * v + c - POSITION_COMPONENTS]
  }

  /** The interleaved buffer of `n` vertices. */
  function Interleave(positions: seq<real>, texcoords: seq<real>, n: nat): (r: seq<real>)
    requires |positions| == 2 * n && |texcoords| == 2 * n
    ensures |r| == 4 * n
  {
    seq(4 * n, j requires 0 <= j < 4 * n =>
      InterleavedFloat(positions, texcoords, n, j))
  }

  lemma InterleavedFloatAt(positions: seq<real>, texcoords: seq<real>, n: nat, i: nat, c: nat)
    requires |positions| == 2 * n && |texcoords| == 2 * n
    requires i < n && c < VERTEX_COMPONENTS
    ensures 4 * i + c < 4 * n
    ensures InterleavedFloat(positions, texcoords, n, 4 * i + c) ==
      if c < POSITION_COMPONENTS then positions[2 * i + c]
      else texcoords[2 * i + c - POSITION_COMPONENTS]
  {
    var j := 4 * i + c;
    assert j / VERTEX_COMPONENTS == i && j % VERTEX_COMPONENTS == c;
  }

  /** Vertex `i` sits at float offset 4i as (pos[2i], pos[2i+1], tex[2i], tex[2i+1]). */
  lemma InterleaveVertex(positions: seq<real>, texcoords: seq<real>, n: nat, i: nat)
    requires |positions| == 2 * n && |texcoords| == 2 * n
    requires i < n
    ensures 4 * i + VERTEX_COMPONENTS <= 4 * n
    ensures Interleave(positions, texcoords, n)[4 * i..4 * i + VERTEX_COMPONENTS]
         == [positions[2 * i], positions[2 * i + 1], texcoords[2 * i], texcoords[2 * i + 1]]
  {
    InterleavedFloatAt(positions, texcoords, n, i, 0);
    InterleavedFloatAt(positions, texcoords, n, i, 1);
    InterleavedFloatAt(positions, texcoords, n, i, 2);
    InterleavedFloatAt(positions, texcoords, n, i, 3);
  }

  /** The descriptors of a tightly packed position-then-texcoord vertex. */
  const InterleavedPosition := Attribute(POSITION_COMPONENTS, VERTEX_COMPONENTS * FLOAT_BYTES, 0)
  const InterleavedTexcoord := Attribute(TEXCOORD_COMPONENTS, VERTEX_COMPONENTS * FLOAT_BYTES,
                                         POSITION_COMPONENTS * FLOAT_BYTES)

  /**
    Reading the interleaved buffer through those two descriptors gives back
    exactly the two tables: the layout and the descriptors agree.
  */
  lemma FetchInterleaved(positions: seq<real>, texcoords: seq<real>, n: nat, i: nat)
    requires |positions| == 2 * n && |texcoords| == 2 * n
    requires i < n
    ensures CanFetch(Interleave(positions, texcoords, n), InterleavedPosition, i)
    ensures CanFetch(Interleave(positions, texcoords, n), InterleavedTexcoord, i)
    ensures Fetch(Interleave(positions, texcoords, n), InterleavedPosition, i) == [positions[2 * i], positions[2 * i + 1]]
    ensures Fetch(Interleave(positions, texcoords, n), InterleavedTexcoord, i) == [texcoords[2 * i], texcoords[2 * i + 1]]
  {
    FirstFloatAt(InterleavedPosition, i, 4, 0);
    FirstFloatAt(InterleavedTexcoord, i, 4, 2);
    InterleaveVertex(positions, texcoords, n, i);
  }

  /**
    The loop that advances the three pointers `vertex`, `position` and
    `texcoord` (as indices) and copies one vertex per iteration.
  */
  method InterleaveInto(vertices: array<real>, positions: seq<real>, texcoords: seq<real>, n: nat)
    requires |positions| == 2 * n && |texcoords| == 2 * n
    requires vertices.Length == 4 * n
    modifies vertices
    ensures vertices[..] == Interleave(positions, texcoords, n)
  {
    var vertex, position, texcoord := 0, 0, 0;
    for i := 0 to n
      invariant vertex == 4 * i
      invariant position == 2 * i && texcoord == 2 * i
      invariant forall j :: 0 <= j < vertex ==> vertices[j] == InterleavedFloat(positions, texcoords, n, j)
    {
      vertices[vertex] := positions[position];
      vertices[vertex + 1] := positions[position + 1];
      vertices[vertex + 2] := texcoords[texcoord];
      vertices[vertex + 3] := texcoords[texcoord + 1];
      InterleavedFloatAt(positions, texcoords, n, i, 0);
      InterleavedFloatAt(positions, texcoords, n, i, 1);
      InterleavedFloatAt(positions, texcoords, n, i, 2);
      InterleavedFloatAt(positions, texcoords, n, i, 3);
      vertex := vertex + VERTEX_COMPONENTS;
      position := position + POSITION_COMPONENTS;
      texcoord := texcoord + TEXCOORD_COMPONENTS;
    }
  }
}
