/**
  The text demo's geometry: one quad, as two triangles, covering the bitmap
  of the single rasterised glyph, with texture coordinates spanning the
  glyph texture. The glyph bitmap's width and height come from the font
  rasteriser and are inputs here.
*/
module GlyphQuad {
  import opened CTypes
  import opened VertexLayout

  const COMPONENT_BYTES: nat := FLOAT_BYTES
  const VERTEX_BYTES: nat := VERTEX_COMPONENTS * COMPONENT_BYTES
  const QUAD_VERTICES: nat := 6
  const QUAD_BYTES: nat := QUAD_VERTICES * VERTEX_BYTES

  /** The `positions[]` table: the glyph's pixel rectangle [0, w] x [0, h]. */
  function Positions(glyphWidth: nat, glyphHeight: nat): (p: seq<real>)
    ensures |p| == POSITION_COMPONENTS * QUAD_VERTICES
    ensures forall j :: 0 <= j < |p| ==>
      p[j] == 0.0 || p[j] == (if j % 2 == 0 then glyphWidth else glyphHeight) as real
  {
    var w, h := glyphWidth as real, glyphHeight as real;
    [w, h,  0.0, h,  0.0, 0.0,  w, h,  0.0, 0.0,  w, 0.0]
  }

  /** The `texcoords[]` table: the unit square. */
  function Texcoords(): (t: seq<real>)
    ensures |t| == TEXCOORD_COMPONENTS * QUAD_VERTICES
    ensures forall j :: 0 <= j < |t| ==> t[j] == 0.0 || t[j] == 1.0
  {
    [1.0, 1.0,  0.0, 1.0,  0.0, 0.0,  1.0, 1.0,  0.0, 0.0,  1.0, 0.0]
  }

  /** The two `glVertexAttribPointer` calls of the vertex buffer setup. */
  const PositionAttribute := Attribute(POSITION_COMPONENTS, VERTEX_BYTES, 0)
  const TexcoordAttribute := Attribute(TEXCOORD_COMPONENTS, VERTEX_BYTES, POSITION_COMPONENTS * COMPONENT_BYTES)

  /** The interleaved buffer the setup builds for a glyph of the given size. */
  function GlyphVertices(glyphWidth: nat, glyphHeight: nat): seq<real>
  {
    Interleave(Positions(glyphWidth, glyphHeight), Texcoords(), QUAD_VERTICES)
  }

  /**
    `malloc(VERTEX_BYTES * QUAD_VERTICES)` followed by the interleave loop:
    exactly QUAD_VERTICES * VERTEX_COMPONENTS = 24 floats, every one written.
  */
  method SetupVertices(glyphWidth: nat, glyphHeight: nat) returns (vertices: array<real>)
    ensures fresh(vertices)
    ensures vertices.Length == QUAD_VERTICES * VERTEX_COMPONENTS == 24
    ensures vertices.Length * COMPONENT_BYTES == VERTEX_BYTES * QUAD_VERTICES == QUAD_BYTES
    ensures vertices[..] == GlyphVertices(glyphWidth, glyphHeight)
  {
    vertices := new real[VERTEX_BYTES * QUAD_VERTICES / COMPONENT_BYTES];
    InterleaveInto(vertices, Positions(glyphWidth, glyphHeight), Texcoords(), QUAD_VERTICES);
  }

  /** Each vertex's position is its texture coordinate scaled by (w, h). */
  lemma PositionIsScaledTexcoord(glyphWidth: nat, glyphHeight: nat)
    ensures forall i :: 0 <= i < QUAD_VERTICES ==>
      Pair(Positions(glyphWidth, glyphHeight), i) ==
        (Pair(Texcoords(), i).0 * glyphWidth as real, Pair(Texcoords(), i).1 * glyphHeight as real)
  {
    forall i | 0 <= i < QUAD_VERTICES
      ensures Pair(Positions(glyphWidth, glyphHeight), i) ==
        (Pair(Texcoords(), i).0 * glyphWidth as real, Pair(Texcoords(), i).1 * glyphHeight as real)
    {
      assert i == 0 || i == 1 || i == 2 || i == 3 || i == 4 || i == 5;
    }
  }

  /** The corners of the glyph rectangle. */
  function Corners(glyphWidth: nat, glyphHeight: nat): set<(real, real)>
  {
    var w, h := glyphWidth as real, glyphHeight as real;
    {(0.0, 0.0), (w, 0.0), (0.0, h), (w, h)}
  }

  /**
    The six positions are exactly the four corners of [0, w] x [0, h]: every
    position is a corner and every corner occurs.
  */
  lemma PositionsAreCorners(glyphWidth: nat, glyphHeight: nat)
    ensures forall i :: 0 <= i < QUAD_VERTICES ==>
      Pair(Positions(glyphWidth, glyphHeight), i) in Corners(glyphWidth, glyphHeight)
    ensures forall c :: c in Corners(glyphWidth, glyphHeight) ==>
      exists i :: 0 <= i < QUAD_VERTICES && Pair(Positions(glyphWidth, glyphHeight), i) == c
  {
    var p, w, h := Positions(glyphWidth, glyphHeight), glyphWidth as real, glyphHeight as real;
    forall i | 0 <= i < QUAD_VERTICES
      ensures Pair(p, i) in Corners(glyphWidth, glyphHeight)
    {
      assert i == 0 || i == 1 || i == 2 || i == 3 || i == 4 || i == 5;
    }
    assert Pair(p, 2) == (0.0, 0.0) && Pair(p, 5) == (w, 0.0);
    assert Pair(p, 1) == (0.0, h) && Pair(p, 0) == (w, h);
  }

  /** Twice the signed area of triangle (a, b, c); positive when counter-clockwise. */
  function DoubledArea(a: (real, real), b: (real, real), c: (real, real)): real
  {
    (b.0 - a.0) * (c.1 - a.1) - (b.1 - a.1) * (c.0 - a.0)
  }

  /**
    The quad is two triangles, (0, 1, 2) and (3, 4, 5), that share the
    diagonal from (w, h) to (0, 0): vertex 0 repeats as vertex 3 and vertex 2
    as vertex 4 in the buffer. Both wind the same way and each covers half of
    the w x h rectangle.
  */
  lemma QuadIsTwoTriangles(glyphWidth: nat, glyphHeight: nat)
    ensures var v := GlyphVertices(glyphWidth, glyphHeight);
      v[0..4] == v[12..16] && v[8..12] == v[16..20]
    ensures var p, w, h := Positions(glyphWidth, glyphHeight), glyphWidth as real, glyphHeight as real;
      DoubledArea(Pair(p, 0), Pair(p, 1), Pair(p, 2)) == w * h &&
      DoubledArea(Pair(p, 3), Pair(p, 4), Pair(p, 5)) == w * h
  {
    var positions, texcoords := Positions(glyphWidth, glyphHeight), Texcoords();
    InterleaveVertex(positions, texcoords, QUAD_VERTICES, 0);
    InterleaveVertex(positions, texcoords, QUAD_VERTICES, 2);
    InterleaveVertex(positions, texcoords, QUAD_VERTICES, 3);
    InterleaveVertex(positions, texcoords, QUAD_VERTICES, 4);
  }

  /**
    The descriptors read vertex `i` back: stride VERTEX_BYTES, and the texture
    coordinate POSITION_COMPONENTS * COMPONENT_BYTES bytes into the vertex.
  */
  lemma AttributesReadVertices(glyphWidth: nat, glyphHeight: nat, i: nat)
    requires i < QUAD_VERTICES
    ensures var v := GlyphVertices(glyphWidth, glyphHeight);
      CanFetch(v, PositionAttribute, i) && CanFetch(v, TexcoordAttribute, i) &&
      Fetch(v, PositionAttribute, i) == [Pair(Positions(glyphWidth, glyphHeight), i).0, Pair(Positions(glyphWidth, glyphHeight), i).1] &&
      Fetch(v, TexcoordAttribute, i) == [Pair(Texcoords(), i).0, Pair(Texcoords(), i).1]
  {
    assert PositionAttribute == InterleavedPosition && TexcoordAttribute == InterleavedTexcoord;
    FetchInterleaved(Positions(glyphWidth, glyphHeight), Texcoords(), QUAD_VERTICES, i);
  }
}
