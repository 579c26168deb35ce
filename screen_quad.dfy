/**
  The offscreen-framebuffer demo's fixed data: the blank RGBA texture it
  renders into, the world triangle, and the screen quad through which that
  texture is drawn over the whole clip space.
*/
module ScreenQuad {
  import opened CTypes
  import opened VertexLayout

  const TEXTURE_WIDTH: nat := 128
  const TEXTURE_HEIGHT: nat := 64
  const TEXTURE_BYTES_PER_PIXEL: nat := 4
  const TEXTURE_BYTES: nat := TEXTURE_WIDTH * TEXTURE_HEIGHT * TEXTURE_BYTES_PER_PIXEL

  const TRIANGLE_VERTICES: nat := 3
  const QUAD_VERTICES: nat := TRIANGLE_VERTICES * 2

  const POSITION_BYTES: nat := POSITION_COMPONENTS * FLOAT_BYTES
  const WORLD_TRIANGLE_BYTES: nat := POSITION_BYTES * TRIANGLE_VERTICES

  const TEXCOORD_BYTES: nat := TEXCOORD_COMPONENTS * FLOAT_BYTES
  const SCREEN_QUAD_BYTES: nat := (POSITION_BYTES + TEXCOORD_BYTES) * QUAD_VERTICES

  /** The sizes the buffers are allocated and uploaded with. */
  lemma BufferSizes()
    ensures QUAD_VERTICES == 2 * TRIANGLE_VERTICES == 6
    ensures SCREEN_QUAD_BYTES == VERTEX_COMPONENTS * QUAD_VERTICES * FLOAT_BYTES == 96
    ensures WORLD_TRIANGLE_BYTES == 24
    ensures TEXTURE_BYTES == 32768
  {
  }

  /**
    `malloc(TEXTURE_BYTES)` and `memset(pixels, UINT8_MAX, TEXTURE_BYTES)`:
    an opaque white RGBA texture of TEXTURE_WIDTH x TEXTURE_HEIGHT pixels.
  */
  method BlankPixels() returns (pixels: array<byte>)
    ensures fresh(pixels)
    ensures pixels.Length == TEXTURE_BYTES == TEXTURE_WIDTH * TEXTURE_HEIGHT * 4
    ensures forall i :: 0 <= i < pixels.Length ==> pixels[i] == UINT8_MAX
  {
    pixels := new byte[TEXTURE_BYTES];
    Memset(pixels, UINT8_MAX);
  }

  /** The screen quad's `positions[]`: the clip-space square [-1, 1] x [-1, 1]. */
  function Positions(): (p: seq<real>)
    ensures |p| == POSITION_COMPONENTS * QUAD_VERTICES
    ensures forall j :: 0 <= j < |p| ==> p[j] == -1.0 || p[j] == 1.0
  {
    [1.0, 1.0,  -1.0, 1.0,  -1.0, -1.0,  1.0, 1.0,  -1.0, -1.0,  1.0, -1.0]
  }

  /** The screen quad's `texcoords[]`: the unit square. */
  function Texcoords(): (t: seq<real>)
    ensures |t| == TEXCOORD_COMPONENTS * QUAD_VERTICES
    ensures forall j :: 0 <= j < |t| ==> t[j] == 0.0 || t[j] == 1.0
  {
    [1.0, 1.0,  0.0, 1.0,  0.0, 0.0,  1.0, 1.0,  0.0, 0.0,  1.0, 0.0]
  }

  /** The world triangle's `positions[]`, uploaded as WORLD_TRIANGLE_BYTES. */
  function WorldPositions(): (p: seq<real>)
    ensures |p| * FLOAT_BYTES == WORLD_TRIANGLE_BYTES
  {
    [0.5, 1.0,  0.0, 0.0,  1.0, 0.0]
  }

  /** The world program reads tightly packed positions. */
  const WorldPositionAttribute := Attribute(POSITION_COMPONENTS, POSITION_BYTES, 0)

  /** The screen program's two descriptors, set on every frame. */
  const ScreenPositionAttribute := Attribute(POSITION_COMPONENTS, POSITION_BYTES + TEXCOORD_BYTES, 0)
  const ScreenTexcoordAttribute := Attribute(TEXCOORD_COMPONENTS, POSITION_BYTES + TEXCOORD_BYTES, POSITION_BYTES)

  /** The world descriptor reads the three triangle vertices back. */
  lemma WorldAttributeReadsTriangle(i: nat)
    requires i < TRIANGLE_VERTICES
    ensures CanFetch(WorldPositions(), WorldPositionAttribute, i)
    ensures Fetch(WorldPositions(), WorldPositionAttribute, i) == [Pair(WorldPositions(), i).0, Pair(WorldPositions(), i).1]
  {
    assert FirstFloat(WorldPositionAttribute, i) == 2 * i;
  }

  function ScreenVertices(): seq<real>
  {
    Interleave(Positions(), Texcoords(), QUAD_VERTICES)
  }

  /**
    `malloc(SCREEN_QUAD_BYTES)` and the interleave loop: the buffer is filled
    exactly, never overrun.
  */
  method SetupScreenVertices() returns (vertices: array<real>)
    ensures fresh(vertices)
    ensures vertices.Length * FLOAT_BYTES == SCREEN_QUAD_BYTES
    ensures vertices[..] == ScreenVertices()
  {
    vertices := new real[SCREEN_QUAD_BYTES / FLOAT_BYTES];
    InterleaveInto(vertices, Positions(), Texcoords(), QUAD_VERTICES);
  }

  /**
    Every position is 2 * texcoord - 1, so the texture's [0, 1]^2 is stretched
    over clip space [-1, 1]^2; conversely texcoord = (position + 1) / 2.
  */
  lemma PositionIsAffineTexcoord()
    ensures forall i :: 0 <= i < QUAD_VERTICES ==>
      Pair(Positions(), i) == (2.0 * Pair(Texcoords(), i).0 - 1.0, 2.0 * Pair(Texcoords(), i).1 - 1.0)
    ensures forall i :: 0 <= i < QUAD_VERTICES ==>
      Pair(Texcoords(), i) == ((Pair(Positions(), i).0 + 1.0) / 2.0, (Pair(Positions(), i).1 + 1.0) / 2.0)
  {
    forall i | 0 <= i < QUAD_VERTICES
      ensures Pair(Positions(), i) == (2.0 * Pair(Texcoords(), i).0 - 1.0, 2.0 * Pair(Texcoords(), i).1 - 1.0)
      ensures Pair(Texcoords(), i) == ((Pair(Positions(), i).0 + 1.0) / 2.0, (Pair(Positions(), i).1 + 1.0) / 2.0)
    {
      assert i == 0 || i == 1 || i == 2 || i == 3 || i == 4 || i == 5;
    }
  }

  /** Vertex 0 repeats as vertex 3 and vertex 2 as vertex 4 in the buffer. */
  lemma QuadSharesDiagonal()
    ensures var v := ScreenVertices(); v[0..4] == v[12..16] && v[8..12] == v[16..20]
  {
    InterleaveVertex(Positions(), Texcoords(), QUAD_VERTICES, 0);
    InterleaveVertex(Positions(), Texcoords(), QUAD_VERTICES, 2);
    InterleaveVertex(Positions(), Texcoords(), QUAD_VERTICES, 3);
    InterleaveVertex(Positions(), Texcoords(), QUAD_VERTICES, 4);
  }

  /**
    Stride POSITION_BYTES + TEXCOORD_BYTES with the texture coordinate at
    offset POSITION_BYTES reads vertex `i` of the interleaved buffer back.
  */
  lemma ScreenAttributesReadVertices(i: nat)
    requires i < QUAD_VERTICES
    ensures CanFetch(ScreenVertices(), ScreenPositionAttribute, i)
    ensures CanFetch(ScreenVertices(), ScreenTexcoordAttribute, i)
    ensures Fetch(ScreenVertices(), ScreenPositionAttribute, i) == [Pair(Positions(), i).0, Pair(Positions(), i).1]
    ensures Fetch(ScreenVertices(), ScreenTexcoordAttribute, i) == [Pair(Texcoords(), i).0, Pair(Texcoords(), i).1]
  {
    assert ScreenPositionAttribute == InterleavedPosition && ScreenTexcoordAttribute == InterleavedTexcoord;
    FetchInterleaved(Positions(), Texcoords(), QUAD_VERTICES, i);
  }
}
