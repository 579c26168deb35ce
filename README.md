# WebGL/SDL demo kernels in Dafny

The repository is a set of small C programs compiled to WebAssembly. Each one
opens an SDL window with a GL ES context and draws something every animation
frame: a particle fountain, one glyph rendered through FreeType, and a
triangle rendered into an offscreen framebuffer then drawn to the screen.
Almost all of it is calls into SDL, GL or FreeType. The part with logic of its
own, which this project models and proves things about, is:

- **The particle pool** (`code/particles.c`). A buffer of `particles_size`
  records of eight floats each (x, y, z, w, r, g, b, a), of which the first
  `particles_count` are live. Each frame:
  - every live particle rises by `PARTICLE_SPEED * dt`;
  - one that passes the top edge (y > 1) is overwritten by the last live
    record, and the live count drops;
  - up to `NEW_PARTICLES_PER_FRAME` new particles are appended while there is
    room;
  - the live records are uploaded and drawn as points.

  `Particles.ParticlePool` is a class over an `array<real>` with a `count`
  field. Each method is proved against a view of the array, the sequence
  `Live()` of its live records:
  - the removal loop is proved to leave exactly the frame's survivors, as a
    multiset (the order changes), with no particle above the top edge;
  - the spawn loop is proved to append exactly the spawned records, without
    passing the capacity;
  - the upload is proved to see the live records and nothing past them.
- **Interleaved vertex buffers** (`code/text.c`, `code/fbo.c`). A table of
  positions and a table of texture coordinates are copied into one buffer of
  four floats per vertex, by a loop that advances three pointers. The
  attribute descriptors given to GL are proved to read each vertex back. The
  quads are proved to be two triangles sharing a diagonal, with positions that
  are a fixed scaling (glyph) or affine image (screen) of their texture
  coordinates. The blank texture is proved to be fully white.
- **Shader source clean-up** (`code/gl.c:68-75`). A write pointer walks the file
  buffer up to the first NUL or non-ASCII byte, and a NUL is written there.
  The result is proved to be the longest ASCII prefix, with nothing else
  changed, and the clean-up is proved idempotent.
- **Frame timing** (`code/timing.c`). `update_timing` shifts the frame times,
  returns the frame duration, and publishes and resets the FPS counter once
  for every whole second accumulated.

The text demo has no glyph atlas, string layout or quad batching. It loads
and draws the single glyph 'Q'. That one glyph's quad is what the model
covers.

Times, coordinates and colours are `real`. Bytes are `CTypes.byte`. Values
that come from outside become parameters:
- `rand()` results (`Particles.Draw`);
- the frame callback's time;
- the glyph bitmap's width and height;
- the shader file's bytes.

One behaviour of `update_timing` is easy to misread. When a frame accumulates
two or more whole seconds, the second pass of the loop copies the counter that
the first pass reset. `current_fps` then ends at 0, not at the previous `fps`.
`FrameTiming.Timing.UpdateTiming` states the cases k = 0, k = 1 and k >= 2
separately.

## Model

| member | source | states |
|---|---|---|
| CTypes.Memset | code/fbo.c:267 | every byte of the buffer holds the fill value |
| VertexLayout.FirstFloatAt | code/text.c:291-298 | an attribute with stride and offset in whole floats starts vertex v at offset + v * stride floats |
| VertexLayout.Fetch | code/text.c:291-298 | what `glVertexAttribPointer` makes the device read for vertex v: the `components` floats starting at FirstFloat(a, v), float c of the value being buffer[FirstFloat(a, v) + c] |
| VertexLayout.Interleave | code/text.c:270-279 | the interleaved buffer of n vertices: 4 floats per vertex, 4n in all; vertex i's floats are pinned down by InterleaveVertex |
| VertexLayout.InterleaveVertex | code/text.c:270-279 | floats 4i .. 4i+4 of the interleaved buffer are pos[2i], pos[2i+1], tex[2i], tex[2i+1] |
| VertexLayout.FetchInterleaved | code/text.c:291-298 | reading the interleaved buffer through the position and texcoord descriptors gives back exactly the two table entries of each vertex |
| VertexLayout.InterleaveInto | code/text.c:266-279 | the three-pointer copy loop leaves the buffer equal to the interleaving of the two tables, every float written |
| GlyphQuad.SetupVertices | code/text.c:264-279 | the buffer holds QUAD_VERTICES * VERTEX_COMPONENTS = 24 floats, exactly VERTEX_BYTES * QUAD_VERTICES = QUAD_BYTES bytes, all of them the interleaved glyph quad |
| GlyphQuad.Positions | code/text.c:236-248 | the six (x, y) pairs of `positions[]` in source order, (w, h), (0, h), (0, 0), (w, h), (0, 0), (w, 0): 12 floats, every x either 0 or glyph_width and every y either 0 or glyph_height |
| GlyphQuad.Texcoords | code/text.c:250-262 | the six (s, t) pairs of `texcoords[]` in source order, (1, 1), (0, 1), (0, 0), (1, 1), (0, 0), (1, 0): 12 floats, each 0 or 1 |
| GlyphQuad.PositionIsScaledTexcoord | code/text.c:236-262 | each vertex position is its texture coordinate scaled by (glyph_width, glyph_height) |
| GlyphQuad.PositionsAreCorners | code/text.c:236-248 | the six positions are exactly the four corners of [0, w] x [0, h]: each position is a corner and each corner occurs |
| GlyphQuad.QuadIsTwoTriangles | code/text.c:236-248 | vertex 0 repeats as vertex 3 and vertex 2 as vertex 4 in the buffer, and both triangles have the same winding and doubled area w * h |
| GlyphQuad.AttributesReadVertices | code/text.c:291-298 | stride VERTEX_BYTES with the texcoord at POSITION_COMPONENTS * COMPONENT_BYTES reads back each vertex's position and texcoord |
| ScreenQuad.BufferSizes | code/fbo.c:18-32 | QUAD_VERTICES = 2 * TRIANGLE_VERTICES = 6; SCREEN_QUAD_BYTES = 96 is four floats per vertex; WORLD_TRIANGLE_BYTES = 24; TEXTURE_BYTES = 32768 |
| ScreenQuad.BlankPixels | code/fbo.c:266-267 | the pixel buffer has TEXTURE_WIDTH * TEXTURE_HEIGHT * 4 bytes, all UINT8_MAX |
| ScreenQuad.Positions | code/fbo.c:300-312 | the six (x, y) pairs of the screen quad's `positions[]` in source order, (1, 1), (-1, 1), (-1, -1), (1, 1), (-1, -1), (1, -1): 12 floats, each -1 or 1 |
| ScreenQuad.Texcoords | code/fbo.c:314-326 | the six (s, t) pairs of the screen quad's `texcoords[]` in source order, the same unit-square table as the glyph's: 12 floats, each 0 or 1 |
| ScreenQuad.WorldPositions | code/fbo.c:356-370 | the world triangle table is WORLD_TRIANGLE_BYTES long |
| ScreenQuad.WorldAttributeReadsTriangle | code/fbo.c:108-110 | the tightly packed world descriptor reads back each of the three triangle vertices |
| ScreenQuad.SetupScreenVertices | code/fbo.c:328-343 | the buffer of SCREEN_QUAD_BYTES is filled exactly by the interleaved screen quad |
| ScreenQuad.PositionIsAffineTexcoord | code/fbo.c:300-326 | every position is 2 * texcoord - 1 and every texcoord is (position + 1) / 2, so the texture's unit square covers clip space |
| ScreenQuad.QuadSharesDiagonal | code/fbo.c:300-326 | in the screen buffer vertex 0 repeats as vertex 3 and vertex 2 as vertex 4 |
| ScreenQuad.ScreenAttributesReadVertices | code/fbo.c:132-139 | stride POSITION_BYTES + TEXCOORD_BYTES with the texcoord at POSITION_BYTES reads back each vertex |
| ShaderSource.FirstStop | code/gl.c:72 | the scan stops at a NUL or a byte above 127, and every byte before it is in 1..127 |
| ShaderSource.IsStop | code/gl.c:72 | the loop condition's negation: the scan stops at NUL or at a byte above 127, and passes exactly the bytes 1..127 |
| ShaderSource.ScanEnd | code/gl.c:72 | where the unbounded scan started at `write` ends: between `write` and the buffer's size, the size meaning it went on to read the byte after the buffer |
| ShaderSource.Scrubbed | code/gl.c:68-75 | the buffer after the clean-up: same length, the first stop byte NUL, every other byte unchanged |
| ShaderSource.CString | code/gl.c:77 | the string the compiler receives is a prefix of the buffer with no NUL in it |
| ShaderSource.ScrubbedChangesOnlyStop | code/gl.c:68-75 | only the stop byte can change: it becomes NUL (no change when it already is one); bytes before and after keep their values |
| ShaderSource.ScrubbedStringIsAsciiPrefix | code/gl.c:68-75 | the cleaned string is the buffer up to the first stop byte, all ASCII, and a prefix of the string the buffer held before |
| ShaderSource.ScrubIdempotent | code/gl.c:68-75 | cleaning a cleaned buffer changes nothing |
| ShaderSource.RemoveNonAscii | code/gl.c:68-75 | the write-pointer loop and the final store leave the buffer equal to the cleaned buffer, given a stop byte inside it |
| ShaderSource.ScanEndIsFirstStop | code/gl.c:72 | inside a buffer that holds a stop byte the unbounded scan ends at the first one |
| ShaderSource.ReadAsWritten | code/gl.c:60-63 | the buffer has exactly the file's size, with no room for a terminator |
| ShaderSource.AsWrittenScanOverruns | code/gl.c:60-72 | for a file of plain ASCII the buffer holds no stop byte and the scan reaches code[size], past the allocation |
| ShaderSource.AsWrittenOverrunExample | code/gl.c:60-72 | the bytes of "void main(){}" make the scan run to index 13 of a 13-byte buffer |
| ShaderSource.ReadTerminated | code/gl.c:60-63 | the corrected read keeps the file's bytes and adds a NUL after them |
| ShaderSource.TerminatedScanInBounds | code/gl.c:60-75 | with the terminator the scan ends inside the buffer, at the first non-ASCII or NUL byte of the file or at the terminator, and the compiled string is that ASCII prefix of the file |
| ShaderSource.LoadShaderCode | code/gl.c:60-75 | reading with a terminator and cleaning gives the cleaned terminated file |
| FrameTiming.WholeSeconds | code/timing.c:19-24 | the loop runs zero times exactly when the accumulated time is under a second, and otherwise leaves a remainder in [0, ONE_SECOND) |
| FrameTiming.WholeSecondsUnique | code/timing.c:19-24 | any positive count that leaves a remainder in [0, ONE_SECOND) is WholeSeconds |
| FrameTiming.Timing.constructor | code/main.c:11-15 | the record as each demo starts it: fps_timer, fps and current_fps zero (the zero-initialised globals here; the `memset` of the globals at code/particles.c:151 and code/fbo.c:158) and frame_start_time the first `emscripten_performance_now()` (code/main.c:67, code/particles.c:255, code/fbo.c:374) |
| FrameTiming.Timing.UpdateTiming | code/timing.c:12-27 | previous start becomes the old start and the start becomes `time`; dt = time - old start; fps_timer = old fps_timer + dt - k * ONE_SECOND < ONE_SECOND and non-negative when old fps_timer + dt is; k = 0 keeps fps and current_fps, k = 1 publishes fps and resets it, k >= 2 leaves both 0; fps is never incremented |
| FrameTiming.Timing.CountFrame | code/particles.c:143 | `++fps` after drawing, and nothing else changes |
| Particles.FlattenRecords | code/particles.c:134-136 | the first 8 * count floats of the buffer are the layout of its first count records |
| Particles.RecordsFlatten | code/particles.c:14-17 | laying records out 8 floats each and reading them back gives the same records |
| Particles.ParticleFirstFloats | code/particles.c:244-251 | the position descriptor starts vertex i at float 8i and the colour descriptor at 8i + 4 |
| Particles.PositionReadsRecord | code/particles.c:244-246 | the position descriptor reads floats 0..4 of record i |
| Particles.ColourReadsRecord | code/particles.c:248-251 | the colour descriptor reads floats 4..8 of record i |
| Particles.AttributesReadRecords | code/particles.c:244-251 | the device reads vertex i as particle i's (x, y, z, w) and (r, g, b, a) |
| Particles.Advanced | code/particles.c:104 | `particle[1] += PARTICLE_SPEED * dt`: y rises by PARTICLE_SPEED * dt (never falls for dt >= 0) and no other component changes |
| Particles.Dead | code/particles.c:106 | the removal test `particle[1] > 1.0f`: a particle that is not dead has y <= 1 |
| Particles.Survivors | code/particles.c:103-117 | the frame's survivors are at most as many as the particles |
| Particles.SurvivorsMembers | code/particles.c:104-106 | a particle survives exactly when it is the rise of a particle of the frame and is not above y = 1 |
| Particles.RemoveBySwap | code/particles.c:107-112 | overwriting slot i with the last record and dropping the last leaves one record fewer |
| Particles.RemoveBySwapKeepsSurvivors | code/particles.c:107-112 | after a removal by swap the visited prefix is unchanged and the records still to visit have the same survivors as a multiset |
| Particles.SpawnedParticle | code/particles.c:64-72 | the record `spawn_particle` writes for a draw: y = -1.1, z = 0, w = 1, alpha 1, each colour channel the draw divided by RAND_MAX, and x + 1 the draw divided by the integer RAND_MAX / 2 |
| Particles.SpawnedParticleRange | code/particles.c:64-72 | a spawned record has y = -1.1, z = 0, w = 1, alpha = 1, colour channels in [0, 1] and x in [-1, 1 + 1 / (RAND_MAX / 2)] |
| Particles.RecordsAfterRise | code/particles.c:104 | the store to float 1 of record i raises record i alone, and the death test on that float is Dead |
| Particles.RecordsAfterSwap | code/particles.c:107-112 | after the memcpy of the last live record over record i, the remaining live records are RemoveBySwap of the old ones |
| Particles.KeepStep | code/particles.c:113-116 | keeping a particle moves its rise from the pending part to the visited prefix, with no change in the multiset the loop builds |
| Particles.DropStep | code/particles.c:106-112 | removing a particle keeps the visited prefix and the multiset the loop builds |
| Particles.ParticlePool.constructor | code/particles.c:162-165 | a pool of `particles_size` records, none live |
| Particles.ParticlePool.SetParticle | code/particles.c:50-62 | the eight floats of the slot become x, y, 0, 1, r, g, b, a in that order, and no other float changes |
| Particles.ParticlePool.SpawnParticle | code/particles.c:64-72 | the slot holds the spawned record for the draw, and no other float changes |
| Particles.ParticlePool.CopyRecord | code/particles.c:109-112 | the destination record becomes the source record, and no other float changes |
| Particles.ParticlePool.Rise | code/particles.c:104 | the live records change only by the rise of record i |
| Particles.ParticlePool.RemoveAt | code/particles.c:106-112 | the live count drops by one and the live records become RemoveBySwap of the old ones |
| Particles.ParticlePool.RemoveDead | code/particles.c:100-117 | the loop terminates as count - i falls; afterwards the live records are, as a multiset, exactly the survivors of the frame, none is above y = 1, and the pointer is at slot count |
| Particles.ParticlePool.SpawnNew | code/particles.c:119-125 | count grows by min(NEW_PARTICLES_PER_FRAME, size - count), the old records stay, and the spawned records follow them in draw order |
| Particles.ParticlePool.Update | code/particles.c:99-126 | the live records are the survivors, in some order and none above y = 1, followed by min(NEW_PARTICLES_PER_FRAME, size - survivors) spawned records; count <= size |
| Particles.ParticlePool.Render | code/particles.c:134-138 | the upload is count * PARTICLE_BYTES bytes from the start, the layout of exactly the live records, and count points are drawn |

## Left out

- FreeType: loading the face and rasterising 'Q' are library calls. The bitmap's width and height are inputs.
- GL calls: shader compile and link, textures, framebuffer status, buffer uploads, draws and viewports. Their effect is the driver's. What the model keeps is the contents of the buffers handed over and the attribute descriptors.
- The orthographic projection matrix of the text demo: float division, and its meaning depends on the GPU's matrix-order convention.
- The point-size clamp of the particle demo: it depends on a GL query.
- `rand()`: its results are the draws passed to `SpawnNew`, not a generator.
- Float rounding: particle coordinates, colours and times are `real`. `PARTICLE_SPEED * dt` is exact here, and the death test sees no rounding.
- Particles.SpawnedParticleRange: its upper bound on x, 1 + 1 / (RAND_MAX / 2), belongs to the exact-arithmetic model. In C, `(float)rand()` is at most 2^31 and `(float)(RAND_MAX / 2)` rounds to 2^30, so the spawned x never exceeds 1.0f; the model does not capture that rounding.
- FrameTiming.Timing.UpdateTiming: the loop cannot fail to end, because times are `real`. The C loop on a very large `double` could subtract ONE_SECOND without changing the value.
- The SDL window and context setup, the audio demo, `main.c`'s callback registration, the `EM_ASM` JavaScript and the keyboard quit check: I/O.
- The timing copies inlined in `main.c`, `particles.c` and `fbo.c`: the same loop as `update_timing`. The last two keep no `current_fps` and print instead, so compared with `UpdateTiming` they lack that one field.
- Particles.ParticlePool.RemoveDead: when the dying particle is the last live one, the C `memcpy` copies a record onto itself. Overlapping `memcpy` is undefined in C, and it is modelled as the no-op it is meant to be.
- The pool's records are floats in one `array<real>`, as in the source. `malloc` leaves their contents undetermined, and the constructor states nothing about them either. Only the first `count` records are ever read.
- The file handling of `load_shader_from_file`: `fopen`, `ftell`, the asserts and the error message. The file's bytes are an input.
- The composition of a whole frame in `main_loop`: the update, render and frame-count steps are each modelled, but not chained in one method.

## Findings

| source | as written | input that shows it | evidently intended | confidence | as-written member | corrected member |
|---|---|---|---|---|---|---|
| code/gl.c:60-72 | the buffer is `malloc(size)` and filled with exactly the file's bytes, then scanned with `while (*write != '\0' && *write <= 127)` with no bound | any plain-ASCII shader file, e.g. the 13 bytes of "void main(){}": no byte stops the scan, which then reads `code[13]` past the allocation | allocate `size + 1` bytes and store a NUL at `code[size]`, so the scan always stops inside the buffer | high, not executed | ShaderSource.AsWrittenScanOverruns | ShaderSource.TerminatedScanInBounds |
