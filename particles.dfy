/**
  The particle demo's pool: a fixed-capacity float buffer of 8-float records
  (position x, y, z, w, then colour r, g, b, a) whose first `count` records are
  live. Each frame every live particle rises, the ones past the top edge are
  removed by moving the last live record into their slot, and new particles
  are appended below the bottom edge while there is room.
*/
module Particles {
  import opened CTypes
  import opened VertexLayout

  const POSITION_ATTRIBUTE_SIZE: nat := 4
  const COLOUR_ATTRIBUTE_SIZE: nat := 4
  /** Floats per record; record offsets below are written `8 * i` with this value spelled out. */
  const PARTICLE_FLOATS: nat := POSITION_ATTRIBUTE_SIZE + COLOUR_ATTRIBUTE_SIZE
  const PARTICLE_BYTES: nat := 8 * FLOAT_BYTES
  const PARTICLE_SPEED: real := 0.002
  const NEW_PARTICLES_PER_FRAME: nat := 1000

  /** The capacity the demo allocates: the pool is constructed with this size. */
  const PARTICLES_SIZE: nat := 200000

  /** `RAND_MAX` of the WebAssembly C library. */
  const RAND_MAX: nat := 2147483647

  /** The height at which particles are spawned, just below the visible area. */
  const SPAWN_Y: real := -1.1

  datatype Particle = Particle(x: real, y: real, z: real, w: real, r: real, g: real, b: real, a: real)

  /** The eight floats of a record, in buffer order. */
  function Floats(p: Particle): seq<real>
  {
    [p.x, p.y, p.z, p.w, p.r, p.g, p.b, p.a]
  }

  /** Record `i` of a float buffer. */
  function RecordAt(s: seq<real>, i: nat): Particle
    requires 8 * i + 8 <= |s|
  {
    var f := 8 * i;
    Particle(s[f], s[f + 1], s[f + 2], s[f + 3], s[f + 4], s[f + 5], s[f + 6], s[f + 7])
  }

  /** The first `n` records of a float buffer. */
  function Records(s: seq<real>, n: nat): (ps: seq<Particle>)
    requires 8 * n <= |s|
    ensures |ps| == n
    ensures forall i :: 0 <= i < n ==> ps[i] == RecordAt(s, i)
  {
    seq(n, i requires 0 <= i < n => RecordAt(s, i))
  }

  /** The float layout of a sequence of records. */
  function Flatten(ps: seq<Particle>): (s: seq<real>)
    ensures |s| == 8 * |ps|
  {
    if ps == [] then [] else Floats(ps[0]) + Flatten(ps[1..])
  }

  lemma {:induction false} FlattenAppend(ps: seq<Particle>, p: Particle)
    ensures Flatten(ps + [p]) == Flatten(ps) + Floats(p)
  {
    if ps != [] {
      assert (ps + [p])[1..] == ps[1..] + [p];
      FlattenAppend(ps[1..], p);
    }
  }

  /** Reading records out of a float buffer and laying them out again gives the buffer's prefix. */
  lemma {:induction false} FlattenRecords(s: seq<real>, n: nat)
    requires 8 * n <= |s|
    ensures Flatten(Records(s, n)) == s[..8 * n]
  {
    if n > 0 {
      var m := n - 1;
      assert Records(s, n) == Records(s, m) + [RecordAt(s, m)];
      FlattenRecords(s, m);
      FlattenAppend(Records(s, m), RecordAt(s, m));
      assert s[..8 * n] == s[..8 * m] + s[8 * m..8 * n];
    }
  }

  /** A record whose eight floats are those of `p` is `p`. */
  lemma RecordAtFloats(s: seq<real>, i: nat, p: Particle)
    requires 8 * i + 8 <= |s| && s[8 * i..8 * i + 8] == Floats(p)
    ensures RecordAt(s, i) == p
  {
    var r := s[8 * i..8 * i + 8];
    assert s[8 * i] == r[0] && s[8 * i + 1] == r[1] && s[8 * i + 2] == r[2] && s[8 * i + 3] == r[3];
    assert s[8 * i + 4] == r[4] && s[8 * i + 5] == r[5] && s[8 * i + 6] == r[6] && s[8 * i + 7] == r[7];
  }

  /** Laying records out and reading them back gives the same records. */
  lemma RecordsFlatten(ps: seq<Particle>)
    ensures Records(Flatten(ps), |ps|) == ps
  {
    forall i | 0 <= i < |ps| ensures RecordAt(Flatten(ps), i) == ps[i] {
      FlattenSlice(ps, i);
      RecordAtFloats(Flatten(ps), i, ps[i]);
    }
  }

  /** The two `glVertexAttribPointer` calls: stride PARTICLE_BYTES, colour after the 4 position floats. */
  const PositionAttribute := Attribute(POSITION_ATTRIBUTE_SIZE, PARTICLE_BYTES, 0)
  const ColourAttribute := Attribute(COLOUR_ATTRIBUTE_SIZE, PARTICLE_BYTES, POSITION_ATTRIBUTE_SIZE * FLOAT_BYTES)

  /** Floats 8i .. 8i+8 of the layout are record `i`. */
  lemma {:induction false} FlattenSlice(ps: seq<Particle>, i: nat)
    requires i < |ps|
    ensures Flatten(ps)[8 * i..8 * i + 8] == Floats(ps[i])
  {
    var rest := Flatten(ps[1..]);
    assert Flatten(ps) == Floats(ps[0]) + rest;
    if i > 0 {
      FlattenSlice(ps[1..], i - 1);
      assert Flatten(ps)[8 * i..8 * i + 8] == rest[8 * (i - 1)..8 * (i - 1) + 8];
    }
  }

  lemma ParticleFirstFloats(i: nat)
    ensures FirstFloat(PositionAttribute, i) == 8 * i
    ensures FirstFloat(ColourAttribute, i) == 8 * i + 4
  {
    FirstFloatAt(PositionAttribute, i, 8, 0);
    FirstFloatAt(ColourAttribute, i, 8, 4);
  }

  lemma PositionReadsRecord(ps: seq<Particle>, i: nat)
    requires i < |ps|
    ensures CanFetch(Flatten(ps), PositionAttribute, i)
    ensures Fetch(Flatten(ps), PositionAttribute, i) == Floats(ps[i])[..4]
  {
    var s := Flatten(ps);
    ParticleFirstFloats(i);
    FetchAt(s, PositionAttribute, i, 8 * i);
    FlattenSlice(ps, i);
    assert s[8 * i..8 * i + 4] == s[8 * i..8 * i + 8][..4];
  }

  lemma ColourReadsRecord(ps: seq<Particle>, i: nat)
    requires i < |ps|
    ensures CanFetch(Flatten(ps), ColourAttribute, i)
    ensures Fetch(Flatten(ps), ColourAttribute, i) == Floats(ps[i])[4..]
  {
    var s := Flatten(ps);
    ParticleFirstFloats(i);
    FetchAt(s, ColourAttribute, i, 8 * i + 4);
    FlattenSlice(ps, i);
    assert s[8 * i + 4..8 * i + 8] == s[8 * i..8 * i + 8][4..];
  }

  /** The device reads vertex `i` of the uploaded records as particle `i`'s position and colour. */
  lemma AttributesReadRecords(ps: seq<Particle>, i: nat)
    requires i < |ps|
    ensures CanFetch(Flatten(ps), PositionAttribute, i) && CanFetch(Flatten(ps), ColourAttribute, i)
    ensures Fetch(Flatten(ps), PositionAttribute, i) == [ps[i].x, ps[i].y, ps[i].z, ps[i].w]
    ensures Fetch(Flatten(ps), ColourAttribute, i) == [ps[i].r, ps[i].g, ps[i].b, ps[i].a]
  {
    PositionReadsRecord(ps, i);
    ColourReadsRecord(ps, i);
  }

  /** One frame's rise: `y += PARTICLE_SPEED * dt`; no other component changes. */
  function Advanced(p: Particle, dt: real): (q: Particle)
    ensures q.y == p.y + PARTICLE_SPEED * dt
    ensures q.(y := p.y) == p
    ensures dt >= 0.0 ==> q.y >= p.y
  {
    p.(y := p.y + PARTICLE_SPEED * dt)
  }

  /** Past the top edge of clip space; a particle that is not dead has y <= 1. */
  predicate Dead(p: Particle)
    ensures !Dead(p) <==> p.y <= 1.0
  {
    p.y > 1.0
  }

  /** The specification of the removal loop: advance every particle once, keep the ones still visible. */
  function Survivors(ps: seq<Particle>, dt: real): (r: seq<Particle>)
    ensures |r| <= |ps|
  {
    if ps == [] then []
    else
      var p := Advanced(ps[0], dt);
      (if Dead(p) then [] else [p]) + Survivors(ps[1..], dt)
  }

  lemma {:induction false} SurvivorsConcat(xs: seq<Particle>, ys: seq<Particle>, dt: real)
    ensures Survivors(xs + ys, dt) == Survivors(xs, dt) + Survivors(ys, dt)
  {
    if xs == [] {
      assert xs + ys == ys;
    } else {
      assert (xs + ys)[0] == xs[0];
      assert (xs + ys)[1..] == xs[1..] + ys;
      SurvivorsConcat(xs[1..], ys, dt);
    }
  }

  /**
    A particle survives exactly when it is the advance of some particle of the
    frame and is not past the top edge.
  */
  lemma {:induction false} SurvivorsMembers(ps: seq<Particle>, dt: real, p: Particle)
    ensures p in Survivors(ps, dt) <==> !Dead(p) && exists q :: q in ps && p == Advanced(q, dt)
  {
    if ps != [] {
      SurvivorsMembers(ps[1..], dt, p);
      assert forall q :: q in ps <==> q == ps[0] || q in ps[1..];
    }
  }

  /** The live records after the last live record is copied into slot `i` and the count decremented. */
  function RemoveBySwap(ps: seq<Particle>, i: nat): (r: seq<Particle>)
    requires i < |ps|
    ensures |r| == |ps| - 1
  {
    ps[i := ps[|ps| - 1]][..|ps| - 1]
  }

  /**
    Removing a particle that died in slot `i` keeps the finished prefix and
    leaves the same survivors to come: the record moved into slot `i` comes
    from the part not yet visited, so it is still to be advanced exactly once.
  */
  lemma RemoveBySwapKeepsSurvivors(ps: seq<Particle>, i: nat, dt: real)
    requires i < |ps| && Dead(Advanced(ps[i], dt))
    ensures var r := RemoveBySwap(ps[i := Advanced(ps[i], dt)], i);
      r[..i] == ps[..i] && multiset(Survivors(r[i..], dt)) == multiset(Survivors(ps[i..], dt))
  {
    var last := |ps| - 1;
    var r := RemoveBySwap(ps[i := Advanced(ps[i], dt)], i);
    assert Survivors([ps[i]], dt) == [];
    if i == last {
      assert r[i..] == [];
      assert ps[i..] == [ps[i]];
    } else {
      var middle := ps[i + 1..last];
      assert r[i..] == [ps[last]] + middle;
      assert ps[i..] == [ps[i]] + middle + [ps[last]];
      SurvivorsConcat([ps[last]], middle, dt);
      SurvivorsConcat([ps[i]] + middle, [ps[last]], dt);
      SurvivorsConcat([ps[i]], middle, dt);
    }
  }

  /** A random draw: the four `rand()` results one spawn consumes. */
  type RandValue = v: int | 0 <= v <= RAND_MAX

  datatype Draw = Draw(x: RandValue, r: RandValue, g: RandValue, b: RandValue)

  /**
    `spawn_particle`'s record for a draw: x from `rand() / (RAND_MAX / 2) - 1`
    (integer halving), y at SPAWN_Y, z = 0, w = 1, colours `rand() / RAND_MAX`
    and alpha 1.
  */
  function SpawnedParticle(d: Draw): (p: Particle)
    ensures p.y == SPAWN_Y && p.z == 0.0 && p.w == 1.0 && p.a == 1.0
    ensures p.r * RAND_MAX as real == d.r as real && p.g * RAND_MAX as real == d.g as real
    ensures p.b * RAND_MAX as real == d.b as real
    ensures (p.x + 1.0) * (RAND_MAX / 2) as real == d.x as real
  {
    Particle(d.x as real / (RAND_MAX / 2) as real - 1.0, SPAWN_Y, 0.0, 1.0,
             d.r as real / RAND_MAX as real, d.g as real / RAND_MAX as real,
             d.b as real / RAND_MAX as real, 1.0)
  }

  function Spawned(ds: seq<Draw>): (ps: seq<Particle>)
    ensures |ps| == |ds|
  {
    seq(|ds|, j requires 0 <= j < |ds| => SpawnedParticle(ds[j]))
  }

  /**
    A spawned particle starts just below the screen, at z = 0, w = 1, fully
    opaque, with colour channels in [0, 1] and x in [-1, 1 + 1 / (RAND_MAX / 2)].
    The overshoot past 1 is a property of the exact-arithmetic model: the
    integer halving of RAND_MAX rounds down, so rand() = RAND_MAX gives a
    quotient just above 2. In single precision both operands round to 2^31
    and 2^30, so the C value never exceeds 1.
  */
  lemma SpawnedParticleRange(d: Draw)
    ensures var p := SpawnedParticle(d);
      p.y == SPAWN_Y && p.z == 0.0 && p.w == 1.0 && p.a == 1.0 &&
      0.0 <= p.r <= 1.0 && 0.0 <= p.g <= 1.0 && 0.0 <= p.b <= 1.0 &&
      -1.0 <= p.x <= 1.0 + 1.0 / (RAND_MAX / 2) as real
  {
    var half := (RAND_MAX / 2) as real;
    assert RAND_MAX as real == 2.0 * half + 1.0;
    assert d.x as real / half <= (2.0 * half + 1.0) / half;
  }

  function Min(a: int, b: int): int
  {
    if a <= b then a else b
  }

  /** Records `j != i` agree when the buffers differ only inside record `i`. */
  predicate SameOutsideRecord(s: seq<real>, t: seq<real>, i: nat)
  {
    |s| == |t| &&
    forall j :: 0 <= j < |s| && !(8 * i <= j < 8 * i + 8) ==> t[j] == s[j]
  }

  lemma RecordsOutside(s: seq<real>, t: seq<real>, n: nat, i: nat)
    requires SameOutsideRecord(s, t, i) && 8 * n <= |s|
    ensures forall k :: 0 <= k < n && k != i ==> RecordAt(t, k) == RecordAt(s, k)
  {
  }

  /** After `particle[1] += PARTICLE_SPEED * dt` on record `i`, that record has risen and no other changed. */
  lemma RecordsAfterRise(s: seq<real>, t: seq<real>, n: nat, i: nat, dt: real)
    requires 8 * n <= |s| && i < n
    requires |t| == |s| && t[8 * i + 1] == s[8 * i + 1] + PARTICLE_SPEED * dt
    requires forall j :: 0 <= j < |s| && j != 8 * i + 1 ==> t[j] == s[j]
    ensures Records(t, n) == Records(s, n)[i := Advanced(Records(s, n)[i], dt)]
    ensures Dead(Records(t, n)[i]) <==> t[8 * i + 1] > 1.0
  {
    RecordsOutside(s, t, n, i);
  }

  /** After the last of `n` live records is copied over record `i`, the first `n - 1` records are RemoveBySwap. */
  lemma RecordsAfterSwap(s: seq<real>, t: seq<real>, n: nat, i: nat)
    requires 8 * n <= |s| && i < n
    requires SameOutsideRecord(s, t, i) && RecordAt(t, i) == RecordAt(s, n - 1)
    ensures Records(t, n - 1) == RemoveBySwap(Records(s, n), i)
  {
    RecordsOutside(s, t, n, i);
  }

  /** No particle of `ps` is past the top edge. */
  predicate NoneDead(ps: seq<Particle>)
  {
    forall j :: 0 <= j < |ps| ==> !Dead(ps[j])
  }

  /**
    One iteration of the removal loop that keeps the particle in slot `i`:
    the finished prefix grows by its advance and the pending part shrinks.
  */
  lemma KeepStep(ps: seq<Particle>, after: seq<Particle>, i: nat, dt: real)
    requires i < |ps| && !Dead(Advanced(ps[i], dt)) && NoneDead(ps[..i])
    requires after == ps[i := Advanced(ps[i], dt)]
    ensures NoneDead(after[..i + 1])
    ensures multiset(after[..i + 1]) + multiset(Survivors(after[i + 1..], dt)) ==
      multiset(ps[..i]) + multiset(Survivors(ps[i..], dt))
  {
    assert after[..i + 1] == ps[..i] + [Advanced(ps[i], dt)];
    assert after[i + 1..] == ps[i + 1..];
    assert ps[i..][1..] == ps[i + 1..];
  }

  /** One iteration of the removal loop that removes the particle in slot `i`. */
  lemma DropStep(ps: seq<Particle>, after: seq<Particle>, i: nat, dt: real)
    requires i < |ps| && Dead(Advanced(ps[i], dt)) && NoneDead(ps[..i])
    requires after == RemoveBySwap(ps[i := Advanced(ps[i], dt)], i)
    ensures NoneDead(after[..i])
    ensures multiset(after[..i]) + multiset(Survivors(after[i..], dt)) ==
      multiset(ps[..i]) + multiset(Survivors(ps[i..], dt))
  {
    RemoveBySwapKeepsSurvivors(ps, i, dt);
  }

  class ParticlePool {
    /** `particles`: PARTICLE_FLOATS floats per record, `size` records. */
    const particles: array<real>
    /** `particles_size`. */
    const size: nat
    /** `particles_count`. */
    var count: int

    ghost predicate Valid()
      reads this
    {
      0 <= count <= size && particles.Length == 8 * size
    }

    /** The live particles, in slot order. */
    ghost function Live(): seq<Particle>
      reads this, particles
      requires Valid()
    {
      Records(particles[..], count)
    }

    /**
      `malloc(particles_size * PARTICLE_BYTES)` on the zeroed globals; the
      demo passes PARTICLES_SIZE.
    */
    constructor (size: nat)
      ensures Valid() && this.size == size && Live() == [] && fresh(particles)
    {
      this.size := size;
      particles := new real[8 * size];
      count := 0;
    }

    /** `set_particle`: writes the 8 floats of one record, z = 0 and w = 1, and nothing else. */
    method SetParticle(slot: nat, x: real, y: real, r: real, g: real, b: real, a: real)
      requires Valid() && slot < size
      modifies particles
      ensures particles[8 * slot..8 * slot + 8] == [x, y, 0.0, 1.0, r, g, b, a]
      ensures RecordAt(particles[..], slot) == Particle(x, y, 0.0, 1.0, r, g, b, a)
      ensures SameOutsideRecord(old(particles[..]), particles[..], slot)
    {
      var f := 8 * slot;
      particles[f] := x;
      particles[f + 1] := y;
      particles[f + 2] := 0.0;
      particles[f + 3] := 1.0;

      particles[f + 4] := r;
      particles[f + 5] := g;
      particles[f + 6] := b;
      particles[f + 7] := a;
    }

    /** `spawn_particle`, with the `rand()` results as the draw `d`. */
    method SpawnParticle(slot: nat, d: Draw)
      requires Valid() && slot < size
      modifies particles
      ensures RecordAt(particles[..], slot) == SpawnedParticle(d)
      ensures SameOutsideRecord(old(particles[..]), particles[..], slot)
    {
      var x := d.x as real / (RAND_MAX / 2) as real - 1.0;
      var y := SPAWN_Y;
      SetParticle(slot, x, y, d.r as real / RAND_MAX as real, d.g as real / RAND_MAX as real,
                  d.b as real / RAND_MAX as real, 1.0);
    }

    /** `memcpy` of one record from slot `src` to slot `dst`. */
    method CopyRecord(dst: nat, src: nat)
      requires Valid() && dst < size && src < size
      modifies particles
      ensures RecordAt(particles[..], dst) == RecordAt(old(particles[..]), src)
      ensures SameOutsideRecord(old(particles[..]), particles[..], dst)
    {
      forall k | 0 <= k < PARTICLE_FLOATS {
        particles[8 * dst + k] := particles[8 * src + k];
      }
    }

    /** The rise of the removal loop: `particle[1] += PARTICLE_SPEED * dt` on the record in slot `i`. */
    method Rise(i: nat, dt: real)
      requires Valid() && i < count
      modifies particles
      ensures Valid()
      ensures Live() == old(Live())[i := Advanced(old(Live())[i], dt)]
      ensures particles[8 * i + 1] == Live()[i].y
    {
      ghost var s := particles[..];
      var f := 8 * i;
      particles[f + 1] := particles[f + 1] + PARTICLE_SPEED * dt;
      RecordsAfterRise(s, particles[..], count, i, dt);
    }

    /**
      The dead branch of the removal loop: `--particles_count`, then the
      `memcpy` of the last live record over slot `i`.
    */
    method RemoveAt(i: nat)
      requires Valid() && i < count
      modifies this, particles
      ensures Valid() && count == old(count) - 1
      ensures Live() == RemoveBySwap(old(Live()), i)
    {
      ghost var s := particles[..];
      count := count - 1;
      CopyRecord(i, count);
      RecordsAfterSwap(s, particles[..], count + 1, i);
    }

    /**
      The removal loop of the Update block. Each iteration advances the
      particle in slot `i`, then either keeps it and moves on, or overwrites it
      with the last live record and shrinks the live range, so `count - i`
      falls every time. Returns the slot the `particle` pointer is left at.
    */
    method RemoveDead(dt: real) returns (slot: nat)
      requires Valid()
      modifies this, particles
      ensures Valid()
      ensures slot == count <= old(count)
      ensures multiset(Live()) == multiset(Survivors(old(Live()), dt))
      ensures NoneDead(Live())
    {
      ghost var original := Live();
      var i := 0;
      while i < count
        invariant Valid()
        invariant i <= count <= old(count)
        invariant NoneDead(Live()[..i])
        invariant multiset(Live()[..i]) + multiset(Survivors(Live()[i..], dt)) == multiset(Survivors(original, dt))
        decreases count - i
      {
        ghost var before := Live();
        Rise(i, dt);
        if particles[8 * i + 1] > 1.0 {
          RemoveAt(i);
          DropStep(before, Live(), i, dt);
        } else {
          KeepStep(before, Live(), i, dt);
          i := i + 1;
        }
      }
      slot := i;
      assert Live()[..i] == Live();
    }

    /**
      The spawn loop of the Update block: starting at the slot the removal
      loop left the pointer at, append up to NEW_PARTICLES_PER_FRAME records,
      stopping when the pool is full.
    */
    method SpawnNew(slot: nat, draws: seq<Draw>)
      requires Valid() && slot == count
      requires |draws| == NEW_PARTICLES_PER_FRAME
      modifies this, particles
      ensures Valid()
      ensures count == old(count) + Min(NEW_PARTICLES_PER_FRAME, size - old(count))
      ensures Live() == old(Live()) + Spawned(draws[..count - old(count)])
    {
      ghost var start := Live();
      var particle := slot;
      for i := 0 to NEW_PARTICLES_PER_FRAME
        invariant Valid()
        invariant count == old(count) + i && particle == count
        invariant Live() == start + Spawned(draws[..i])
      {
        if count == size {
          break;
        }
        ghost var s0 := particles[..];
        SpawnParticle(particle, draws[i]);
        RecordsOutside(s0, particles[..], count, count);
        particle := particle + 1;
        count := count + 1;
        assert Spawned(draws[..i + 1]) == Spawned(draws[..i]) + [SpawnedParticle(draws[i])];
      }
    }

    /**
      The Update block of the frame: the survivors of the frame, in some order,
      followed directly by as many new particles as fit, at most
      NEW_PARTICLES_PER_FRAME.
    */
    method Update(dt: real, draws: seq<Draw>)
      requires Valid()
      requires |draws| == NEW_PARTICLES_PER_FRAME
      modifies this, particles
      ensures Valid()
      ensures var survivors := Survivors(old(Live()), dt);
        var spawned := Min(NEW_PARTICLES_PER_FRAME, size - |survivors|);
        count == |survivors| + spawned &&
        multiset(Live()[..|survivors|]) == multiset(survivors) &&
        NoneDead(Live()[..|survivors|]) &&
        Live()[|survivors|..] == Spawned(draws[..spawned])
    {
      ghost var survivors := Survivors(Live(), dt);
      var slot := RemoveDead(dt);
      ghost var kept := Live();
      assert |kept| == |multiset(kept)| == |survivors|;
      SpawnNew(slot, draws);
      ghost var spawned := Spawned(draws[..count - |kept|]);
      assert Live() == kept + spawned;
      assert Live()[..|kept|] == kept && Live()[|kept|..] == spawned;
    }

    /**
      The Render block's upload and draw: `particles_count * PARTICLE_BYTES`
      bytes from the start of the buffer and `particles_count` points, so the
      device sees exactly the live records and never a slot past them.
    */
    method Render() returns (uploaded: seq<real>, drawn: int)
      requires Valid()
      ensures uploaded == Flatten(Live())
      ensures |uploaded| * FLOAT_BYTES == count * PARTICLE_BYTES && drawn == count
    {
      uploaded := particles[..8 * count];
      drawn := count;
      FlattenRecords(particles[..], count);
    }
  }
}
