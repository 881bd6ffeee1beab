/**
 * The ParticleSystem class of Particlesim.py: the list of live particles,
 * the pixel painter's colour cycler and the simulated beat. Update is
 * proved against Population.Tick, the emitters against Emitters.Batch,
 * and the cycler against Palette.
 */
module Sandbox {
  import opened Common
  import opened Step
  import opened Particles
  import opened Population
  import opened Emitters

  /** The pixel painter's colour table: red, green, blue, yellow, cyan, magenta. */
  const PIXEL_COLORS: seq<Color> :=
    [RGB(255, 0, 0), RGB(0, 255, 0), RGB(0, 0, 255), RGB(255, 255, 0), RGB(0, 255, 255), RGB(255, 0, 255)]

  /** How far the beat oscillator's phase advances per tick. */
  const BEAT_FREQUENCY: real := 0.05

  /** The colours `n` successive calls of the cycler hand out from table `t`, starting at index `i`. */
  function Palette(t: seq<Color>, i: nat, n: nat): (r: seq<Color>)
    requires i < |t|
    ensures |r| == n
    decreases n
  {
    if n == 0 then [] else [t[i]] + Palette(t, (i + 1) % |t|, n - 1)
  }

  /** With a six-colour table, the k-th of n successive calls hands out the entry k places after the starting index, wrapping around. */
  lemma {:induction false} PaletteAt(t: seq<Color>, i: nat, n: nat, k: nat)
    requires |t| == 6 && i < |t| && k < n
    ensures Palette(t, i, n)[k] == t[(i + k) % 6]
    decreases n
  {
    if k > 0 {
      var j := (i + 1) % 6;
      PaletteAt(t, j, n - 1, k - 1);
      if i + 1 < 6 {
        assert j == i + 1;
      } else {
        assert j == 0 && (i + k) % 6 == (k - 1) % 6;
      }
    }
  }

  /**
   * The colours cycle in table order: any six successive calls hand out the
   * whole table once, rotated to start at the current index, and leave the
   * index where it was.
   */
  lemma SixCallsRotateTable(i: nat)
    requires i < |PIXEL_COLORS|
    ensures Palette(PIXEL_COLORS, i, 6) == PIXEL_COLORS[i..] + PIXEL_COLORS[..i]
    ensures (i + 6) % |PIXEL_COLORS| == i
  {
    forall k | 0 <= k < 6
      ensures Palette(PIXEL_COLORS, i, 6)[k] == (PIXEL_COLORS[i..] + PIXEL_COLORS[..i])[k]
    {
      PaletteAt(PIXEL_COLORS, i, 6, k);
      RotatedAt(i, k);
    }
    assert |PIXEL_COLORS| == 6;
    assert (i + 6) % 6 == i;
  }

  /** The k-th entry of the table rotated to start at i. */
  lemma RotatedAt(i: nat, k: nat)
    requires i < |PIXEL_COLORS| && k < |PIXEL_COLORS|
    ensures (PIXEL_COLORS[i..] + PIXEL_COLORS[..i])[k] == PIXEL_COLORS[(i + k) % |PIXEL_COLORS|]
  {
    if i + k < 6 {
      assert (i + k) % 6 == i + k;
    } else {
      assert (i + k) % 6 == i + k - 6;
    }
  }

  class ParticleSystem {
    var particles: seq<Particle>
    var pixelColorIndex: int
    var beatTimer: real
    var beatStrength: real

    /**
     * The list holds each particle once, every particle keeps its
     * invariants and is alive, and the cycler index is in range.
     */
    ghost predicate Valid()
      reads this, particles
    {
      && 0 <= pixelColorIndex < |PIXEL_COLORS|
      && Distinct(particles)
      && AllValid(particles)
      && Living(particles)
    }

    /** ParticleSystem.__init__: no particles, the cycler at red, the beat at rest. */
    constructor ()
      ensures Valid()
      ensures particles == [] && pixelColorIndex == 0 && beatTimer == 0.0 && beatStrength == 0.0
    {
      particles := [];
      pixelColorIndex := 0;
      beatTimer := 0.0;
      beatStrength := 0.0;
    }

    /** get_next_pixel_color: the current table entry; the index moves on, wrapping after the sixth. */
    method GetNextPixelColor() returns (c: Color)
      requires Valid()
      modifies this
      ensures Valid()
      ensures c == PIXEL_COLORS[old(pixelColorIndex)]
      ensures pixelColorIndex == (old(pixelColorIndex) + 1) % |PIXEL_COLORS|
      ensures particles == old(particles) && beatTimer == old(beatTimer) && beatStrength == old(beatStrength)
    {
      c := PIXEL_COLORS[pixelColorIndex];
      pixelColorIndex := (pixelColorIndex + 1) % |PIXEL_COLORS|;
    }

    /**
     * One create_* call: the batch is appended after the existing
     * particles, which stay as they are; the pixel painter first takes the
     * next colour of the cycler.
     */
    method Emit(e: Emitter, click: Point, draws: seq<EmitDraw>)
      requires Valid()
      requires |draws| == BatchSize(e)
      requires forall i :: 0 <= i < |draws| ==> EmitDrawOk(e, draws[i])
      modifies this
      ensures Valid()
      ensures |particles| == |old(particles)| + BatchSize(e)
      ensures particles[..|old(particles)|] == old(particles)
      ensures States(particles[|old(particles)|..]) == Hatchlings(Batch(e, click, draws, PIXEL_COLORS[old(pixelColorIndex)]))
      ensures forall i :: |old(particles)| <= i < |particles| ==> fresh(particles[i])
      ensures pixelColorIndex == if e.PixelPainter? then (old(pixelColorIndex) + 1) % |PIXEL_COLORS| else old(pixelColorIndex)
      ensures beatTimer == old(beatTimer) && beatStrength == old(beatStrength)
    {
      var pixel := PickColor(e);
      var batch := Spawn(e, click, draws, pixel);
      ghost var before := particles;
      Append(batch);
      assert particles[..|before|] == before;
      assert particles[|before|..] == batch;
    }

    /** The colour a batch is painted with: the pixel painter takes the next one of the cycler, the others leave it alone. */
    method PickColor(e: Emitter) returns (pixel: Color)
      requires Valid()
      modifies this
      ensures Valid() && pixel == PIXEL_COLORS[old(pixelColorIndex)]
      ensures pixelColorIndex == if e.PixelPainter? then (old(pixelColorIndex) + 1) % |PIXEL_COLORS| else old(pixelColorIndex)
      ensures particles == old(particles) && beatTimer == old(beatTimer) && beatStrength == old(beatStrength)
    {
      pixel := PIXEL_COLORS[pixelColorIndex];
      if e.PixelPainter? {
        pixel := GetNextPixelColor();
      }
    }

    /** `self.particles.append(...)` for each particle of a fresh batch: nothing else changes. */
    method Append(batch: seq<Particle>)
      requires Valid() && Distinct(batch) && AllValid(batch) && Living(batch)
      requires forall k :: 0 <= k < |batch| ==> batch[k] !in particles
      modifies this
      ensures Valid() && particles == old(particles) + batch
      ensures pixelColorIndex == old(pixelColorIndex) && beatTimer == old(beatTimer) && beatStrength == old(beatStrength)
    {
      DistinctAppend(particles, batch);
      AllValidAppend(particles, batch);
      particles := particles + batch;
    }

    /**
     * ParticleSystem.update. The beat oscillator moves on; its strength,
     * (sin(phase) + 1) / 2 in the code, arrives as `beat`. Every particle
     * of the list is then updated once with its own random draws, and the
     * list becomes Population.Tick of what it was.
     */
    method Update(pointer: Option<Point>, buttons: Option<(bool, bool, bool)>, beat: real, ds: seq<Draws>)
      requires Valid()
      requires 0.0 <= beat <= 1.0
      requires |ds| == |particles|
      requires forall i :: 0 <= i < |particles| ==> DrawsFit(particles[i].kind, ds[i])
      requires forall i :: 0 <= i < |particles| ==> DistanceFits(particles[i].State(), pointer, ds[i])
      modifies this, particles
      ensures Valid()
      ensures beatTimer == old(beatTimer) + BEAT_FREQUENCY && beatStrength == beat
      ensures pixelColorIndex == old(pixelColorIndex)
      ensures Ready(old(States(particles)), ds)
      ensures States(particles) == Tick(old(States(particles)), Input(pointer, buttons, beat), ds)
    {
      ghost var before := States(particles);
      Pulse(beat);
      var inp := Input(pointer, buttons, beatStrength);
      var list := UpdateList(particles, inp, ds, before);
      Replace(list);
    }

    /** The simulated beat advances; `beat` stands for the sine pulse of the new timer. */
    method Pulse(beat: real)
      modifies this
      ensures beatTimer == old(beatTimer) + BEAT_FREQUENCY && beatStrength == beat
      ensures particles == old(particles) && pixelColorIndex == old(pixelColorIndex)
    {
      beatTimer := beatTimer + BEAT_FREQUENCY;
      beatStrength := beat;
    }

    /** `self.particles = ...`: the list is replaced, nothing else changes. */
    method Replace(list: seq<Particle>)
      requires 0 <= pixelColorIndex < |PIXEL_COLORS| && Distinct(list) && AllValid(list) && Living(list)
      modifies this
      ensures Valid() && particles == list && States(particles) == old(States(list))
      ensures pixelColorIndex == old(pixelColorIndex) && beatTimer == old(beatTimer) && beatStrength == old(beatStrength)
    {
      particles := list;
    }
  }

  /**
   * The particle list part of ParticleSystem.update: update each particle
   * of the snapshot, append the children, filter, cap.
   */
  method UpdateList(current: seq<Particle>, inp: Input, ds: seq<Draws>, ghost before: seq<PState>) returns (list: seq<Particle>)
    requires Distinct(current) && AllValid(current)
    requires |ds| == |current|
    requires forall i :: 0 <= i < |current| ==> DrawsFit(current[i].kind, ds[i])
    requires before == States(current)
    requires forall k :: 0 <= k < |before| ==> DistanceFits(before[k], inp.pointer, ds[k])
    modifies current
    ensures Ready(before, ds)
    ensures States(list) == Tick(before, inp, ds)
    ensures Distinct(list) && AllValid(list) && Living(list)
  {
    ghost var outs := Outcomes(before, inp, ds);
    assert Fed(before, inp, ds);
    var newParticles := UpdateEach(current, inp, ds, before, outs);
    var merged := current + newParticles;  // particles + new_particles
    StatesAppend(current, newParticles);
    HatchedStates(newParticles, Offspring(outs));
    DistinctAppend(current, newParticles);
    AllValidAppend(current, newParticles);
    assert States(merged) == Merged(outs);
    var alive := Survivors(merged);
    list := Newest(alive);
    assert States(list) == KeepNewest(Alive(Merged(outs)), MAX_PARTICLES);
    TickLiving(list, before, inp, ds);
  }

  /** The list a tick leaves behind holds only particles with life left. */
  lemma TickLiving(list: seq<Particle>, before: seq<PState>, inp: Input, ds: seq<Draws>)
    requires Ready(before, ds) && States(list) == Tick(before, inp, ds)
    ensures Living(list)
  {
    TickAllAlive(before, inp, ds);
    LivingStates(list);
  }

  /** The loop of ParticleSystem.update: each particle of the snapshot updated once, in order, and the children collected in order. */
  method UpdateEach(ps: seq<Particle>, inp: Input, ds: seq<Draws>, ghost before: seq<PState>, ghost outs: seq<Outcome>)
    returns (children: seq<Particle>)
    requires Distinct(ps) && AllValid(ps)
    requires before == States(ps)
    requires Ready(before, ds) && outs == Outcomes(before, inp, ds) && Fed(before, inp, ds)
    modifies ps
    ensures AllValid(ps)
    ensures States(ps) == Nexts(outs)
    ensures Hatched(children, Offspring(outs))
    ensures forall i :: 0 <= i < |children| ==> children[i] !in ps
    ensures Distinct(children)
  {
    children := [];
    for i := 0 to |ps|
      invariant Partway(ps, before, outs, i, children)
    {
      children := UpdateAt(ps, inp, ds, before, outs, i, children);
    }
    assert outs[..|ps|] == outs;
    OutcomesCoherent(before, inp, ds);
  }

  /**
   * Where the loop stands after `i` updates: the first `i` particles of the
   * snapshot advanced, the others as they were, and the children of those
   * `i` updates collected after one another.
   */
  ghost predicate Partway(ps: seq<Particle>, before: seq<PState>, outs: seq<Outcome>, i: nat, children: seq<Particle>)
    reads ps, children
  {
    && |before| == |ps| == |outs| && i <= |ps|
    && (forall k :: 0 <= k < |ps| ==> ps[k].State() == if k < i then outs[k].next else before[k])
    && Hatched(children, Offspring(outs[..i]))
    && (forall k :: 0 <= k < |children| ==> children[k] !in ps)
    && Distinct(children)
  }

  /** What each update of the loop needs: the pre-tick fields are coherent and their draws in range. */
  ghost predicate Fed(before: seq<PState>, inp: Input, ds: seq<Draws>) {
    && |ds| == |before|
    && forall k :: 0 <= k < |before| ==>
         Coherent(before[k]) && DrawsFit(before[k].id.kind, ds[k]) && DistanceFits(before[k], inp.pointer, ds[k])
  }

  /** One iteration of the loop: `particle.update(...)` on the i-th particle of the snapshot, its children appended to the list. */
  method UpdateAt(ps: seq<Particle>, inp: Input, ds: seq<Draws>, ghost before: seq<PState>, ghost outs: seq<Outcome>, i: nat,
                  children: seq<Particle>) returns (more: seq<Particle>)
    requires Distinct(ps) && i < |ps|
    requires Ready(before, ds) && outs == Outcomes(before, inp, ds)
    requires Fed(before, inp, ds) && Partway(ps, before, outs, i, children)
    modifies ps[i]
    ensures Partway(ps, before, outs, i + 1, more)
  {
    forall k | 0 <= k < |ps| && k != i
      ensures ps[k] != ps[i]
    {
      DistinctAt(ps, k, i);
    }
    var result := ps[i].Update(inp, ds[i]);
    DistinctAppend(children, result);
    OffspringSnoc(outs, i);
    HatchedAppend(children, Offspring(outs[..i]), result, outs[i].spawns);
    more := children + result;
  }

  /** The particles one emitter call constructs, in the order it appends them. */
  method Spawn(e: Emitter, click: Point, draws: seq<EmitDraw>, pixel: Color) returns (batch: seq<Particle>)
    requires |draws| == BatchSize(e)
    requires forall i :: 0 <= i < |draws| ==> EmitDrawOk(e, draws[i])
    ensures |batch| == BatchSize(e)
    ensures States(batch) == Hatchlings(Batch(e, click, draws, pixel))
    ensures forall i :: 0 <= i < |batch| ==> fresh(batch[i])
    ensures Distinct(batch) && AllValid(batch) && Living(batch)
  {
    var seeds := Batch(e, click, draws, pixel);
    forall i | 0 <= i < |seeds|
      ensures SeedOk(seeds[i])
    {
      EmittedSeedOk(e, click, draws[i], pixel);
    }
    batch := Hatch(seeds);
    HatchedStates(batch, seeds);
    BatchHatches(e, click, draws, pixel);
    LivingStates(batch);
  }

  /** Two lists without repeats, with nothing in common, make a list without repeats. */
  lemma DistinctAppend(a: seq<Particle>, b: seq<Particle>)
    requires Distinct(a) && Distinct(b)
    requires forall k :: 0 <= k < |b| ==> b[k] !in a
    ensures Distinct(a + b)
  {
    var all := a + b;
    forall i, j | 0 <= i < j < |all|
      ensures Apart(all, i, j)
    {
      if j < |a| {
        assert Apart(a, i, j);
      } else if i >= |a| {
        assert Apart(b, i - |a|, j - |a|);
      } else {
        assert all[j] == b[j - |a|];
      }
    }
  }

  /** A suffix of a list without repeats has none. */
  lemma DistinctSuffix(ps: seq<Particle>, from: nat)
    requires Distinct(ps) && from <= |ps|
    ensures Distinct(ps[from..])
  {
    var tail := ps[from..];
    forall i, j | 0 <= i < j < |tail|
      ensures Apart(tail, i, j)
    {
      assert Apart(ps, from + i, from + j);
    }
  }

  /** In a list without repeats, an entry does not occur before its own position. */
  lemma DistinctFirst(ps: seq<Particle>, j: nat)
    requires Distinct(ps) && j < |ps|
    ensures ps[j] !in ps[..j]
  {
    forall m | 0 <= m < j
      ensures ps[..j][m] != ps[j]
    {
      assert Apart(ps, m, j);
    }
  }

  /** Particles constructed from two runs of seeds, one after the other. */
  lemma HatchedAppend(a: seq<Particle>, sa: seq<Seed>, b: seq<Particle>, sb: seq<Seed>)
    requires Hatched(a, sa) && Hatched(b, sb)
    ensures Hatched(a + b, sa + sb)
  {
  }

  /** Every particle of the list keeps its invariants. */
  ghost predicate AllValid(ps: seq<Particle>)
    reads ps
  {
    forall i :: 0 <= i < |ps| ==> ps[i].Valid()
  }

  /** Every particle of the list has life left. */
  ghost predicate Living(ps: seq<Particle>)
    reads ps
  {
    forall i :: 0 <= i < |ps| ==> ps[i].life > 0.0
  }

  /** A list is living when its states are. */
  lemma LivingStates(ps: seq<Particle>)
    requires forall i :: 0 <= i < |States(ps)| ==> States(ps)[i].life > 0.0
    ensures Living(ps)
  {
    forall i | 0 <= i < |ps|
      ensures ps[i].life > 0.0
    {
      assert States(ps)[i] == ps[i].State();
    }
  }

  lemma AllValidAppend(a: seq<Particle>, b: seq<Particle>)
    requires AllValid(a) && AllValid(b)
    ensures AllValid(a + b)
  {
  }

  /** The cap at the end of ParticleSystem.update: `particles[-MAX_PARTICLES:]` when the list is longer. */
  method Newest(ps: seq<Particle>) returns (list: seq<Particle>)
    requires Distinct(ps) && AllValid(ps)
    ensures States(list) == KeepNewest(States(ps), MAX_PARTICLES)
    ensures forall p :: p in list ==> p in ps
    ensures Distinct(list) && AllValid(list)
  {
    list := ps;
    if |ps| > MAX_PARTICLES {
      StatesSuffix(ps, |ps| - MAX_PARTICLES);
      DistinctSuffix(ps, |ps| - MAX_PARTICLES);
      list := ps[|ps| - MAX_PARTICLES..];
    }
  }

  /** The list comprehension `[p for p in ps if p.life > 0]`. */
  method Survivors(ps: seq<Particle>) returns (alive: seq<Particle>)
    requires Distinct(ps) && AllValid(ps)
    ensures States(alive) == Alive(States(ps))
    ensures forall p :: p in alive ==> p in ps
    ensures Distinct(alive) && AllValid(alive)
  {
    alive := [];
    for j := 0 to |ps|
      invariant Sifted(ps, j, alive)
    {
      if ps[j].life > 0.0 {
        KeepOne(ps, j, alive);
        alive := alive + [ps[j]];
      } else {
        DropOne(ps, j, alive);
      }
    }
    assert ps[..|ps|] == ps;
  }

  /** Where the comprehension stands after the first `j` particles: the living ones among them, in order. */
  ghost predicate Sifted(ps: seq<Particle>, j: nat, alive: seq<Particle>)
    reads ps, alive
  {
    && j <= |ps|
    && States(alive) == Alive(States(ps[..j]))
    && (forall p :: p in alive ==> p in ps[..j])
    && Distinct(alive) && AllValid(alive)
  }

  /** A living particle is kept, after the ones before it. */
  lemma KeepOne(ps: seq<Particle>, j: nat, alive: seq<Particle>)
    requires Distinct(ps) && AllValid(ps) && j < |ps|
    requires Sifted(ps, j, alive) && ps[j].life > 0.0
    ensures Sifted(ps, j + 1, alive + [ps[j]])
  {
    assert ps[..j + 1] == ps[..j] + [ps[j]];
    StatesSnoc(ps[..j], ps[j]);
    AliveSnoc(States(ps[..j]), ps[j].State());
    StatesSnoc(alive, ps[j]);
    DistinctFirst(ps, j);
    DistinctSnoc(alive, ps[j]);
  }

  /** A dead particle is left out. */
  lemma DropOne(ps: seq<Particle>, j: nat, alive: seq<Particle>)
    requires j < |ps|
    requires Sifted(ps, j, alive) && ps[j].life <= 0.0
    ensures Sifted(ps, j + 1, alive)
  {
    assert ps[..j + 1] == ps[..j] + [ps[j]];
    StatesSnoc(ps[..j], ps[j]);
    AliveSnoc(States(ps[..j]), ps[j].State());
  }

  /** The fields of a concatenation are the fields of each part. */
  lemma StatesAppend(a: seq<Particle>, b: seq<Particle>)
    ensures States(a + b) == States(a) + States(b)
  {
    assert forall k :: 0 <= k < |a + b| ==> States(a + b)[k] == (States(a) + States(b))[k];
  }

  /** The fields of a list with one more particle at the end. */
  lemma StatesSnoc(a: seq<Particle>, p: Particle)
    ensures States(a + [p]) == States(a) + [p.State()]
  {
    assert forall k :: 0 <= k < |a| + 1 ==> States(a + [p])[k] == (States(a) + [p.State()])[k];
  }

  /** The fields of a suffix are the suffix of the fields. */
  lemma StatesSuffix(ps: seq<Particle>, from: nat)
    requires from <= |ps|
    ensures States(ps[from..]) == States(ps)[from..]
  {
    assert forall k :: 0 <= k < |ps| - from ==> States(ps[from..])[k] == States(ps)[from..][k];
  }

  /** Constructed particles have the hatchlings of their seeds as fields. */
  lemma HatchedStates(ps: seq<Particle>, seeds: seq<Seed>)
    requires Hatched(ps, seeds)
    ensures States(ps) == Hatchlings(seeds)
  {
  }
}
