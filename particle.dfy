/**
 * The Particle class of Particlesim.py: its fields are updated in place by
 * Update, which returns the children it spawns. Each method is proved
 * against the pure step in module Step: State() is the record of the
 * fields, and Update moves it exactly as Step.Advance does.
 */
module Particles {
  import opened Common
  import opened Catalog
  import opened Step
  import StepFacts

  class Particle {
    var x: real
    var y: real
    var vx: real
    var vy: real
    const color: Color
    var size: real
    var life: real
    const maxLife: real
    var trail: seq<Point>
    const maxTrail: nat
    const kind: Kind
    var age: nat
    const target: Option<Point>
    const initialSize: real
    var currentColor: Color
    var currentSize: real
    var branchTimer: int
    var branched: bool
    const initialY: real
    const home: Point

    /** The particle's fields as a value. */
    function State(): PState
      reads this
    {
      PState(Traits(kind, color, maxLife, maxTrail, target, initialSize, initialY, home),
             x, y, vx, vy, size, life, trail, age, currentColor, currentSize, branchTimer, branched)
    }

    ghost predicate Valid()
      reads this
    {
      Coherent(State())
    }

    /** Particle.__init__, with the random draws it makes passed in the seed. */
    constructor (seed: Seed)
      requires SeedOk(seed)
      ensures Valid()
      ensures State() == Hatchling(seed)
    {
      var lifespan := if seed.initialLife.Some? then seed.initialLife.value as real else PARTICLE_LIFE as real;
      x, y := seed.x, seed.y;
      vx, vy := seed.vx, seed.vy;
      color := seed.color;
      size := seed.size;
      life, maxLife := lifespan, lifespan;
      trail := [Point(seed.x, seed.y)];
      kind := seed.kind;
      age := 0;
      target := seed.target;
      initialSize := seed.size;
      currentColor := seed.color;
      currentSize := seed.size;
      branchTimer, branched := 0, false;
      initialY := seed.y;
      home := Point(seed.x, seed.y);
      // the per-variant set-up
      if seed.kind.Lightning? {
        branchTimer := seed.timer;
      } else if seed.kind.PixelPainter? {
        vx, vy := 0.0, 0.0;
        life, maxLife := (PARTICLE_LIFE * 5) as real, (PARTICLE_LIFE * 5) as real;
        size := seed.pixelSize as real;
      } else if seed.kind.LightTracer? {
        maxTrail := 100;
        life, maxLife := (PARTICLE_LIFE * 2) as real, (PARTICLE_LIFE * 2) as real;
        size := 2.0;
      } else if seed.kind.Constellation? {
        life, maxLife := (PARTICLE_LIFE * 10) as real, (PARTICLE_LIFE * 10) as real;
      }
      if !seed.kind.LightTracer? {
        maxTrail := 15;
      }
      new;
      StepFacts.HatchlingSetup(seed);
    }

    /** The variant's own branch of the behaviour dispatch. */
    method ApplyRule(inp: Input, d: Draws, ghost s: PState)
      requires State() == s
      modifies this
      ensures State() == Behave(s, inp, d)
    {
      if kind in {Snow, BouncingCollision, PixelPainter, Constellation, Firefly, Geyser, Lightning} {
        ApplySpecial(inp, d, s);
      } else if RuleRuns(kind, inp.pointer.Some?, inp.buttons.Some?) {
        GenericRule(inp, d);
      }
    }

    /** The variants with a rule of their own. */
    method ApplySpecial(inp: Input, d: Draws, ghost s: PState)
      requires State() == s
      requires kind in {Snow, BouncingCollision, PixelPainter, Constellation, Firefly, Geyser, Lightning}
      modifies this
      ensures State() == Behave(s, inp, d)
    {
      match kind
      case Snow =>
        SnowRule(d);
        assert State() == Behave(s, inp, d);
      case BouncingCollision =>
        BouncingRule();
        assert State() == Behave(s, inp, d);
      case PixelPainter =>
        PixelRule();
        assert State() == Behave(s, inp, d);
      case Constellation =>
        ConstellationRule(d);
        assert State() == Behave(s, inp, d);
      case Firefly =>
        FireflyRule(d);
        assert State() == Behave(s, inp, d);
      case Geyser =>
        GeyserRule();
        assert State() == Behave(s, inp, d);
      case Lightning =>
        LightningRule(d);
        assert State() == Behave(s, inp, d);
    }

    /** Snow drifts sideways and falls at 0.3 of its speed. */
    method SnowRule(d: Draws)
      modifies this
      ensures State() == SnowStep(old(State()), d)
    {
      vx := vx + d.force.x;
      vy := Abs(vy) * 0.3;
    }

    /** Bouncing collision: a second dose of gravity, the wall bounce before the move, and the 0.99 damping. */
    method BouncingRule()
      modifies this
      ensures State() == BouncingStep(old(State()))
    {
      vy := vy + GRAVITY;
      if x < 0.0 {
        x := 0.0;
        vx := vx * RESTITUTION;
      } else if x > WIDTH {
        x := WIDTH;
        vx := vx * RESTITUTION;
      }
      if y < 0.0 {
        y := 0.0;
        vy := vy * RESTITUTION;
      } else if y > HEIGHT {
        y := HEIGHT;
        vy := vy * RESTITUTION;
      }
      vx := vx * DAMPING;
      vy := vy * DAMPING;
    }

    /** The pixel painter is pulled back to its spawn point and snaps to it within one pixel. */
    method PixelRule()
      modifies this
      ensures State() == PixelStep(old(State()))
    {
      var dx := home.x - x;
      var dy := home.y - y;
      vx := vx * 0.8;
      vy := vy * 0.8;
      vx := vx + dx * 0.05;
      vy := vy + dy * 0.05;
      if dx * dx + dy * dy < 1.0 {
        x, y := home.x, home.y;
        vx, vy := 0.0, 0.0;
      }
    }

    /** Constellation points damp first and then drift. */
    method ConstellationRule(d: Draws)
      modifies this
      ensures State() == ConstellationStep(old(State()), d)
    {
      vx := vx * 0.995;
      vy := vy * 0.995;
      vx := vx + d.force.x;
      vy := vy + d.force.y;
    }

    /** Fireflies wander, damp, and turn back on an axis where they are off the screen. */
    method FireflyRule(d: Draws)
      modifies this
      ensures State() == FireflyStep(old(State()), d)
    {
      vx := (vx + d.force.x) * 0.99;
      vy := (vy + d.force.y) * 0.99;
      if x < 0.0 || x > WIDTH {
        vx := -vx;
      }
      if y < 0.0 || y > HEIGHT {
        vy := -vy;
      }
    }

    /** Geyser drops are pushed up for their first ticks and die 10 px below their start. */
    method GeyserRule()
      modifies this
      ensures State() == GeyserStep(old(State()))
    {
      if age < 10 {
        vy := vy - 0.5;
      }
      vy := vy + GRAVITY * 0.8;
      if y > initialY + 10.0 {
        life := 0.0;
      }
    }

    /** Lightning jitters, fades by 1.65 and counts its branch timer down. */
    method LightningRule(d: Draws)
      modifies this
      ensures State() == LightningStep(old(State()), d)
    {
      vx := vx + d.force.x;
      vy := vy + d.force.y;
      life := life - RuleDecay(Lightning);
      branchTimer := branchTimer - 1;
    }

    /** Every other variant: brake when near, push, damp, pay the life cost, grow. */
    method GenericRule(inp: Input, d: Draws)
      modifies this
      ensures State() == ForceStep(old(State()), inp, d)
    {
      var s := State();
      var p := Push(s, inp, d);
      var f := if Near(s, inp) then NearBrake(s.id.kind) else 1.0;
      var k := OwnDamping(s.id.kind);
      vx := (s.vx * f + p.x) * k;
      vy := (s.vy * f + p.y) * k;
      life := s.life - Decay(s, inp);
      size := s.size + Growth(s.id.kind);
    }

    /** The beat-driven size of the sound visualizer, the last statement of its branch. */
    method Pulse(inp: Input, d: Draws, ghost b: PState)
      requires State() == b
      modifies this
      ensures State() == Beat(b, inp, d)
    {
      if kind.SoundVisualizer? {
        currentSize := BeatSize(State(), inp, d);
      }
    }

    /** The boundary policy, after the move. */
    method ApplyWalls(inp: Input)
      modifies this
      ensures State() == Walls(old(State()), inp)
    {
      if Boundary(kind) == ClampReflect {
        if x < 0.0 {
          x := 0.0;
          vx := vx * RESTITUTION;
        } else if x > WIDTH {
          x := WIDTH;
          vx := vx * RESTITUTION;
        }
        if y < 0.0 {
          y := 0.0;
          vy := vy * RESTITUTION;
        } else if y > HEIGHT {
          y := HEIGHT;
          vy := vy * RESTITUTION;
        }
      } else if WallKills(State(), inp) {
        life := 0.0;
      }
    }

    /** The fade step: current colour and size from the remaining-life fraction. */
    method FadeOut(inp: Input, d: Draws)
      requires maxLife > 0.0
      modifies this
      ensures State() == Fade(old(State()), inp, d)
    {
      var before := State();
      var alpha := FadeAlpha(before, inp, d);
      currentColor := Scale(color, alpha);
      currentSize := FadeSize(before, alpha, d);
    }

    /** Everything before the two early returns: age, baseline gravity, the variant's rule. */
    method Begin(inp: Input, d: Draws)
      modifies this
      ensures State() == Prelude(old(State()), inp, d)
    {
      ghost var g := Gravity(Aged(State()));
      age := age + 1;
      if !GravityExempt(kind) {
        vy := vy + GRAVITY;
      }
      ApplyRule(inp, d, g);
      Pulse(inp, d, Behave(g, inp, d));
    }

    /** Global damping (for the variants that do not damp in their own rule), then the move. */
    method Drift()
      modifies this
      ensures State() == Integrate(GlobalDamping(old(State())))
    {
      if !SkipsGlobalDamping(kind) {
        vx := vx * DAMPING;
        vy := vy * DAMPING;
      }
      x := x + vx;
      y := y + vy;
    }

    /** Append the position to the trail, dropping the oldest entry past the capacity. */
    method RecordTrail()
      modifies this
      ensures State() == Record(old(State()))
    {
      trail := trail + [Point(x, y)];
      if |trail| > maxTrail {
        trail := trail[1..];
      }
    }

    /** Everything after the early returns up to the spawn branch: drift, walls, trail, life, fade. */
    method Move(inp: Input, d: Draws)
      requires maxLife > 0.0
      modifies this
      ensures State() == Rest(old(State()), inp, d)
    {
      Drift();
      ApplyWalls(inp);
      RecordTrail();
      life := life - 1.0;
      FadeOut(inp, d);
    }

    /** The spawn branch at the end of an update that ran through. */
    method Conclude(d: Draws) returns (children: seq<Particle>)
      requires DrawsFit(kind, d)
      modifies this
      ensures State() == Finish(old(State()), d).next
      ensures Hatched(children, Finish(old(State()), d).spawns)
      ensures forall i :: 0 <= i < |children| ==> fresh(children[i])
      ensures Distinct(children)
    {
      var f := State();
      if kind.Lightning? && branched {
        branched := false;
        children := Hatch(LightningPair(f, d));
      } else if kind.Lava? && age % 10 == 0 {
        children := Hatch([SmokePuff(f, d)]);
      } else if kind.ChainStarter? {
        life := 0.0;
        children := Hatch(Burst(f, d));
      } else {
        children := [];
      }
    }

    /** Particle.update: one tick of this particle, returning the particles it spawns. */
    method Update(inp: Input, d: Draws) returns (children: seq<Particle>)
      requires Valid()
      requires DrawsFit(kind, d) && DistanceFits(State(), inp.pointer, d)
      modifies this
      ensures Valid()
      ensures State() == Advance(old(State()), inp, d).next
      ensures Hatched(children, Advance(old(State()), inp, d).spawns)
      ensures forall i :: 0 <= i < |children| ==> fresh(children[i])
      ensures Distinct(children)
    {
      ghost var s0 := State();
      StepFacts.AdvanceCoherent(s0, inp, d);
      Begin(inp, d);
      children := Proceed(inp, d, Prelude(s0, inp, d));
    }

    /** Everything after the behaviour dispatch: the two early returns, or the move and the spawn branch. */
    method Proceed(inp: Input, d: Draws, ghost b: PState) returns (children: seq<Particle>)
      requires State() == b && b.id.maxLife > 0.0
      requires DrawsFit(kind, d)
      modifies this
      ensures State() == AfterPrelude(b, inp, d).next
      ensures Hatched(children, AfterPrelude(b, inp, d).spawns)
      ensures forall i :: 0 <= i < |children| ==> fresh(children[i])
      ensures Distinct(children)
    {
      var here := State();
      if kind.Lightning? && branchTimer <= 0 && !branched {
        // the branch returns before the move
        branched := true;
        children := Hatch(LightningPair(here, d));
      } else if kind.Lava? && age % 10 == 0 {
        // the smoke puff returns before the move
        children := Hatch([SmokePuff(here, d)]);
      } else {
        Move(inp, d);
        children := Conclude(d);
      }
    }
  }

  /** The i-th and the j-th entries of the list are different objects. */
  predicate Apart(ps: seq<Particle>, i: int, j: int)
    requires 0 <= i < |ps| && 0 <= j < |ps|
  {
    ps[i] != ps[j]
  }

  /**
   * No particle appears twice. The quantifier fires only on an explicit
   * Apart term, so a list of many particles does not flood the solver with
   * pairs.
   */
  predicate Distinct(ps: seq<Particle>) {
    forall i, j {:trigger Apart(ps, i, j)} :: 0 <= i < j < |ps| ==> Apart(ps, i, j)
  }

  /** The entries of a list without repeats are pairwise different. */
  lemma DistinctAt(ps: seq<Particle>, i: nat, j: nat)
    requires Distinct(ps) && i < |ps| && j < |ps| && i != j
    ensures ps[i] != ps[j]
  {
    if i < j {
      assert Apart(ps, i, j);
    } else {
      assert Apart(ps, j, i);
    }
  }

  /** Appending an object that is not in the list keeps it free of repeats. */
  lemma DistinctSnoc(ps: seq<Particle>, p: Particle)
    requires Distinct(ps) && p !in ps
    ensures Distinct(ps + [p])
  {
    var all := ps + [p];
    forall i, j | 0 <= i < j < |all|
      ensures Apart(all, i, j)
    {
      if j < |ps| {
        assert Apart(ps, i, j);
      } else {
        assert all[i] == ps[i];
      }
    }
  }

  /** The particles were constructed, in order, from the seeds. */
  ghost predicate Hatched(ps: seq<Particle>, seeds: seq<Seed>)
    reads ps
  {
    && |ps| == |seeds|
    && forall i :: 0 <= i < |ps| ==> ps[i].Valid() && ps[i].State() == Hatchling(seeds[i])
  }

  /** Construct one particle per seed, in order. */
  method Hatch(seeds: seq<Seed>) returns (ps: seq<Particle>)
    requires forall i :: 0 <= i < |seeds| ==> SeedOk(seeds[i])
    ensures Hatched(ps, seeds)
    ensures forall i :: 0 <= i < |ps| ==> fresh(ps[i])
    ensures Distinct(ps)
  {
    ps := [];
    for i := 0 to |seeds|
      invariant |ps| == i
      invariant forall k :: 0 <= k < i ==> ps[k].Valid() && ps[k].State() == Hatchling(seeds[k])
      invariant forall k :: 0 <= k < i ==> fresh(ps[k])
      invariant Distinct(ps)
    {
      var p := new Particle(seeds[i]);
      DistinctSnoc(ps, p);
      ps := ps + [p];
    }
  }

  /** The fields of each particle, in order. */
  function States(ps: seq<Particle>): seq<PState>
    reads ps
  {
    seq(|ps|, i reads ps requires 0 <= i < |ps| => ps[i].State())
  }
}
