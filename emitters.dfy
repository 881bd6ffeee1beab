/**
 * The create_* emitters of ParticleSystem in Particlesim.py: each appends
 * a fixed-size batch of particles with a fixed variant tag. Positions,
 * velocities, colours and sizes that an emitter draws at random arrive in
 * an EmitDraw per particle; what the emitter fixes (batch size, tag, size
 * range, initial life, target, constant colours and velocities) is
 * modelled as the code does it.
 */
module Emitters {
  import opened Common
  import K = Catalog
  import S = Step
  import StepFacts

  /** One create_* method of ParticleSystem. */
  datatype Emitter =
    | Fountain | Firework | PaintSplash | ElectricStorm | Bubbles | Snow | Spiral
    | Galaxy | Tornado | Rain | Smoke | Confetti | Attractor | Blackhole | Fluid
    | Crystal | Lightning | Lava | Firefly | Nebula | Solar | Vortex | Aurora | Geyser
    | Swarm | GravityField | FlowingStream | BouncingCollision
    | ExplosionImplosion(implosion: bool)
    | WaveRipple | PathFollower | SpringAttraction | PixelPainter | ChainReaction
    | LightTracer | SoundVisualizer | Constellation

  /**
   * The random values drawn for one particle of a batch: its start
   * position (used only by the emitters that scatter their particles), its
   * velocity, its colour, its size draw, and the constructor's own draws.
   */
  datatype EmitDraw = EmitDraw(
    start: Point, vx: real, vy: real, color: Color, size: int,
    timer: int,       // randint(10, 30) of a lightning particle
    pixelSize: int    // randint(3, 6) of a pixel painter particle
  )

  /** The number of particles one call appends: the bound of its `for _ in range(n)` loop, 1 for the single-particle emitters. */
  function BatchSize(e: Emitter): nat {
    match e
    case Fountain => 5
    case Firework => 20
    case PaintSplash => 8
    case ElectricStorm => 3
    case Bubbles => 4
    case Snow => 6
    case Spiral => 3
    case Galaxy => 8
    case Tornado => 6
    case Rain => 3
    case Smoke => 2
    case Confetti => 5
    case Attractor => 5
    case Blackhole => 8
    case Fluid => 10
    case Crystal => 4
    case Lightning => 1
    case Lava => 3
    case Firefly => 2
    case Nebula => 1
    case Solar => 5
    case Vortex => 10
    case Aurora => 3
    case Geyser => 15
    case Swarm => 5
    case GravityField => 8
    case FlowingStream => 3
    case BouncingCollision => 5
    case ExplosionImplosion(_) => 20
    case WaveRipple => 10
    case PathFollower => 3
    case SpringAttraction => 8
    case PixelPainter => 1
    case ChainReaction => 1
    case LightTracer => 1
    case SoundVisualizer => 5
    case Constellation => 1
  }

  /** The `special_type` tag an emitter passes. */
  function Tag(e: Emitter): K.Kind {
    match e
    case Fountain | Firework | PaintSplash => K.Plain
    case ElectricStorm => K.Electric
    case Bubbles => K.Bubble
    case Snow => K.Snow
    case Spiral | Tornado => K.Spiral
    case Galaxy => K.Magnetic
    case Rain => K.Rain
    case Smoke => K.Smoke
    case Confetti => K.Confetti
    case Attractor => K.Attractor
    case Blackhole => K.Blackhole
    case Fluid => K.Fluid
    case Crystal => K.Crystal
    case Lightning => K.Lightning
    case Lava => K.Lava
    case Firefly => K.Firefly
    case Nebula => K.Nebula
    case Solar => K.Solar
    case Vortex => K.Vortex
    case Aurora => K.Aurora
    case Geyser => K.Geyser
    case Swarm => K.Swarm
    case GravityField => K.GravityField
    case FlowingStream => K.FlowingStream
    case BouncingCollision => K.BouncingCollision
    case ExplosionImplosion(_) => K.ExplosionImplosion
    case WaveRipple => K.WaveRipple
    case PathFollower => K.PathFollower
    case SpringAttraction => K.SpringAttraction
    case PixelPainter => K.PixelPainter
    case ChainReaction => K.ChainStarter
    case LightTracer => K.LightTracer
    case SoundVisualizer => K.SoundVisualizer
    case Constellation => K.Constellation
  }

  /** The `random.randint(lo, hi)` range of the size an emitter passes; the fixed size when it passes one or none. */
  function SizeRange(e: Emitter): (int, int) {
    match e
    case Fountain => (2, 5)
    case Firework => (3, 6)
    case PaintSplash => (4, 8)
    case ElectricStorm => (2, 4)
    case Bubbles => (5, 12)
    case Snow => (3, 6)
    case Spiral => (3, 5)
    case Galaxy => (2, 4)
    case Tornado => (2, 5)
    case Rain => (1, 3)
    case Smoke => (5, 10)
    case Confetti => (4, 7)
    case Attractor => (2, 4)
    case Blackhole => (2, 5)
    case Fluid => (6, 10)
    case Crystal => (5, 8)
    case Lightning => (2, 4)
    case Lava => (8, 15)
    case Firefly => (3, 6)
    case Nebula => (20, 50)
    case Solar => (4, 8)
    case Vortex => (2, 4)
    case Aurora => (10, 30)
    case Geyser => (3, 6)
    case Swarm => (2, 4)
    case GravityField => (3, 6)
    case FlowingStream => (2, 5)
    case BouncingCollision => (8, 15)
    case ExplosionImplosion(_) => (4, 8)
    case WaveRipple => (5, 10)
    case PathFollower => (2, 4)
    case SpringAttraction => (3, 6)
    case PixelPainter => (3, 3)     // the constructor's default size
    case ChainReaction => (5, 8)
    case LightTracer => (2, 2)      // size=2
    case SoundVisualizer => (4, 8)
    case Constellation => (2, 4)
  }

  /** The `initial_life` argument, when the emitter passes one. */
  function InitialLife(e: Emitter): Option<int> {
    match e
    case Lightning => Some(60)
    case Aurora => Some(300)
    case Geyser => Some(90)
    case Swarm => Some(PARTICLE_LIFE)
    case FlowingStream => Some(120)
    case ExplosionImplosion(_) => Some(60)
    case WaveRipple => Some(90)
    case PathFollower => Some(150)
    case ChainReaction => Some(1)
    case _ => None
  }

  /** Whether an emitter scatters its particles around (or away from) the click instead of starting them on it. */
  predicate Scatters(e: Emitter) {
    e in {Galaxy, Tornado, Rain, Blackhole, Vortex, Aurora, Swarm, GravityField}
  }

  /** The `target_pos` argument: the click, for the pointer-free attractors and an implosion. */
  function Target(e: Emitter, click: Point): Option<Point> {
    match e
    case Attractor | Blackhole | Solar | Vortex => Some(click)
    case ExplosionImplosion(implosion) => if implosion then Some(click) else None
    case _ => None
  }

  /** The random draws of one particle are in the ranges the emitter and the constructor draw from. */
  predicate EmitDrawOk(e: Emitter, r: EmitDraw) {
    && SizeRange(e).0 <= r.size <= SizeRange(e).1
    && 10 <= r.timer <= 30
    && 3 <= r.pixelSize <= 6
  }

  /**
   * The constructor call for one particle of a batch. The lightning colour
   * and the chain starter colour are constants; the pixel painter takes the
   * colour the cycler returned; the pixel painter and the chain starter
   * start at rest.
   */
  function SeedFor(e: Emitter, click: Point, r: EmitDraw, pixelColor: Color): S.Seed {
    var at := if Scatters(e) then r.start else click;
    var still := e.PixelPainter? || e.ChainReaction?;
    var color :=
      if e.Lightning? then RGB(255, 255, 150)
      else if e.ChainReaction? then RGB(255, 100, 0)
      else if e.PixelPainter? then pixelColor
      else r.color;
    S.Seed(at.x, at.y, if still then 0.0 else r.vx, if still then 0.0 else r.vy,
           color, EmitSize(e, r) as real, Tag(e), Target(e, click), InitialLife(e), r.timer, r.pixelSize)
  }

  /** The size argument: the fixed one, or the drawn one. */
  function EmitSize(e: Emitter, r: EmitDraw): int {
    if SizeRange(e).0 == SizeRange(e).1 then SizeRange(e).0 else r.size
  }

  /** The constructor calls of one emitter call, in append order. */
  function Batch(e: Emitter, click: Point, draws: seq<EmitDraw>, pixelColor: Color): seq<S.Seed> {
    seq(|draws|, i requires 0 <= i < |draws| => SeedFor(e, click, draws[i], pixelColor))
  }

  /**
   * The life a freshly emitted particle starts with, as the emitter's
   * `initial_life` and the constructor's per-variant override decide it
   * together.
   */
  function StartLife(e: Emitter): (life: int)
    ensures life >= 1
  {
    match e
    case Lightning => 60
    case Aurora => 300
    case Geyser => 90
    case FlowingStream => 120
    case ExplosionImplosion(_) => 60
    case WaveRipple => 90
    case PathFollower => 150
    case ChainReaction => 1
    case PixelPainter => 900
    case LightTracer => 360
    case Constellation => 1800
    case _ => 180
  }

  /**
   * What one emitter call appends: particles with the emitter's tag, each
   * at full life (the emitter's start life), a size in its range (a
   * pixel's own 3..6 draw), a one-point trail at its start, age 0, and,
   * for lightning, the drawn branch timer.
   */
  lemma BatchHatches(e: Emitter, click: Point, draws: seq<EmitDraw>, pixelColor: Color)
    requires forall i :: 0 <= i < |draws| ==> EmitDrawOk(e, draws[i])
    ensures var hs := S.Hatchlings(Batch(e, click, draws, pixelColor));
      && |hs| == |draws|
      && forall i :: 0 <= i < |hs| ==> Emitted(e, hs[i], draws[i])
  {
    var seeds := Batch(e, click, draws, pixelColor);
    forall i | 0 <= i < |seeds|
      ensures Emitted(e, S.Hatchling(seeds[i]), draws[i])
    {
      EmittedHatchling(e, click, draws[i], pixelColor);
    }
  }

  /** The state of a particle freshly appended by emitter `e` from draw `r`. */
  predicate Emitted(e: Emitter, h: S.PState, r: EmitDraw) {
    && S.Coherent(h)
    && h.id.kind == Tag(e)
    && h.life == h.id.maxLife == StartLife(e) as real
    && (if e.PixelPainter? then 3.0 <= h.size <= 6.0
        else SizeRange(e).0 as real <= h.size <= SizeRange(e).1 as real)
    && h.age == 0 && |h.trail| == 1
    && (e.Lightning? ==> h.branchTimer == r.timer && !h.branched)
  }

  /** One particle of a batch, as the constructor sets it up. */
  lemma EmittedHatchling(e: Emitter, click: Point, r: EmitDraw, pixelColor: Color)
    requires EmitDrawOk(e, r)
    ensures Emitted(e, S.Hatchling(SeedFor(e, click, r, pixelColor)), r)
  {
    var seed := SeedFor(e, click, r, pixelColor);
    EmittedSeedOk(e, click, r, pixelColor);
    StepFacts.HatchlingSetup(seed);
    StartLifeAgrees(e);
    SizeAgrees(e, r);
  }

  /** The start life table agrees with the emitter's `initial_life` and the constructor's per-variant override. */
  lemma StartLifeAgrees(e: Emitter)
    ensures var k := Tag(e);
      StartLife(e) ==
        if k.PixelPainter? then PARTICLE_LIFE * 5
        else if k.LightTracer? then PARTICLE_LIFE * 2
        else if k.Constellation? then PARTICLE_LIFE * 10
        else if InitialLife(e).Some? then InitialLife(e).value else PARTICLE_LIFE
  {
  }

  /** The size an emitter passes lies in its range. */
  lemma SizeAgrees(e: Emitter, r: EmitDraw)
    requires EmitDrawOk(e, r)
    ensures SizeRange(e).0 <= EmitSize(e, r) <= SizeRange(e).1
  {
  }

  /** Every constructor call an emitter makes meets the constructor's ranges. */
  lemma EmittedSeedOk(e: Emitter, click: Point, r: EmitDraw, pixelColor: Color)
    requires EmitDrawOk(e, r)
    ensures S.SeedOk(SeedFor(e, click, r, pixelColor))
  {
  }

  /** The pixel painter emits a single resting pixel in the colour the cycler handed out. */
  lemma PixelPainterBatch(click: Point, r: EmitDraw, pixelColor: Color)
    ensures var seeds := Batch(PixelPainter, click, [r], pixelColor);
      && |seeds| == BatchSize(PixelPainter)
      && seeds[0].color == pixelColor && seeds[0].vx == 0.0 && seeds[0].vy == 0.0
      && seeds[0].x == click.x && seeds[0].y == click.y
  {
  }
}
