/**
 * The per-particle step of Particlesim.py, as pure functions on a record
 * of the particle's fields. Advance is the whole update: it is the
 * specification that Particles.Particle.Update is proved against, and the
 * lemmas in StepFacts are about it.
 *
 * The force laws are abstracted: a variant whose velocity change draws a
 * random number or takes a sine, cosine, hypot or power receives that
 * change as the injected vector `force` (only its x component where the
 * vertical push is a constant); the swarm's pointer distance is injected
 * too, and its steering is modelled. Every other part of the step
 * (constants, damping, life and size bookkeeping, boundaries, trail,
 * fade, spawning) is modelled as the code does it.
 */
module Step {
  import opened Common
  import opened Catalog
  import Swarm

  /** The fields the constructor sets once and no update changes. */
  datatype Traits = Traits(
    kind: Kind,
    color: Color,
    maxLife: real,
    maxTrail: nat,
    target: Option<Point>,     // target_pos
    initialSize: real,         // initial_size, also base_size of the sound visualizer
    initialY: real,            // geyser
    home: Point                // pixel painter: target_x, target_y
  )

  /** The fields of one particle. The payload fields are meaningful for one variant each. */
  datatype PState = PState(
    id: Traits,
    x: real, y: real, vx: real, vy: real,
    size: real,
    life: real,
    trail: seq<Point>,
    age: nat,
    currentColor: Color,
    currentSize: real,
    branchTimer: int,          // lightning
    branched: bool             // lightning
  )

  /** The arguments of the Particle constructor together with the random draws it makes. */
  datatype Seed = Seed(
    x: real, y: real, vx: real, vy: real,
    color: Color, size: real, kind: Kind,
    target: Option<Point>,
    initialLife: Option<int>,
    timer: int,       // randint(10, 30), used by lightning
    pixelSize: int    // randint(3, 6), used by the pixel painter
  )

  /** Random values drawn for one spawned child. */
  datatype ChildDraw = ChildDraw(vx: real, vy: real, life: int, size: int, timer: int)

  /** What a particle update reads from its caller. */
  datatype Input = Input(pointer: Option<Point>, buttons: Option<(bool, bool, bool)>, beat: real)

  /**
   * The random and transcendental values one update consumes: the
   * abstracted force term, the sine pulse (in [0, 1]), the solar distance
   * ratio, the pointer distance (math.hypot) of the swarm rule, and the
   * draws of the children it may spawn.
   */
  datatype Draws = Draws(
    force: Point,
    pulse: real,
    distanceRatio: real,
    pointerDistance: real,
    first: ChildDraw,
    second: ChildDraw,
    burst: seq<ChildDraw>
  )

  /** The fields after the update, and the constructor arguments of the children it returned. */
  datatype Outcome = Outcome(next: PState, spawns: seq<Seed>)

  const SMOKE_GREY: Color := RGB(100, 100, 100)

  // ---------------------------------------------------------------------
  // Invariants and random ranges
  // ---------------------------------------------------------------------

  /** The invariants every constructed particle keeps. */
  predicate Coherent(s: PState) {
    && s.id.maxLife > 0.0
    && s.id.maxTrail == MaxTrail(s.id.kind)
    && 1 <= |s.trail| <= s.id.maxTrail
    && (s.id.kind.Lightning? && s.branched ==> s.branchTimer <= 0)
  }

  /** What the constructor's callers pass: a positive initial life when one is given, random draws in range. */
  predicate SeedOk(seed: Seed) {
    && (seed.initialLife.Some? ==> seed.initialLife.value > 0)
    && (seed.kind.Lightning? ==> 10 <= seed.timer <= 30)
    && (seed.kind.PixelPainter? ==> 3 <= seed.pixelSize <= 6)
  }

  predicate LightningDraw(c: ChildDraw) {
    -5.0 <= c.vx <= 5.0 && -5.0 <= c.vy <= 5.0 && 20 <= c.life <= 40 && 10 <= c.timer <= 30
  }

  predicate SmokeDraw(c: ChildDraw) {
    -0.5 <= c.vx <= 0.5 && -1.0 <= c.vy <= -0.2 && 3 <= c.size <= 6
  }

  /** A burst child: speed in [5, 10] at a uniform angle, so its squared speed is in [25, 100]. */
  predicate BurstDraw(c: ChildDraw) {
    25.0 <= c.vx * c.vx + c.vy * c.vy <= 100.0 && 20 <= c.life <= 40 && 3 <= c.size <= 6
  }

  /** The ranges of the random and sine-based values one update of a `k` particle consumes. */
  predicate DrawsFit(k: Kind, d: Draws) {
    && 0.0 <= d.pulse <= 1.0
    && 0.0 <= d.distanceRatio
    && 0.0 <= d.pointerDistance
    && (k.Lightning? ==> LightningDraw(d.first) && LightningDraw(d.second))
    && (k.Lava? ==> SmokeDraw(d.first))
    && (k.ChainStarter? ==>
          10 <= |d.burst| <= 20 && forall i :: 0 <= i < |d.burst| ==> BurstDraw(d.burst[i]))
  }

  /**
   * The swarm's pointer distance is math.hypot of its offset to the
   * pointer: with DrawsFit's `0 <= d.pointerDistance`, its square is the
   * squared offset.
   */
  predicate DistanceFits(s: PState, pointer: Option<Point>, d: Draws) {
    s.id.kind.Swarm? && pointer.Some? ==>
      d.pointerDistance * d.pointerDistance == SqDist(pointer.value, Point(s.x, s.y))
  }

  predicate InputOk(inp: Input) {
    0.0 <= inp.beat <= 1.0
  }

  // ---------------------------------------------------------------------
  // Construction
  // ---------------------------------------------------------------------

  /** The fields the constructor sets up, including the per-variant payload. */
  function Hatchling(seed: Seed): PState {
    var k := seed.kind;
    var life :=
      if k.PixelPainter? then (PARTICLE_LIFE * 5) as real
      else if k.LightTracer? then (PARTICLE_LIFE * 2) as real
      else if k.Constellation? then (PARTICLE_LIFE * 10) as real
      else if seed.initialLife.Some? then seed.initialLife.value as real else PARTICLE_LIFE as real;
    var size := if k.PixelPainter? then seed.pixelSize as real else if k.LightTracer? then 2.0 else seed.size;
    var id := Traits(seed.kind, seed.color, life, MaxTrail(seed.kind), seed.target, seed.size, seed.y, Point(seed.x, seed.y));
    var still := seed.kind.PixelPainter?;
    PState(id, seed.x, seed.y, if still then 0.0 else seed.vx, if still then 0.0 else seed.vy, size, life,
           [Point(seed.x, seed.y)], 0, seed.color, seed.size,
           if seed.kind.Lightning? then seed.timer else 0, false)
  }

  function Hatchlings(seeds: seq<Seed>): seq<PState> {
    seq(|seeds|, i requires 0 <= i < |seeds| => Hatchling(seeds[i]))
  }

  // ---------------------------------------------------------------------
  // The phases of one update, in the order the code runs them
  // ---------------------------------------------------------------------

  function Aged(s: PState): PState {
    s.(age := s.age + 1)
  }

  function Gravity(s: PState): PState {
    if GravityExempt(s.id.kind) then s else s.(vy := s.vy + GRAVITY)
  }

  /** One axis of the clamp-and-reflect wall rule: position and velocity after it. */
  function BounceAxis(p: real, v: real, hi: real): (real, real) {
    if p < 0.0 then (0.0, v * RESTITUTION)
    else if p > hi then (hi, v * RESTITUTION)
    else (p, v)
  }

  function Bounce(s: PState): PState {
    var (nx, nvx) := BounceAxis(s.x, s.vx, WIDTH);
    var (ny, nvy) := BounceAxis(s.y, s.vy, HEIGHT);
    s.(x := nx, vx := nvx, y := ny, vy := nvy)
  }

  /**
   * Whether a pointer-driven or implosion particle is inside the radius where
   * its rule stops pushing: 0.1 px of the pointer for the attractor and the
   * gravity field, 1 px for the vortex, 5 px for the blackhole, 10 px for the
   * path follower, 1 px of its target for an implosion particle.
   */
  predicate Near(s: PState, inp: Input) {
    var here := Point(s.x, s.y);
    var k := s.id.kind;
    if k.ExplosionImplosion? then s.id.target.Some? && SqDist(s.id.target.value, here) <= 1.0
    else if k.Attractor? || k.GravityField? then inp.pointer.Some? && SqDist(inp.pointer.value, here) <= 0.01
    else if k.Vortex? then inp.pointer.Some? && SqDist(inp.pointer.value, here) <= 1.0
    else if k.Blackhole? then inp.pointer.Some? && SqDist(inp.pointer.value, here) <= 25.0
    else if k.PathFollower? then inp.pointer.Some? && SqDist(inp.pointer.value, here) <= 100.0
    else false
  }

  /** The velocity factor a rule applies instead of its push when the particle is near. */
  function NearBrake(k: Kind): (f: real)
    ensures 0.0 < f <= 1.0
  {
    match k
    case Blackhole => 0.5
    case Attractor | Vortex | GravityField => 0.8
    case _ => 1.0
  }

  /**
   * The velocity push of the generic variants. The swarm's pointer steering
   * is the guarded Swarm.Steer; its random jitter is the injected force.
   */
  function Push(s: PState, inp: Input, d: Draws): Point {
    var k := s.id.kind;
    if ExactPush(k) then Point(0.0, ExactLift(k))
    else if ExactVertical(k) then Point(d.force.x, ExactLift(k))
    else if k.Swarm? && inp.pointer.Some? then
      var steer := Swarm.Steer(inp.pointer.value.x - s.x, inp.pointer.value.y - s.y, d.pointerDistance);
      Point(steer.x + d.force.x, steer.y + d.force.y)
    else if Near(s, inp) || (k.ExplosionImplosion? && s.id.target.None?) then Point(0.0, 0.0)
    else d.force
  }

  /** Life cost of a variant's own rule, including the blackhole and implosion stalls. */
  function Decay(s: PState, inp: Input): real {
    if s.id.kind.Blackhole? then (if Near(s, inp) then 5.0 else 0.0)
    else if s.id.kind.ExplosionImplosion? then (if Near(s, inp) then 10.0 else 0.0)
    else RuleDecay(s.id.kind)
  }

  /** Whether the pixel painter is within one pixel of its spawn point and snaps to rest. */
  predicate Snaps(s: PState) {
    var dx := s.id.home.x - s.x;
    var dy := s.id.home.y - s.y;
    dx * dx + dy * dy < 1.0
  }

  /** Snow drifts sideways and falls at 0.3 of its speed. */
  function SnowStep(s: PState, d: Draws): PState {
    s.(vx := s.vx + d.force.x, vy := Abs(s.vy) * 0.3)
  }

  /** Bouncing collision: a second dose of gravity, the wall bounce before the move, and the 0.99 damping. */
  function BouncingStep(s: PState): PState {
    var (nx, nvx) := BounceAxis(s.x, s.vx, WIDTH);
    var (ny, nvy) := BounceAxis(s.y, s.vy + GRAVITY, HEIGHT);
    s.(x := nx, y := ny, vx := nvx * DAMPING, vy := nvy * DAMPING)
  }

  /** The pixel painter is pulled back to its spawn point and snaps to rest within one pixel. */
  function PixelStep(s: PState): PState {
    if Snaps(s) then s.(x := s.id.home.x, y := s.id.home.y, vx := 0.0, vy := 0.0)
    else s.(vx := s.vx * 0.8 + (s.id.home.x - s.x) * 0.05, vy := s.vy * 0.8 + (s.id.home.y - s.y) * 0.05)
  }

  /** Constellation points damp first and then drift. */
  function ConstellationStep(s: PState, d: Draws): PState {
    s.(vx := s.vx * 0.995 + d.force.x, vy := s.vy * 0.995 + d.force.y)
  }

  /** Fireflies wander, damp, and turn back on an axis where they are off the screen. */
  function FireflyStep(s: PState, d: Draws): PState {
    var nvx := (s.vx + d.force.x) * 0.99;
    var nvy := (s.vy + d.force.y) * 0.99;
    s.(vx := if s.x < 0.0 || s.x > WIDTH then -nvx else nvx,
       vy := if s.y < 0.0 || s.y > HEIGHT then -nvy else nvy)
  }

  /** Geyser drops are pushed up for their first ticks and die 10 px below their start. */
  function GeyserStep(s: PState): PState {
    s.(vy := (if s.age < 10 then s.vy - 0.5 else s.vy) + GRAVITY * 0.8,
       life := if s.y > s.id.initialY + 10.0 then 0.0 else s.life)
  }

  /** Lightning jitters, fades by 1.65 and counts its branch timer down. */
  function LightningStep(s: PState, d: Draws): PState {
    s.(vx := s.vx + d.force.x, vy := s.vy + d.force.y,
       life := s.life - RuleDecay(Lightning), branchTimer := s.branchTimer - 1)
  }

  /** Every other variant: brake when near, push, damp, pay the life cost, grow. */
  function ForceStep(s: PState, inp: Input, d: Draws): PState {
    var p := Push(s, inp, d);
    var f := if Near(s, inp) then NearBrake(s.id.kind) else 1.0;
    var k := OwnDamping(s.id.kind);
    s.(vx := (s.vx * f + p.x) * k, vy := (s.vy * f + p.y) * k,
       life := s.life - Decay(s, inp), size := s.size + Growth(s.id.kind))
  }

  /** The sound visualizer sets its current size from the pulse and the global beat. */
  function BeatSize(s: PState, inp: Input, d: Draws): real {
    Whole(s.id.initialSize * (1.0 + d.pulse * 0.5 + inp.beat * 0.8))
  }

  /** The variant's own branch of the behaviour dispatch. */
  function Behave(s: PState, inp: Input, d: Draws): PState {
    var k := s.id.kind;
    if k.Plain? || k.ChainStarter? then s
    else if k.Snow? then SnowStep(s, d)
    else if k.BouncingCollision? then BouncingStep(s)
    else if k.PixelPainter? then PixelStep(s)
    else if k.Constellation? then ConstellationStep(s, d)
    else if k.Firefly? then FireflyStep(s, d)
    else if k.Geyser? then GeyserStep(s)
    else if k.Lightning? then LightningStep(s, d)
    else if RuleRuns(k, inp.pointer.Some?, inp.buttons.Some?) then ForceStep(s, inp, d)
    else s
  }

  /** The sound visualizer's branch also sets the current size from the beat. */
  function Beat(s: PState, inp: Input, d: Draws): PState {
    if s.id.kind.SoundVisualizer? then s.(currentSize := BeatSize(s, inp, d)) else s
  }

  /** The lightning branch that returns before integration. */
  predicate BranchesEarly(b: PState) {
    b.id.kind.Lightning? && b.branchTimer <= 0 && !b.branched
  }

  /** The lava branch that returns a smoke puff before integration. */
  predicate SmokesEarly(b: PState) {
    b.id.kind.Lava? && b.age % 10 == 0
  }

  function GlobalDamping(s: PState): PState {
    if SkipsGlobalDamping(s.id.kind) then s else s.(vx := s.vx * DAMPING, vy := s.vy * DAMPING)
  }

  function Integrate(s: PState): PState {
    s.(x := s.x + s.vx, y := s.y + s.vy)
  }

  predicate FarOffscreen(s: PState) {
    s.y > HEIGHT + OFFSCREEN_MARGIN || s.y < -OFFSCREEN_MARGIN
    || s.x > WIDTH + OFFSCREEN_MARGIN || s.x < -OFFSCREEN_MARGIN
  }

  /** Whether the boundary policy kills the particle at its new position. */
  predicate WallKills(s: PState, inp: Input) {
    match Boundary(s.id.kind)
    case FarOffscreenDeath => FarOffscreen(s)
    case AuroraDeath => FarOffscreen(s)
    case AttractorDeath => inp.pointer.Some? && SqDist(inp.pointer.value, Point(s.x, s.y)) < 25.0
    case _ => false
  }

  function Walls(s: PState, inp: Input): PState {
    if Boundary(s.id.kind) == ClampReflect then Bounce(s)
    else if WallKills(s, inp) then s.(life := 0.0)
    else s
  }

  /** Append a position to a bounded trail, dropping the oldest entry on overflow. */
  function PushTrail(trail: seq<Point>, p: Point, cap: nat): seq<Point> {
    var t := trail + [p];
    if |t| > cap then t[1..] else t
  }

  function Record(s: PState): PState {
    s.(trail := PushTrail(s.trail, Point(s.x, s.y), s.id.maxTrail))
  }

  function Age(s: PState): PState {
    s.(life := s.life - 1.0)
  }

  function Scale(c: Color, a: real): Color {
    RGB(Portion(c.r, a), Portion(c.g, a), Portion(c.b, a))
  }

  /** One channel of a faded colour: `int(channel * alpha)`. */
  function Portion(x: int, a: real): int {
    Trunc(x as real * a)
  }

  /** The effective transparency of the fade step. */
  function FadeAlpha(s: PState, inp: Input, d: Draws): real
    requires s.id.maxLife > 0.0
  {
    var alpha := s.life / s.id.maxLife;
    var k := s.id.kind;
    if k.Firefly? || k.SoundVisualizer? then alpha * (0.5 + d.pulse * 0.5)
    else if k.Solar? then (if inp.pointer.Some? then Max(0.0, alpha - d.distanceRatio * 0.5) else alpha)
    else alpha * Tint(k)
  }

  /** max(1, int(r)): the whole-pixel size the code draws with. */
  function Whole(r: real): (z: real)
    ensures 1.0 <= z && z == z.Floor as real
    ensures 0.0 <= r ==> z <= Max(1.0, r)
  {
    Max(1.0, Trunc(r) as real)
  }

  /** A size scaled by the transparency. */
  function FadedSize(size: real, a: real): real {
    Whole(size * a)
  }

  /** The firefly's size: its initial size scaled by a pulse factor in [0.8, 1]. */
  function FlickerSize(base: real, pulse: real): real {
    Whole(base * (0.8 + pulse * 0.2))
  }

  /** The current size the fade step derives; the sound visualizer keeps the one its rule set. */
  function FadeSize(s: PState, a: real, d: Draws): real {
    match Sizing(s.id.kind)
    case ScaledByAlpha => FadedSize(s.size, a)
    case WholeSize => Whole(s.size)
    case PulsedSize => FlickerSize(s.id.initialSize, d.pulse)
    case SizeUntouched => s.currentSize
  }

  /** Derive the current colour and size from the remaining-life fraction. */
  function Fade(s: PState, inp: Input, d: Draws): PState
    requires s.id.maxLife > 0.0
  {
    var a := FadeAlpha(s, inp, d);
    s.(currentColor := Scale(s.id.color, a), currentSize := FadeSize(s, a, d))
  }

  // ---------------------------------------------------------------------
  // Children
  // ---------------------------------------------------------------------

  function LightningChild(s: PState, c: ChildDraw): Seed {
    Seed(s.x, s.y, c.vx, c.vy, s.id.color, s.size, Lightning, None, Some(c.life), c.timer, 0)
  }

  function LightningPair(s: PState, d: Draws): seq<Seed> {
    [LightningChild(s, d.first), LightningChild(s, d.second)]
  }

  function SmokePuff(s: PState, d: Draws): Seed {
    Seed(s.x, s.y, d.first.vx, d.first.vy, SMOKE_GREY, d.first.size as real, Smoke, None, None, 0, 0)
  }

  function BurstChild(s: PState, c: ChildDraw): Seed {
    Seed(s.x, s.y, c.vx, c.vy, s.id.color, c.size as real, ChainExplosion, None, Some(c.life), 0, 0)
  }

  function Burst(s: PState, d: Draws): seq<Seed> {
    seq(|d.burst|, i requires 0 <= i < |d.burst| => BurstChild(s, d.burst[i]))
  }

  // ---------------------------------------------------------------------
  // The whole update
  // ---------------------------------------------------------------------

  /** Everything before the two early returns. */
  function Prelude(s: PState, inp: Input, d: Draws): PState {
    Beat(Behave(Gravity(Aged(s)), inp, d), inp, d)
  }

  /** Damping through fade, for an update that does not return early. */
  function Rest(b: PState, inp: Input, d: Draws): PState
    requires b.id.maxLife > 0.0
  {
    Fade(Age(Record(Walls(Integrate(GlobalDamping(b)), inp))), inp, d)
  }

  /** The spawn returns at the end of the update. */
  function Finish(f: PState, d: Draws): Outcome {
    if f.id.kind.Lightning? && f.branched then Outcome(f.(branched := false), LightningPair(f, d))
    else if f.id.kind.Lava? && f.age % 10 == 0 then Outcome(f, [SmokePuff(f, d)])
    else if f.id.kind.ChainStarter? then Outcome(f.(life := 0.0), Burst(f, d))
    else Outcome(f, [])
  }

  /** Particle.update: the new fields and the returned children. */
  function Advance(s: PState, inp: Input, d: Draws): Outcome
    requires s.id.maxLife > 0.0
  {
    AfterPrelude(Prelude(s, inp, d), inp, d)
  }

  /** The two early returns, or the rest of the update and its spawn branch. */
  function AfterPrelude(b: PState, inp: Input, d: Draws): Outcome
    requires b.id.maxLife > 0.0
  {
    if BranchesEarly(b) then Outcome(b.(branched := true), LightningPair(b, d))
    else if SmokesEarly(b) then Outcome(b, [SmokePuff(b, d)])
    else Finish(Rest(b, inp, d), d)
  }

  /** Whether an update gets past the two early returns. */
  predicate RunsThrough(s: PState, inp: Input, d: Draws) {
    var b := Prelude(s, inp, d);
    !BranchesEarly(b) && !SmokesEarly(b)
  }
}
