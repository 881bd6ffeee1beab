/**
 * The behaviour catalogue: the closed set of particle variants
 * (`special_type` in Particlesim.py) and the per-variant tables that the
 * update step consults: gravity exemption, custom damping, boundary
 * policy, trail capacity, extra life decay, growth and fade tint.
 */
module Catalog {
  import opened Common

  /** Plain is the `special_type=None` particle of the fountain, firework and paint emitters. */
  datatype Kind =
    | Plain | Electric | Magnetic | Bubble | Snow | Spiral | Rain | Smoke | Confetti
    | Attractor | Blackhole | Fluid | Crystal | Lightning | Lava | Firefly | Nebula
    | Solar | Vortex | Aurora | Geyser | Swarm | GravityField | FlowingStream
    | BouncingCollision | ExplosionImplosion | WaveRipple | PathFollower
    | SpringAttraction | PixelPainter | ChainExplosion | ChainStarter | LightTracer
    | SoundVisualizer | Constellation

  /** What happens at the screen edges after integration. */
  datatype BoundaryPolicy =
    | ClampReflect        // clamp the position, reflect the velocity with energy loss
    | FarOffscreenDeath   // die once 50 px outside the screen
    | AttractorDeath      // blackhole: die within 5 px of the pointer
    | AuroraDeath         // aurora: die once 50 px outside the screen, checked per axis
    | NoBoundary          // nebula, firefly

  /** How the fade step derives the current size. */
  datatype SizeRule =
    | ScaledByAlpha   // max(1, int(size * alpha))
    | WholeSize       // max(1, int(size))
    | PulsedSize      // max(1, int(initial_size * (0.8 + pulse * 0.2)))
    | SizeUntouched   // sound visualizer: set during the behaviour step instead

  /** The variants that get no baseline gravity. */
  predicate GravityExempt(k: Kind) {
    match k
    case Bubble | Snow | Smoke | Rain | Firefly | Nebula | Solar | Blackhole | Fluid
      | Aurora | Swarm | FlowingStream | WaveRipple | PathFollower | ExplosionImplosion
      | PixelPainter | SpringAttraction | ChainExplosion | LightTracer | SoundVisualizer
      | Constellation => true
    case _ => false
  }

  /** The variants that skip the global 0.99 damping (they damp in their own rule, or not at all). */
  predicate SkipsGlobalDamping(k: Kind) {
    match k
    case Blackhole | Lightning | Fluid | Rain | Smoke | Firefly | Nebula | Vortex | Aurora
      | Swarm | GravityField | FlowingStream | BouncingCollision | ExplosionImplosion
      | WaveRipple | PathFollower | SpringAttraction | PixelPainter | ChainExplosion
      | LightTracer | SoundVisualizer | Constellation => true
    case _ => false
  }

  function Boundary(k: Kind): BoundaryPolicy {
    match k
    case Rain | Smoke | Geyser | FlowingStream | ExplosionImplosion | WaveRipple
      | PathFollower | ChainExplosion | LightTracer | SoundVisualizer | Constellation => FarOffscreenDeath
    case Blackhole => AttractorDeath
    case Aurora => AuroraDeath
    case Nebula | Firefly => NoBoundary
    case _ => ClampReflect
  }

  /** Trail capacity: 15 positions, 100 for the light tracer. */
  function MaxTrail(k: Kind): (n: nat)
    ensures n >= 1
  {
    if k.LightTracer? then 100 else 15
  }

  /** Variants whose force rule only runs when a pointer position is passed. */
  predicate NeedsPointer(k: Kind) {
    match k
    case Attractor | Blackhole | Vortex | Swarm | GravityField | PathFollower | SpringAttraction => true
    case _ => false
  }

  /**
   * Whether the variant's branch of the behaviour dispatch runs this tick:
   * plain and chain-starter particles have no branch; the pointer-driven
   * variants need a pointer, and the gravity field also the button state.
   */
  predicate RuleRuns(k: Kind, pointer: bool, buttons: bool) {
    !k.Plain? && !k.ChainStarter?
    && (NeedsPointer(k) ==> pointer)
    && (k.GravityField? ==> buttons)
  }

  /** The multiplicative damping a variant applies inside its own rule (1 when it has none). */
  function OwnDamping(k: Kind): (f: real)
    ensures 0.0 < f <= 1.0
  {
    match k
    case Rain | Lava | Swarm | ChainExplosion => 0.98
    case Smoke | Fluid | Vortex | ExplosionImplosion | SpringAttraction => 0.95
    case Blackhole | PathFollower => 0.9
    case Firefly | Nebula | Aurora | WaveRipple | SoundVisualizer => 0.99
    case GravityField => 0.97
    case FlowingStream | Constellation => 0.995
    case BouncingCollision => DAMPING
    case PixelPainter => 0.8
    case LightTracer => 0.999
    case _ => 1.0
  }

  /**
   * Variants whose velocity change holds no random draw and no trigonometry:
   * their push is the constant below. The others receive it as an injected force.
   */
  predicate ExactPush(k: Kind) {
    match k
    case Fluid | Crystal | Lava | Nebula | Solar | FlowingStream | WaveRipple
      | ChainExplosion | LightTracer => true
    case _ => false
  }

  /**
   * Variants whose vertical push is a constant while the horizontal one is a
   * random draw or a sway over the particle's age: only the x component of
   * their push is an injected force.
   */
  predicate ExactVertical(k: Kind) {
    k.Bubble? || k.Smoke? || k.Rain? || k.Confetti? || k.Aurora?
  }

  /** The constant vertical push of the ExactPush and ExactVertical variants (negative is upward). */
  function ExactLift(k: Kind): real {
    match k
    case Fluid => GRAVITY * 0.1
    case Crystal | Lava | Rain => GRAVITY * 0.5
    case FlowingStream => GRAVITY * 0.05
    case LightTracer => GRAVITY * 0.01
    case Confetti => GRAVITY * 0.8
    case Bubble => -0.3
    case Smoke => -0.15
    case Aurora => -0.05
    case _ => 0.0
  }

  /** The unconditional life cost of a variant's own rule, per tick. */
  function RuleDecay(k: Kind): (c: real)
    ensures c >= 0.0
  {
    match k
    case Lightning => 1.65
    case Nebula | FlowingStream => 0.5
    case Aurora => 0.2
    case WaveRipple => 1.0
    case ChainExplosion => 5.0
    case _ => 0.0
  }

  /** Size change per tick of a variant's own rule. */
  function Growth(k: Kind): real {
    match k
    case Smoke => 0.05
    case Nebula | WaveRipple => 0.1
    case Aurora => 0.02
    case FlowingStream => 0.01
    case ExplosionImplosion => -0.05
    case _ => 0.0
  }

  /** The transparency multiplier of the fade step (firefly, sound and solar are handled apart). */
  function Tint(k: Kind): (t: real)
    ensures 0.0 < t <= 1.0
  {
    match k
    case Nebula => 0.2
    case Aurora => 0.3
    case FlowingStream | Constellation => 0.8
    case WaveRipple => 0.4
    case LightTracer => 0.7
    case _ => 1.0
  }

  function Sizing(k: Kind): SizeRule {
    match k
    case Firefly => PulsedSize
    case SoundVisualizer => SizeUntouched
    case Nebula | Aurora | FlowingStream | ExplosionImplosion | WaveRipple | PathFollower
      | SpringAttraction | PixelPainter | LightTracer | Constellation => WholeSize
    case _ => ScaledByAlpha
  }
}
