/**
 * Properties of the per-particle step Step.Advance: the invariants it
 * keeps, the bounded trail, the walls, the life countdown, the fade
 * floor, and the three spawn rules (lightning branching, lava smoke,
 * chain-starter burst) as state machines.
 */
module StepFacts {
  import opened Common
  import opened Catalog
  import opened Step
  import Swarm

  lemma HatchlingSetup(seed: Seed)
    requires SeedOk(seed)
    ensures var h := Hatchling(seed);
      && Coherent(h)
      && h.id.kind == seed.kind && h.age == 0
      && h.trail == [Point(seed.x, seed.y)]
      && h.life == h.id.maxLife
      && (seed.kind !in {PixelPainter, LightTracer, Constellation} ==>
            h.life == (if seed.initialLife.Some? then seed.initialLife.value else PARTICLE_LIFE) as real)
      && (seed.kind.Lightning? ==> h.branchTimer == seed.timer && !h.branched)
      && (seed.kind.LightTracer? ==> h.id.maxTrail == 100)
  {
  }

  /** What a variant's own rule leaves alone: identity, trail, age, colour, and the position of most variants. */
  lemma BehaveKeeps(g: PState, inp: Input, d: Draws)
    ensures var b := Behave(g, inp, d);
      && b.id == g.id
      && b.trail == g.trail && b.age == g.age && b.branched == g.branched
      && b.currentColor == g.currentColor && b.currentSize == g.currentSize
      && (!g.id.kind.BouncingCollision? && !g.id.kind.PixelPainter? ==> b.x == g.x && b.y == g.y)
  {
  }

  /** What a variant's own rule does to the countdowns: life never rises except by the geyser's kill, and the lightning timer ticks. */
  lemma BehaveCountdowns(g: PState, inp: Input, d: Draws)
    ensures var b := Behave(g, inp, d);
      && b.branchTimer == (if g.id.kind.Lightning? then g.branchTimer - 1 else g.branchTimer)
      && (b.life <= g.life || (g.id.kind.Geyser? && b.life == 0.0))
      && (g.id.kind.Lightning? ==> b.life == g.life - RuleDecay(g.id.kind))
      && (g.id.kind.Lava? ==> b.life == g.life)
  {
  }

  lemma PreludeIdentity(s: PState, inp: Input, d: Draws)
    ensures Prelude(s, inp, d).id == s.id
    ensures Prelude(s, inp, d).trail == s.trail
  {
    BehaveKeeps(Gravity(Aged(s)), inp, d);
  }

  lemma RestIdentity(b: PState, inp: Input, d: Draws)
    requires b.id.maxLife > 0.0
    ensures Rest(b, inp, d).id == b.id
    ensures Rest(b, inp, d).branched == b.branched
    ensures Rest(b, inp, d).branchTimer == b.branchTimer
    ensures Rest(b, inp, d).age == b.age
  {
  }

  /** What the part before the early returns changes: the age, and only what the variant's rule touches. */
  lemma PreludeShape(s: PState, inp: Input, d: Draws)
    ensures var b := Prelude(s, inp, d);
      && b.id == s.id
      && b.trail == s.trail && b.age == s.age + 1 && b.branched == s.branched
      && b.currentColor == s.currentColor
      && (!s.id.kind.SoundVisualizer? ==> b.currentSize == s.currentSize)
      && (!s.id.kind.BouncingCollision? && !s.id.kind.PixelPainter? ==> b.x == s.x && b.y == s.y)
      && b.branchTimer == (if s.id.kind.Lightning? then s.branchTimer - 1 else s.branchTimer)
      && (b.life <= s.life || (s.id.kind.Geyser? && b.life == 0.0))
      && (s.id.kind.Lightning? ==> b.life == s.life - RuleDecay(s.id.kind))
      && (s.id.kind.Lava? ==> b.life == s.life)
      && (s.id.kind.SoundVisualizer? && RuleRuns(s.id.kind, inp.pointer.Some?, inp.buttons.Some?) ==> b.currentSize >= 1.0)
  {
    BehaveKeeps(Gravity(Aged(s)), inp, d);
    BehaveCountdowns(Gravity(Aged(s)), inp, d);
  }

  /** Everything after the early returns keeps the identity and moves the trail along. */
  lemma RestShape(b: PState, inp: Input, d: Draws)
    requires b.id.maxLife > 0.0
    ensures var w := Walls(Integrate(GlobalDamping(b)), inp);
      var r := Rest(b, inp, d);
      && r.id == b.id
      && r.x == w.x && r.y == w.y && r.vx == w.vx && r.vy == w.vy
      && r.life == w.life - 1.0
      && r.trail == PushTrail(b.trail, Point(w.x, w.y), b.id.maxTrail)
      && r.branched == b.branched && r.branchTimer == b.branchTimer && r.age == b.age
      && (r.life == b.life - 1.0 || r.life == -1.0)
      && (r.currentSize >= 1.0 || (Sizing(b.id.kind) == SizeUntouched && r.currentSize == b.currentSize))
  {
  }

  /** The end-of-update spawn branch only clears the lightning flag and kills the chain starter. */
  lemma FinishShape(f: PState, d: Draws)
    ensures var o := Finish(f, d);
      o.next == f.(branched := f.branched && !f.id.kind.Lightning?,
                   life := if f.id.kind.ChainStarter? then 0.0 else f.life)
  {
  }

  /** An update never changes the variant tag nor any construction-time constant, and ages the particle by one tick. */
  lemma {:induction false} AdvanceKeepsIdentity(s: PState, inp: Input, d: Draws)
    requires s.id.maxLife > 0.0
    ensures Advance(s, inp, d).next.id == s.id
    ensures Advance(s, inp, d).next.age == s.age + 1
  {
    PreludeShape(s, inp, d);
    var b := Prelude(s, inp, d);
    assert Advance(s, inp, d) == AfterPrelude(b, inp, d);
    if RunsThrough(s, inp, d) {
      var r := Rest(b, inp, d);
      RestShape(b, inp, d);
      FinishShape(r, d);
      assert Advance(s, inp, d) == Finish(r, d);
      assert Finish(r, d).next.currentSize == r.currentSize;
    }
  }

  lemma PushTrailBounded(trail: seq<Point>, p: Point, cap: nat)
    requires 1 <= |trail| <= cap
    ensures var t := PushTrail(trail, p, cap);
      1 <= |t| <= cap && t[|t| - 1] == p
      && (|trail| < cap ==> t == trail + [p])
      && (|trail| == cap ==> t == trail[1..] + [p])
  {
  }

  /**
   * The trail step: on an update that gets past the early returns, the
   * trail is the old trail with the new position appended and, when that
   * overflows the capacity, its oldest entry removed; an early return
   * leaves the trail as it was.
   */
  lemma {:induction false} TrailFollows(s: PState, inp: Input, d: Draws)
    requires Coherent(s)
    ensures var n := Advance(s, inp, d).next;
      && 1 <= |n.trail| <= n.id.maxTrail
      && n.id.maxTrail == MaxTrail(s.id.kind)
      && (RunsThrough(s, inp, d) ==>
            && n.trail[|n.trail| - 1] == Point(n.x, n.y)
            && n.trail == PushTrail(s.trail, Point(n.x, n.y), s.id.maxTrail))
      && (!RunsThrough(s, inp, d) ==> n.trail == s.trail)
  {
    PreludeShape(s, inp, d);
    var b := Prelude(s, inp, d);
    if RunsThrough(s, inp, d) {
      RestShape(b, inp, d);
      FinishShape(Rest(b, inp, d), d);
      var w := Walls(Integrate(GlobalDamping(b)), inp);
      PushTrailBounded(s.trail, Point(w.x, w.y), s.id.maxTrail);
    }
  }

  /** Every update keeps the particle's invariants. */
  lemma {:induction false} AdvanceCoherent(s: PState, inp: Input, d: Draws)
    requires Coherent(s)
    ensures Coherent(Advance(s, inp, d).next)
  {
    AdvanceKeepsIdentity(s, inp, d);
    TrailFollows(s, inp, d);
    PreludeShape(s, inp, d);
    var b := Prelude(s, inp, d);
    assert Advance(s, inp, d) == AfterPrelude(b, inp, d);
    if RunsThrough(s, inp, d) {
      var r := Rest(b, inp, d);
      RestShape(b, inp, d);
      FinishShape(r, d);
      assert Advance(s, inp, d) == Finish(r, d);
      assert Finish(r, d).next.currentSize == r.currentSize;
    }
  }

  /** With in-range draws, every returned child is a valid constructor call. */
  lemma SpawnsOk(s: PState, inp: Input, d: Draws)
    requires s.id.maxLife > 0.0
    requires DrawsFit(s.id.kind, d)
    ensures forall i :: 0 <= i < |Advance(s, inp, d).spawns| ==> SeedOk(Advance(s, inp, d).spawns[i])
  {
    PreludeShape(s, inp, d);
    var b := Prelude(s, inp, d);
    if RunsThrough(s, inp, d) {
      RestShape(b, inp, d);
    }
  }

  lemma BounceAxisInside(p: real, v: real, hi: real)
    requires hi >= 0.0
    ensures var (np, nv) := BounceAxis(p, v, hi);
      && 0.0 <= np <= hi
      && (0.0 <= p <= hi ==> np == p && nv == v)
      && (p < 0.0 || p > hi ==> nv == -0.8 * v)
  {
  }

  /** The position and velocity just before the wall check of an update that runs through. */
  function Landing(s: PState, inp: Input, d: Draws): PState {
    Integrate(GlobalDamping(Prelude(s, inp, d)))
  }

  /**
   * Clamp-and-reflect: for a variant outside the boundary exemption list,
   * an update that runs through leaves the particle on the screen; an
   * axis that was outside is clamped to the edge and its velocity
   * multiplied by -0.8, an axis that was inside is left alone.
   */
  lemma {:induction false} ClampKeepsOnScreen(s: PState, inp: Input, d: Draws)
    requires s.id.maxLife > 0.0
    requires Boundary(s.id.kind) == ClampReflect
    requires RunsThrough(s, inp, d)
    ensures var n := Advance(s, inp, d).next;
      var m := Landing(s, inp, d);
      && 0.0 <= n.x <= WIDTH && 0.0 <= n.y <= HEIGHT
      && (0.0 <= m.x <= WIDTH ==> n.x == m.x && n.vx == m.vx)
      && (m.x < 0.0 || m.x > WIDTH ==> n.vx == -0.8 * m.vx)
      && (0.0 <= m.y <= HEIGHT ==> n.y == m.y && n.vy == m.vy)
      && (m.y < 0.0 || m.y > HEIGHT ==> n.vy == -0.8 * m.vy)
  {
    PreludeShape(s, inp, d);
    var b := Prelude(s, inp, d);
    var m := Landing(s, inp, d);
    RestShape(b, inp, d);
    FinishShape(Rest(b, inp, d), d);
    assert Walls(m, inp) == Bounce(m);
    BounceAxisInside(m.x, m.vx, WIDTH);
    BounceAxisInside(m.y, m.vy, HEIGHT);
  }

  /** Pass-through variants die once they are more than 50 px outside the screen. */
  lemma {:induction false} FarOffscreenDies(s: PState, inp: Input, d: Draws)
    requires s.id.maxLife > 0.0
    requires Boundary(s.id.kind) in {FarOffscreenDeath, AuroraDeath}
    requires RunsThrough(s, inp, d)
    requires FarOffscreen(Landing(s, inp, d))
    ensures Advance(s, inp, d).next.life <= 0.0
  {
    PreludeIdentity(s, inp, d);
    RestIdentity(Prelude(s, inp, d), inp, d);
  }

  /** Blackhole particles die within 5 px of the pointer. */
  lemma {:induction false} BlackholeSwallows(s: PState, inp: Input, d: Draws)
    requires s.id.maxLife > 0.0 && s.id.kind.Blackhole?
    requires inp.pointer.Some?
    requires SqDist(inp.pointer.value, Point(Landing(s, inp, d).x, Landing(s, inp, d).y)) < 25.0
    ensures Advance(s, inp, d).next.life <= 0.0
  {
    PreludeIdentity(s, inp, d);
  }

  /**
   * The life countdown: an update of a live particle never raises its
   * life, and lowers it on every tick except a lava particle's smoke tick,
   * which returns before the baseline decrement.
   */
  lemma {:induction false} LifeNeverRises(s: PState, inp: Input, d: Draws)
    requires s.id.maxLife > 0.0 && s.life > 0.0
    ensures var n := Advance(s, inp, d).next;
      && n.life <= s.life
      && (SmokesEarly(Prelude(s, inp, d)) <==> n.life == s.life)
  {
    PreludeShape(s, inp, d);
    var b := Prelude(s, inp, d);
    if BranchesEarly(b) {
      assert Advance(s, inp, d).next == b.(branched := true);
    } else if SmokesEarly(b) {
      assert Advance(s, inp, d).next == b;
    } else {
      RestShape(b, inp, d);
      FinishShape(Rest(b, inp, d), d);
      assert Advance(s, inp, d).next == Finish(Rest(b, inp, d), d).next;
    }
  }

  /** The effective transparency of the fade step stays in [0, 1] while life is in [0, max_life]. */
  lemma AlphaInUnit(s: PState, inp: Input, d: Draws)
    requires s.id.maxLife > 0.0 && 0.0 <= s.life <= s.id.maxLife
    requires 0.0 <= d.pulse <= 1.0 && 0.0 <= d.distanceRatio
    ensures 0.0 <= FadeAlpha(s, inp, d) <= 1.0
  {
    var alpha := s.life / s.id.maxLife;
    assert 0.0 <= alpha <= 1.0;
    var k := s.id.kind;
    if k.Firefly? || k.SoundVisualizer? {
      ProductInUnit(alpha, 0.5 + d.pulse * 0.5);
    } else if !k.Solar? {
      ProductInUnit(alpha, Tint(k));
    }
  }

  /**
   * The fade step: with the remaining-life fraction in [0, 1], the current
   * size is a whole number at least 1 and at most max(1, size, initial
   * size), and every colour channel is scaled into [0, channel].
   */
  lemma FadeWithinBase(s: PState, inp: Input, d: Draws)
    requires s.id.maxLife > 0.0 && 0.0 <= s.life <= s.id.maxLife
    requires s.size >= 0.0 && s.id.initialSize >= 0.0
    requires 0.0 <= d.pulse <= 1.0 && 0.0 <= d.distanceRatio
    requires 0 <= s.id.color.r && 0 <= s.id.color.g && 0 <= s.id.color.b
    requires Sizing(s.id.kind) != SizeUntouched
    ensures var f := Fade(s, inp, d);
      && 1.0 <= f.currentSize <= Max(1.0, Max(s.size, s.id.initialSize))
      && f.currentSize == f.currentSize.Floor as real
      && 0 <= f.currentColor.r <= s.id.color.r
      && 0 <= f.currentColor.g <= s.id.color.g
      && 0 <= f.currentColor.b <= s.id.color.b
  {
    var a := FadeAlpha(s, inp, d);
    AlphaInUnit(s, inp, d);
    ScaleWithin(s.id.color, a);
    FadeSizeWithin(s, a, d);
  }

  lemma ScaleWithin(c: Color, a: real)
    requires 0 <= c.r && 0 <= c.g && 0 <= c.b && 0.0 <= a <= 1.0
    ensures var t := Scale(c, a);
      0 <= t.r <= c.r && 0 <= t.g <= c.g && 0 <= t.b <= c.b
  {
    ScaleBelow(c.r, a);
    ScaleBelow(c.g, a);
    ScaleBelow(c.b, a);
  }

  lemma FadeSizeWithin(s: PState, a: real, d: Draws)
    requires 0.0 <= a <= 1.0 && 0.0 <= d.pulse <= 1.0
    requires s.size >= 0.0 && s.id.initialSize >= 0.0
    requires Sizing(s.id.kind) != SizeUntouched
    ensures var z := FadeSize(s, a, d);
      1.0 <= z <= Max(1.0, Max(s.size, s.id.initialSize)) && z == z.Floor as real
  {
    FadeSizeBounds(s, a, d);
  }

  lemma FadeSizeBounds(s: PState, a: real, d: Draws)
    requires 0.0 <= a <= 1.0 && 0.0 <= d.pulse <= 1.0
    requires s.size >= 0.0 && s.id.initialSize >= 0.0
    requires Sizing(s.id.kind) != SizeUntouched
    ensures FadeSize(s, a, d) <= Max(1.0, Max(s.size, s.id.initialSize))
  {
    match Sizing(s.id.kind)
    case ScaledByAlpha => ScaledWhole(s.size, a, s.id.initialSize);
    case WholeSize => PlainWhole(s.size, s.id.initialSize);
    case PulsedSize => PulsedBelow(s.id.initialSize, d.pulse, s.size);
  }

  lemma ScaledWhole(x: real, a: real, other: real)
    requires x >= 0.0 && 0.0 <= a <= 1.0
    ensures FadedSize(x, a) <= Max(1.0, Max(x, other))
  {
    ProductBelow(x, a);
    WholeBelow(x * a, x, other);
  }

  lemma PlainWhole(x: real, other: real)
    requires x >= 0.0
    ensures Whole(x) <= Max(1.0, Max(x, other))
  {
    WholeBelow(x, x, other);
  }

  lemma PulsedBelow(x: real, pulse: real, other: real)
    requires x >= 0.0 && 0.0 <= pulse <= 1.0
    ensures FlickerSize(x, pulse) <= Max(1.0, Max(other, x))
  {
    var k := 0.8 + pulse * 0.2;
    ProductBelow(x, k);
    WholeBelow(x * k, x, other);
  }

  /** A whole size taken from a value in [0, hi] is at most max(1, hi, other), in either order. */
  lemma WholeBelow(r: real, hi: real, other: real)
    requires 0.0 <= r <= hi
    ensures Whole(r) <= Max(1.0, Max(hi, other))
    ensures Whole(r) <= Max(1.0, Max(other, hi))
  {
    assert Whole(r) <= Max(1.0, r);
  }

  lemma MulNonneg(a: real, b: real)
    requires 0.0 <= a && 0.0 <= b
    ensures 0.0 <= a * b
  {
  }

  lemma ProductInUnit(a: real, b: real)
    requires 0.0 <= a <= 1.0 && 0.0 <= b <= 1.0
    ensures 0.0 <= a * b <= 1.0
  {
    MulNonneg(a, b);
    MulNonneg(a, 1.0 - b);
    MulNonneg(1.0 - a, 1.0);
  }

  lemma ProductBelow(x: real, a: real)
    requires x >= 0.0 && 0.0 <= a <= 1.0
    ensures 0.0 <= x * a <= x
  {
    MulNonneg(x, a);
    MulNonneg(x, 1.0 - a);
  }

  lemma ScaleBelow(c: int, a: real)
    requires 0 <= c && 0.0 <= a <= 1.0
    ensures 0 <= Portion(c, a) <= c
  {
    ProductBelow(c as real, a);
  }

  /**
   * The size floor holds after every update that reaches the fade step:
   * the fade rounds the size up to 1, and the sound visualizer, which the
   * fade leaves alone, floors it in its own rule.
   */
  lemma {:induction false} SizeFloor(s: PState, inp: Input, d: Draws)
    requires s.id.maxLife > 0.0
    requires RunsThrough(s, inp, d)
    ensures Advance(s, inp, d).next.currentSize >= 1.0
  {
    PreludeShape(s, inp, d);
    var b := Prelude(s, inp, d);
    var r := Rest(b, inp, d);
    RestShape(b, inp, d);
    FinishShape(r, d);
    assert Advance(s, inp, d) == Finish(r, d);
  }

  // ---------------------------------------------------------------------
  // Lightning: branch_timer and the branched flag
  // ---------------------------------------------------------------------

  /** While the branch timer has not run out, a lightning particle returns no children. */
  lemma {:induction false} LightningQuiet(s: PState, inp: Input, d: Draws)
    requires Coherent(s) && s.id.kind.Lightning?
    requires s.branchTimer - 1 > 0
    ensures var o := Advance(s, inp, d);
      && o.spawns == []
      && o.next.branchTimer == s.branchTimer - 1
      && !o.next.branched
  {
    PreludeIdentity(s, inp, d);
    RestIdentity(Prelude(s, inp, d), inp, d);
  }

  /**
   * Once the timer has run out, every update of a lightning particle
   * returns exactly two lightning children at the parent's position, each
   * with life equal to max_life in [20, 40]. The branched flag toggles:
   * a tick that starts unbranched returns early (before the move), and the
   * next one runs through and clears the flag again. The timer stays
   * expired, so the premise holds again on the following update.
   */
  lemma {:induction false} LightningBranches(s: PState, inp: Input, d: Draws)
    requires s.id.maxLife > 0.0 && s.id.kind.Lightning?
    requires DrawsFit(s.id.kind, d)
    requires s.branchTimer - 1 <= 0
    ensures var o := Advance(s, inp, d);
      && |o.spawns| == 2
      && o.next.branchTimer == s.branchTimer - 1 <= 0
      && o.next.branched == !s.branched
      && (forall i :: 0 <= i < 2 ==>
            var c := Hatchling(o.spawns[i]);
            && c.id.kind.Lightning? && c.x == o.next.x && c.y == o.next.y
            && c.life == c.id.maxLife && 20.0 <= c.life <= 40.0)
      && (!s.branched ==> o.next.x == s.x && o.next.y == s.y && o.next.trail == s.trail)
  {
    PreludeIdentity(s, inp, d);
    RestIdentity(Prelude(s, inp, d), inp, d);
  }

  /** Repeated updates, one per tick, each with its own input and draws. */
  function Run(s: PState, ticks: seq<(Input, Draws)>): (r: seq<Outcome>)
    requires s.id.maxLife > 0.0
    ensures |r| == |ticks|
    decreases |ticks|
  {
    if ticks == [] then []
    else
      var o := Advance(s, ticks[0].0, ticks[0].1);
      AdvanceKeepsIdentity(s, ticks[0].0, ticks[0].1);
      [o] + Run(o.next, ticks[1..])
  }

  /** From the tick its timer runs out, a lightning particle returns two children on every later tick. */
  lemma {:induction false} LightningBranchesEveryTick(s: PState, ticks: seq<(Input, Draws)>)
    requires s.id.maxLife > 0.0 && s.id.kind.Lightning?
    requires s.branchTimer - 1 <= 0
    requires forall i :: 0 <= i < |ticks| ==> DrawsFit(Lightning, ticks[i].1)
    ensures forall i :: 0 <= i < |ticks| ==> |Run(s, ticks)[i].spawns| == 2
    decreases |ticks|
  {
    if ticks != [] {
      var o := Advance(s, ticks[0].0, ticks[0].1);
      LightningBranches(s, ticks[0].0, ticks[0].1);
      AdvanceKeepsIdentity(s, ticks[0].0, ticks[0].1);
      LightningBranchesEveryTick(o.next, ticks[1..]);
      assert Run(s, ticks) == [o] + Run(o.next, ticks[1..]);
    }
  }

  /**
   * An early return skips the move, the walls, the trail, the baseline
   * life decrement and the fade: position, trail and current look are
   * those of the start of the tick, and life has lost only the
   * variant's own cost (1.65 for lightning, nothing for lava).
   */
  lemma {:induction false} EarlyReturnSkipsRest(s: PState, inp: Input, d: Draws)
    requires s.id.maxLife > 0.0
    requires !RunsThrough(s, inp, d)
    ensures var n := Advance(s, inp, d).next;
      && s.id.kind in {Lightning, Lava}
      && n.x == s.x && n.y == s.y && n.trail == s.trail
      && n.currentColor == s.currentColor && n.currentSize == s.currentSize
      && n.life == s.life - RuleDecay(s.id.kind)
  {
    PreludeIdentity(s, inp, d);
  }

  // ---------------------------------------------------------------------
  // Lava smoke
  // ---------------------------------------------------------------------

  /**
   * A lava particle returns one grey smoke puff on every tick whose age is
   * a multiple of 10, from its position at the start of the tick, and no
   * child on any other tick: the smoke branch at the end of the update
   * can never fire, because the early return has already taken that tick.
   */
  lemma {:induction false} LavaSmokesEveryTenth(s: PState, inp: Input, d: Draws)
    requires s.id.maxLife > 0.0 && s.id.kind.Lava?
    requires DrawsFit(s.id.kind, d)
    ensures var o := Advance(s, inp, d);
      && ((s.age + 1) % 10 == 0 ==>
            && |o.spawns| == 1
            && var c := Hatchling(o.spawns[0]);
            && c.id.kind.Smoke? && c.x == s.x && c.y == s.y && c.id.color == SMOKE_GREY
            && c.life == PARTICLE_LIFE as real && 3.0 <= c.size <= 6.0)
      && ((s.age + 1) % 10 != 0 ==> o.spawns == [])
  {
    PreludeShape(s, inp, d);
    var b := Prelude(s, inp, d);
    if (s.age + 1) % 10 == 0 {
      assert Advance(s, inp, d) == Outcome(b, [SmokePuff(b, d)]);
    } else {
      RestIdentity(b, inp, d);
      assert Advance(s, inp, d) == Finish(Rest(b, inp, d), d);
    }
  }

  // ---------------------------------------------------------------------
  // Chain starter
  // ---------------------------------------------------------------------

  /**
   * A chain-explosion child as the constructor sets it up from a burst
   * draw: at the parent's position, with life equal to max_life in
   * [20, 40], size in [3, 6] and speed in [5, 10].
   */
  predicate BurstSpawn(parent: PState, seed: Seed) {
    var c := Hatchling(seed);
    && c.id.kind.ChainExplosion? && c.x == parent.x && c.y == parent.y
    && c.life == c.id.maxLife && 20.0 <= c.life <= 40.0
    && 3.0 <= c.size <= 6.0
    && 25.0 <= c.vx * c.vx + c.vy * c.vy <= 100.0
  }

  lemma BurstSetup(f: PState, d: Draws)
    requires forall i :: 0 <= i < |d.burst| ==> BurstDraw(d.burst[i])
    ensures forall i :: 0 <= i < |Burst(f, d)| ==> BurstSpawn(f, Burst(f, d)[i])
  {
    forall i | 0 <= i < |d.burst|
      ensures BurstSpawn(f, Burst(f, d)[i])
    {
      BurstChildSpawn(f, d.burst[i]);
    }
  }

  lemma BurstChildSpawn(f: PState, c: ChildDraw)
    requires BurstDraw(c)
    ensures BurstSpawn(f, BurstChild(f, c))
  {
    var h := Hatchling(BurstChild(f, c));
    assert h.vx == c.vx && h.vy == c.vy && h.life == c.life as real;
  }

  /** A chain starter dies on its update (life 0) and returns a burst of 10 to 20 chain-explosion children. */
  lemma {:induction false} ChainStarterBursts(s: PState, inp: Input, d: Draws)
    requires s.id.maxLife > 0.0 && s.id.kind.ChainStarter?
    requires DrawsFit(s.id.kind, d)
    ensures var o := Advance(s, inp, d);
      && o.next.life == 0.0
      && 10 <= |o.spawns| <= 20
      && forall i :: 0 <= i < |o.spawns| ==> BurstSpawn(o.next, o.spawns[i])
  {
    PreludeShape(s, inp, d);
    var b := Prelude(s, inp, d);
    assert RunsThrough(s, inp, d);
    RestShape(b, inp, d);
    var f := Rest(b, inp, d);
    FinishShape(f, d);
    var o := Finish(f, d);
    assert Advance(s, inp, d) == o;
    assert o.spawns == Burst(f, d);
    BurstSetup(f, d);
    assert o.next.x == f.x && o.next.y == f.y;
  }

  // ---------------------------------------------------------------------
  // Exact pushes
  // ---------------------------------------------------------------------

  /** A bubble's own rule lifts it by exactly 0.3 per tick and adds only the sideways draw. */
  lemma BubbleRises(s: PState, inp: Input, d: Draws)
    requires s.id.kind.Bubble?
    ensures Behave(s, inp, d).vy == s.vy - 0.3
    ensures Behave(s, inp, d).vx == s.vx + d.force.x
  {
  }

  /**
   * A swarm particle sitting on the pointer, where the written rule divides
   * by a zero distance, gets no steering: only its jitter and its 0.98
   * damping.
   */
  lemma SwarmOnPointerCoasts(s: PState, inp: Input, d: Draws)
    requires s.id.kind.Swarm? && inp.pointer == Some(Point(s.x, s.y)) && d.pointerDistance == 0.0
    ensures Behave(s, inp, d).vx == (s.vx + d.force.x) * 0.98
    ensures Behave(s, inp, d).vy == (s.vy + d.force.y) * 0.98
    ensures Swarm.SteerAsWritten(inp.pointer.value.x - s.x, inp.pointer.value.y - s.y, d.pointerDistance).None?
  {
  }

  /** Elsewhere the swarm's push is the written steering plus its jitter, damped by 0.98. */
  lemma SwarmSteers(s: PState, inp: Input, d: Draws)
    requires s.id.kind.Swarm? && inp.pointer.Some? && d.pointerDistance > 0.0
    ensures var st := Swarm.SteerAsWritten(inp.pointer.value.x - s.x, inp.pointer.value.y - s.y, d.pointerDistance);
      && st.Some?
      && Behave(s, inp, d).vx == (s.vx + st.value.x + d.force.x) * 0.98
      && Behave(s, inp, d).vy == (s.vy + st.value.y + d.force.y) * 0.98
  {
    Swarm.SteerAgrees(inp.pointer.value.x - s.x, inp.pointer.value.y - s.y, d.pointerDistance);
  }

  /**
   * With the pointer distance the hypot of the offset, the swarm's steering
   * pushes a particle away from the pointer exactly when it is within 20 px
   * (and not on it), and pulls it in exactly when it is more than 50 px away.
   */
  lemma SwarmRepelsOnlyNear(s: PState, inp: Input, d: Draws)
    requires s.id.kind.Swarm? && inp.pointer.Some?
    requires DrawsFit(s.id.kind, d) && DistanceFits(s, inp.pointer, d)
    ensures var off := Point(inp.pointer.value.x - s.x, inp.pointer.value.y - s.y);
      var st := Swarm.Steer(off.x, off.y, d.pointerDistance);
      var sq := SqDist(inp.pointer.value, Point(s.x, s.y));
      && Behave(s, inp, d).vx == (s.vx + st.x + d.force.x) * 0.98
      && Behave(s, inp, d).vy == (s.vy + st.y + d.force.y) * 0.98
      && (Swarm.Along(st, off.x, off.y) < 0.0 <==> 0.0 < sq < 400.0)
      && (Swarm.Along(st, off.x, off.y) > 0.0 <==> sq > 2500.0)
  {
    var off := Point(inp.pointer.value.x - s.x, inp.pointer.value.y - s.y);
    var sq := SqDist(inp.pointer.value, Point(s.x, s.y));
    assert sq == off.x * off.x + off.y * off.y;
    Swarm.SteerDirection(off.x, off.y, d.pointerDistance, sq);
  }

  // ---------------------------------------------------------------------
  // A worked case
  // ---------------------------------------------------------------------

  /** A plain particle at x = -5 moving left at 3 per tick: gravity, the 0.99 damping, the move, then the wall. */
  lemma PlainBounceOffLeftWall(inp: Input, d: Draws)
    ensures var s := Hatchling(Seed(-5.0, 400.0, -3.0, 0.0, RGB(255, 0, 0), 3.0, Plain, None, None, 0, 0));
      var n := Advance(s, inp, d).next;
      n.x == 0.0 && n.vx == 2.376 && n.y == 400.198 && n.vy == 0.198
  {
  }
}
