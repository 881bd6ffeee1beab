# Particle sandbox core, modelled in Dafny

`Particlesim.py` is an interactive particle sandbox. A `ParticleSystem` holds
a list of `Particle` objects. Each frame it advances a simulated beat, updates
every particle once, appends the children the updates return, drops the
particles whose life has run out and keeps at most `MAX_PARTICLES` (5000) of
the newest. Each `Particle.update` runs the same sequence of steps:

1. age the particle and apply baseline gravity, unless the variant is exempt;
2. run the variant's own rule (one of 35 variants: snow, lightning, lava,
   pixel painter, chain starter, …);
3. stop here if one of two early returns fires (the lightning branch, the
   lava smoke);
4. damp and move the particle;
5. apply the variant's boundary policy (clamp-and-reflect, death far off
   screen, the blackhole, or none);
6. push the position onto a bounded trail;
7. lose one unit of life;
8. derive the current colour and size from the remaining-life fraction;
9. return the children of the spawn rules (lightning branching, lava smoke,
   the chain starter's burst).

The `create_*` methods of `ParticleSystem` append batches of particles with a
fixed size and a fixed variant tag. `get_next_pixel_color` cycles through a
six-colour table.

The project has two layers:

- **Value layer** (`Step`, `Population`, `Emitters`). Pure functions on a
  record (`Step.PState`) of a particle's fields. `Step.Advance` is one
  `Particle.update`, `Population.Tick` is one `ParticleSystem.update`, and
  `Emitters.Batch` is one `create_*` call. The properties are lemmas about
  these functions.
- **Object layer** (`Particles`, `Sandbox`). The two classes, with the
  source's fields updated in place.
  - `Particles.Particle.Update` is proved to move `State()` exactly as
    `Step.Advance` says and to return freshly constructed children, one per
    returned seed, in order.
  - `Sandbox.ParticleSystem.Update` is proved to turn the list into
    `Population.Tick` of what it was.
  - `Sandbox.ParticleSystem.Emit` is proved to append exactly the hatchlings
    of `Emitters.Batch` after the existing particles.

Randomness, the sine pulses and the beat strength are parameters with range
preconditions (`Step.Draws`, `Emitters.EmitDraw`, the `beat` argument). The
velocity changes that use a random draw or a trigonometric, hypot or power
law arrive as an injected force vector. For the bubble, smoke, rain, confetti
and aurora only the sideways part is injected: their constant vertical push is
modelled. The swarm's pointer steering is modelled. Its pointer distance
(`math.hypot`) is an input that the update methods require to be the length of
the particle's offset to the pointer: non-negative, with the squared offset as
its square (`Step.DistanceFits`). The constants, the per-variant tables, life and
size bookkeeping, the walls, the trail, the fade and spawning are modelled as
the code does them.

Module layout:

| file | modules | contents |
|---|---|---|
| `common.dfy` | `Common` | constants and numeric helpers |
| `catalog.dfy` | `Catalog` | the variant tables |
| `swarm.dfy` | `Swarm` | the swarm's pointer steering, as written and guarded |
| `step.dfy` | `Step` | the update as functions |
| `step_facts.dfy` | `StepFacts` | lemmas about the update |
| `particle.dfy` | `Particles` | the `Particle` class |
| `population.dfy` | `Population` | the population tick as functions, with lemmas |
| `emitters.dfy` | `Emitters` | the emitters |
| `system.dfy` | `Sandbox` | the `ParticleSystem` class |

Three behaviours of the code are easy to misread; the model follows the code:

- **Lightning.** The comment at `Particlesim.py:537` says that clearing
  `branched` prevents continuous branching from one particle. The code sets
  `branched` in the behaviour step once the timer has expired, and returns
  two children early. On the next update the end-of-update branch sees the
  flag, clears it and returns two more children, and the timer stays
  expired. So from the tick the timer runs out, the particle returns two
  children on every tick (`StepFacts.LightningBranchesEveryTick`).
- **Bounce.** A plain particle at x = -5 moving at vx = -3 comes off the left
  wall with vx = 2.376, not 3 * 0.8 = 2.4. Gravity and the global 0.99
  damping act before the wall check, which then reflects the damped speed:
  3 * 0.99 * 0.8 = 2.376 (`StepFacts.PlainBounceOffLeftWall`).
- **Snapshot.** The comment at `Particlesim.py:1309` and the copy
  `list(self.particles)` on the next line make the loop run over the particles
  present before the tick. Children are appended only after the loop, so no
  child is updated in the tick that created it (`Population.TickSnapshot`).
  But the list passed to each update for peer reads is the live one, so a
  peer read can see particles that earlier iterations of the same tick have
  updated. Peer reads are not modelled (see below).

## Model

| member | source | states |
|---|---|---|
| Common.Trunc | Particlesim.py:469 | `int()` of a float truncates toward zero: the result is within one of the argument, on its side of zero |
| Particles.Particle.constructor | Particlesim.py:22-79 | the fields are those of `Step.Hatchling` of the seed, and the particle meets its invariants |
| Particles.Particle.Update | Particlesim.py:82-555 | the fields become `Step.Advance(old fields).next`; the returned list holds fresh, distinct particles constructed from `Advance(...).spawns` in order; the invariants are kept |
| Particles.Particle.Begin | Particlesim.py:83-418 | the age, the baseline gravity and the variant's rule move the fields to `Step.Prelude` |
| Particles.Particle.ApplyRule | Particlesim.py:92-418 | the behaviour dispatch moves the fields exactly as `Step.Behave`: a variant without a branch, or whose pointer or button precondition fails, keeps its fields |
| Particles.Particle.ApplySpecial | Particlesim.py:104-418 | each of the seven variants with a rule of its own moves as its step function says |
| Particles.Particle.SnowRule | Particlesim.py:104-107 | snow: vx gets the drift, vy becomes abs(vy) * 0.3 |
| Particles.Particle.LightningRule | Particlesim.py:175-180 | lightning: the jitter, a life cost of 1.65 and the branch timer counted down by one |
| Particles.Particle.FireflyRule | Particlesim.py:195-203 | firefly: the wander, the 0.99 damping and a velocity reflected on an axis where it is off screen |
| Particles.Particle.GeyserRule | Particlesim.py:239-247 | geyser: an upward push for the first 10 ticks, gravity * 0.8, and death 10 px below the start height |
| Particles.Particle.BouncingRule | Particlesim.py:299-316 | bouncing collision: a second dose of gravity, the clamp-and-reflect bounce before the move, and the 0.99 damping |
| Particles.Particle.PixelRule | Particlesim.py:373-391 | pixel painter: the spring toward the spawn point with 0.8 damping, and the snap to rest within one pixel |
| Particles.Particle.ConstellationRule | Particlesim.py:412-418 | constellation: the 0.995 damping, then the drift |
| Particles.Particle.GenericRule | Particlesim.py:92-411 | the other variants: the brake near the pointer or target, the push (constant for the variants with an exact lift, the swarm's guarded steering plus its jitter), the variant's own damping, life cost and growth, as `Step.ForceStep` |
| Particles.Particle.Pulse | Particlesim.py:402-406 | the sound visualizer sets its current size from its pulse and the global beat; no other variant is touched |
| Particles.Particle.Proceed | Particlesim.py:181-555 | the two early returns (lightning branch, lava smoke) or the move and the spawn branch, as `Step.AfterPrelude` |
| Particles.Particle.Drift | Particlesim.py:420-427 | the global damping (skipped by the listed variants), then the move |
| Particles.Particle.ApplyWalls | Particlesim.py:429-451 | the boundary policy after the move, as `Step.Walls` |
| Particles.Particle.RecordTrail | Particlesim.py:453-456 | the position is appended to the trail and the oldest entry dropped past the capacity |
| Particles.Particle.Move | Particlesim.py:420-533 | damping through fade, as `Step.Rest` |
| Particles.Particle.FadeOut | Particlesim.py:461-533 | the current colour and size from the remaining-life fraction, as `Step.Fade` |
| Particles.Particle.Conclude | Particlesim.py:535-555 | the end-of-update spawn branch: lightning clears its flag and returns two children, lava returns a smoke puff, the chain starter dies and returns its burst |
| Particles.Hatch | Particlesim.py:538-553 | the children are constructed one per seed, in order, fresh and distinct |
| Step.Whole | Particlesim.py:465-533 | `max(1, int(r))` is a whole number at least 1, and at most max(1, r) for r >= 0 |
| StepFacts.HatchlingSetup | Particlesim.py:22-79 | a new particle meets its invariants: age 0, a one-point trail, full life (the variant's override or `initial_life` or 180), the lightning timer unbranched, and a trail capacity of 100 for the light tracer |
| StepFacts.BehaveKeeps | Particlesim.py:92-418 | a variant's rule leaves identity, trail, age, colour, branched flag and (except the bouncing and pixel variants) the position alone |
| StepFacts.BehaveCountdowns | Particlesim.py:175-247 | a variant's rule never raises life (the geyser's kill sets it to 0), counts the lightning timer down, costs lightning 1.65 and leaves lava's life alone |
| StepFacts.PreludeShape | Particlesim.py:82-418 | the part before the early returns ages the particle by one and changes only what the variant's rule touches; the sound visualizer's size is at least 1 when its rule runs |
| StepFacts.RestShape | Particlesim.py:420-533 | the rest of the update keeps the identity, pushes the walled position onto the trail and lowers life by exactly 1, or to -1 after a wall kill |
| StepFacts.FinishShape | Particlesim.py:535-555 | the spawn branch only clears the lightning flag and sets the chain starter's life to 0 |
| StepFacts.AdvanceKeepsIdentity | Particlesim.py:82-555 | an update never changes the variant or any construction-time constant, and adds one to the age |
| StepFacts.PushTrailBounded | Particlesim.py:453-456 | the appended point is last; the trail grows by one below the capacity and shifts by one at it, and stays in [1, capacity] |
| StepFacts.TrailFollows | Particlesim.py:453-456 | the trail stays between 1 and its capacity (15, or 100 for the light tracer): an update that runs through appends the new position (dropping the oldest past the cap), an early return leaves the trail as it was |
| StepFacts.AdvanceCoherent | Particlesim.py:82-555 | every update keeps the particle's invariants |
| StepFacts.SpawnsOk | Particlesim.py:181-194 | with draws in range, every child an update returns is a valid constructor call |
| StepFacts.BounceAxisInside | Particlesim.py:430-442 | one axis of the wall rule: the position ends in [0, edge], an inside axis is untouched, a crossed axis has its velocity multiplied by -0.8 |
| StepFacts.ClampKeepsOnScreen | Particlesim.py:430-442 | for the clamp-and-reflect variants, an update that runs through leaves the particle on screen; an axis that crossed an edge is clamped with velocity * -0.8, an inside axis keeps position and velocity |
| StepFacts.FarOffscreenDies | Particlesim.py:443-451 | the pass-through variants and the aurora die once more than 50 px outside the screen |
| StepFacts.BlackholeSwallows | Particlesim.py:446-448 | a blackhole particle within 5 px of the pointer after the move dies |
| StepFacts.LifeNeverRises | Particlesim.py:459 | an update of a live particle never raises its life, and keeps it unchanged exactly on lava's smoke tick |
| StepFacts.EarlyReturnSkipsRest | Particlesim.py:181-194 | only lightning and lava return early, and an early return keeps position, trail and current look and costs only the variant's own life cost |
| StepFacts.AlphaInUnit | Particlesim.py:461-533 | the effective fade transparency stays in [0, 1] while life is in [0, max_life] |
| StepFacts.FadeWithinBase | Particlesim.py:461-533 | a faded size is a whole number in [1, max(1, size, initial size)] and every colour channel is scaled into [0, channel] |
| StepFacts.ScaleWithin | Particlesim.py:469 | scaling a colour by a transparency in [0, 1] keeps each channel in [0, channel] |
| StepFacts.SizeFloor | Particlesim.py:461-533 | after every update that reaches the fade step the current size is at least 1 |
| StepFacts.LightningQuiet | Particlesim.py:175-187 | while the branch timer has not run out, a lightning particle returns no children, stays unbranched and counts its timer down |
| StepFacts.LightningBranches | Particlesim.py:181-187 | once the timer has run out, every update returns exactly two lightning children at the parent's position with life equal to max_life in [20, 40]; the branched flag toggles, and an unbranched tick returns before the move |
| StepFacts.LightningBranchesEveryTick | Particlesim.py:536-541 | from the tick its timer runs out, a lightning particle returns two children on every later tick |
| StepFacts.LavaSmokesEveryTenth | Particlesim.py:188-194 | a lava particle returns one grey smoke puff (life 180, size in [3, 6], at its position) exactly on the ticks whose age is a multiple of 10, and nothing otherwise |
| StepFacts.BurstSetup | Particlesim.py:547-553 | every burst child is a chain-explosion particle at the parent's position, with life equal to max_life in [20, 40], size in [3, 6] and speed in [5, 10] |
| StepFacts.ChainStarterBursts | Particlesim.py:544-554 | a chain starter ends its update with life 0 and returns 10 to 20 such children |
| StepFacts.BubbleRises | Particlesim.py:100-103 | a bubble's own rule lowers vy by exactly 0.3 and changes vx only by the sideways draw |
| StepFacts.SwarmOnPointerCoasts | Particlesim.py:248-266 | a swarm particle on the pointer, where the written steering raises, gets only its jitter and the 0.98 damping |
| StepFacts.SwarmSteers | Particlesim.py:248-266 | at a positive pointer distance the swarm's velocity is the old one plus the written steering plus the jitter, times 0.98 |
| StepFacts.SwarmRepelsOnlyNear | Particlesim.py:248-266 | with the distance the hypot of the offset, the swarm's velocity is the old one plus the steering plus the jitter, times 0.98, and the steering pushes away exactly within 20 px and pulls in exactly beyond 50 px |
| StepFacts.PlainBounceOffLeftWall | Particlesim.py:82-442 | a plain particle at x = -5 moving at vx = -3 ends at x = 0 with vx = 2.376 |
| Population.AliveAllLiving | Particlesim.py:1319 | everything the filter keeps has life > 0 |
| Population.AliveMembers | Particlesim.py:1319 | the filter keeps a particle exactly when it is in the list and alive |
| Population.AliveAppend | Particlesim.py:1319 | filtering a concatenation filters each part, in order |
| Population.AliveKeepsLiving | Particlesim.py:1319 | a list of living particles passes the filter unchanged |
| Population.NewestAreKept | Particlesim.py:1322-1323 | the cap keeps min(len, cap) entries, and they are the last ones, in order |
| Population.CapOfBoth | Particlesim.py:1318-1323 | extend, filter and cap: at most cap entries; the last cap survivors when more survive, and otherwise every survivor |
| Population.OutcomesCoherent | Particlesim.py:1311-1316 | every update of the loop keeps its particle's invariants |
| Population.OffspringSnoc | Particlesim.py:1315-1316 | each update's children are appended after the earlier ones |
| Population.TickAllAlive | Particlesim.py:1318-1319 | after a tick every particle in the list is alive |
| Population.TickKeepsNewest | Particlesim.py:1318-1323 | after a tick at most 5000 particles remain; when more survive the filter, they are exactly the last 5000 survivors in order (updated particles first, then living children), and otherwise nothing alive is dropped |
| Population.OffspringMembers | Particlesim.py:1311-1316 | a child is in `new_particles` exactly when some update of the loop returned it |
| Population.TickSnapshot | Particlesim.py:1308-1318 | every particle after a tick is either a pre-tick particle advanced by exactly one update, or a child some update returned, not updated in this tick (age 0, one-point trail) |
| Swarm.SteerRaisesOnPointer | Particlesim.py:251-259 | the written steering raises exactly when the pointer distance is 0 |
| Swarm.CornerCrash | Particlesim.py:251-259 | with the particle and the pointer both at (0, 0), the written steering raises |
| Swarm.SteerAgrees | Particlesim.py:251-259 | wherever the written steering does not raise, the guarded steering equals it |
| Swarm.SteerDirection | Particlesim.py:251-259 | when the distance is the length of the offset, the guarded steering pulls toward the pointer exactly beyond 50 px and pushes away exactly within 20 px, but not on the pointer |
| Swarm.DistanceBands | Particlesim.py:254-257 | comparing the distance with 50, 20 and 0 is comparing the squared offset with 2500, 400 and 0 |
| Swarm.SteerBounded | Particlesim.py:251-259 | the guarded steering is a push of length 0.1 toward a pointer beyond 50 px, of length 0.05 away from a pointer closer than 20 px but not on it, and nothing on the pointer |
| Population.TickCoherent | Particlesim.py:1302-1323 | a tick keeps every particle's invariants, the children's included |
| Emitters.StartLife | Particlesim.py:22-79 | every emitter's particles start with at least one unit of life |
| Emitters.BatchHatches | Particlesim.py:835-1300 | every particle an emitter appends has the emitter's tag, full life equal to its start life, a size in its range, age 0, a one-point trail and, for lightning, the drawn timer |
| Emitters.EmittedHatchling | Particlesim.py:835-1300 | one particle of a batch, as the constructor sets it up |
| Emitters.StartLifeAgrees | Particlesim.py:22-79 | the start life of each emitter's particles is the constructor's override (900, 360, 1800) or the emitter's `initial_life` or 180 |
| Emitters.SizeAgrees | Particlesim.py:835-1300 | the size an emitter passes lies in its `randint` range |
| Emitters.EmittedSeedOk | Particlesim.py:835-1300 | every constructor call an emitter makes meets the constructor's ranges |
| Emitters.PixelPainterBatch | Particlesim.py:1251-1254 | the pixel painter appends a single resting pixel at the click in the colour the cycler handed out |
| Sandbox.PaletteAt | Particlesim.py:830-833 | the k-th of n successive cycler calls hands out the entry k places after the start, wrapping around |
| Sandbox.SixCallsRotateTable | Particlesim.py:824-833 | six successive calls hand out the whole table once, rotated to start at the current index, and leave the index where it was |
| Sandbox.RotatedAt | Particlesim.py:824 | the k-th entry of the rotated table is the entry (i + k) mod 6 |
| Sandbox.ParticleSystem.constructor | Particlesim.py:820-828 | no particles, the cycler at index 0, the beat at rest |
| Sandbox.ParticleSystem.GetNextPixelColor | Particlesim.py:830-833 | returns the current table entry and moves the index to (i + 1) mod 6; nothing else changes |
| Sandbox.ParticleSystem.PickColor | Particlesim.py:1251-1254 | only the pixel painter takes a colour from the cycler |
| Sandbox.ParticleSystem.Emit | Particlesim.py:835-1300 | one `create_*` call appends exactly the hatchlings of `Emitters.Batch` after the unchanged old list; only the pixel painter moves the cycler |
| Sandbox.ParticleSystem.Append | Particlesim.py:848 | `self.particles.append(...)` on a batch: the list grows by the batch, nothing else changes |
| Sandbox.ParticleSystem.Update | Particlesim.py:1302-1323 | the beat timer advances by 0.05, and the list becomes `Population.Tick` of the pre-tick states; every particle it keeps has life left |
| Sandbox.ParticleSystem.Pulse | Particlesim.py:1304-1305 | the beat timer advances by 0.05 and the strength takes the given value |
| Sandbox.ParticleSystem.Replace | Particlesim.py:1319 | the list is replaced and nothing else changes |
| Sandbox.UpdateList | Particlesim.py:1308-1323 | update, extend, filter and cap take the list to `Population.Tick` of its states |
| Sandbox.UpdateEach | Particlesim.py:1308-1316 | the loop advances every particle of the snapshot once, as `Step.Advance`, and collects the children in loop order |
| Sandbox.UpdateAt | Particlesim.py:1313-1316 | one iteration: the i-th particle is advanced and its children appended; no other particle changes |
| Sandbox.Spawn | Particlesim.py:835-1300 | the particles one emitter call constructs are fresh, distinct, and have the fields of `Emitters.Batch`'s hatchlings |
| Sandbox.Survivors | Particlesim.py:1319 | the comprehension keeps exactly the live particles, in order, as `Population.Alive` |
| Sandbox.KeepOne | Particlesim.py:1319 | a living particle is kept after the ones before it |
| Sandbox.DropOne | Particlesim.py:1319 | a dead particle is left out |
| Sandbox.TickLiving | Particlesim.py:1319 | the list a tick leaves holds only particles with life left |
| Sandbox.Newest | Particlesim.py:1322-1323 | the slice `[-MAX_PARTICLES:]` keeps the newest particles, as `Population.KeepNewest` |

## Left out

- Drawing (`Particle.draw`, `ParticleSystem.draw`), `main`, the window, the mode switching and the event loop are not modelled: they are presentation and I/O.
- `rotation` and `spin_speed` are not modelled: they only affect drawing.
- Particles.Particle.GenericRule: the force laws are not modelled. For the electric, magnetic, spiral, rain, smoke, confetti, attractor, blackhole, vortex, aurora, swarm, gravity field, explosion/implosion, path follower, spring, snow, firefly, constellation and lightning rules, the velocity change with a random draw, trigonometry, hypot or a power arrives as an injected vector. The same holds for the sideways draw or sway of the bubble, rain, smoke, confetti and aurora (their vertical push is modelled), the swarm's jitter and the sound visualizer's drift. The near-pointer brakes and stalls, damping, life costs and growth are modelled exactly. Where the swarm's written steering divides by a zero pointer distance and raises `ZeroDivisionError`, the model uses the guarded steering, which gives no push (see Findings).
- The spring-attraction repulsion between peers is not modelled. It reads the live `self.particles` list, whose entries earlier iterations have already updated, so it is injected like the other forces.
- The sine pulses (firefly, sound visualizer) and the beat strength `(sin(t) + 1) / 2` are inputs in [0, 1]. The solar fade's distance ratio is an input >= 0. The `random` module is replaced by draws passed in with their ranges.
- The solar `initial_speed` is not modelled, and neither is the division by it in the fade. Only the resulting ratio enters, as an input.
- `origin_pos`, the firefly and sound visualizer phase offsets, and the firefly pulse speed are not modelled: they are read only by the transcendental terms left out above.
- Floating point is modelled by exact reals. The model does not capture rounding.
- Emitters: the positions and velocities the emitters draw or compute with trigonometry arrive in `EmitDraw`. Batch sizes, tags, size ranges, initial lives, targets, fixed colours and the resting start of the pixel and chain particles are modelled as the code gives them.
- The `hsv` colour helpers of some emitters are not modelled: the colour is part of the draw.
- Sandbox.ParticleSystem.Update: the contract states the new list by the fields of its particles, as `Population.Tick` of the old fields. It does not say which objects of the old list are the ones kept, only that no object appears twice.

## Findings

| source | as written | input that shows it | evidently intended | confidence | as-written member | corrected member |
|---|---|---|---|---|---|---|
| Particlesim.py:257-259 | the swarm's repel branch `elif dist < 20` divides `dx` and `dy` by `dist`, and also runs when `dist == 0` | a swarm particle clamped into the corner (0, 0) while the pointer is at (0, 0): `dist` is 0 and `dx / dist` raises `ZeroDivisionError` out of `ParticleSystem.update` | repel only from a pointer at a positive distance, as the spring rule's `0 < odist < 50` guard at line 366 does; no push on the pointer | not executed; medium | Swarm.CornerCrash | Swarm.Steer, with Swarm.SteerBounded and Swarm.SteerAgrees |
