/**
 * The population bookkeeping of ParticleSystem.update in Particlesim.py,
 * on values: every particle of the list is advanced one tick, the children
 * they return are appended after them in the order returned, the dead are
 * dropped, and only the newest MAX_PARTICLES entries are kept. Tick is the
 * specification that Sandbox.ParticleSystem.Update is proved against.
 */
module Population {
  import opened Common
  import opened Step
  import StepFacts

  // ---------------------------------------------------------------------
  // The filter and the cap
  // ---------------------------------------------------------------------

  /** The list comprehension that keeps the particles with life > 0, in order. */
  function Alive(s: seq<PState>): (r: seq<PState>)
    ensures |r| <= |s|
  {
    if s == [] then []
    else Alive(s[..|s| - 1]) + (if s[|s| - 1].life > 0.0 then [s[|s| - 1]] else [])
  }

  /** Everything the filter keeps is alive. */
  lemma {:induction false} AliveAllLiving(s: seq<PState>)
    ensures forall i :: 0 <= i < |Alive(s)| ==> Alive(s)[i].life > 0.0
  {
    if s != [] {
      AliveAllLiving(s[..|s| - 1]);
    }
  }

  /** The filter keeps a particle exactly when it is in the list and alive. */
  lemma {:induction false} AliveMembers(s: seq<PState>, p: PState)
    ensures p in Alive(s) <==> p in s && p.life > 0.0
  {
    if s != [] {
      var init := s[..|s| - 1];
      AliveMembers(init, p);
      assert s == init + [s[|s| - 1]];
    }
  }

  /** Filtering a concatenation filters each part and keeps them in order. */
  lemma {:induction false} AliveAppend(a: seq<PState>, b: seq<PState>)
    ensures Alive(a + b) == Alive(a) + Alive(b)
  {
    if b == [] {
      assert a + b == a;
    } else {
      var init := b[..|b| - 1];
      assert (a + b)[..|a + b| - 1] == a + init;
      assert (a + b)[|a + b| - 1] == b[|b| - 1];
      AliveAppend(a, init);
    }
  }

  /** One more particle at the end passes the filter exactly when it is alive. */
  lemma AliveSnoc(s: seq<PState>, p: PState)
    ensures Alive(s + [p]) == Alive(s) + (if p.life > 0.0 then [p] else [])
  {
    assert (s + [p])[..|s|] == s;
  }

  /** A list of living particles passes the filter unchanged. */
  lemma {:induction false} AliveKeepsLiving(s: seq<PState>)
    requires forall i :: 0 <= i < |s| ==> s[i].life > 0.0
    ensures Alive(s) == s
  {
    if s != [] {
      AliveKeepsLiving(s[..|s| - 1]);
      assert s == s[..|s| - 1] + [s[|s| - 1]];
    }
  }

  /** The slice `s[-cap:]` taken when the list is longer than the cap. */
  function KeepNewest(s: seq<PState>, cap: nat): seq<PState> {
    if |s| > cap then s[|s| - cap..] else s
  }

  /** The cap keeps min(|s|, cap) entries, and they are the last ones of `s`, in order. */
  lemma NewestAreKept(s: seq<PState>, cap: nat)
    ensures var r := KeepNewest(s, cap);
      && |r| == (if |s| > cap then cap else |s|)
      && forall k :: 0 <= k < |r| ==> r[k] == s[|s| - |r| + k]
  {
  }

  /** Filtering then capping two lists one after the other: what survives the filter, newest first out. */
  lemma CapOfBoth(a: seq<PState>, b: seq<PState>, cap: nat)
    ensures var pool := Alive(a) + Alive(b);
      var r := KeepNewest(Alive(a + b), cap);
      && |r| <= cap
      && (|pool| > cap ==> r == pool[|pool| - cap..])
      && (|pool| <= cap ==> r == pool)
  {
    AliveAppend(a, b);
  }

  /** Whatever filtering and capping two lists leaves came from one of them, alive. */
  lemma FromEither(a: seq<PState>, b: seq<PState>, cap: nat, p: PState)
    requires p in KeepNewest(Alive(a + b), cap)
    ensures p in a || p in b
    ensures p.life > 0.0
  {
    NewestAreKept(Alive(a + b), cap);
    AliveMembers(a + b, p);
  }

  // ---------------------------------------------------------------------
  // One tick of the whole population
  // ---------------------------------------------------------------------

  /** What ParticleSystem.update consumes: one set of draws for each particle, and particles that can be advanced. */
  predicate Ready(states: seq<PState>, ds: seq<Draws>) {
    && |ds| == |states|
    && forall i :: 0 <= i < |states| ==> states[i].id.maxLife > 0.0
  }

  /** What each `particle.update` call of the loop does, in loop order. */
  function Outcomes(states: seq<PState>, inp: Input, ds: seq<Draws>): (r: seq<Outcome>)
    requires Ready(states, ds)
    ensures |r| == |states|
  {
    seq(|states|, i requires 0 <= i < |states| => Advance(states[i], inp, ds[i]))
  }

  /** Every update of the loop keeps its particle's invariants. */
  lemma OutcomesCoherent(states: seq<PState>, inp: Input, ds: seq<Draws>)
    requires Ready(states, ds)
    requires forall i :: 0 <= i < |states| ==> Coherent(states[i])
    ensures forall i :: 0 <= i < |states| ==> Coherent(Outcomes(states, inp, ds)[i].next)
  {
    forall i | 0 <= i < |states|
      ensures Coherent(Outcomes(states, inp, ds)[i].next)
    {
      StepFacts.AdvanceCoherent(states[i], inp, ds[i]);
    }
  }

  /** The particles in the list after the loop: each one advanced once, in place. */
  function Nexts(outs: seq<Outcome>): seq<PState> {
    seq(|outs|, i requires 0 <= i < |outs| => outs[i].next)
  }

  /** `new_particles`: the children every update returned, concatenated in loop order. */
  function Offspring(outs: seq<Outcome>): seq<Seed> {
    if outs == [] then [] else Offspring(outs[..|outs| - 1]) + outs[|outs| - 1].spawns
  }

  /** One more update of the loop appends what it returned. */
  lemma OffspringSnoc(outs: seq<Outcome>, i: nat)
    requires i < |outs|
    ensures Offspring(outs[..i + 1]) == Offspring(outs[..i]) + outs[i].spawns
  {
    assert outs[..i + 1][..i] == outs[..i];
  }

  /** The list before the filter: the updated particles followed by the children. */
  function Merged(outs: seq<Outcome>): seq<PState> {
    Nexts(outs) + Hatchlings(Offspring(outs))
  }

  /** ParticleSystem.update, after the beat oscillator: merge, filter, cap. */
  function Tick(states: seq<PState>, inp: Input, ds: seq<Draws>): seq<PState>
    requires Ready(states, ds)
  {
    KeepNewest(Alive(Merged(Outcomes(states, inp, ds))), MAX_PARTICLES)
  }

  /** After a tick every particle in the list is alive. */
  lemma TickAllAlive(states: seq<PState>, inp: Input, ds: seq<Draws>)
    requires Ready(states, ds)
    ensures forall i :: 0 <= i < |Tick(states, inp, ds)| ==> Tick(states, inp, ds)[i].life > 0.0
  {
    var merged := Merged(Outcomes(states, inp, ds));
    AliveAllLiving(merged);
    NewestAreKept(Alive(merged), MAX_PARTICLES);
  }

  /**
   * The cap, for the outcomes `outs` of the loop: at most MAX_PARTICLES
   * remain; when more survive the filter, the result is exactly the last
   * MAX_PARTICLES survivors in order, and otherwise no survivor is
   * dropped. Survivors are the updated particles that are still alive,
   * followed by the living children.
   */
  lemma TickKeepsNewest(outs: seq<Outcome>)
    ensures var pool := Alive(Nexts(outs)) + Alive(Hatchlings(Offspring(outs)));
      var r := KeepNewest(Alive(Merged(outs)), MAX_PARTICLES);
      && |r| <= MAX_PARTICLES
      && (|pool| > MAX_PARTICLES ==> r == pool[|pool| - MAX_PARTICLES..])
      && (|pool| <= MAX_PARTICLES ==> r == pool)
  {
    assert Merged(outs) == Nexts(outs) + Hatchlings(Offspring(outs));
    CapOfBoth(Nexts(outs), Hatchlings(Offspring(outs)), MAX_PARTICLES);
  }

  /** A child is in the concatenated returns exactly when some update returned it. */
  lemma {:induction false} OffspringMembers(outs: seq<Outcome>, seed: Seed)
    ensures seed in Offspring(outs) <==> exists i :: 0 <= i < |outs| && seed in outs[i].spawns
  {
    if outs != [] {
      var n := |outs| - 1;
      OffspringMembers(outs[..n], seed);
      if seed in Offspring(outs[..n]) {
        var i :| 0 <= i < n && seed in outs[..n][i].spawns;
        assert seed in outs[i].spawns;
      }
      if exists i :: 0 <= i < |outs| && seed in outs[i].spawns {
        var i :| 0 <= i < |outs| && seed in outs[i].spawns;
        if i < n {
          assert seed in outs[..n][i].spawns;
        }
      }
    }
  }

  /**
   * The loop runs over a snapshot: a particle in the new list either was in
   * the list before the loop and was advanced by exactly one update (one
   * tick older), or is a child some update returned, not updated yet (age
   * 0, trail of one point).
   */
  lemma TickSnapshot(states: seq<PState>, inp: Input, ds: seq<Draws>, p: PState)
    requires Ready(states, ds)
    requires forall i :: 0 <= i < |states| ==> DrawsFit(states[i].id.kind, ds[i])
    requires p in Tick(states, inp, ds)
    ensures || (exists i :: 0 <= i < |states| && p == Advance(states[i], inp, ds[i]).next && p.age == states[i].age + 1)
            || (exists i, seed :: 0 <= i < |states| && seed in Advance(states[i], inp, ds[i]).spawns
                  && p == Hatchling(seed) && SeedOk(seed) && p.age == 0 && |p.trail| == 1)
  {
    var outs := Outcomes(states, inp, ds);
    var nexts := Nexts(outs);
    var offspring := Offspring(outs);
    var hatched := Hatchlings(offspring);
    FromEither(nexts, hatched, MAX_PARTICLES, p);
    if p in nexts {
      var i :| 0 <= i < |nexts| && nexts[i] == p;
      UpdatedOnce(states, inp, ds, i);
      assert p == Advance(states[i], inp, ds[i]).next;
    } else {
      var j :| 0 <= j < |hatched| && hatched[j] == p;
      var seed := offspring[j];
      OffspringMembers(outs, seed);
      var i :| 0 <= i < |outs| && seed in outs[i].spawns;
      FreshChild(states, inp, ds, i, seed);
      assert p == Hatchling(seed);
    }
  }

  /** The i-th particle of the snapshot leaves the loop one tick older. */
  lemma UpdatedOnce(states: seq<PState>, inp: Input, ds: seq<Draws>, i: nat)
    requires Ready(states, ds) && i < |states|
    ensures Advance(states[i], inp, ds[i]).next.age == states[i].age + 1
  {
    StepFacts.AdvanceKeepsIdentity(states[i], inp, ds[i]);
  }

  /** A child returned by the i-th update starts at age 0 with one trail point. */
  lemma FreshChild(states: seq<PState>, inp: Input, ds: seq<Draws>, i: nat, seed: Seed)
    requires Ready(states, ds) && i < |states| && DrawsFit(states[i].id.kind, ds[i])
    requires seed in Advance(states[i], inp, ds[i]).spawns
    ensures SeedOk(seed) && Hatchling(seed).age == 0 && |Hatchling(seed).trail| == 1
  {
    StepFacts.SpawnsOk(states[i], inp, ds[i]);
    StepFacts.HatchlingSetup(seed);
  }

  /** A tick keeps every particle's invariants, the children's included. */
  lemma TickCoherent(states: seq<PState>, inp: Input, ds: seq<Draws>)
    requires Ready(states, ds)
    requires forall i :: 0 <= i < |states| ==> Coherent(states[i]) && DrawsFit(states[i].id.kind, ds[i])
    ensures forall i :: 0 <= i < |Tick(states, inp, ds)| ==> Coherent(Tick(states, inp, ds)[i])
  {
    var r := Tick(states, inp, ds);
    forall i | 0 <= i < |r|
      ensures Coherent(r[i])
    {
      TickSnapshot(states, inp, ds, r[i]);
      if exists k :: 0 <= k < |states| && r[i] == Advance(states[k], inp, ds[k]).next {
        var k :| 0 <= k < |states| && r[i] == Advance(states[k], inp, ds[k]).next;
        StepFacts.AdvanceCoherent(states[k], inp, ds[k]);
      } else {
        var k, seed :| 0 <= k < |states| && seed in Advance(states[k], inp, ds[k]).spawns
                        && r[i] == Hatchling(seed) && SeedOk(seed);
        StepFacts.HatchlingSetup(seed);
      }
    }
  }
}
