/**
 * The pointer steering of the swarm variant in Particlesim.py: attraction
 * toward the pointer beyond 50 px, repulsion inside 20 px, nothing in
 * between. `dx`, `dy` point from the particle to the pointer and `dist`
 * is their length (math.hypot). As written, the repulsion divides by
 * `dist` even when it is 0; Steer is the guarded rule the step uses.
 */
module Swarm {
  import opened Common

  /** The steering as written; None stands for the ZeroDivisionError of the repel branch. */
  function SteerAsWritten(dx: real, dy: real, dist: real): Option<Point> {
    if dist > 50.0 then Some(Point(dx / dist * 0.1, dy / dist * 0.1))
    else if dist < 20.0 then
      if dist == 0.0 then None else Some(Point(-(dx / dist * 0.05), -(dy / dist * 0.05)))
    else Some(Point(0.0, 0.0))
  }

  /** The steering as intended: the repel branch only pushes away from a pointer at a positive distance. */
  function Steer(dx: real, dy: real, dist: real): Point {
    if dist > 50.0 then Point(dx / dist * 0.1, dy / dist * 0.1)
    else if 0.0 < dist < 20.0 then Point(-(dx / dist * 0.05), -(dy / dist * 0.05))
    else Point(0.0, 0.0)
  }

  /**
   * The written rule fails exactly when the pointer distance is zero, that
   * is when the particle sits on the pointer; everywhere else it yields a
   * push.
   */
  lemma SteerRaisesOnPointer(dx: real, dy: real, dist: real)
    requires 0.0 <= dist
    ensures SteerAsWritten(dx, dy, dist).None? <==> dist == 0.0
  {
  }

  /** A swarm particle clamped into the top-left corner with the pointer on that corner: the update raises. */
  lemma CornerCrash()
    ensures SteerAsWritten(0.0 - 0.0, 0.0 - 0.0, 0.0).None?
  {
  }

  /** Wherever the written rule does not raise, the guarded rule agrees with it. */
  lemma SteerAgrees(dx: real, dy: real, dist: real)
    requires 0.0 <= dist && SteerAsWritten(dx, dy, dist).Some?
    ensures SteerAsWritten(dx, dy, dist) == Some(Steer(dx, dy, dist))
  {
  }

  /**
   * The guarded steering is a push of length 0.1 toward a pointer beyond
   * 50 px, of length 0.05 away from a pointer inside 20 px (but not on
   * it), and nothing otherwise.
   */
  lemma SteerBounded(dx: real, dy: real, dist: real)
    requires 0.0 <= dist && dist * dist == dx * dx + dy * dy
    ensures var p := Steer(dx, dy, dist);
      && p.x * p.x + p.y * p.y <= 0.01
      && (dist > 50.0 ==> p.x * p.x + p.y * p.y == 0.01 && p.x * dx + p.y * dy == dist * 0.1)
      && (0.0 < dist < 20.0 ==> p.x * p.x + p.y * p.y == 0.0025 && p.x * dx + p.y * dy == -(dist * 0.05))
      && (dist == 0.0 ==> p == Point(0.0, 0.0))
  {
    if dist > 0.0 {
      UnitDirection(dx, dy, dist);
    }
  }

  /** The component of a push along the offset (dx, dy), scaled by the offset's length. */
  function Along(p: Point, dx: real, dy: real): real {
    p.x * dx + p.y * dy
  }

  /**
   * When `dist` is the length of (dx, dy) and `sq` its square, the guarded
   * steering pulls toward the pointer exactly when `sq` exceeds 50 * 50, and
   * pushes away exactly when `sq` is positive and below 20 * 20.
   */
  lemma SteerDirection(dx: real, dy: real, dist: real, sq: real)
    requires sq == dx * dx + dy * dy && 0.0 <= dist && dist * dist == sq
    ensures Along(Steer(dx, dy, dist), dx, dy) > 0.0 <==> sq > 2500.0
    ensures Along(Steer(dx, dy, dist), dx, dy) < 0.0 <==> 0.0 < sq < 400.0
  {
    DistanceBands(dist, sq);
    var p := Steer(dx, dy, dist);
    if dist > 50.0 || 0.0 < dist < 20.0 {
      UnitDirection(dx, dy, dist);
      var ux, uy := dx / dist, dy / dist;
      var dot := ux * dx + uy * dy;
      assert dot == dist;
      if dist > 50.0 {
        assert p == Point(ux * 0.1, uy * 0.1);
        assert p.x * dx + p.y * dy == dot * 0.1;
      } else {
        assert p == Point(-(ux * 0.05), -(uy * 0.05));
        assert p.x * dx + p.y * dy == -(dot * 0.05);
      }
    } else {
      assert p == Point(0.0, 0.0);
      assert p.x * dx + p.y * dy == 0.0;
    }
    SignsFollowBands(Along(p, dx, dy), sq, dist);
  }

  /** The sign of the steering's component along the offset follows the distance band. */
  lemma SignsFollowBands(dot: real, sq: real, dist: real)
    requires (dist > 50.0 <==> sq > 2500.0) && (0.0 < dist < 20.0 <==> 0.0 < sq < 400.0)
    requires dist > 50.0 ==> dot == dist * 0.1
    requires 0.0 < dist < 20.0 ==> dot == -(dist * 0.05)
    requires !(dist > 50.0) && !(0.0 < dist < 20.0) ==> dot == 0.0
    ensures dot > 0.0 <==> sq > 2500.0
    ensures dot < 0.0 <==> 0.0 < sq < 400.0
  {
  }

  /** Comparing a non-negative distance with 50, 20 and 0 is comparing its square with 2500, 400 and 0. */
  lemma DistanceBands(dist: real, sq: real)
    requires 0.0 <= dist && dist * dist == sq
    ensures dist > 50.0 <==> sq > 2500.0
    ensures 0.0 < dist < 20.0 <==> 0.0 < sq < 400.0
  {
    if dist > 50.0 { SquareBelow(50.0, dist); } else { SquareAtMost(dist, 50.0); }
    if dist < 20.0 { SquareBelow(dist, 20.0); } else { SquareAtMost(20.0, dist); }
    if dist > 0.0 { SquareBelow(0.0, dist); }
  }

  lemma SquareBelow(a: real, b: real)
    requires 0.0 <= a < b
    ensures a * a < b * b
  {
    var aa, ab, bb := a * a, a * b, b * b;
    assert aa <= ab;
    assert ab < bb;
  }

  lemma SquareAtMost(a: real, b: real)
    requires 0.0 <= a <= b
    ensures a * a <= b * b
  {
    var aa, ab, bb := a * a, a * b, b * b;
    assert aa <= ab;
    assert ab <= bb;
  }

  /** (dx, dy) / dist is a unit vector whose product with (dx, dy) is dist. */
  lemma UnitDirection(dx: real, dy: real, dist: real)
    requires 0.0 < dist && dist * dist == dx * dx + dy * dy
    ensures (dx / dist) * (dx / dist) + (dy / dist) * (dy / dist) == 1.0
    ensures (dx / dist) * dx + (dy / dist) * dy == dist
  {
    var ux, uy := dx / dist, dy / dist;
    assert ux * dist == dx && uy * dist == dy;
    assert (ux * ux + uy * uy) * (dist * dist) == dx * dx + dy * dy;
    assert (ux * dx + uy * dy) * dist == dist * dist;
  }
}
