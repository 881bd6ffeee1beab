/**
 * Shared vocabulary of the particle sandbox: optional values, points,
 * colours, the world constants and the small numeric helpers the update
 * rules use (Python's int() truncation, max, abs, squared distance).
 */
module Common {

  datatype Option<+T> = None | Some(value: T)

  /** A position or a velocity in screen space. */
  datatype Point = Point(x: real, y: real)

  /** An RGB triple; emitters treat colours as opaque values. */
  datatype Color = RGB(r: int, g: int, b: int)

  // World constants of the sandbox.
  const WIDTH: real := 1200.0
  const HEIGHT: real := 800.0
  const GRAVITY: real := 0.2
  const DAMPING: real := 0.99
  const PARTICLE_LIFE: int := 180
  const MAX_PARTICLES: nat := 5000

  /** Velocity factor applied to an axis that hits a wall. */
  const RESTITUTION: real := -0.8
  /** How far outside the screen a pass-through particle may go before it dies. */
  const OFFSCREEN_MARGIN: real := 50.0

  /** Python's int() on a float: truncation toward zero. */
  function Trunc(r: real): (n: int)
    ensures 0.0 <= r ==> 0 <= n && n as real <= r < n as real + 1.0
    ensures r < 0.0 ==> n <= 0 && n as real - 1.0 < r <= n as real
  {
    if r >= 0.0 then r.Floor else -((-r).Floor)
  }

  function Max(a: real, b: real): (m: real)
    ensures m >= a && m >= b && (m == a || m == b)
  {
    if a >= b then a else b
  }

  function Abs(a: real): (m: real)
    ensures m >= 0.0 && (m == a || m == -a)
  {
    if a >= 0.0 then a else -a
  }

  /** Squared Euclidean distance; comparing it with r*r is comparing math.hypot with r. */
  function SqDist(p: Point, q: Point): (d: real)
    ensures d >= 0.0
  {
    (p.x - q.x) * (p.x - q.x) + (p.y - q.y) * (p.y - q.y)
  }
}
