/**
 * Collision primitives of classic mode (shared/src/physics.ts): is the ball
 * within reach of a segment, has it crossed a side, bounce off a side, cap
 * the speed, and where a paddle's ends are.
 */
module Physics {
  import opened RealMath
  import opened Types

  /** Squared distance from `u` to `t d`: the ball relative to the segment's start, against a point of its line. */
  function LineDistSq(ux: real, uy: real, dx: real, dy: real, t: real): real {
    NormSq(ux - t * dx, uy - t * dy)
  }

  /** Squared distance from `(ballX, ballY)` to the point `a + t (b - a)` of the line through `a` and `b`. */
  function DistSqToLinePoint(ballX: real, ballY: real, a: Vec2, b: Vec2, t: real): real {
    LineDistSq(ballX - a.x, ballY - a.y, b.x - a.x, b.y - a.y, t)
  }

  /** The projection of `u` on `d`, as a fraction of `d`, clamped to [0, 1]. */
  function ClampedProjection(ux: real, uy: real, dx: real, dy: real): real
    requires dx != 0.0 || dy != 0.0
  {
    NormSqFacts(dx, dy);
    Max(0.0, Min(1.0, (ux * dx + uy * dy) / NormSq(dx, dy)))
  }

  /** The parameter of the point of segment `ab` closest to `(ballX, ballY)`. */
  function ClosestParameter(ballX: real, ballY: real, a: Vec2, b: Vec2): real
    requires a != b
  {
    ClampedProjection(ballX - a.x, ballY - a.y, b.x - a.x, b.y - a.y)
  }

  /**
   * Whether the squared distance from `(ballX, ballY)` to segment `ab` is at
   * most `hitDistSq`.  For a segment of zero length the source divides 0 by
   * 0; the NaN that results fails the final comparison, so the answer is
   * false.
   */
  function BallNearSegment(ballX: real, ballY: real, a: Vec2, b: Vec2, hitDistSq: real): bool {
    if a == b then false
    else DistSqToLinePoint(ballX, ballY, a, b, ClosestParameter(ballX, ballY, a, b)) <= hitDistSq
  }

  /** Along the line, the squared distance at `t` exceeds the one at `s` by `(t - s)((t + s)|d|^2 - 2 u.d)`. */
  lemma DistSqExpansion(ux: real, uy: real, dx: real, dy: real, t: real, s: real)
    ensures LineDistSq(ux, uy, dx, dy, t) - LineDistSq(ux, uy, dx, dy, s)
         == (t - s) * ((t + s) * NormSq(dx, dy) - 2.0 * (ux * dx + uy * dy))
  {
    assert Sq(ux - t * dx) == Sq(ux) - 2.0 * t * (ux * dx) + (t * t) * Sq(dx);
    assert Sq(uy - t * dy) == Sq(uy) - 2.0 * t * (uy * dy) + (t * t) * Sq(dy);
    assert Sq(ux - s * dx) == Sq(ux) - 2.0 * s * (ux * dx) + (s * s) * Sq(dx);
    assert Sq(uy - s * dy) == Sq(uy) - 2.0 * s * (uy * dy) + (s * s) * Sq(dy);
  }

  /** Moving from the clamped parameter `c` to any `t` of [0, 1] never brings the point closer. */
  lemma ClampedStepNonNegative(t: real, c: real, k: real, len: real)
    requires len > 0.0 && 0.0 <= t <= 1.0 && c == Max(0.0, Min(1.0, k / len))
    ensures (t - c) * ((t + c) * len - 2.0 * k) >= 0.0
  {
    var t0 := k / len;
    assert k == t0 * len;
    var q := (t - c) * (t + c - 2.0 * t0);
    assert (t - c) * ((t + c) * len - 2.0 * k) == q * len;
    if t0 < 0.0 {
      MulNonNeg(t, t - 2.0 * t0);
    } else if t0 > 1.0 {
      MulNonNeg(1.0 - t, 2.0 * t0 - t - 1.0);
      assert q == (1.0 - t) * (2.0 * t0 - t - 1.0);
    } else {
      SqFacts(t - c);
      assert q == Sq(t - c);
    }
    MulNonNeg(q, len);
  }

  lemma ClampedMinimizes(ux: real, uy: real, dx: real, dy: real, t: real)
    requires (dx != 0.0 || dy != 0.0) && 0.0 <= t <= 1.0
    ensures LineDistSq(ux, uy, dx, dy, ClampedProjection(ux, uy, dx, dy)) <= LineDistSq(ux, uy, dx, dy, t)
  {
    var c := ClampedProjection(ux, uy, dx, dy);
    var gap := (t - c) * ((t + c) * NormSq(dx, dy) - 2.0 * (ux * dx + uy * dy));
    assert gap >= 0.0 by {
      NormSqFacts(dx, dy);
      ClampedStepNonNegative(t, c, ux * dx + uy * dy, NormSq(dx, dy));
    }
    assert LineDistSq(ux, uy, dx, dy, t) - LineDistSq(ux, uy, dx, dy, c) == gap by {
      DistSqExpansion(ux, uy, dx, dy, t, c);
    }
  }


  /** The clamped projection is the point of the segment closest to the ball. */
  lemma ClosestParameterIsClosest(ballX: real, ballY: real, a: Vec2, b: Vec2, t: real)
    requires a != b && 0.0 <= t <= 1.0
    ensures var c := ClosestParameter(ballX, ballY, a, b);
      0.0 <= c <= 1.0 && DistSqToLinePoint(ballX, ballY, a, b, c) <= DistSqToLinePoint(ballX, ballY, a, b, t)
  {
    ClampedMinimizes(ballX - a.x, ballY - a.y, b.x - a.x, b.y - a.y, t);
  }

  /**
   * The proximity test is a distance test: the ball is near the segment
   * exactly when some point of the segment is within reach.
   */
  lemma BallNearSegmentIffSomePointWithinReach(ballX: real, ballY: real, a: Vec2, b: Vec2, hitDistSq: real)
    requires a != b
    ensures BallNearSegment(ballX, ballY, a, b, hitDistSq)
        <==> exists t :: 0.0 <= t <= 1.0 && DistSqToLinePoint(ballX, ballY, a, b, t) <= hitDistSq
  {
    var c := ClosestParameter(ballX, ballY, a, b);
    ClosestParameterIsClosest(ballX, ballY, a, b, 0.0);
    if exists t :: 0.0 <= t <= 1.0 && DistSqToLinePoint(ballX, ballY, a, b, t) <= hitDistSq {
      var t :| 0.0 <= t <= 1.0 && DistSqToLinePoint(ballX, ballY, a, b, t) <= hitDistSq;
      ClosestParameterIsClosest(ballX, ballY, a, b, t);
    }
  }

  /** How far the ball's centre lies beyond the side's line, along its normal. */
  function EdgeOffset(ballX: real, ballY: real, edge: Edge): real {
    (ballX - edge.start.x) * edge.normal.x + (ballY - edge.start.y) * edge.normal.y
  }

  /** How far along the side the ball's centre lies, in units of length. */
  function EdgeProjection(ballX: real, ballY: real, edge: Edge): real
    requires edge.length != 0.0
  {
    ((ballX - edge.start.x) * (edge.end.x - edge.start.x) + (ballY - edge.start.y) * (edge.end.y - edge.start.y)) / edge.length
  }

  /**
   * Whether the ball has gone out through `edge`: more than a radius beyond
   * its line and level with the side, extended by a radius at each end.
   * For a side of zero length the source divides by zero; an infinite or
   * NaN projection fails the range test, so the answer is false.
   */
  function BallPassedEdge(ballX: real, ballY: real, ballRadius: real, edge: Edge): bool {
    if EdgeOffset(ballX, ballY, edge) <= ballRadius then false
    else if edge.length == 0.0 then false
    else
      var proj := EdgeProjection(ballX, ballY, edge);
      -ballRadius <= proj <= edge.length + ballRadius
  }

  /**
   * For a side built by `MakeEdge`, offset and projection are the ball's
   * coordinates in the side's own frame: the centre is the side's start, plus
   * `projection` along the unit direction, plus `offset` along the normal.
   */
  lemma EdgeFrameCoordinates(ballX: real, ballY: real, edge: Edge, dir: Vec2)
    requires edge.length > 0.0
    requires Sq(edge.length) == NormSq(edge.end.x - edge.start.x, edge.end.y - edge.start.y)
    requires dir == Vec2((edge.end.x - edge.start.x) / edge.length, (edge.end.y - edge.start.y) / edge.length)
    requires edge.normal == Vec2(dir.y, -dir.x)
    ensures ballX == edge.start.x + EdgeProjection(ballX, ballY, edge) * dir.x + EdgeOffset(ballX, ballY, edge) * edge.normal.x
    ensures ballY == edge.start.y + EdgeProjection(ballX, ballY, edge) * dir.y + EdgeOffset(ballX, ballY, edge) * edge.normal.y
  {
    FrameCoordinates(ballX - edge.start.x, ballY - edge.start.y, edge.end.x - edge.start.x, edge.end.y - edge.start.y,
      edge.length, dir.x, dir.y);
  }

  lemma FrameCoordinates(rx: real, ry: real, dx: real, dy: real, len: real, ux: real, uy: real)
    requires len > 0.0 && Sq(len) == NormSq(dx, dy) && ux == dx / len && uy == dy / len
    ensures var proj := (rx * dx + ry * dy) / len;
      var off := rx * uy + ry * -ux;
      rx == proj * ux + off * uy && ry == proj * uy + off * -ux
  {
    DivByPositive(dx, len);
    DivByPositive(dy, len);
    UnitAfterScaling(dx, dy, len);
    ProjectionOnUnit(rx, ry, dx, dy, len, ux, uy);
    Recompose(rx, ry, ux, uy);
  }

  lemma ProjectionOnUnit(rx: real, ry: real, dx: real, dy: real, len: real, ux: real, uy: real)
    requires len > 0.0 && ux * len == dx && uy * len == dy
    ensures (rx * dx + ry * dy) / len == rx * ux + ry * uy
  {
    assert rx * dx + ry * dy == (rx * ux + ry * uy) * len;
  }

  lemma Recompose(rx: real, ry: real, ux: real, uy: real)
    requires NormSq(ux, uy) == 1.0
    ensures var proj := rx * ux + ry * uy;
      var off := rx * uy + ry * -ux;
      rx == proj * ux + off * uy && ry == proj * uy + off * -ux
  {
    var proj := rx * ux + ry * uy;
    var off := rx * uy + ry * -ux;
    assert proj * ux + off * uy == rx * (Sq(ux) + Sq(uy));
    assert proj * uy + off * -ux == ry * (Sq(ux) + Sq(uy));
  }

  const DEFAULT_SPEED_UP: real := 1.02

  /** The velocity mirrored in the line with normal `normal`, then scaled by `speedUp`. */
  function ReflectVelocity(vx: real, vy: real, normal: Vec2, speedUp: real): Vec2 {
    var dot := vx * normal.x + vy * normal.y;
    Vec2((vx - 2.0 * dot * normal.x) * speedUp, (vy - 2.0 * dot * normal.y) * speedUp)
  }

  /** For a unit normal, the reflected velocity's normal component is the old one reversed, times `speedUp`. */
  lemma ReflectReversesNormal(vx: real, vy: real, normal: Vec2, speedUp: real)
    requires IsUnit(normal)
    ensures Dot(ReflectVelocity(vx, vy, normal, speedUp), normal) == -speedUp * Dot(Vec2(vx, vy), normal)
  {
    var nx := normal.x;
    var ny := normal.y;
    var d := vx * nx + vy * ny;
    MirrorNormal(vx, vy, nx, ny, d);
    var w := (vx - 2.0 * d * nx) * nx + (vy - 2.0 * d * ny) * ny;
    assert ((vx - 2.0 * d * nx) * speedUp) * nx + ((vy - 2.0 * d * ny) * speedUp) * ny == w * speedUp;
  }

  lemma MirrorNormal(vx: real, vy: real, nx: real, ny: real, d: real)
    requires NormSq(nx, ny) == 1.0 && d == vx * nx + vy * ny
    ensures (vx - 2.0 * d * nx) * nx + (vy - 2.0 * d * ny) * ny == -d
  {
    assert (vx - 2.0 * d * nx) * nx + (vy - 2.0 * d * ny) * ny == d - 2.0 * d * (Sq(nx) + Sq(ny));
  }

  /** The reflected velocity's component along the side is the old one times `speedUp`. */
  lemma ReflectKeepsTangent(vx: real, vy: real, normal: Vec2, speedUp: real)
    ensures var tangent := Vec2(-normal.y, normal.x);
      Dot(ReflectVelocity(vx, vy, normal, speedUp), tangent) == speedUp * Dot(Vec2(vx, vy), tangent)
  {
    var nx := normal.x;
    var ny := normal.y;
    var d := vx * nx + vy * ny;
    var e := -vx * ny + vy * nx;
    assert (vx - 2.0 * d * nx) * -ny + (vy - 2.0 * d * ny) * nx == e;
    assert ((vx - 2.0 * d * nx) * speedUp) * -ny + ((vy - 2.0 * d * ny) * speedUp) * nx == e * speedUp;
  }

  /** For a unit normal, reflection multiplies the squared speed by `speedUp^2`. */
  lemma ReflectScalesSpeed(vx: real, vy: real, normal: Vec2, speedUp: real)
    requires IsUnit(normal)
    ensures var r := ReflectVelocity(vx, vy, normal, speedUp);
      NormSq(r.x, r.y) == Sq(speedUp) * NormSq(vx, vy)
  {
    var d := vx * normal.x + vy * normal.y;
    MirrorKeepsNormSq(vx, vy, normal.x, normal.y, d);
    ScaleNormSq(vx - 2.0 * d * normal.x, vy - 2.0 * d * normal.y, speedUp);
  }

  lemma MirrorKeepsNormSq(vx: real, vy: real, nx: real, ny: real, d: real)
    requires NormSq(nx, ny) == 1.0 && d == vx * nx + vy * ny
    ensures NormSq(vx - 2.0 * d * nx, vy - 2.0 * d * ny) == NormSq(vx, vy)
  {
    assert Sq(vx - 2.0 * d * nx) == Sq(vx) - 4.0 * d * (vx * nx) + 4.0 * (d * d) * Sq(nx);
    assert Sq(vy - 2.0 * d * ny) == Sq(vy) - 4.0 * d * (vy * ny) + 4.0 * (d * d) * Sq(ny);
    assert 4.0 * (d * d) * Sq(nx) + 4.0 * (d * d) * Sq(ny) == 4.0 * (d * d) * NormSq(nx, ny);
  }

  /** With no speed-up, reflecting twice in the same side gives the original velocity back. */
  lemma ReflectVelocityInvolution(vx: real, vy: real, normal: Vec2)
    requires IsUnit(normal)
    ensures var r := ReflectVelocity(vx, vy, normal, 1.0);
      ReflectVelocity(r.x, r.y, normal, 1.0) == Vec2(vx, vy)
  {
    ReflectReversesNormal(vx, vy, normal, 1.0);
  }

  /**
   * The velocity with its speed capped at `maxSpeed`: unchanged when within
   * the cap, otherwise rescaled to exactly the cap in the same direction.
   */
  function ClampSpeed(vx: real, vy: real, maxSpeed: real, m: Env): (r: Vec2)
    requires SqrtSound(m) && maxSpeed >= 0.0
    ensures NormSq(r.x, r.y) <= Sq(maxSpeed)
    ensures NormSq(vx, vy) <= Sq(maxSpeed) ==> r == Vec2(vx, vy)
    ensures NormSq(vx, vy) > Sq(maxSpeed) ==>
      && NormSq(r.x, r.y) == Sq(maxSpeed)
      && r.x * vy == r.y * vx
      && r.x * vx + r.y * vy >= 0.0
  {
    var speed := Hypot(m, vx, vy);
    HypotFacts(m, vx, vy);
    SqrtCompare(m, NormSq(vx, vy), maxSpeed);
    if speed > maxSpeed then
      var scale := maxSpeed / speed;
      ScaledSpeed(vx, vy, speed, maxSpeed);
      Vec2(vx * scale, vy * scale)
    else
      Vec2(vx, vy)
  }

  lemma ScaledSpeed(vx: real, vy: real, speed: real, maxSpeed: real)
    requires speed > maxSpeed >= 0.0 && Sq(speed) == NormSq(vx, vy)
    ensures var scale := maxSpeed / speed;
      && NormSq(vx * scale, vy * scale) == Sq(maxSpeed)
      && (vx * scale) * vy == (vy * scale) * vx
      && (vx * scale) * vx + (vy * scale) * vy >= 0.0
  {
    var scale := maxSpeed / speed;
    assert scale * speed == maxSpeed;
    assert NormSq(vx * scale, vy * scale) == Sq(scale) * NormSq(vx, vy) by {
      assert (vx * scale) * (vx * scale) == (scale * scale) * (vx * vx);
      assert (vy * scale) * (vy * scale) == (scale * scale) * (vy * vy);
    }
    assert Sq(scale) * Sq(speed) == Sq(maxSpeed) by {
      assert (scale * scale) * (speed * speed) == (scale * speed) * (scale * speed);
    }
    assert (vx * scale) * vx + (vy * scale) * vy == scale * NormSq(vx, vy);
    assert scale >= 0.0;
    NormSqFacts(vx, vy);
    MulNonNeg(scale, NormSq(vx, vy));
  }

  datatype Segment = Segment(start: Vec2, end: Vec2)

  /** The point at fraction `t` of the way along `edge`. */
  function PointAlong(edge: Edge, t: real): Vec2 {
    Vec2(edge.start.x + (edge.end.x - edge.start.x) * t, edge.start.y + (edge.end.y - edge.start.y) * t)
  }

  /**
   * The ends of a paddle of `widthRatio` of the side's length, centred at
   * fraction `paddlePosition` along `edge` and laid along the side's angle.
   */
  function GetPaddleEndpoints(paddlePosition: real, edge: Edge, widthRatio: real, m: Env): (s: Segment)
    requires TrigSound(m)
    ensures var c := PointAlong(edge, paddlePosition);
      c.x - s.start.x == s.end.x - c.x && c.y - s.start.y == s.end.y - c.y
    ensures NormSq(s.end.x - s.start.x, s.end.y - s.start.y) == Sq(edge.length * widthRatio)
  {
    var c := PointAlong(edge, paddlePosition);
    var halfLen := (edge.length * widthRatio) / 2.0;
    var cos := m.cos(edge.angle);
    var sin := m.sin(edge.angle);
    PaddleLength(cos, sin, halfLen);
    Segment(Vec2(c.x - cos * halfLen, c.y - sin * halfLen), Vec2(c.x + cos * halfLen, c.y + sin * halfLen))
  }

  lemma PaddleLength(cos: real, sin: real, halfLen: real)
    requires Sq(cos) + Sq(sin) == 1.0
    ensures NormSq(2.0 * (cos * halfLen), 2.0 * (sin * halfLen)) == Sq(2.0 * halfLen)
  {
    assert Sq(2.0 * (cos * halfLen)) == Sq(cos) * Sq(2.0 * halfLen);
    assert Sq(2.0 * (sin * halfLen)) == Sq(sin) * Sq(2.0 * halfLen);
  }

  /**
   * On a side whose angle is its direction (as `MakeEdge` sets it), the paddle
   * is the piece of the side between fractions `p - w/2` and `p + w/2`; so it
   * stays on its side exactly when `w/2 <= p <= 1 - w/2`.
   */
  lemma PaddleLiesOnItsSide(paddlePosition: real, edge: Edge, widthRatio: real, m: Env)
    requires TrigSound(m)
    requires edge.length > 0.0
    requires m.cos(edge.angle) * edge.length == edge.end.x - edge.start.x
    requires m.sin(edge.angle) * edge.length == edge.end.y - edge.start.y
    ensures var s := GetPaddleEndpoints(paddlePosition, edge, widthRatio, m);
      && s.start == PointAlong(edge, paddlePosition - widthRatio / 2.0)
      && s.end == PointAlong(edge, paddlePosition + widthRatio / 2.0)
  {
    ScaleProduct(m.cos(edge.angle), edge.length, edge.end.x - edge.start.x, widthRatio);
    ScaleProduct(m.sin(edge.angle), edge.length, edge.end.y - edge.start.y, widthRatio);
  }

  /** Half a paddle along a direction `c` of a side of length `len` is `w/2` of the side's extent `d`. */
  lemma ScaleProduct(c: real, len: real, d: real, w: real)
    requires c * len == d
    ensures c * ((len * w) / 2.0) == d * (w / 2.0)
  {
    assert c * ((len * w) / 2.0) == (c * len) * (w / 2.0);
  }
}
