/**
 * Collision primitives of goals mode (shared/src/goals-physics.ts): the
 * angle difference wrapped into [-pi, pi], bouncing off the circular arena
 * wall, a save by an arc paddle orbiting a goal, a goal, and the goals'
 * slot angles.
 *
 * The source's bounce and paddle checks change the ball object they are
 * given; here the ball is the class `GoalsBall` and those checks are methods
 * that modify it, each tied to a function on ball values that says what the
 * new ball is.
 */
module GoalsPhysics {
  import opened RealMath
  import opened Types
  import Physics

  // ---------------------------------------------------------------------
  // angleDiff

  /** `d` brought to at most `pi` by whole turns, as the first loop of `angleDiff` does. */
  function WrapDown(d: real, pi: real): real
    requires pi >= 1.0
    decreases d
  {
    if d > pi then WrapDown(d - 2.0 * pi, pi) else d
  }

  /** `d` brought to at least `-pi` by whole turns, as the second loop of `angleDiff` does. */
  function WrapUp(d: real, pi: real): real
    requires pi >= 1.0
    decreases -d
  {
    if d < -pi then WrapUp(d + 2.0 * pi, pi) else d
  }

  /** The value `angleDiff` computes for the difference `d`. */
  function Wrapped(d: real, pi: real): real
    requires pi >= 1.0
  {
    WrapUp(WrapDown(d, pi), pi)
  }

  lemma {:induction false} WrapDownFacts(d: real, pi: real) returns (k: nat)
    requires pi >= 1.0
    ensures WrapDown(d, pi) == d - 2.0 * pi * k as real
    ensures WrapDown(d, pi) <= pi
    ensures d > pi ==> WrapDown(d, pi) > -pi
    ensures d <= pi ==> k == 0
    decreases d
  {
    if d > pi {
      var k' := WrapDownFacts(d - 2.0 * pi, pi);
      k := k' + 1;
      assert 2.0 * pi * k as real == 2.0 * pi * k' as real + 2.0 * pi;
    } else {
      k := 0;
    }
  }

  lemma {:induction false} WrapUpFacts(d: real, pi: real) returns (k: nat)
    requires pi >= 1.0
    ensures WrapUp(d, pi) == d + 2.0 * pi * k as real
    ensures WrapUp(d, pi) >= -pi
    ensures d < -pi ==> WrapUp(d, pi) < pi
    ensures d >= -pi ==> k == 0
    decreases -d
  {
    if d < -pi {
      var k' := WrapUpFacts(d + 2.0 * pi, pi);
      k := k' + 1;
      assert 2.0 * pi * k as real == 2.0 * pi * k' as real + 2.0 * pi;
    } else {
      k := 0;
    }
  }

  /**
   * The wrapped difference lies in [-pi, pi] and differs from `d` by a whole
   * number of turns; `d` itself is kept when already in range.
   */
  lemma WrappedInRange(d: real, pi: real) returns (k: int)
    requires pi >= 1.0
    ensures -pi <= Wrapped(d, pi) <= pi
    ensures Wrapped(d, pi) == d + 2.0 * pi * k as real
    ensures -pi <= d <= pi ==> Wrapped(d, pi) == d
  {
    var down := WrapDownFacts(d, pi);
    var up := WrapUpFacts(WrapDown(d, pi), pi);
    k := up as int - down as int;
    assert 2.0 * pi * k as real == 2.0 * pi * up as real - 2.0 * pi * down as real;
  }

  /** `angleDiff(a, b)`: `a - b` wrapped into [-pi, pi] by the source's two loops. */
  method AngleDiff(a: real, b: real, m: Env) returns (d: real)
    requires PiSound(m)
    ensures d == Wrapped(a - b, m.pi)
    ensures -m.pi <= d <= m.pi
    ensures a == b ==> d == 0.0
  {
    d := a - b;
    while d > m.pi
      invariant WrapDown(d, m.pi) == WrapDown(a - b, m.pi)
      decreases d
    {
      d := d - 2.0 * m.pi;
    }
    while d < -m.pi
      invariant WrapUp(d, m.pi) == Wrapped(a - b, m.pi)
      decreases -d
    {
      d := d + 2.0 * m.pi;
    }
    var _ := WrappedInRange(a - b, m.pi);
  }

  // ---------------------------------------------------------------------
  // normalize and reflect (module-private helpers of the source)

  /** `v` divided by its length, or (0, 0) for the zero vector. */
  function Normalize(v: Vec2, m: Env): Vec2 {
    var len := Hypot(m, v.x, v.y);
    if len > 0.0 then Vec2(v.x / len, v.y / len) else Vec2(0.0, 0.0)
  }

  /** Normalising the zero vector gives the zero vector. */
  lemma NormalizeZero(m: Env)
    requires SqrtSound(m)
    ensures Normalize(Vec2(0.0, 0.0), m) == Vec2(0.0, 0.0)
  {
    HypotFacts(m, 0.0, 0.0);
    SqFacts(Hypot(m, 0.0, 0.0));
  }

  /** Normalising any other vector gives a unit vector along it. */
  lemma NormalizeUnit(v: Vec2, m: Env)
    requires SqrtSound(m) && v != Vec2(0.0, 0.0)
    ensures IsUnit(Normalize(v, m))
    ensures Normalize(v, m).x * Hypot(m, v.x, v.y) == v.x && Normalize(v, m).y * Hypot(m, v.x, v.y) == v.y
  {
    HypotFacts(m, v.x, v.y);
    UnitOnScaling(v.x, v.y, Hypot(m, v.x, v.y));
  }

  lemma UnitOnScaling(x: real, y: real, len: real)
    requires len > 0.0 && Sq(len) == NormSq(x, y)
    ensures NormSq(x / len, y / len) == 1.0 && (x / len) * len == x && (y / len) * len == y
  {
    UnitAfterScaling(x, y, len);
    DivByPositive(x, len);
    DivByPositive(y, len);
  }

  /** The velocity mirrored in the line with normal `normal` (no speed-up). */
  function Reflect(vel: Vec2, normal: Vec2): Vec2 {
    var d := vel.x * normal.x + vel.y * normal.y;
    Vec2(vel.x - 2.0 * d * normal.x, vel.y - 2.0 * d * normal.y)
  }

  /** For a unit normal, reflection reverses the normal component and keeps the speed. */
  lemma ReflectMirrors(vel: Vec2, normal: Vec2)
    requires IsUnit(normal)
    ensures Dot(Reflect(vel, normal), normal) == -Dot(vel, normal)
    ensures NormSq(Reflect(vel, normal).x, Reflect(vel, normal).y) == NormSq(vel.x, vel.y)
  {
    var d := vel.x * normal.x + vel.y * normal.y;
    Physics.MirrorNormal(vel.x, vel.y, normal.x, normal.y, d);
    Physics.MirrorKeepsNormSq(vel.x, vel.y, normal.x, normal.y, d);
  }

  // ---------------------------------------------------------------------
  // The ball the checks move

  /** A ball of goals mode, whose fields the collision checks overwrite. */
  class GoalsBall {
    var x: real
    var y: real
    var vx: real
    var vy: real

    constructor (x: real, y: real, vx: real, vy: real)
      ensures this.x == x && this.y == y && this.vx == vx && this.vy == vy
    {
      this.x := x;
      this.y := y;
      this.vx := vx;
      this.vy := vy;
    }

    function Value(): BallState
      reads this
    {
      BallState(x, y, vx, vy)
    }
  }

  /** What a check reports, with the ball as it leaves it. */
  datatype Collision = Collision(hit: bool, ball: BallState)

  // ---------------------------------------------------------------------
  // bounceOffCircularWall

  /**
   * The source divides the position by its length only when the ball is not
   * inside the wall; a ball at the centre reaches that division only when its
   * radius is at least the arena's, which is what the precondition rules out.
   */
  predicate WallBounceDefined(b: BallState, arenaRadius: real, ballRadius: real) {
    ballRadius < arenaRadius || b.x != 0.0 || b.y != 0.0
  }

  /** The ball after `bounceOffCircularWall`, and whether it bounced. */
  function WallBounce(b: BallState, arenaRadius: real, ballRadius: real, m: Env): Collision
    requires SqrtSound(m) && WallBounceDefined(b, arenaRadius, ballRadius)
  {
    var dist := Hypot(m, b.x, b.y);
    HypotFacts(m, b.x, b.y);
    if dist + ballRadius < arenaRadius then Collision(false, b)
    else
      var n := Vec2(b.x / dist, b.y / dist);
      var v := Reflect(Vec2(b.vx, b.vy), n);
      var safe := arenaRadius - ballRadius;
      Collision(true, BallState(n.x * safe, n.y * safe, v.x, v.y))
  }

  method BounceOffCircularWall(ball: GoalsBall, arenaRadius: real, ballRadius: real, m: Env) returns (bounced: bool)
    requires SqrtSound(m) && WallBounceDefined(ball.Value(), arenaRadius, ballRadius)
    modifies ball
    ensures Collision(bounced, ball.Value()) == WallBounce(old(ball.Value()), arenaRadius, ballRadius, m)
  {
    var dist := Hypot(m, ball.x, ball.y);
    HypotFacts(m, ball.x, ball.y);
    if dist + ballRadius < arenaRadius {
      return false;
    }
    var nx := ball.x / dist;
    var ny := ball.y / dist;
    var vel := Reflect(Vec2(ball.vx, ball.vy), Vec2(nx, ny));
    ball.vx := vel.x;
    ball.vy := vel.y;
    var safe := arenaRadius - ballRadius;
    ball.x := nx * safe;
    ball.y := ny * safe;
    return true;
  }

  /**
   * No bounce exactly when the ball is strictly inside the wall, i.e. its
   * centre is nearer than `arenaRadius - ballRadius`; then the ball is left
   * as it was.
   */
  lemma WallBounceMissIffInside(b: BallState, arenaRadius: real, ballRadius: real, m: Env)
    requires SqrtSound(m) && WallBounceDefined(b, arenaRadius, ballRadius)
    ensures var r := WallBounce(b, arenaRadius, ballRadius, m);
      && (!r.hit <==> arenaRadius - ballRadius > 0.0 && NormSq(b.x, b.y) < Sq(arenaRadius - ballRadius))
      && (!r.hit ==> r.ball == b)
  {
    HypotFacts(m, b.x, b.y);
    if arenaRadius - ballRadius > 0.0 {
      SqrtCompare(m, NormSq(b.x, b.y), arenaRadius - ballRadius);
    }
  }

  /**
   * After a bounce the ball sits on the ray through its old position, at
   * distance `arenaRadius - ballRadius` from the centre, with its radial
   * velocity reversed and its speed kept.
   */
  lemma WallBounceLandsInside(b: BallState, arenaRadius: real, ballRadius: real, m: Env)
    requires SqrtSound(m) && WallBounceDefined(b, arenaRadius, ballRadius)
    requires WallBounce(b, arenaRadius, ballRadius, m).hit
    ensures var r := WallBounce(b, arenaRadius, ballRadius, m).ball;
      var n := Normalize(Vec2(b.x, b.y), m);
      && r.x == n.x * (arenaRadius - ballRadius) && r.y == n.y * (arenaRadius - ballRadius)
      && IsUnit(n)
      && NormSq(r.x, r.y) == Sq(arenaRadius - ballRadius)
      && Dot(Vec2(r.vx, r.vy), n) == -Dot(Vec2(b.vx, b.vy), n)
      && NormSq(r.vx, r.vy) == NormSq(b.vx, b.vy)
  {
    HypotFacts(m, b.x, b.y);
    SqFacts(Hypot(m, b.x, b.y));
    assert Vec2(b.x, b.y) != Vec2(0.0, 0.0);
    var n := Normalize(Vec2(b.x, b.y), m);
    NormalizeUnit(Vec2(b.x, b.y), m);
    ReflectMirrors(Vec2(b.vx, b.vy), n);
    ScaleNormSq(n.x, n.y, arenaRadius - ballRadius);
  }

  // ---------------------------------------------------------------------
  // checkGoalsPaddleCollision

  /** The ball a save sends back: reflected in `normal` and placed `push` from the goal along it. */
  function Rebound(b: BallState, normal: Vec2, goalX: real, goalY: real, push: real): BallState {
    var v := Reflect(Vec2(b.vx, b.vy), normal);
    BallState(goalX + normal.x * push, goalY + normal.y * push, v.x, v.y)
  }

  /** The ball after `checkGoalsPaddleCollision`, and whether the paddle saved it. */
  function PaddleCollision(b: BallState, paddleAngle: real, paddleArc: real, goalX: real, goalY: real,
                           orbitRadius: real, ballRadius: real, m: Env): Collision
    requires PiSound(m)
  {
    var dx := b.x - goalX;
    var dy := b.y - goalY;
    var dist := Hypot(m, dx, dy);
    var threshold := ballRadius * 2.0;
    if dist < orbitRadius - threshold || dist > orbitRadius + threshold then Collision(false, b)
    else if Abs(Wrapped(m.atan2(dy, dx) - paddleAngle, m.pi)) > paddleArc / 2.0 then Collision(false, b)
    else
      var normal := Normalize(Vec2(dx, dy), m);
      if Dot(Vec2(b.vx, b.vy), normal) >= 0.0 then Collision(false, b)
      else Collision(true, Rebound(b, normal, goalX, goalY, orbitRadius + ballRadius + 1.0))
  }

  method CheckGoalsPaddleCollision(ball: GoalsBall, paddleAngle: real, paddleArc: real, goalX: real, goalY: real,
                                   orbitRadius: real, ballRadius: real, m: Env) returns (saved: bool)
    requires PiSound(m)
    modifies ball
    ensures Collision(saved, ball.Value())
         == PaddleCollision(old(ball.Value()), paddleAngle, paddleArc, goalX, goalY, orbitRadius, ballRadius, m)
  {
    ghost var b := ball.Value();
    var dx := ball.x - goalX;
    var dy := ball.y - goalY;
    var dist := Hypot(m, dx, dy);
    var collisionThreshold := ballRadius * 2.0;
    if dist < orbitRadius - collisionThreshold || dist > orbitRadius + collisionThreshold {
      return false;
    }
    var ballAngle := m.atan2(dy, dx);
    var diff := AngleDiff(ballAngle, paddleAngle, m);
    if Abs(diff) > paddleArc / 2.0 {
      return false;
    }
    var normal := Normalize(Vec2(dx, dy), m);
    var moveDot := Dot(Vec2(ball.vx, ball.vy), normal);
    if moveDot >= 0.0 {
      return false;
    }
    var vel := Reflect(Vec2(ball.vx, ball.vy), normal);
    ball.vx := vel.x;
    ball.vy := vel.y;
    var pushDistance := orbitRadius + ballRadius + 1.0;
    ball.x := goalX + normal.x * pushDistance;
    ball.y := goalY + normal.y * pushDistance;
    return true;
  }

  /**
   * A save needs the ball in the band `orbitRadius ± 2 ballRadius` around the
   * goal, within half the arc of the paddle's angle, and moving towards the
   * goal; without one the ball is left as it was, and with one it is the
   * rebound off the goal's normal.
   */
  lemma PaddleSaveConditions(b: BallState, paddleAngle: real, paddleArc: real, goalX: real, goalY: real,
                             orbitRadius: real, ballRadius: real, m: Env)
    requires PiSound(m)
    ensures var r := PaddleCollision(b, paddleAngle, paddleArc, goalX, goalY, orbitRadius, ballRadius, m);
      var dx := b.x - goalX;
      var dy := b.y - goalY;
      var dist := Hypot(m, dx, dy);
      var normal := Normalize(Vec2(dx, dy), m);
      && (r.hit <==>
            && orbitRadius - 2.0 * ballRadius <= dist <= orbitRadius + 2.0 * ballRadius
            && -paddleArc / 2.0 <= Wrapped(m.atan2(dy, dx) - paddleAngle, m.pi) <= paddleArc / 2.0
            && Dot(Vec2(b.vx, b.vy), normal) < 0.0)
      && (!r.hit ==> r.ball == b)
      && (r.hit ==> r.ball == Rebound(b, normal, goalX, goalY, orbitRadius + ballRadius + 1.0))
  {
  }

  /**
   * Rebounding off a unit normal leaves the ball `push` from the goal along
   * the normal, with its normal velocity reversed and its speed kept.
   */
  lemma ReboundFacts(b: BallState, normal: Vec2, goalX: real, goalY: real, push: real)
    requires IsUnit(normal)
    ensures var r := Rebound(b, normal, goalX, goalY, push);
      && r.x - goalX == normal.x * push && r.y - goalY == normal.y * push
      && NormSq(r.x - goalX, r.y - goalY) == Sq(push)
      && Dot(Vec2(r.vx, r.vy), normal) == -Dot(Vec2(b.vx, b.vy), normal)
      && NormSq(r.vx, r.vy) == NormSq(b.vx, b.vy)
  {
    ReflectMirrors(Vec2(b.vx, b.vy), normal);
    ScaleNormSq(normal.x, normal.y, push);
  }

  /** A ball moving towards the goal is not at the goal's centre, so the goal's normal is a unit vector. */
  lemma ApproachingHasUnitNormal(b: BallState, goalX: real, goalY: real, m: Env)
    requires SqrtSound(m)
    requires Dot(Vec2(b.vx, b.vy), Normalize(Vec2(b.x - goalX, b.y - goalY), m)) < 0.0
    ensures IsUnit(Normalize(Vec2(b.x - goalX, b.y - goalY), m))
  {
    var d := Vec2(b.x - goalX, b.y - goalY);
    if d == Vec2(0.0, 0.0) {
      NormalizeZero(m);
      assert false;
    }
    NormalizeUnit(d, m);
  }

  /**
   * After a save the ball is `orbitRadius + ballRadius + 1` from the goal on
   * the ray through its old position, moving away from the goal as fast as it
   * arrived.
   */
  lemma PaddleSaveBouncesOut(b: BallState, paddleAngle: real, paddleArc: real, goalX: real, goalY: real,
                             orbitRadius: real, ballRadius: real, m: Env)
    requires SqrtSound(m) && PiSound(m)
    requires PaddleCollision(b, paddleAngle, paddleArc, goalX, goalY, orbitRadius, ballRadius, m).hit
    ensures var r := PaddleCollision(b, paddleAngle, paddleArc, goalX, goalY, orbitRadius, ballRadius, m).ball;
      var normal := Normalize(Vec2(b.x - goalX, b.y - goalY), m);
      var push := orbitRadius + ballRadius + 1.0;
      && IsUnit(normal)
      && r.x - goalX == normal.x * push && r.y - goalY == normal.y * push
      && NormSq(r.x - goalX, r.y - goalY) == Sq(push)
      && Dot(Vec2(r.vx, r.vy), normal) == -Dot(Vec2(b.vx, b.vy), normal) > 0.0
      && NormSq(r.vx, r.vy) == NormSq(b.vx, b.vy)
  {
    PaddleSaveConditions(b, paddleAngle, paddleArc, goalX, goalY, orbitRadius, ballRadius, m);
    var normal := Normalize(Vec2(b.x - goalX, b.y - goalY), m);
    ApproachingHasUnitNormal(b, goalX, goalY, m);
    ReboundFacts(b, normal, goalX, goalY, orbitRadius + ballRadius + 1.0);
  }

  // ---------------------------------------------------------------------
  // checkGoalsGoalCollision

  /**
   * Whether the ball has entered the goal: nearer to its centre than
   * `goalRadius + ballRadius` and than `orbitRadius`.  The test reads the
   * ball and changes nothing.
   */
  function CheckGoalsGoalCollision(x: real, y: real, goalX: real, goalY: real, goalRadius: real,
                                   orbitRadius: real, ballRadius: real, m: Env): (scored: bool)
    requires SqrtSound(m)
    ensures var d2 := NormSq(x - goalX, y - goalY);
      scored <==> (&& 0.0 < goalRadius + ballRadius && d2 < Sq(goalRadius + ballRadius)
                   && 0.0 < orbitRadius && d2 < Sq(orbitRadius))
  {
    var dx := x - goalX;
    var dy := y - goalY;
    var dist := Hypot(m, dx, dy);
    GoalDistances(m, dx, dy, goalRadius + ballRadius, orbitRadius);
    if dist >= goalRadius + ballRadius then false
    else if dist >= orbitRadius then false
    else true
  }

  lemma GoalDistances(m: Env, dx: real, dy: real, reach: real, orbitRadius: real)
    requires SqrtSound(m)
    ensures var d2 := NormSq(dx, dy);
      && (Hypot(m, dx, dy) < reach <==> 0.0 < reach && d2 < Sq(reach))
      && (Hypot(m, dx, dy) < orbitRadius <==> 0.0 < orbitRadius && d2 < Sq(orbitRadius))
  {
    HypotFacts(m, dx, dy);
    if reach > 0.0 {
      SqrtCompare(m, NormSq(dx, dy), reach);
    }
    if orbitRadius > 0.0 {
      SqrtCompare(m, NormSq(dx, dy), orbitRadius);
    }
  }

  // ---------------------------------------------------------------------
  // getGoalsSlotAngles

  /** `count` angles evenly spaced round the circle, starting at 0. */
  function GetGoalsSlotAngles(count: nat, pi: real): (angles: seq<real>)
    ensures |angles| == count
    ensures forall i :: 0 <= i < count ==> angles[i] == (2.0 * pi * i as real) / count as real
  {
    seq(count, i requires 0 <= i < count => (2.0 * pi * i as real) / count as real)
  }

  /** The slot angles start at 0, strictly increase, and stay below a full turn. */
  lemma SlotAnglesIncrease(count: nat, pi: real, i: nat, j: nat)
    requires pi > 0.0 && i < j < count
    ensures var angles := GetGoalsSlotAngles(count, pi);
      && angles[0] == 0.0
      && angles[i] < angles[j]
      && angles[j] < 2.0 * pi
  {
    var n := count as real;
    MulStrictMono(2.0 * pi, i as real, j as real);
    DivMono(2.0 * pi * i as real, 2.0 * pi * j as real, n);
    MulStrictMono(2.0 * pi, j as real, n);
    DivMono(2.0 * pi * j as real, 2.0 * pi * n, n);
    MulDivCancel(2.0 * pi, n);
    DivByPositive(0.0, n);
  }
}
