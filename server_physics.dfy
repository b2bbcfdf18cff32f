/**
 * The goal-ring server's collision checks (server/src/game/Physics.ts).
 * They move the ball in place, like their goals-mode counterparts, but the
 * paddle test has no approach-direction condition and pushes the ball to
 * `ORBIT_RADIUS + BALL_RADIUS`, and a goal costs the defending player a life
 * and relaunches the ball from the centre in a random direction.
 *
 * The ball is a `GoalsPhysics.GoalsBall` (the server's `BallState` has the
 * same four fields); `angleDiff` is the same text as in goals mode and is
 * `GoalsPhysics.AngleDiff`.  `Math.random()` is the parameter `random`.
 */
module ServerPhysics {
  import opened RealMath
  import opened Types
  import opened Mmorpong
  import GoalsPhysics
  import SharedIndex

  // ---------------------------------------------------------------------
  // checkPaddleCollision

  /** The ball after `checkPaddleCollision`, and whether the paddle hit it. */
  function PaddleCollision(b: BallState, paddleAngle: real, paddleArc: real, goalX: real, goalY: real,
                           m: Env): GoalsPhysics.Collision
    requires SqrtSound(m) && PiSound(m)
  {
    var dx := b.x - goalX;
    var dy := b.y - goalY;
    var dist := Hypot(m, dx, dy);
    if dist < ORBIT_RADIUS - BALL_RADIUS || dist > ORBIT_RADIUS + BALL_RADIUS then GoalsPhysics.Collision(false, b)
    else if Abs(GoalsPhysics.Wrapped(m.atan2(dy, dx) - paddleAngle, m.pi)) > paddleArc / 2.0 then
      GoalsPhysics.Collision(false, b)
    else GoalsPhysics.Collision(true, Bounce(b, goalX, goalY, m))
  }

  /**
   * The ball a hit sends back: its velocity reflected in the goal's normal
   * through the ball and its centre put `ORBIT_RADIUS + BALL_RADIUS` from
   * the goal along that normal.
   */
  function Bounce(b: BallState, goalX: real, goalY: real, m: Env): BallState
    requires SqrtSound(m) && Hypot(m, b.x - goalX, b.y - goalY) > 0.0
  {
    var dx := b.x - goalX;
    var dy := b.y - goalY;
    OffCentreHasUnitNormal(dx, dy, m);
    var normal := GoalsPhysics.Normalize(Vec2(dx, dy), m);
    var vel := SharedIndex.Reflect(Vec2(b.vx, b.vy), normal, m);
    var safe := ORBIT_RADIUS + BALL_RADIUS;
    BallState(goalX + normal.x * safe, goalY + normal.y * safe, vel.x, vel.y)
  }

  /** A point a positive distance from the goal has a unit normal. */
  lemma OffCentreHasUnitNormal(dx: real, dy: real, m: Env)
    requires SqrtSound(m) && Hypot(m, dx, dy) > 0.0
    ensures IsUnit(GoalsPhysics.Normalize(Vec2(dx, dy), m))
    ensures GoalsPhysics.Normalize(Vec2(dx, dy), m) != Vec2(0.0, 0.0)
  {
    if Vec2(dx, dy) == Vec2(0.0, 0.0) {
      HypotFacts(m, 0.0, 0.0);
      SqFacts(Hypot(m, 0.0, 0.0));
      assert false;
    }
    GoalsPhysics.NormalizeUnit(Vec2(dx, dy), m);
  }

  /** `checkPaddleCollision(ball, player, goalX, goalY)` */
  method CheckPaddleCollision(ball: GoalsPhysics.GoalsBall, player: PlayerState, goalX: real, goalY: real, m: Env)
    returns (hit: bool)
    requires SqrtSound(m) && PiSound(m)
    modifies ball
    ensures GoalsPhysics.Collision(hit, ball.Value())
         == PaddleCollision(old(ball.Value()), player.angle, player.paddleArc, goalX, goalY, m)
  {
    var dx := ball.x - goalX;
    var dy := ball.y - goalY;
    var dist := Hypot(m, dx, dy);
    if dist < ORBIT_RADIUS - BALL_RADIUS || dist > ORBIT_RADIUS + BALL_RADIUS {
      return false;
    }
    var ballAngle := m.atan2(dy, dx);
    var diff := GoalsPhysics.AngleDiff(ballAngle, player.angle, m);
    if Abs(diff) > player.paddleArc / 2.0 {
      return false;
    }
    ghost var b0 := ball.Value();
    assert PaddleCollision(b0, player.angle, player.paddleArc, goalX, goalY, m)
        == GoalsPhysics.Collision(true, Bounce(b0, goalX, goalY, m));
    // the normal through the ball, the reflected velocity and the pushed-out position
    var bounced := Bounce(ball.Value(), goalX, goalY, m);
    ball.vx := bounced.vx;
    ball.vy := bounced.vy;
    ball.x := bounced.x;
    ball.y := bounced.y;
    return true;
  }

  /**
   * The paddle hits exactly when the ball is in the band
   * `ORBIT_RADIUS ± BALL_RADIUS` around the goal and within half the arc of
   * the paddle's angle, whichever way the ball is moving; a miss leaves the
   * ball as it was.
   */
  lemma PaddleHitConditions(b: BallState, paddleAngle: real, paddleArc: real, goalX: real, goalY: real, m: Env)
    requires SqrtSound(m) && PiSound(m)
    ensures var r := PaddleCollision(b, paddleAngle, paddleArc, goalX, goalY, m);
      var dx := b.x - goalX;
      var dy := b.y - goalY;
      && (r.hit <==>
            && Sq(ORBIT_RADIUS - BALL_RADIUS) <= NormSq(dx, dy) <= Sq(ORBIT_RADIUS + BALL_RADIUS)
            && -paddleArc / 2.0 <= GoalsPhysics.Wrapped(m.atan2(dy, dx) - paddleAngle, m.pi) <= paddleArc / 2.0)
      && (!r.hit ==> r.ball == b)
  {
    BandInSquares(b.x - goalX, b.y - goalY, m);
  }

  /** The band test on the distance is the same test on its square. */
  lemma BandInSquares(dx: real, dy: real, m: Env)
    requires SqrtSound(m)
    ensures var dist := Hypot(m, dx, dy);
      (dist < ORBIT_RADIUS - BALL_RADIUS || dist > ORBIT_RADIUS + BALL_RADIUS)
      <==> !(Sq(ORBIT_RADIUS - BALL_RADIUS) <= NormSq(dx, dy) <= Sq(ORBIT_RADIUS + BALL_RADIUS))
  {
    HypotFacts(m, dx, dy);
    SqrtCompare(m, NormSq(dx, dy), ORBIT_RADIUS - BALL_RADIUS);
    SqrtCompare(m, NormSq(dx, dy), ORBIT_RADIUS + BALL_RADIUS);
  }

  /** Whether the paddle hits does not depend on the ball's velocity. */
  lemma HitIgnoresVelocity(b: BallState, vx: real, vy: real, paddleAngle: real, paddleArc: real,
                           goalX: real, goalY: real, m: Env)
    requires SqrtSound(m) && PiSound(m)
    ensures PaddleCollision(b.(vx := vx, vy := vy), paddleAngle, paddleArc, goalX, goalY, m).hit
         == PaddleCollision(b, paddleAngle, paddleArc, goalX, goalY, m).hit
  {
  }

  /**
   * After a hit the ball is `ORBIT_RADIUS + BALL_RADIUS` from the goal on the
   * ray through its old position, with its velocity mirrored in that ray:
   * the component along it reversed and the speed kept.
   */
  lemma PaddleHitPlacesBall(b: BallState, paddleAngle: real, paddleArc: real, goalX: real, goalY: real, m: Env)
    requires SqrtSound(m) && PiSound(m)
    requires PaddleCollision(b, paddleAngle, paddleArc, goalX, goalY, m).hit
    ensures var r := PaddleCollision(b, paddleAngle, paddleArc, goalX, goalY, m).ball;
      var normal := GoalsPhysics.Normalize(Vec2(b.x - goalX, b.y - goalY), m);
      && IsUnit(normal)
      && r.x - goalX == normal.x * (ORBIT_RADIUS + BALL_RADIUS)
      && r.y - goalY == normal.y * (ORBIT_RADIUS + BALL_RADIUS)
      && NormSq(r.x - goalX, r.y - goalY) == Sq(ORBIT_RADIUS + BALL_RADIUS)
      && Dot(Vec2(r.vx, r.vy), normal) == -Dot(Vec2(b.vx, b.vy), normal)
      && NormSq(r.vx, r.vy) == NormSq(b.vx, b.vy)
  {
    var dx := b.x - goalX;
    var dy := b.y - goalY;
    var normal := GoalsPhysics.Normalize(Vec2(dx, dy), m);
    OffCentreHasUnitNormal(dx, dy, m);
    var v := Vec2(b.vx, b.vy);
    assert SharedIndex.Reflect(v, normal, m) == GoalsPhysics.Reflect(v, normal) by {
      UnitNormalIsItsOwnNormal(normal, m);
    }
    GoalsPhysics.ReboundFacts(b, normal, goalX, goalY, ORBIT_RADIUS + BALL_RADIUS);
  }

  /** Normalising a unit vector gives it back. */
  lemma UnitNormalIsItsOwnNormal(u: Vec2, m: Env)
    requires SqrtSound(m) && IsUnit(u)
    ensures GoalsPhysics.Normalize(u, m) == u
  {
    SqrtFacts(m, 1.0);
    SharedIndex.SqInjective(m.sqrt(1.0), 1.0);
    DivByPositive(u.x, 1.0);
    DivByPositive(u.y, 1.0);
  }

  /**
   * A ball in the band and in front of the paddle is hit even while it is
   * flying away from the goal, and it then leaves flying towards the goal:
   * its velocity's component along the ray from the goal is reversed.
   */
  lemma OutgoingBallTurnedBack(b: BallState, paddleAngle: real, paddleArc: real, goalX: real, goalY: real,
                               m: Env)
    requires SqrtSound(m) && PiSound(m)
    requires PaddleCollision(b, paddleAngle, paddleArc, goalX, goalY, m).hit
    ensures var r := PaddleCollision(b, paddleAngle, paddleArc, goalX, goalY, m).ball;
      var out := Vec2(b.x - goalX, b.y - goalY);
      Dot(Vec2(r.vx, r.vy), out) == -Dot(Vec2(b.vx, b.vy), out)
  {
    var r := PaddleCollision(b, paddleAngle, paddleArc, goalX, goalY, m).ball;
    var out := Vec2(b.x - goalX, b.y - goalY);
    assert Hypot(m, out.x, out.y) > 0.0;
    assert Dot(Vec2(r.vx, r.vy), GoalsPhysics.Normalize(out, m)) == -Dot(Vec2(b.vx, b.vy), GoalsPhysics.Normalize(out, m)) by {
      PaddleHitPlacesBall(b, paddleAngle, paddleArc, goalX, goalY, m);
    }
    ReversedAlongRay(Vec2(r.vx, r.vy), Vec2(b.vx, b.vy), out, m);
  }

  /** Reversing the component along the unit normal of `out` reverses the one along `out`. */
  lemma ReversedAlongRay(rv: Vec2, bv: Vec2, out: Vec2, m: Env)
    requires SqrtSound(m) && Hypot(m, out.x, out.y) > 0.0
    requires Dot(rv, GoalsPhysics.Normalize(out, m)) == -Dot(bv, GoalsPhysics.Normalize(out, m))
    ensures Dot(rv, out) == -Dot(bv, out)
  {
    var u := GoalsPhysics.Normalize(out, m);
    var len := Hypot(m, out.x, out.y);
    assert out != Vec2(0.0, 0.0) by {
      if out == Vec2(0.0, 0.0) {
        HypotFacts(m, 0.0, 0.0);
        SqFacts(Hypot(m, 0.0, 0.0));
      }
    }
    assert Vec2(u.x * len, u.y * len) == out by {
      GoalsPhysics.NormalizeUnit(out, m);
    }
    SharedIndex.ReversedAlongMultiple(rv, bv, u, len);
  }

  // ---------------------------------------------------------------------
  // checkGoalCollision

  /** What `checkGoalCollision` reports, with the ball and the player as it leaves them. */
  datatype GoalCheck = GoalCheck(scored: bool, ball: BallState, player: PlayerState)

  /**
   * The outcome of `checkGoalCollision` when `Math.random()` returns
   * `random`: outside the goal nothing changes; inside, the player loses a
   * life unless they have none left and the ball is relaunched from the
   * centre.
   */
  function GoalCollision(b: BallState, player: PlayerState, goalX: real, goalY: real, random: real,
                         m: Env): GoalCheck
    requires SqrtSound(m)
  {
    var dx := b.x - goalX;
    var dy := b.y - goalY;
    var dist := Hypot(m, dx, dy);
    if dist >= GOAL_RADIUS + BALL_RADIUS then GoalCheck(false, b, player)
    else if dist >= ORBIT_RADIUS then GoalCheck(false, b, player)
    else
      var after := if player.lives > 0 then player.(lives := player.lives - 1) else player;
      var vel := Relaunch(random, m);
      GoalCheck(true, BallState(0.0, 0.0, vel.x, vel.y), after)
  }

  /** The relaunch velocity: `BALL_BASE_SPEED` in the direction `random` of a full turn. */
  function Relaunch(random: real, m: Env): Vec2 {
    var angle := random * m.pi * 2.0;
    Vec2(m.cos(angle) * BALL_BASE_SPEED, m.sin(angle) * BALL_BASE_SPEED)
  }

  /**
   * `checkGoalCollision(ball, player, goalX, goalY)`.  The source lowers
   * `player.lives` in place; here the updated player record is returned.
   */
  method CheckGoalCollision(ball: GoalsPhysics.GoalsBall, player: PlayerState, goalX: real, goalY: real,
                            random: real, m: Env)
    returns (scored: bool, after: PlayerState)
    requires SqrtSound(m) && 0.0 <= random < 1.0
    modifies ball
    ensures GoalCheck(scored, ball.Value(), after) == GoalCollision(old(ball.Value()), player, goalX, goalY, random, m)
  {
    var dx := ball.x - goalX;
    var dy := ball.y - goalY;
    var dist := Hypot(m, dx, dy);
    if dist >= GOAL_RADIUS + BALL_RADIUS {
      return false, player;
    }
    if dist >= ORBIT_RADIUS {
      return false, player;
    }
    after := player;
    if after.lives > 0 {
      after := after.(lives := after.lives - 1);
    }
    var vel := Relaunch(random, m);
    ball.x := 0.0;
    ball.y := 0.0;
    ball.vx := vel.x;
    ball.vy := vel.y;
    return true, after;
  }

  /**
   * A goal is scored exactly when the ball's centre is nearer the goal's
   * centre than `GOAL_RADIUS + BALL_RADIUS` (which is inside the orbit);
   * otherwise ball and player are left as they were.
   */
  lemma GoalConditions(b: BallState, player: PlayerState, goalX: real, goalY: real, random: real, m: Env)
    requires SqrtSound(m)
    ensures var r := GoalCollision(b, player, goalX, goalY, random, m);
      && (r.scored <==> NormSq(b.x - goalX, b.y - goalY) < Sq(GOAL_RADIUS + BALL_RADIUS))
      && (!r.scored ==> r.ball == b && r.player == player)
  {
    var dx := b.x - goalX;
    var dy := b.y - goalY;
    GoalsPhysics.GoalDistances(m, dx, dy, GOAL_RADIUS + BALL_RADIUS, ORBIT_RADIUS);
    if NormSq(dx, dy) < Sq(GOAL_RADIUS + BALL_RADIUS) {
      SqStrictMono(GOAL_RADIUS + BALL_RADIUS, ORBIT_RADIUS);
    }
  }

  /**
   * A goal takes one life from a player who has any and none from one who
   * has none, so lives never drop below zero; nothing else about the player
   * changes.
   */
  lemma GoalCostsALife(b: BallState, player: PlayerState, goalX: real, goalY: real, random: real, m: Env)
    requires SqrtSound(m)
    ensures var r := GoalCollision(b, player, goalX, goalY, random, m);
      && r.player == player.(lives := r.player.lives)
      && (r.scored && player.lives > 0 ==> r.player.lives == player.lives - 1)
      && (r.scored && player.lives <= 0 ==> r.player.lives == player.lives)
      && (player.lives >= 0 ==> r.player.lives >= 0)
  {
  }

  /** After a goal the ball restarts at the centre of the arena at `BALL_BASE_SPEED`. */
  lemma GoalRelaunchesBall(b: BallState, player: PlayerState, goalX: real, goalY: real, random: real, m: Env)
    requires SqrtSound(m) && TrigSound(m)
    requires GoalCollision(b, player, goalX, goalY, random, m).scored
    ensures var r := GoalCollision(b, player, goalX, goalY, random, m).ball;
      r.x == 0.0 && r.y == 0.0 && NormSq(r.vx, r.vy) == Sq(BALL_BASE_SPEED)
  {
    RelaunchSpeed(random, m);
  }

  /** Every relaunch direction gets the same speed, `BALL_BASE_SPEED`. */
  lemma RelaunchSpeed(random: real, m: Env)
    requires TrigSound(m)
    ensures NormSq(Relaunch(random, m).x, Relaunch(random, m).y) == Sq(BALL_BASE_SPEED)
  {
    var angle := random * m.pi * 2.0;
    var c := m.cos(angle);
    var s := m.sin(angle);
    assert Sq(c) + Sq(s) == 1.0;
    ScaleNormSq(c, s, BALL_BASE_SPEED);
  }
}
