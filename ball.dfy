/**
 * The client's ball (client/src/game/Ball.ts): a position, the constant
 * radius `BALL_RADIUS`, and a velocity object that `reflect` and `addSpin`
 * change in place while `launch` replaces it with a new one.  Drawing is
 * not modelled; `Math.sqrt` comes from `m`.
 */
module ClientBall {
  import opened RealMath
  import opened Types
  import opened Constants
  import opened Physics
  import opened VectorObject
  import BaseRoom

  /** `addSpin`'s default share of the paddle's tangent velocity. */
  const SPIN_INFLUENCE: real := 0.6

  class Ball {
    var x: real
    var y: real
    const radius: real
    var velocity: Vector

    constructor()
      ensures x == 0.0 && y == 0.0 && radius == BALL_RADIUS
      ensures fresh(velocity) && velocity.Value() == Vec2(0.0, 0.0)
    {
      x := 0.0;
      y := 0.0;
      radius := BALL_RADIUS;
      velocity := new Vector(0.0, 0.0);
    }

    /** `update`: one tick of motion; the velocity is untouched. */
    method Update()
      modifies this
      ensures x == old(x) + velocity.x && y == old(y) + velocity.y
      ensures velocity == old(velocity)
    {
      x := x + velocity.x;
      y := y + velocity.y;
    }

    /**
     * `reflect`: the velocity object is mirrored in the line with normal
     * `normal` and sped up by 2%.  For a unit normal, the component along
     * the normal is reversed, the one along the line kept, both times 1.02,
     * and the speed grows by exactly that factor.
     */
    method Reflect(normal: Vec2)
      modifies velocity
      ensures velocity.Value() == ReflectVelocity(old(velocity.x), old(velocity.y), normal, DEFAULT_SPEED_UP)
      ensures IsUnit(normal) ==> Dot(velocity.Value(), normal) == -DEFAULT_SPEED_UP * Dot(old(velocity.Value()), normal)
      ensures Dot(velocity.Value(), Vec2(-normal.y, normal.x)) == DEFAULT_SPEED_UP * Dot(old(velocity.Value()), Vec2(-normal.y, normal.x))
      ensures IsUnit(normal) ==> NormSq(velocity.x, velocity.y) == Sq(DEFAULT_SPEED_UP) * NormSq(old(velocity.x), old(velocity.y))
    {
      var vx := velocity.x;
      var vy := velocity.y;
      var r := ReflectVelocity(vx, vy, normal, DEFAULT_SPEED_UP);
      velocity.x := r.x;
      velocity.y := r.y;
      assert velocity.Value() == r;
      ReflectKeepsTangent(vx, vy, normal, DEFAULT_SPEED_UP);
      if IsUnit(normal) {
        ReflectReversesNormal(vx, vy, normal, DEFAULT_SPEED_UP);
        ReflectScalesSpeed(vx, vy, normal, DEFAULT_SPEED_UP);
      }
    }

    /** `addSpin`: `influence` times the paddle's tangent velocity is added to the ball's (0.6 when not given). */
    method AddSpin(tangentVelocity: Vec2, influence: real)
      modifies velocity
      ensures velocity.x == old(velocity.x) + tangentVelocity.x * influence
      ensures velocity.y == old(velocity.y) + tangentVelocity.y * influence
    {
      velocity.x := velocity.x + tangentVelocity.x * influence;
      velocity.y := velocity.y + tangentVelocity.y * influence;
    }

    /**
     * `launch`: back to the centre with a new velocity object of speed
     * `BALL_SPEED` pointing at `target` (`BaseRoom.AimAtFacts`); a target
     * at the centre itself (distance 0, replaced by 1) gives a ball at rest.
     */
    method Launch(target: Vec2, m: Env)
      modifies this
      ensures x == 0.0 && y == 0.0 && fresh(velocity)
      ensures velocity.Value() == BaseRoom.AimAt(target, m)
      ensures target == Vec2(0.0, 0.0) ==> velocity.Value() == Vec2(0.0, 0.0)
    {
      var v := BaseRoom.AimAt(target, m);
      x := 0.0;
      y := 0.0;
      velocity := new Vector(v.x, v.y);
    }
  }
}
