/** The plain records the shared game logic passes around (shared/src/types.ts). */
module Types {
  import opened RealMath

  datatype Vec2 = Vec2(x: real, y: real)

  /** One side of the polygonal arena, with its outward unit normal and its direction angle. */
  datatype Edge = Edge(start: Vec2, end: Vec2, midpoint: Vec2, normal: Vec2, angle: real, length: real)

  /** A ball's position and velocity (the `{x, y, vx, vy}` object of the simulations). */
  datatype BallState = BallState(x: real, y: real, vx: real, vy: real)

  function Dot(a: Vec2, b: Vec2): real {
    a.x * b.x + a.y * b.y
  }

  function Sub(a: Vec2, b: Vec2): Vec2 {
    Vec2(a.x - b.x, a.y - b.y)
  }

  predicate IsUnit(v: Vec2) {
    NormSq(v.x, v.y) == 1.0
  }

  /** The ball moved by one tick of its own velocity. */
  function Advance(b: BallState): BallState {
    BallState(b.x + b.vx, b.y + b.vy, b.vx, b.vy)
  }
}
