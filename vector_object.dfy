/**
 * A mutable `{ x, y }` object (the `Vector2` shape of shared/src/types.ts as
 * the client classes hold it): the ball's velocity, which `reflect` and
 * `addSpin` change in place, and the tangent-velocity object a classic
 * paddle hands out and overwrites on every call.
 */
module VectorObject {
  import opened Types

  class Vector {
    var x: real
    var y: real

    constructor(x: real, y: real)
      ensures this.x == x && this.y == y
    {
      this.x := x;
      this.y := y;
    }

    /** The object's current value. */
    function Value(): Vec2
      reads this
    {
      Vec2(x, y)
    }
  }
}
