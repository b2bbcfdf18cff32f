/**
 * The local game's paddle (client/src/game/Paddle.ts): a fraction
 * `positionT` along its side, the last step it took (`velocityT`), and the
 * drawing container's position and rotation, which follow the side.
 * Drawing itself is not modelled; `Math.cos` and `Math.sin` come from `m`.
 */
module ClientPaddle {
  import opened RealMath
  import opened Wrappers
  import opened Types
  import opened Physics
  import opened PaddleTrack

  /** `PADDLE_WIDTH_RATIO`, the default width as a fraction of the side. */
  const PADDLE_WIDTH_RATIO: real := 0.35

  /** The velocity of a paddle moving `velocityT` of a side per tick, along the side's angle. */
  function Tangent(velocityT: real, edge: Edge, m: Env): Vec2 {
    var speed := velocityT * edge.length;
    Vec2(m.cos(edge.angle) * speed, m.sin(edge.angle) * speed)
  }

  /** The tangent's length is the paddle's speed along the side. */
  lemma TangentSpeed(velocityT: real, edge: Edge, m: Env)
    ensures var t := Tangent(velocityT, edge, m); TrigSound(m) ==> NormSq(t.x, t.y) == Sq(velocityT * edge.length)
  {
    if TrigSound(m) {
      var c := m.cos(edge.angle);
      var s := m.sin(edge.angle);
      assert Sq(c) + Sq(s) == 1.0;
      ScaleNormSq(c, s, velocityT * edge.length);
    }
  }

  /** A paddle of `widthRatio` of a side spans that fraction of the side's length. */
  lemma SpanOfPaddle(edge: Edge, widthRatio: real, m: Env)
    ensures var halfLen := (edge.length * widthRatio) / 2.0;
      var cos := m.cos(edge.angle);
      var sin := m.sin(edge.angle);
      TrigSound(m) ==> NormSq(2.0 * (cos * halfLen), 2.0 * (sin * halfLen)) == Sq(edge.length * widthRatio)
  {
    if TrigSound(m) {
      var halfLen := (edge.length * widthRatio) / 2.0;
      PaddleLength(m.cos(edge.angle), m.sin(edge.angle), halfLen);
    }
  }

  class Paddle {
    var positionT: real
    var velocityT: real
    var edgeIndex: nat
    var colorIndex: nat
    var widthRatio: real
    /** `undefined` until `setEdge`. */
    var edge: Option<Edge>
    /** The container's `x`, `y` and `rotation`. */
    var x: real
    var y: real
    var rotation: real

    /** The container sits at the paddle's point of its side, turned to the side's angle. */
    ghost predicate Placed()
      reads this
    {
      edge.Some? ==> Vec2(x, y) == PointAlong(edge.value, positionT) && rotation == edge.value.angle
    }

    constructor(edgeIndex: nat, colorIndex: nat, widthRatio: real)
      ensures positionT == 0.5 && velocityT == 0.0 && edge.None? && Placed()
      ensures this.edgeIndex == edgeIndex && this.colorIndex == colorIndex && this.widthRatio == widthRatio
      ensures x == 0.0 && y == 0.0 && rotation == 0.0
    {
      positionT := 0.5;
      velocityT := 0.0;
      this.edgeIndex := edgeIndex;
      this.colorIndex := colorIndex;
      this.widthRatio := widthRatio;
      edge := None;
      x := 0.0;
      y := 0.0;
      rotation := 0.0;
    }

    /** `setEdge`: the side is stored and the paddle placed on it. */
    method SetEdge(e: Edge)
      modifies this
      ensures edge == Some(e) && Placed()
      ensures positionT == old(positionT) && velocityT == old(velocityT) && widthRatio == old(widthRatio)
      ensures edgeIndex == old(edgeIndex) && colorIndex == old(colorIndex)
    {
      edge := Some(e);
      UpdatePosition();
    }

    /**
     * `move`: a step along the side, clamped so the paddle stays on it;
     * `velocityT` is the step actually taken, 0 when pinned at an end.
     */
    method Move(delta: real)
      modifies this
      ensures positionT == Slide(old(positionT), delta, widthRatio)
      ensures velocityT == positionT - old(positionT)
      ensures widthRatio <= 1.0 ==> widthRatio / 2.0 <= positionT <= 1.0 - widthRatio / 2.0
      ensures widthRatio / 2.0 <= old(positionT) + delta <= 1.0 - widthRatio / 2.0 ==> velocityT == delta
      ensures widthRatio <= 1.0 && old(positionT) == 1.0 - widthRatio / 2.0 && delta >= 0.0 ==> velocityT == 0.0
      ensures widthRatio <= 1.0 && old(positionT) == widthRatio / 2.0 && delta <= 0.0 ==> velocityT == 0.0
      ensures Placed() && edge == old(edge) && widthRatio == old(widthRatio)
      ensures edgeIndex == old(edgeIndex) && colorIndex == old(colorIndex)
    {
      var prev := positionT;
      var halfWidth := widthRatio / 2.0;
      positionT := Max(halfWidth, Min(1.0 - halfWidth, positionT + delta));
      velocityT := positionT - prev;
      SlideFacts(prev, delta, widthRatio);
      UpdatePosition();
    }

    /** `updatePosition`: without a side nothing moves; otherwise the container follows the paddle. */
    method UpdatePosition()
      modifies this
      ensures Placed()
      ensures edge.None? ==> x == old(x) && y == old(y) && rotation == old(rotation)
      ensures positionT == old(positionT) && velocityT == old(velocityT) && edge == old(edge) && widthRatio == old(widthRatio)
      ensures edgeIndex == old(edgeIndex) && colorIndex == old(colorIndex)
    {
      if edge.None? {
        return;
      }
      var e := edge.value;
      var cx := e.start.x + (e.end.x - e.start.x) * positionT;
      var cy := e.start.y + (e.end.y - e.start.y) * positionT;
      x := cx;
      y := cy;
      rotation := e.angle;
    }

    /** `getTangentVelocity`: (0, 0) without a side; otherwise the paddle's last step as a velocity along the side. */
    function TangentVelocity(m: Env): (t: Vec2)
      reads this
      ensures edge.None? ==> t == Vec2(0.0, 0.0)
      ensures edge.Some? ==> t == Tangent(velocityT, edge.value, m)
      ensures edge.Some? && TrigSound(m) ==> NormSq(t.x, t.y) == Sq(velocityT * edge.value.length)
    {
      if edge.None? then Vec2(0.0, 0.0)
      else
        TangentSpeed(velocityT, edge.value, m);
        Tangent(velocityT, edge.value, m)
    }

    /**
     * `getPaddleEndpoints`: the two ends, half the paddle's length either
     * side of the container along the side's angle.  (Without a side the
     * source reads `undefined.length` and throws.)
     */
    function PaddleEndpoints(m: Env): (s: Segment)
      requires edge.Some?
      reads this
      ensures s.start.x + s.end.x == 2.0 * x && s.start.y + s.end.y == 2.0 * y
      ensures TrigSound(m) ==> NormSq(s.end.x - s.start.x, s.end.y - s.start.y) == Sq(edge.value.length * widthRatio)
      ensures TrigSound(m) && Placed() ==> s == GetPaddleEndpoints(positionT, edge.value, widthRatio, m)
    {
      var halfLen := (edge.value.length * widthRatio) / 2.0;
      var cos := m.cos(edge.value.angle);
      var sin := m.sin(edge.value.angle);
      SpanOfPaddle(edge.value, widthRatio, m);
      Segment(Vec2(x - cos * halfLen, y - sin * halfLen), Vec2(x + cos * halfLen, y + sin * halfLen))
    }
  }
}
