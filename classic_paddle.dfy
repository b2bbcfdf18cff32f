/**
 * The classic-mode client paddle (client/src/game/classic/ClassicPaddle.ts):
 * the local paddle moves by key steps clamped to its side, a remote one
 * eases towards the position the server last sent (`syncPosition`, then
 * `interpolate` every frame).  The tangent velocity is one object that
 * every call of `getTangentVelocity` overwrites and hands out again.
 * Drawing is not modelled; `Math.cos` and `Math.sin` come from `m`.
 */
module ClientClassicPaddle {
  import opened RealMath
  import opened Wrappers
  import opened Types
  import opened Constants
  import opened Physics
  import opened PaddleTrack
  import opened VectorObject
  import ClientPaddle

  /** One `interpolate`: half of the way from `p` to the server's `s`. */
  function Halfway(p: real, s: real): real {
    p + (s - p) * 0.5
  }

  /** The position after `n` frames of `interpolate` towards `s`. */
  function Interpolated(p: real, s: real, n: nat): real {
    if n == 0 then p else Halfway(Interpolated(p, s, n - 1), s)
  }

  function Pow2(n: nat): (r: real)
    ensures r >= 1.0
  {
    if n == 0 then 1.0 else 2.0 * Pow2(n - 1)
  }

  /**
   * After `n` frames the gap to the server position is the first gap over
   * `2^n`, so the paddle closes in without overshooting, and a paddle
   * already at the server position stays there.
   */
  lemma {:induction false} InterpolationHalvesGap(p: real, s: real, n: nat)
    ensures s - Interpolated(p, s, n) == (s - p) / Pow2(n)
    ensures p <= s ==> p <= Interpolated(p, s, n) <= s
    ensures s <= p ==> s <= Interpolated(p, s, n) <= p
  {
    if n > 0 {
      InterpolationHalvesGap(p, s, n - 1);
      var q := Interpolated(p, s, n - 1);
      var d := Pow2(n - 1);
      assert s - Halfway(q, s) == (s - q) * 0.5;
      assert (s - p) / d * 0.5 == (s - p) / (2.0 * d);
    }
  }

  class ClassicPaddle {
    var positionT: real
    var velocityT: real
    var edgeIndex: nat
    var colorIndex: nat
    var widthRatio: real
    /** `undefined` until `setEdge`. */
    var edge: Option<Edge>
    /** The reused `{ x, y }` that `getTangentVelocity` returns. */
    const tangentVelocity: Vector
    var serverPositionT: real
    /** The container's `x`, `y` and `rotation`. */
    var x: real
    var y: real
    var rotation: real

    /** The container sits at the paddle's point of its side, turned to the side's angle. */
    ghost predicate Placed()
      reads this
    {
      edge.Some? ==> Vec2(x, y) == PointAlong(edge.value, positionT) && rotation == edge.value.angle
    }

    constructor(edgeIndex: nat, colorIndex: nat, widthRatio: real := CLASSIC_PADDLE_WIDTH_RATIO)
      ensures positionT == 0.5 && velocityT == 0.0 && serverPositionT == 0.5 && edge.None? && Placed()
      ensures this.edgeIndex == edgeIndex && this.colorIndex == colorIndex && this.widthRatio == widthRatio
      ensures fresh(tangentVelocity) && tangentVelocity.Value() == Vec2(0.0, 0.0)
      ensures x == 0.0 && y == 0.0 && rotation == 0.0
    {
      positionT := 0.5;
      velocityT := 0.0;
      this.edgeIndex := edgeIndex;
      this.colorIndex := colorIndex;
      this.widthRatio := widthRatio;
      edge := None;
      tangentVelocity := new Vector(0.0, 0.0);
      serverPositionT := 0.5;
      x := 0.0;
      y := 0.0;
      rotation := 0.0;
    }

    /** `setEdge`: the side is stored and the paddle placed on it. */
    method SetEdge(e: Edge)
      modifies this
      ensures edge == Some(e) && Placed()
      ensures positionT == old(positionT) && velocityT == old(velocityT) && serverPositionT == old(serverPositionT)
      ensures widthRatio == old(widthRatio) && edgeIndex == old(edgeIndex) && colorIndex == old(colorIndex)
    {
      edge := Some(e);
      UpdatePosition();
    }

    /**
     * `move`: a step along the side, clamped so the paddle stays on it;
     * `velocityT` is the step actually taken, 0 when pinned at an end.
     */
    method Move(delta: real)
      modifies this
      ensures positionT == Slide(old(positionT), delta, widthRatio)
      ensures velocityT == positionT - old(positionT)
      ensures widthRatio <= 1.0 ==> widthRatio / 2.0 <= positionT <= 1.0 - widthRatio / 2.0
      ensures widthRatio / 2.0 <= old(positionT) + delta <= 1.0 - widthRatio / 2.0 ==> velocityT == delta
      ensures widthRatio <= 1.0 && old(positionT) == 1.0 - widthRatio / 2.0 && delta >= 0.0 ==> velocityT == 0.0
      ensures widthRatio <= 1.0 && old(positionT) == widthRatio / 2.0 && delta <= 0.0 ==> velocityT == 0.0
      ensures Placed() && edge == old(edge) && widthRatio == old(widthRatio) && serverPositionT == old(serverPositionT)
      ensures edgeIndex == old(edgeIndex) && colorIndex == old(colorIndex)
    {
      var prev := positionT;
      var halfWidth := widthRatio / 2.0;
      positionT := Max(halfWidth, Min(1.0 - halfWidth, positionT + delta));
      velocityT := positionT - prev;
      SlideFacts(prev, delta, widthRatio);
      UpdatePosition();
    }

    /** `updatePosition`: without a side nothing moves; otherwise the container follows the paddle. */
    method UpdatePosition()
      modifies this
      ensures Placed()
      ensures edge.None? ==> x == old(x) && y == old(y) && rotation == old(rotation)
      ensures positionT == old(positionT) && velocityT == old(velocityT) && serverPositionT == old(serverPositionT)
      ensures edge == old(edge) && widthRatio == old(widthRatio) && edgeIndex == old(edgeIndex) && colorIndex == old(colorIndex)
    {
      if edge.None? {
        return;
      }
      var e := edge.value;
      var cx := e.start.x + (e.end.x - e.start.x) * positionT;
      var cy := e.start.y + (e.end.y - e.start.y) * positionT;
      x := cx;
      y := cy;
      rotation := e.angle;
    }

    /**
     * `getTangentVelocity`: overwrites the shared object with (0, 0) without
     * a side, or with the last step as a velocity along the side, and
     * returns that same object.
     */
    method GetTangentVelocity(m: Env) returns (t: Vector)
      modifies tangentVelocity
      ensures t == tangentVelocity
      ensures edge.None? ==> t.Value() == Vec2(0.0, 0.0)
      ensures edge.Some? ==> t.Value() == ClientPaddle.Tangent(velocityT, edge.value, m)
      ensures edge.Some? && TrigSound(m) ==> NormSq(t.x, t.y) == Sq(velocityT * edge.value.length)
    {
      if edge.None? {
        tangentVelocity.x := 0.0;
        tangentVelocity.y := 0.0;
        return tangentVelocity;
      }
      var speed := velocityT * edge.value.length;
      tangentVelocity.x := m.cos(edge.value.angle) * speed;
      tangentVelocity.y := m.sin(edge.value.angle) * speed;
      ClientPaddle.TangentSpeed(velocityT, edge.value, m);
      return tangentVelocity;
    }

    /**
     * `getEndpoints`: the shared paddle ends for this paddle's position,
     * side and width.  (Without a side the source reads `undefined` and
     * throws.)
     */
    function Endpoints(m: Env): (s: Segment)
      requires edge.Some? && TrigSound(m)
      reads this
      ensures var c := PointAlong(edge.value, positionT);
        c.x - s.start.x == s.end.x - c.x && c.y - s.start.y == s.end.y - c.y
      ensures NormSq(s.end.x - s.start.x, s.end.y - s.start.y) == Sq(edge.value.length * widthRatio)
      ensures Placed() ==> s.start.x + s.end.x == 2.0 * x && s.start.y + s.end.y == 2.0 * y
    {
      GetPaddleEndpoints(positionT, edge.value, widthRatio, m)
    }

    /** `syncPosition`: only the server's position is recorded; the paddle does not move. */
    method SyncPosition(serverPosition: real)
      modifies this
      ensures serverPositionT == serverPosition
      ensures positionT == old(positionT) && velocityT == old(velocityT) && edge == old(edge) && widthRatio == old(widthRatio)
      ensures x == old(x) && y == old(y) && rotation == old(rotation)
      ensures edgeIndex == old(edgeIndex) && colorIndex == old(colorIndex)
    {
      serverPositionT := serverPosition;
    }

    /** `interpolate`: half of the remaining gap to the server's position is closed; at the target the paddle stays. */
    method Interpolate()
      modifies this
      ensures positionT == Halfway(old(positionT), serverPositionT)
      ensures serverPositionT - positionT == (serverPositionT - old(positionT)) / 2.0
      ensures old(positionT) == serverPositionT ==> positionT == old(positionT)
      ensures Placed() && serverPositionT == old(serverPositionT) && velocityT == old(velocityT)
      ensures edge == old(edge) && widthRatio == old(widthRatio) && edgeIndex == old(edgeIndex) && colorIndex == old(colorIndex)
    {
      positionT := positionT + (serverPositionT - positionT) * 0.5;
      UpdatePosition();
    }
  }
}
