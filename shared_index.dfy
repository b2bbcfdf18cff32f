/**
 * The older all-in-one shared package (shared/src/index.ts): vector helpers
 * at the top level, then the `mmorpong` namespace (constants and records of
 * the goal-ring server) and the `myrto` namespace (the classic polygon
 * arena).  Where a helper there is textually the same as one in
 * shared/src/physics.ts, shared/src/geometry.ts or
 * shared/src/goals-physics.ts, the model uses that one; what differs is
 * modelled here.
 */
module SharedIndex {
  import opened RealMath
  import opened Types
  import GoalsPhysics

  /**
   * `reflect`: unlike the goals-mode helper, it divides the normal by its
   * length itself before mirroring the velocity in it, so it mirrors in the
   * unit normal along `normal`.
   */
  function Reflect(vel: Vec2, normal: Vec2, m: Env): (r: Vec2)
    requires SqrtSound(m) && normal != Vec2(0.0, 0.0)
    ensures r == GoalsPhysics.Reflect(vel, GoalsPhysics.Normalize(normal, m))
  {
    var len := Hypot(m, normal.x, normal.y);
    HypotPositive(normal, m);
    NormalizeBy(normal, len, m);
    GoalsPhysics.Reflect(vel, Vec2(normal.x / len, normal.y / len))
  }

  /**
   * Whatever the length of the normal, the reflection keeps the speed and
   * reverses the velocity's component along the normal.
   */
  lemma ReflectMirrorsAnyNormal(vel: Vec2, normal: Vec2, m: Env)
    requires SqrtSound(m) && normal != Vec2(0.0, 0.0)
    ensures Dot(Reflect(vel, normal, m), normal) == -Dot(vel, normal)
    ensures NormSq(Reflect(vel, normal, m).x, Reflect(vel, normal, m).y) == NormSq(vel.x, vel.y)
  {
    var u := GoalsPhysics.Normalize(normal, m);
    var r := Reflect(vel, normal, m);
    var len := Hypot(m, normal.x, normal.y);
    assert IsUnit(u) && Vec2(u.x * len, u.y * len) == normal by {
      GoalsPhysics.NormalizeUnit(normal, m);
    }
    assert Dot(r, u) == -Dot(vel, u) && NormSq(r.x, r.y) == NormSq(vel.x, vel.y) by {
      GoalsPhysics.ReflectMirrors(vel, u);
    }
    ReversedAlongMultiple(r, vel, u, len);
  }

  lemma ReversedAlongMultiple(r: Vec2, vel: Vec2, u: Vec2, len: real)
    requires Dot(r, u) == -Dot(vel, u)
    ensures Dot(r, Vec2(u.x * len, u.y * len)) == -Dot(vel, Vec2(u.x * len, u.y * len))
  {
    DotAlongScaled(r, u, len);
    DotAlongScaled(vel, u, len);
  }

  /** A dot product with `len` times `u` is `len` times the dot product with `u`. */
  lemma DotAlongScaled(v: Vec2, u: Vec2, len: real)
    ensures Dot(v, Vec2(u.x * len, u.y * len)) == len * Dot(v, u)
  {
    assert v.x * (u.x * len) + v.y * (u.y * len) == len * (v.x * u.x + v.y * u.y);
  }

  /** Scaling the normal by a positive factor does not change the reflection. */
  lemma ReflectScaleInvariant(vel: Vec2, normal: Vec2, c: real, m: Env)
    requires SqrtSound(m) && normal != Vec2(0.0, 0.0) && c > 0.0
    ensures Vec2(normal.x * c, normal.y * c) != Vec2(0.0, 0.0)
    ensures Reflect(vel, Vec2(normal.x * c, normal.y * c), m) == Reflect(vel, normal, m)
  {
    NormalizeScaleInvariant(normal, c, m);
  }

  /** Normalising is blind to a positive scale factor. */
  lemma NormalizeScaleInvariant(v: Vec2, c: real, m: Env)
    requires SqrtSound(m) && v != Vec2(0.0, 0.0) && c > 0.0
    ensures Vec2(v.x * c, v.y * c) != Vec2(0.0, 0.0)
    ensures GoalsPhysics.Normalize(Vec2(v.x * c, v.y * c), m) == GoalsPhysics.Normalize(v, m)
  {
    ScaledVectorNonZero(v, c);
    NormalizeMultiple(v, Vec2(v.x * c, v.y * c), c, m);
  }

  lemma NormalizeMultiple(v: Vec2, w: Vec2, c: real, m: Env)
    requires SqrtSound(m) && v != Vec2(0.0, 0.0) && c > 0.0
    requires w.x == v.x * c && w.y == v.y * c
    ensures GoalsPhysics.Normalize(w, m) == GoalsPhysics.Normalize(v, m)
  {
    var h := Hypot(m, v.x, v.y);
    var H := Hypot(m, w.x, w.y);
    assert H == h * c by { HypotOfMultiple(v, w, c, m); }
    assert h > 0.0 by { HypotPositive(v, m); }
    NormalizeOfMultiple(v, w, c, h, H, m);
  }

  lemma NormalizeOfMultiple(v: Vec2, w: Vec2, c: real, h: real, H: real, m: Env)
    requires Hypot(m, v.x, v.y) == h && Hypot(m, w.x, w.y) == H && H == h * c
    requires h > 0.0 && c > 0.0 && w.x == v.x * c && w.y == v.y * c
    ensures GoalsPhysics.Normalize(w, m) == GoalsPhysics.Normalize(v, m)
  {
    MulPositive(h, c);
    NormalizeBy(v, h, m);
    NormalizeBy(w, H, m);
    QuotientOfMultiples(v.x, w.x, h, H, c);
    QuotientOfMultiples(v.y, w.y, h, H, c);
  }

  lemma HypotOfMultiple(v: Vec2, w: Vec2, c: real, m: Env)
    requires SqrtSound(m) && c > 0.0 && w.x == v.x * c && w.y == v.y * c
    ensures Hypot(m, w.x, w.y) == Hypot(m, v.x, v.y) * c
  {
    HypotScale(m, v.x, v.y, c);
  }

  /** `(a c) / (h c) == a / h` for positive `h` and `c`. */
  lemma QuotientOfMultiples(a: real, A: real, h: real, H: real, c: real)
    requires A == a * c && H == h * c && h > 0.0 && c > 0.0
    ensures A / H == a / h
  {
    DivCommonFactor(a, h, c);
  }

  lemma ScaledVectorNonZero(v: Vec2, c: real)
    requires v != Vec2(0.0, 0.0) && c > 0.0
    ensures Vec2(v.x * c, v.y * c) != Vec2(0.0, 0.0)
  {
    if v.x != 0.0 {
      ScaledNonZero(v.x, c);
    } else {
      ScaledNonZero(v.y, c);
    }
  }

  lemma ScaledNonZero(x: real, c: real)
    requires x != 0.0 && c > 0.0
    ensures x * c != 0.0
  {
    MulDivCancel(x, c);
    DivByPositive(0.0, c);
  }

  /** Normalising divides by the length, once the length is known to be positive. */
  lemma NormalizeBy(v: Vec2, len: real, m: Env)
    requires Hypot(m, v.x, v.y) == len && len > 0.0
    ensures GoalsPhysics.Normalize(v, m) == Vec2(v.x / len, v.y / len)
  {
  }

  lemma HypotPositive(v: Vec2, m: Env)
    requires SqrtSound(m) && v != Vec2(0.0, 0.0)
    ensures Hypot(m, v.x, v.y) > 0.0
  {
    HypotFacts(m, v.x, v.y);
  }

  /** The length of a vector scaled by `c > 0` is `c` times its length. */
  lemma HypotScale(m: Env, x: real, y: real, c: real)
    requires SqrtSound(m) && c > 0.0
    ensures Hypot(m, x * c, y * c) == Hypot(m, x, y) * c
  {
    var h := Hypot(m, x, y);
    var hc := Hypot(m, x * c, y * c);
    HypotFacts(m, x, y);
    HypotFacts(m, x * c, y * c);
    ScaleNormSq(x, y, c);
    ScaleSq(h, c);
    MulNonNeg(h, c);
    SqInjective(hc, h * c);
  }

  lemma SqInjective(a: real, b: real)
    requires a >= 0.0 && b >= 0.0 && Sq(a) == Sq(b)
    ensures a == b
  {
    if a < b {
      SqStrictMono(a, b);
    } else if b < a {
      SqStrictMono(b, a);
    }
  }

  lemma DivCommonFactor(a: real, b: real, c: real)
    requires b > 0.0 && c > 0.0
    ensures (a * c) / (b * c) == a / b
  {
    var q := a / b;
    DivByPositive(a, b);
    assert q * (b * c) == a * c;
    MulPositive(b, c);
    DivByPositive(a * c, b * c);
    var p := (a * c) / (b * c);
    assert p * (b * c) == q * (b * c);
    assert (p - q) * (b * c) == 0.0;
  }
}

/**
 * The `mmorpong` namespace of shared/src/index.ts: the constants of the
 * goal-ring server and the records it exchanges with its clients.
 */
module Mmorpong {
  import opened Wrappers

  const WORLD_SIZE: real := 800.0
  const ARENA_RADIUS: real := WORLD_SIZE * 0.45
  const GOAL_RING_RADIUS: real := ARENA_RADIUS * 0.72
  const GOAL_RADIUS: real := ARENA_RADIUS * 0.05
  const ORBIT_RADIUS: real := ARENA_RADIUS * 0.15
  const BALL_RADIUS: real := WORLD_SIZE * 0.0125
  const BALL_BASE_SPEED: real := WORLD_SIZE * 0.00625 * 60.0
  const BALL_MAX_SPEED: real := WORLD_SIZE * 0.0125 * 60.0
  const PADDLE_ARC: real := 0.5
  const PADDLE_MIN_ARC: real := 0.15
  const ORBIT_SPEED: real := 0.05
  const ORBIT_ACCEL: real := 0.18
  const STARTING_LIVES: int := 5
  /** `MAX_PLAYERS` at the top of the file. */
  const MAX_PLAYERS: nat := 12

  /** A player of the goal ring; `name` is absent until one is set. */
  datatype PlayerState = PlayerState(
    id: string,
    name: Option<string>,
    angle: real,
    goalAngle: real,
    paddleArc: real,
    lives: int,
    score: int,
    connected: bool)

  datatype PlayerInput = PlayerInput(left: bool, right: bool)

  datatype Phase = Lobby | Playing | Gameover

  datatype LobbyEntry = LobbyEntry(id: string, name: string, joined: bool)

  datatype LobbyState = LobbyState(players: seq<LobbyEntry>, hostId: Option<string>)
}

/**
 * The `myrto` namespace of shared/src/index.ts: the classic arena.  Its
 * `getArenaConfig`, `computeVertices`, `getPaddleEndpoints`,
 * `ballNearSegment`, `ballPassedEdge` and `clampSpeed` are the same text as
 * in shared/src/geometry.ts and shared/src/physics.ts and are modelled
 * there; `computeEdges` builds its sides with a comprehension instead of a
 * loop and is modelled here.
 */
module Myrto {
  import opened RealMath
  import opened Types
  import opened Geometry

  const ARENA_RADIUS: real := 350.0
  const BALL_RADIUS: real := 8.0
  const BALL_SPEED: real := 5.0
  const MAX_BALL_SPEED: real := 14.0
  const PADDLE_WIDTH_RATIO: real := 0.35
  const PADDLE_SPEED: real := 0.02
  const DEFAULT_LIVES: int := 3
  const MAX_CLIP_DURATION: real := 1.5

  /**
   * The sides of the polygon: side `i` runs from corner `i` to corner
   * `(i + 1) % numSides`, so the sides close up, and each has a positive
   * length and an outward unit normal.
   */
  function ComputeEdges(numSides: nat, radius: real, m: Env): (edges: seq<Edge>)
    requires SqrtSound(m) && PiSound(m) && CircleSound(m) && numSides != 1 && radius != 0.0
    ensures |edges| == numSides
    ensures var vs := ComputeVertices(numSides, radius, m);
      forall i :: 0 <= i < numSides ==>
        && edges[i].start == vs[i] && edges[i].end == vs[(i + 1) % numSides]
        && edges[i] == MakeEdge(vs[i], vs[(i + 1) % numSides], m)
    ensures IsClosedPolygon(edges)
    ensures forall i :: 0 <= i < numSides ==> IsUnit(edges[i].normal) && edges[i].length > 0.0
  {
    var vs := ComputeVertices(numSides, radius, m);
    var edges := seq(numSides, i requires 0 <= i < numSides => Side(vs, i, m));
    SidesClose(edges, vs);
    edges
  }

  /** Side `i` of the polygon with corners `vs`. */
  function Side(vs: seq<Vec2>, i: nat, m: Env): (e: Edge)
    requires SqrtSound(m) && i < |vs| && vs[i] != vs[(i + 1) % |vs|]
    ensures e.start == vs[i] && e.end == vs[(i + 1) % |vs|]
    ensures IsUnit(e.normal) && e.length > 0.0
    ensures Sq(e.length) == NormSq(e.end.x - e.start.x, e.end.y - e.start.y)
    ensures Dot(e.normal, Sub(e.end, e.start)) == 0.0
    ensures e.midpoint.x - e.start.x == e.end.x - e.midpoint.x && e.midpoint.y - e.start.y == e.end.y - e.midpoint.y
    ensures e.angle == m.atan2(e.end.y - e.start.y, e.end.x - e.start.x)
  {
    MakeEdge(vs[i], vs[(i + 1) % |vs|], m)
  }

  lemma SidesClose(edges: seq<Edge>, vs: seq<Vec2>)
    requires |edges| == |vs|
    requires forall i :: 0 <= i < |vs| ==> edges[i].start == vs[i] && edges[i].end == vs[(i + 1) % |vs|]
    ensures IsClosedPolygon(edges)
  {
    forall i | 0 <= i < |edges|
      ensures edges[i].end == edges[(i + 1) % |edges|].start
    {
      NextIndex(i, |edges|);
    }
  }
}
