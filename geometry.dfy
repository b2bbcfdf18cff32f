/**
 * The regular-polygon arena of classic mode (shared/src/geometry.ts): which
 * side each player defends, the polygon's corners and its sides.
 */
module Geometry {
  import opened RealMath
  import opened Types

  datatype ArenaConfig = ArenaConfig(numSides: nat, edgeAssignments: seq<nat>)

  /**
   * Players defend distinct sides of the polygon, one side each; two players
   * get a square and defend opposite sides of it.
   */
  function GetArenaConfig(playerCount: nat): (c: ArenaConfig)
    ensures |c.edgeAssignments| == playerCount
    ensures forall k :: 0 <= k < playerCount ==> c.edgeAssignments[k] < c.numSides
    ensures forall j, k :: 0 <= j < k < playerCount ==> c.edgeAssignments[j] != c.edgeAssignments[k]
    ensures playerCount == 2 ==> c.numSides == 4 && c.edgeAssignments[1] == (c.edgeAssignments[0] + 2) % 4
    ensures playerCount != 2 ==> c.numSides == playerCount
  {
    if playerCount == 2 then ArenaConfig(4, [0, 2])
    else ArenaConfig(playerCount, seq(playerCount, i => i))
  }

  /** Two players get sides 0 and 2 of a square; otherwise player `k` gets side `k`. */
  lemma ArenaConfigValues(playerCount: nat)
    ensures playerCount == 2 ==> GetArenaConfig(playerCount) == ArenaConfig(4, [0, 2])
    ensures playerCount != 2 ==> GetArenaConfig(playerCount).numSides == playerCount
    ensures playerCount != 2 ==>
      forall k :: 0 <= k < playerCount ==> GetArenaConfig(playerCount).edgeAssignments[k] == k
  {
  }

  /** The angle of corner `i`: corners start at the top and go round in equal steps. */
  function VertexAngle(i: nat, numSides: nat, pi: real): real
    requires numSides > 0
  {
    (2.0 * pi * i as real) / numSides as real - pi / 2.0
  }

  function Vertex(i: nat, numSides: nat, radius: real, m: Env): Vec2
    requires numSides > 0
  {
    Vec2(radius * m.cos(VertexAngle(i, numSides, m.pi)), radius * m.sin(VertexAngle(i, numSides, m.pi)))
  }

  /** The corners of the regular polygon; neighbouring corners never coincide. */
  function ComputeVertices(numSides: nat, radius: real, m: Env): (vs: seq<Vec2>)
    ensures |vs| == numSides
    ensures forall i :: 0 <= i < numSides ==> vs[i] == Vertex(i, numSides, radius, m)
    ensures PiSound(m) && CircleSound(m) && numSides >= 2 && radius != 0.0 ==>
      forall i, j :: 0 <= i < numSides && j == (i + 1) % numSides ==> vs[i] != vs[j]
  {
    var vs := seq(numSides, i requires 0 <= i < numSides => Vertex(i, numSides, radius, m));
    AllNeighbourVerticesDiffer(numSides, radius, m);
    vs
  }

  lemma AllNeighbourVerticesDiffer(n: nat, radius: real, m: Env)
    ensures PiSound(m) && CircleSound(m) && n >= 2 && radius != 0.0 ==>
      forall i, j :: 0 <= i < n && j == (i + 1) % n ==> Vertex(i, n, radius, m) != Vertex(j, n, radius, m)
  {
    if PiSound(m) && CircleSound(m) && n >= 2 && radius != 0.0 {
      forall i, j | 0 <= i < n && j == (i + 1) % n
        ensures Vertex(i, n, radius, m) != Vertex(j, n, radius, m)
      {
        NeighbourVerticesDiffer(n, radius, m, i);
      }
    }
  }

  lemma AngleStep(i: nat, j: nat, n: nat, pi: real)
    requires n > 0 && pi > 0.0 && i < j < n + i
    ensures VertexAngle(i, n, pi) < VertexAngle(j, n, pi) < VertexAngle(i, n, pi) + 2.0 * pi
  {
    var q := (j - i) as real / n as real;
    assert 0.0 < q < 1.0;
    assert (2.0 * pi * j as real) / n as real == (2.0 * pi * i as real) / n as real + 2.0 * pi * q;
    assert 0.0 < 2.0 * pi * q < 2.0 * pi;
  }

  lemma NextIndex(i: nat, n: nat)
    requires i < n
    ensures (i + 1) % n == if i + 1 == n then 0 else i + 1
  {
  }

  lemma NeighbourVerticesDiffer(n: nat, radius: real, m: Env, i: nat)
    requires PiSound(m) && CircleSound(m) && n >= 2 && radius != 0.0 && i < n
    ensures Vertex(i, n, radius, m) != Vertex((i + 1) % n, n, radius, m)
  {
    NextIndex(i, n);
    if i + 1 < n {
      AngleStep(i, i + 1, n, m.pi);
      VerticesDiffer(i, i + 1, n, radius, m);
    } else {
      AngleStep(0, i, n, m.pi);
      VerticesDiffer(0, i, n, radius, m);
    }
  }

  lemma VerticesDiffer(i: nat, j: nat, n: nat, radius: real, m: Env)
    requires PiSound(m) && CircleSound(m) && radius != 0.0 && n > 0
    requires VertexAngle(i, n, m.pi) < VertexAngle(j, n, m.pi) < VertexAngle(i, n, m.pi) + 2.0 * m.pi
    ensures Vertex(i, n, radius, m) != Vertex(j, n, radius, m)
    ensures Vertex(j, n, radius, m) != Vertex(i, n, radius, m)
  {
    CirclePointsDiffer(m, VertexAngle(i, n, m.pi), VertexAngle(j, n, m.pi), radius);
  }

  /** Points of a circle of non-zero radius less than a full turn apart are different. */
  lemma CirclePointsDiffer(m: Env, a: real, b: real, radius: real)
    requires CircleSound(m) && radius != 0.0 && a < b < a + 2.0 * m.pi
    ensures Vec2(radius * m.cos(a), radius * m.sin(a)) != Vec2(radius * m.cos(b), radius * m.sin(b))
  {
    assert m.cos(a) != m.cos(b) || m.sin(a) != m.sin(b);
    if m.cos(a) != m.cos(b) {
      ScaleInjective(radius, m.cos(a), m.cos(b));
    } else {
      ScaleInjective(radius, m.sin(a), m.sin(b));
    }
  }

  lemma ScaleInjective(r: real, x: real, y: real)
    requires r != 0.0 && x != y
    ensures r * x != r * y
  {
    assert (r * x) / r == x && (r * y) / r == y;
  }

  /**
   * The side from `start` to `end`: midpoint, outward normal (the direction
   * rotated a quarter turn clockwise, over the length), direction angle and
   * length.
   */
  function MakeEdge(start: Vec2, end: Vec2, m: Env): (e: Edge)
    requires SqrtSound(m) && start != end
    ensures e.start == start && e.end == end
    ensures e.length > 0.0 && Sq(e.length) == NormSq(end.x - start.x, end.y - start.y)
    ensures IsUnit(e.normal)
    ensures Dot(e.normal, Sub(end, start)) == 0.0
    ensures e.midpoint.x - start.x == end.x - e.midpoint.x && e.midpoint.y - start.y == end.y - e.midpoint.y
  {
    var dx := end.x - start.x;
    var dy := end.y - start.y;
    var len := Hypot(m, dx, dy);
    HypotFacts(m, dx, dy);
    UnitAfterScaling(dy, -dx, len);
    Edge(start, end, Vec2((start.x + end.x) / 2.0, (start.y + end.y) / 2.0),
         Vec2(dy / len, -dx / len), m.atan2(dy, dx), len)
  }

  /** Consecutive sides share a corner, so the sides close up into a polygon. */
  predicate IsClosedPolygon(edges: seq<Edge>) {
    forall i :: 0 <= i < |edges| ==> edges[i].end == edges[(i + 1) % |edges|].start
  }

  /** The sides of the polygon, side `i` running from corner `i` to corner `i + 1`. */
  method ComputeEdges(numSides: nat, radius: real, m: Env) returns (edges: seq<Edge>)
    requires SqrtSound(m) && PiSound(m) && CircleSound(m) && numSides != 1 && radius != 0.0
    ensures |edges| == numSides
    ensures var vs := ComputeVertices(numSides, radius, m);
      forall i :: 0 <= i < numSides ==> edges[i] == MakeEdge(vs[i], vs[(i + 1) % numSides], m)
    ensures IsClosedPolygon(edges)
    ensures forall i :: 0 <= i < numSides ==> IsUnit(edges[i].normal) && edges[i].length > 0.0
  {
    var vertices := ComputeVertices(numSides, radius, m);
    edges := [];
    for i := 0 to numSides
      invariant |edges| == i
      invariant forall k :: 0 <= k < i ==> edges[k] == MakeEdge(vertices[k], vertices[(k + 1) % numSides], m)
    {
      var start := vertices[i];
      var end := vertices[(i + 1) % numSides];
      edges := edges + [MakeEdge(start, end, m)];
    }
  }
}
