/**
 * One tick of classic mode, as the server and the local game share it
 * (shared/src/classic-simulation.ts): advance a fresh copy of the ball, walk
 * the arena's sides in order, bounce off walls and paddles, report paddle
 * hits and at most one goal, and flag a ball reset.
 */
module ClassicSimulation {
  import opened RealMath
  import opened Wrappers
  import opened Types
  import opened Constants
  import opened Physics
  import opened SimEvents

  datatype SimPlayer = SimPlayer(edgeIndex: int, paddlePosition: real, prevPaddlePosition: real, eliminated: bool)

  datatype SimState = SimState(ball: BallState, edges: seq<Edge>, players: seq<SimPlayer>, arenaRadius: real)

  /** `(BALL_RADIUS + 4) ** 2`: how near a segment the ball's centre must come to touch it. */
  const BALL_HIT_DIST_SQ: real := Sq(BALL_RADIUS + 4.0)

  const SPIN_INFLUENCE: real := 0.6

  // ---------------------------------------------------------------------
  // Helpers that update the tick's own ball

  /** `reflectBall`: bounce off `normal` (speeding up by 2%), then cap the speed. */
  function ReflectBall(b: BallState, normal: Vec2, m: Env): (r: BallState)
    requires SqrtSound(m)
    ensures r.x == b.x && r.y == b.y
    ensures NormSq(r.vx, r.vy) <= Sq(CLASSIC_MAX_BALL_SPEED)
    ensures var v := ReflectVelocity(b.vx, b.vy, normal, DEFAULT_SPEED_UP);
      NormSq(v.x, v.y) <= Sq(CLASSIC_MAX_BALL_SPEED) ==> r.vx == v.x && r.vy == v.y
  {
    var v := ReflectVelocity(b.vx, b.vy, normal, DEFAULT_SPEED_UP);
    var c := ClampSpeed(v.x, v.y, CLASSIC_MAX_BALL_SPEED, m);
    BallState(b.x, b.y, c.x, c.y)
  }

  /** The velocity a paddle adds along its side: its movement this tick times the side's length, scaled by `SPIN_INFLUENCE`. */
  function SpinKick(p: SimPlayer, edge: Edge, m: Env): Vec2 {
    var speed := (p.paddlePosition - p.prevPaddlePosition) * edge.length;
    Vec2(m.cos(edge.angle) * speed * SPIN_INFLUENCE, m.sin(edge.angle) * speed * SPIN_INFLUENCE)
  }

  /** `applyPaddleSpin`: add the paddle's kick to the velocity, then cap the speed. */
  function ApplyPaddleSpin(b: BallState, p: SimPlayer, edge: Edge, m: Env): (r: BallState)
    requires SqrtSound(m)
    ensures r.x == b.x && r.y == b.y
    ensures NormSq(r.vx, r.vy) <= Sq(CLASSIC_MAX_BALL_SPEED)
    ensures var k := SpinKick(p, edge, m);
      NormSq(b.vx + k.x, b.vy + k.y) <= Sq(CLASSIC_MAX_BALL_SPEED) ==> r.vx == b.vx + k.x && r.vy == b.vy + k.y
  {
    var k := SpinKick(p, edge, m);
    var c := ClampSpeed(b.vx + k.x, b.vy + k.y, CLASSIC_MAX_BALL_SPEED, m);
    BallState(b.x, b.y, c.x, c.y)
  }

  /** `pushBallIn`: step the ball twice the side's normal back into the arena. */
  function PushBallIn(b: BallState, edge: Edge): BallState {
    BallState(b.x - edge.normal.x * 2.0, b.y - edge.normal.y * 2.0, b.vx, b.vy)
  }

  /** Pushing in off a side with a unit normal brings the ball 2 nearer that side's line and keeps its velocity. */
  lemma PushBallInMovesInward(b: BallState, edge: Edge)
    requires IsUnit(edge.normal)
    ensures var r := PushBallIn(b, edge);
      && EdgeOffset(r.x, r.y, edge) == EdgeOffset(b.x, b.y, edge) - 2.0
      && r.vx == b.vx && r.vy == b.vy
  {
    var r := PushBallIn(b, edge);
    var n := edge.normal;
    assert EdgeOffset(r.x, r.y, edge) == EdgeOffset(b.x, b.y, edge) - 2.0 * (n.x * n.x + n.y * n.y);
  }

  // ---------------------------------------------------------------------
  // Who owns each side

  /**
   * The `playersByEdge` map: side index to the index of the player on it.
   * When several players name the same side, the later one wins.
   */
  function OwnerMap(ps: seq<SimPlayer>): map<int, nat> {
    if |ps| == 0 then map[]
    else OwnerMap(ps[..|ps| - 1])[ps[|ps| - 1].edgeIndex := |ps| - 1]
  }

  /** Exactly the sides some player names are keys. */
  lemma {:induction false} OwnerMapKeys(ps: seq<SimPlayer>)
    ensures forall e :: e in OwnerMap(ps) <==> exists i :: 0 <= i < |ps| && ps[i].edgeIndex == e
  {
    if |ps| > 0 {
      var n := |ps| - 1;
      var front := ps[..n];
      OwnerMapKeys(front);
      forall e
        ensures e in OwnerMap(ps) <==> exists i :: 0 <= i < |ps| && ps[i].edgeIndex == e
      {
        if e != ps[n].edgeIndex && exists i :: 0 <= i < |ps| && ps[i].edgeIndex == e {
          var i :| 0 <= i < |ps| && ps[i].edgeIndex == e;
          assert front[i].edgeIndex == e;
        }
      }
    }
  }

  /** Each side is mapped to the last player naming it. */
  lemma {:induction false} OwnerMapValues(ps: seq<SimPlayer>)
    ensures forall e :: e in OwnerMap(ps) ==> OwnerMap(ps)[e] < |ps| && ps[OwnerMap(ps)[e]].edgeIndex == e
    ensures forall e, j :: e in OwnerMap(ps) && OwnerMap(ps)[e] < j < |ps| ==> ps[j].edgeIndex != e
  {
    if |ps| > 0 {
      var n := |ps| - 1;
      var front := ps[..n];
      OwnerMapValues(front);
      assert forall i :: 0 <= i < n ==> front[i] == ps[i];
    }
  }

  /** The player owning side `i`, if any. */
  function Owner(ps: seq<SimPlayer>, i: int): (o: Option<nat>)
    ensures o.Some? ==> o.value < |ps| && ps[o.value].edgeIndex == i
    ensures o.None? <==> forall j :: 0 <= j < |ps| ==> ps[j].edgeIndex != i
  {
    var owners := OwnerMap(ps);
    OwnerMapKeys(ps);
    OwnerMapValues(ps);
    if i in owners then Some(owners[i]) else None
  }

  method BuildPlayersByEdge(players: seq<SimPlayer>) returns (byEdge: map<int, nat>)
    ensures byEdge == OwnerMap(players)
  {
    byEdge := map[];
    for i := 0 to |players|
      invariant byEdge == OwnerMap(players[..i])
    {
      assert players[..i + 1][..i] == players[..i];
      byEdge := byEdge[players[i].edgeIndex := i];
    }
    assert players[..|players|] == players;
  }

  // ---------------------------------------------------------------------
  // The walk over the sides

  /** What testing one side does: the ball moves on (possibly with an event), or a goal ends the walk. */
  datatype EdgeOutcome = Next(ball: BallState, hit: seq<SimEvent>) | Goal(event: SimEvent)

  /**
   * Side `i` tested against `ball`.  A side without a live owner is a wall;
   * an owned side bounces the ball off the paddle (adding spin), or else lets
   * in a goal when the ball has passed it.
   */
  function EdgeStep(s: SimState, ball: BallState, i: nat, m: Env): EdgeOutcome
    requires SqrtSound(m) && TrigSound(m) && i < |s.edges|
  {
    var edge := s.edges[i];
    var owner := Owner(s.players, i);
    if owner.None? || s.players[owner.value].eliminated then
      if BallNearSegment(ball.x, ball.y, edge.start, edge.end, BALL_HIT_DIST_SQ) then
        Next(PushBallIn(ReflectBall(ball, edge.normal, m), edge), [])
      else Next(ball, [])
    else
      var p := s.players[owner.value];
      var ends := GetPaddleEndpoints(p.paddlePosition, edge, CLASSIC_PADDLE_WIDTH_RATIO, m);
      if BallNearSegment(ball.x, ball.y, ends.start, ends.end, BALL_HIT_DIST_SQ) then
        Next(PushBallIn(ApplyPaddleSpin(ReflectBall(ball, edge.normal, m), p, edge, m), edge),
             [SimEvent(PaddleHit, owner.value)])
      else if BallPassedEdge(ball.x, ball.y, BALL_RADIUS, edge) then
        Goal(SimEvent(Scored, owner.value))
      else Next(ball, [])
  }

  /** The walk from side `i` on, with `events` reported so far; `ballReset` says whether a goal stopped it. */
  function RunEdges(s: SimState, ball: BallState, i: nat, events: seq<SimEvent>, m: Env): SimResult
    requires SqrtSound(m) && TrigSound(m)
    decreases |s.edges| - i
  {
    if i >= |s.edges| then SimResult(ball, events, false)
    else match EdgeStep(s, ball, i, m)
      case Next(b, hit) => RunEdges(s, b, i + 1, events + hit, m)
      case Goal(ev) => SimResult(ball, events + [ev], true)
  }

  /** Whether the ball's centre is more than 1.5 arena radii from the centre. */
  predicate FarOut(b: BallState, arenaRadius: real, m: Env) {
    Hypot(m, b.x, b.y) > arenaRadius * 1.5
  }

  /** The whole tick: the walk from the advanced ball, then the far-out reset. */
  function Step(s: SimState, m: Env): SimResult
    requires SqrtSound(m) && TrigSound(m)
  {
    var r := RunEdges(s, Advance(s.ball), 0, [], m);
    if FarOut(r.ball, s.arenaRadius, m) then r.(ballReset := true) else r
  }

  /** The tick in terms of the walk from the advanced ball. */
  lemma StepFromWalk(s: SimState, m: Env, walk: SimResult)
    requires SqrtSound(m) && TrigSound(m)
    requires walk == RunEdges(s, Advance(s.ball), 0, [], m)
    ensures Step(s, m) == if FarOut(walk.ball, s.arenaRadius, m) then walk.(ballReset := true) else walk
  {
  }

  /** `classicPhysicsStep`. */
  method ClassicPhysicsStep(state: SimState, m: Env) returns (result: SimResult)
    requires SqrtSound(m) && TrigSound(m)
    ensures result == Step(state, m)
  {
    var ball := BallState(state.ball.x + state.ball.vx, state.ball.y + state.ball.vy, state.ball.vx, state.ball.vy);
    var events: seq<SimEvent> := [];
    var ballReset := false;
    var playersByEdge := BuildPlayersByEdge(state.players);
    ghost var walk := RunEdges(state, ball, 0, [], m);
    StepFromWalk(state, m, walk);

    var i := 0;
    while i < |state.edges|
      invariant i <= |state.edges|
      invariant RunEdges(state, ball, i, events, m) == walk
      invariant !ballReset
      decreases |state.edges| - i
    {
      ghost var outcome := EdgeStep(state, ball, i, m);
      var edge := state.edges[i];
      var entry := if i in playersByEdge then Some(playersByEdge[i]) else None;
      assert entry == Owner(state.players, i);
      if entry.None? || state.players[entry.value].eliminated {
        if BallNearSegment(ball.x, ball.y, edge.start, edge.end, BALL_HIT_DIST_SQ) {
          ball := ReflectBall(ball, edge.normal, m);
          ball := PushBallIn(ball, edge);
        }
        assert outcome == Next(ball, []);
        assert events + [] == events;
        i := i + 1;
        continue;
      }
      var index := entry.value;
      var player := state.players[index];
      var endpoints := GetPaddleEndpoints(player.paddlePosition, edge, CLASSIC_PADDLE_WIDTH_RATIO, m);
      if BallNearSegment(ball.x, ball.y, endpoints.start, endpoints.end, BALL_HIT_DIST_SQ) {
        ball := ReflectBall(ball, edge.normal, m);
        ball := ApplyPaddleSpin(ball, player, edge, m);
        ball := PushBallIn(ball, edge);
        assert outcome == Next(ball, [SimEvent(PaddleHit, index)]);
        events := events + [SimEvent(PaddleHit, index)];
        i := i + 1;
        continue;
      }
      if BallPassedEdge(ball.x, ball.y, BALL_RADIUS, edge) {
        assert outcome == Goal(SimEvent(Scored, index));
        events := events + [SimEvent(Scored, index)];
        ballReset := true;
        break;
      }
      assert outcome == Next(ball, []);
      assert events + [] == events;
      i := i + 1;
    }
    assert walk == SimResult(ball, events, ballReset);

    var dist := Hypot(m, ball.x, ball.y);
    if dist > state.arenaRadius * 1.5 {
      ballReset := true;
    }
    result := SimResult(ball, events, ballReset);
  }

  // ---------------------------------------------------------------------
  // Properties of the tick

  /** Whether side `i` does anything to `ball`: a wall or paddle within reach, or a goal. */
  predicate EdgeTriggers(s: SimState, ball: BallState, i: nat, m: Env)
    requires TrigSound(m) && i < |s.edges|
  {
    var edge := s.edges[i];
    var owner := Owner(s.players, i);
    if owner.None? || s.players[owner.value].eliminated then
      BallNearSegment(ball.x, ball.y, edge.start, edge.end, BALL_HIT_DIST_SQ)
    else
      var ends := GetPaddleEndpoints(s.players[owner.value].paddlePosition, edge, CLASSIC_PADDLE_WIDTH_RATIO, m);
      BallNearSegment(ball.x, ball.y, ends.start, ends.end, BALL_HIT_DIST_SQ)
      || BallPassedEdge(ball.x, ball.y, BALL_RADIUS, edge)
  }

  lemma {:induction false} QuietWalk(s: SimState, ball: BallState, i: nat, events: seq<SimEvent>, m: Env)
    requires SqrtSound(m) && TrigSound(m)
    requires forall k :: i <= k < |s.edges| ==> !EdgeTriggers(s, ball, k, m)
    ensures RunEdges(s, ball, i, events, m) == SimResult(ball, events, false)
    decreases |s.edges| - i
  {
    if i < |s.edges| {
      assert !EdgeTriggers(s, ball, i, m);
      assert EdgeStep(s, ball, i, m) == Next(ball, []);
      assert events + [] == events;
      QuietWalk(s, ball, i + 1, events, m);
    }
  }

  /**
   * When no side is within reach of the advanced ball and it is within 1.5
   * arena radii of the centre, the tick just moves the ball by its
   * velocity: no events and no reset.
   */
  lemma NoTriggerJustAdvances(s: SimState, m: Env)
    requires SqrtSound(m) && TrigSound(m)
    requires forall k :: 0 <= k < |s.edges| ==> !EdgeTriggers(s, Advance(s.ball), k, m)
    requires !FarOut(Advance(s.ball), s.arenaRadius, m)
    ensures Step(s, m) == SimResult(Advance(s.ball), [], false)
  {
    QuietWalk(s, Advance(s.ball), 0, [], m);
  }

  lemma {:induction false} WalkScoresOnceAtEnd(s: SimState, ball: BallState, i: nat, events: seq<SimEvent>, m: Env)
    requires SqrtSound(m) && TrigSound(m)
    requires forall k :: 0 <= k < |events| ==> events[k].kind == PaddleHit
    ensures var r := RunEdges(s, ball, i, events, m);
      && HitsBeforeLast(r.events)
      && (r.ballReset <==> EndsWithGoal(r.events))
    decreases |s.edges| - i
  {
    if i < |s.edges| {
      match EdgeStep(s, ball, i, m)
      case Next(b, hit) =>
        WalkScoresOnceAtEnd(s, b, i + 1, events + hit, m);
      case Goal(ev) =>
    }
  }

  /**
   * A tick reports at most one goal, and only as its last event; the ball is
   * reset exactly when there is one or the ball has flown more than 1.5
   * arena radii out.
   */
  lemma AtMostOneGoalAndItIsLast(s: SimState, m: Env)
    requires SqrtSound(m) && TrigSound(m)
    ensures var r := Step(s, m);
      && HitsBeforeLast(r.events)
      && (r.ballReset <==> EndsWithGoal(r.events) || FarOut(r.ball, s.arenaRadius, m))
  {
    WalkScoresOnceAtEnd(s, Advance(s.ball), 0, [], m);
  }

  /** The event concerns a live player who owns a side of the arena (the side it was reported for). */
  predicate FromLiveOwner(s: SimState, ev: SimEvent) {
    && ev.playerIndex < |s.players|
    && !s.players[ev.playerIndex].eliminated
    && 0 <= s.players[ev.playerIndex].edgeIndex < |s.edges|
    && Owner(s.players, s.players[ev.playerIndex].edgeIndex) == Some(ev.playerIndex)
  }

  /** Every event that testing a side reports satisfies `ok`. */
  predicate OutcomeEventsSatisfy(o: EdgeOutcome, ok: SimEvent -> bool) {
    match o
    case Next(_, hit) => AllSatisfy(hit, ok)
    case Goal(ev) => ok(ev)
  }

  /** If every side only reports events satisfying `ok`, so does the walk. */
  lemma {:induction false} WalkEventsSatisfy(s: SimState, ball: BallState, i: nat, events: seq<SimEvent>, m: Env,
                                             ok: SimEvent -> bool)
    requires SqrtSound(m) && TrigSound(m)
    requires forall b: BallState, j: nat :: j < |s.edges| ==> OutcomeEventsSatisfy(EdgeStep(s, b, j, m), ok)
    requires AllSatisfy(events, ok)
    ensures AllSatisfy(RunEdges(s, ball, i, events, m).events, ok)
    decreases |s.edges| - i
  {
    if i < |s.edges| {
      assert OutcomeEventsSatisfy(EdgeStep(s, ball, i, m), ok);
      match EdgeStep(s, ball, i, m)
      case Next(b, hit) =>
        ConcatSatisfies(events, hit, ok);
        WalkEventsSatisfy(s, b, i + 1, events + hit, m, ok);
      case Goal(ev) =>
        ConcatSatisfies(events, [ev], ok);
    }
  }

  lemma EdgeStepEventsFromLiveOwner(s: SimState, ball: BallState, i: nat, m: Env)
    requires SqrtSound(m) && TrigSound(m) && i < |s.edges|
    ensures match EdgeStep(s, ball, i, m)
      case Next(_, hit) => forall k :: 0 <= k < |hit| ==> FromLiveOwner(s, hit[k])
      case Goal(ev) => FromLiveOwner(s, ev)
  {
    var o := Owner(s.players, i);
    if o.Some? && !s.players[o.value].eliminated {
      OwnerIsLiveOwner(s, i, o.value, PaddleHit);
      OwnerIsLiveOwner(s, i, o.value, Scored);
    }
  }

  lemma OwnerIsLiveOwner(s: SimState, i: nat, p: nat, kind: EventKind)
    requires i < |s.edges| && Owner(s.players, i) == Some(p) && !s.players[p].eliminated
    ensures FromLiveOwner(s, SimEvent(kind, p))
  {
    assert s.players[p].edgeIndex == i;
  }

  /**
   * Every event names a player who is not eliminated and who owns a side of
   * the arena: the last player in the list naming that side.  A side with no
   * owner, or an eliminated one, never produces an event.
   */
  lemma EventsComeFromLiveOwners(s: SimState, m: Env)
    requires SqrtSound(m) && TrigSound(m)
    ensures var r := Step(s, m);
      forall k :: 0 <= k < |r.events| ==> FromLiveOwner(s, r.events[k])
  {
    var ok := (ev: SimEvent) => FromLiveOwner(s, ev);
    forall b: BallState, j: nat | j < |s.edges|
      ensures OutcomeEventsSatisfy(EdgeStep(s, b, j, m), ok)
    {
      EdgeStepEventsFromLiveOwner(s, b, j, m);
    }
    WalkEventsSatisfy(s, Advance(s.ball), 0, [], m, ok);
    assert Step(s, m).events == RunEdges(s, Advance(s.ball), 0, [], m).events;
  }

  /** The velocity was not touched, or it is within the classic speed cap. */
  predicate KeptOrCapped(b: BallState, vx: real, vy: real) {
    (b.vx == vx && b.vy == vy) || NormSq(b.vx, b.vy) <= Sq(CLASSIC_MAX_BALL_SPEED)
  }

  lemma {:induction false} WalkCapsSpeed(s: SimState, ball: BallState, i: nat, events: seq<SimEvent>, vx: real, vy: real, m: Env)
    requires SqrtSound(m) && TrigSound(m)
    requires KeptOrCapped(ball, vx, vy)
    ensures KeptOrCapped(RunEdges(s, ball, i, events, m).ball, vx, vy)
    decreases |s.edges| - i
  {
    if i < |s.edges| {
      match EdgeStep(s, ball, i, m)
      case Next(b, hit) =>
        WalkCapsSpeed(s, b, i + 1, events + hit, vx, vy, m);
      case Goal(ev) =>
    }
  }

  /**
   * Bounces and spin never leave the ball faster than `CLASSIC_MAX_BALL_SPEED`:
   * the velocity at the end of a tick is the one it started with or within
   * the cap.
   */
  lemma StepCapsSpeed(s: SimState, m: Env)
    requires SqrtSound(m) && TrigSound(m)
    ensures KeptOrCapped(Step(s, m).ball, s.ball.vx, s.ball.vy)
  {
    WalkCapsSpeed(s, Advance(s.ball), 0, [], s.ball.vx, s.ball.vy, m);
  }

  /** A ball ending the tick more than 1.5 arena radii out is always reset. */
  lemma FarBallIsReset(s: SimState, m: Env)
    requires SqrtSound(m) && TrigSound(m) && s.arenaRadius >= 0.0
    requires var b := Step(s, m).ball; NormSq(b.x, b.y) > Sq(s.arenaRadius * 1.5)
    ensures Step(s, m).ballReset
  {
    AtMostOneGoalAndItIsLast(s, m);
    FarOutSquared(Step(s, m).ball, s.arenaRadius, m);
  }

  lemma FarOutSquared(b: BallState, arenaRadius: real, m: Env)
    requires SqrtSound(m) && arenaRadius >= 0.0
    ensures FarOut(b, arenaRadius, m) <==> NormSq(b.x, b.y) > Sq(arenaRadius * 1.5)
  {
    NormSqFacts(b.x, b.y);
    SqrtCompare(m, NormSq(b.x, b.y), arenaRadius * 1.5);
  }
}
