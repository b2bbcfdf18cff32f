/**
 * The classic-mode room (server/src/rooms/ClassicGameRoom.ts): players on
 * the sides of a regular polygon, each with a paddle at a fraction of its
 * side.  Every tick moves the ball, tests each side against the position
 * the ball had before any push, and lets at most one goal through; a goal
 * costs one life, may eliminate and end the game, and re-launches the ball.
 */
module ClassicRoom {
  import opened RealMath
  import opened Wrappers
  import opened Types
  import opened Constants
  import opened Physics
  import opened Geometry
  import opened BaseRoom
  import ClassicSimulation

  /** The fields `ClassicPlayerSchema` adds. */
  datatype ClassicFields = ClassicFields(edgeIndex: nat, paddlePosition: real)

  type ClassicPlayer = RoomPlayer<ClassicFields>

  type ClassicState = RoomState<ClassicFields>

  /** `createPlayer`: `DEFAULT_LIVES`, the paddle in the middle, the join index as colour. */
  function CreatePlayer(sessionId: string, name: string, index: nat): ClassicPlayer {
    RoomPlayer(sessionId, name, DEFAULT_LIVES, false, false, index, ClassicFields(0, 0.5))
  }

  /** `Math.max(0, Math.min(1, x))`. */
  function Clamp01(x: real): real {
    Max(0.0, Min(1.0, x))
  }

  /** The stored paddle position lies in [0, 1], and is the sent one whenever that already does. */
  lemma Clamp01Facts(x: real)
    ensures 0.0 <= Clamp01(x) <= 1.0
    ensures 0.0 <= x <= 1.0 ==> Clamp01(x) == x
    ensures x < 0.0 ==> Clamp01(x) == 0.0
    ensures x > 1.0 ==> Clamp01(x) == 1.0
  {
  }

  // ---------------------------------------------------------------------
  // Who owns each side

  /** The players as the shared bounce helpers see them: side, paddle, previous paddle, elimination. */
  function Seats(ps: seq<ClassicPlayer>, prev: map<string, real>): (r: seq<ClassicSimulation.SimPlayer>)
    ensures |r| == |ps| && forall k :: 0 <= k < |ps| ==> r[k] == SpinPlayer(prev, ps[k])
  {
    seq(|ps|, k requires 0 <= k < |ps| => SpinPlayer(prev, ps[k]))
  }

  /** `playersByEdge`: side index to the position of its player in map order; a later player wins a shared side. */
  function EdgeOwners(ps: seq<ClassicPlayer>, prev: map<string, real>): (owners: map<int, nat>)
    ensures OwnersWithin(owners, |ps|)
    ensures forall e :: e in owners ==> ps[owners[e]].mode.edgeIndex == e
  {
    var seats := Seats(ps, prev);
    ClassicSimulation.OwnerMapValues(seats);
    ClassicSimulation.OwnerMap(seats)
  }

  predicate OwnersWithin(owners: map<int, nat>, n: nat) {
    forall e :: e in owners ==> owners[e] < n
  }

  /** Every player's side exists, as `startGame` arranges. */
  predicate Covered(ps: seq<ClassicPlayer>, edges: seq<Edge>) {
    forall k :: 0 <= k < |ps| ==> ps[k].mode.edgeIndex < |edges|
  }

  /** Two player lists that differ at most in lives and elimination. */
  predicate SameSeats(a: seq<ClassicPlayer>, b: seq<ClassicPlayer>) {
    |a| == |b| && forall k :: 0 <= k < |a| ==> b[k] == a[k].(lives := b[k].lives, eliminated := b[k].eliminated)
  }

  lemma SameSeatsFacts(a: seq<ClassicPlayer>, b: seq<ClassicPlayer>, edges: seq<Edge>)
    requires SameSeats(a, b)
    ensures Covered(a, edges) ==> Covered(b, edges)
    ensures DistinctSessions(a) ==> DistinctSessions(b)
  {
    assert forall k :: 0 <= k < |a| ==> b[k].mode == a[k].mode && b[k].sessionId == a[k].sessionId;
  }

  lemma SameSeatsTrans(a: seq<ClassicPlayer>, b: seq<ClassicPlayer>, c: seq<ClassicPlayer>)
    requires SameSeats(a, b) && SameSeats(b, c)
    ensures SameSeats(a, c)
  {
  }

  /** Changing one player's lives and elimination keeps the seats. */
  lemma UpdateSameSeats(ps: seq<ClassicPlayer>, k: nat, q: ClassicPlayer)
    requires k < |ps| && q == ps[k].(lives := q.lives, eliminated := q.eliminated)
    ensures SameSeats(ps, ps[k := q])
  {
  }

  // ---------------------------------------------------------------------
  // Ball resets and spin

  /**
   * `resetBall`: back to the centre, aimed at the middle of a randomly drawn
   * live player's side at `BALL_SPEED`, or launched at a random angle when
   * nobody is left.
   */
  function ResetBallValue(ps: seq<ClassicPlayer>, edges: seq<Edge>, random: real, m: Env): BallState
    requires 0.0 <= random < 1.0 && Covered(ps, edges)
  {
    var alive := Alive(ps);
    if |alive| > 0 then
      var target := alive[PickIndex(random, |alive|)];
      AliveAt(ps, PickIndex(random, |alive|));
      var v := AimAt(edges[target.mode.edgeIndex].midpoint, m);
      BallState(0.0, 0.0, v.x, v.y)
    else
      var v := RandomLaunch(random, m);
      BallState(0.0, 0.0, v.x, v.y)
  }

  /** With a live player left, the reset aims the ball from the centre at the middle of that player's side. */
  lemma ResetAimsAtLivePlayer(ps: seq<ClassicPlayer>, edges: seq<Edge>, random: real, m: Env)
    requires 0.0 <= random < 1.0 && Covered(ps, edges)
    requires exists k :: 0 <= k < |ps| && !ps[k].eliminated
    ensures var b := ResetBallValue(ps, edges, random, m);
      && b.x == 0.0 && b.y == 0.0
      && exists k :: 0 <= k < |ps| && !ps[k].eliminated && Vec2(b.vx, b.vy) == AimAt(edges[ps[k].mode.edgeIndex].midpoint, m)
  {
    var j :| 0 <= j < |ps| && !ps[j].eliminated;
    SomeAlive(ps, j);
    var alive := Alive(ps);
    var pick := PickIndex(random, |alive|);
    var target := alive[pick];
    AliveAt(ps, pick);
    var idx :| 0 <= idx < |ps| && ps[idx] == target;
    var v := AimAt(edges[target.mode.edgeIndex].midpoint, m);
    assert ResetBallValue(ps, edges, random, m) == BallState(0.0, 0.0, v.x, v.y);
  }

  /** With nobody left, the reset launches the ball from the centre at `BALL_SPEED`. */
  lemma ResetWithNobodyLeft(ps: seq<ClassicPlayer>, edges: seq<Edge>, random: real, m: Env)
    requires 0.0 <= random < 1.0 && Covered(ps, edges) && TrigSound(m)
    requires forall k :: 0 <= k < |ps| ==> ps[k].eliminated
    ensures var b := ResetBallValue(ps, edges, random, m);
      b.x == 0.0 && b.y == 0.0 && NormSq(b.vx, b.vy) == Sq(BALL_SPEED)
  {
    NoSurvivor(ps);
    RandomLaunchSpeed(random, m);
  }

  /** `prevPaddlePositions.get(id) ?? paddlePosition`. */
  function PrevPosition(prev: map<string, real>, p: ClassicPlayer): real {
    if p.sessionId in prev then prev[p.sessionId] else p.mode.paddlePosition
  }

  /** The player as the shared spin helper sees it: current and previous paddle positions. */
  function SpinPlayer(prev: map<string, real>, p: ClassicPlayer): ClassicSimulation.SimPlayer {
    ClassicSimulation.SimPlayer(p.mode.edgeIndex, p.mode.paddlePosition, PrevPosition(prev, p), p.eliminated)
  }

  /** A paddle with no recorded position, or one that has not moved since the last tick, adds no spin. */
  lemma StillPaddleAddsNoSpin(prev: map<string, real>, p: ClassicPlayer, edge: Edge, m: Env)
    requires p.sessionId !in prev || prev[p.sessionId] == p.mode.paddlePosition
    ensures ClassicSimulation.SpinKick(SpinPlayer(prev, p), edge, m) == Vec2(0.0, 0.0)
  {
  }

  /** `prevPaddlePositions` once the end-of-tick `forEach` has recorded every player's position. */
  function RecordPositions(prev: map<string, real>, ps: seq<ClassicPlayer>): map<string, real> {
    if |ps| == 0 then prev
    else RecordPositions(prev, ps[..|ps| - 1])[ps[|ps| - 1].sessionId := ps[|ps| - 1].mode.paddlePosition]
  }

  /** After the tick every player's recorded position is its current one, so the next tick's spin is the movement since. */
  lemma {:induction false} RecordedPositionsAreCurrent(prev: map<string, real>, ps: seq<ClassicPlayer>)
    requires DistinctSessions(ps)
    ensures forall k :: 0 <= k < |ps| ==>
      ps[k].sessionId in RecordPositions(prev, ps) && RecordPositions(prev, ps)[ps[k].sessionId] == ps[k].mode.paddlePosition
  {
    if |ps| > 0 {
      var front := ps[..|ps| - 1];
      RecordedPositionsAreCurrent(prev, front);
      forall k | 0 <= k < |ps| - 1
        ensures ps[k].sessionId != ps[|ps| - 1].sessionId && front[k] == ps[k]
      {
      }
    }
  }

  // ---------------------------------------------------------------------
  // The walk over the sides

  /** What testing one side did, and whether it ended the walk. */
  datatype Visit = Visit(state: ClassicState, stop: bool)

  /** A goal keeps the seats: only the scored player's lives and elimination change. */
  lemma ScoredSameSeats(s: ClassicState, k: nat)
    requires k < |s.players|
    ensures SameSeats(s.players, Scored(s, k).players)
  {
    var p := s.players[k];
    ScoredFacts(s, k);
    UpdateSameSeats(s.players, k, p.(lives := p.lives - 1, eliminated := p.eliminated || p.lives - 1 <= 0));
  }

  /** The goal, then `resetBall`. */
  function Score(s: ClassicState, k: nat, edges: seq<Edge>, random: real, m: Env): (r: ClassicState)
    requires k < |s.players| && 0.0 <= random < 1.0 && Covered(s.players, edges)
    ensures SameSeats(s.players, r.players)
  {
    var ended := Scored(s, k);
    ScoredSameSeats(s, k);
    SameSeatsFacts(s.players, ended.players, edges);
    ended.(ball := ResetBallValue(ended.players, edges, random, m))
  }

  /**
   * Side `i`, tested against the position `(px, py)` captured at the start
   * of the walk.  A side without a live player is a wall; a live player's
   * paddle bounces the ball with spin and a `paddle_hit` broadcast; a ball
   * that passed a live player's side is a goal, which ends the walk.
   */
  function VisitEdge(s: ClassicState, edges: seq<Edge>, owners: map<int, nat>, prev: map<string, real>,
                     px: real, py: real, i: nat, random: real, m: Env): (r: Visit)
    requires SqrtSound(m) && TrigSound(m) && i < |edges| && 0.0 <= random < 1.0
    requires Covered(s.players, edges) && OwnersWithin(owners, |s.players|)
    ensures SameSeats(s.players, r.state.players)
  {
    var edge := edges[i];
    if i !in owners || s.players[owners[i]].eliminated then
      if BallNearSegment(px, py, edge.start, edge.end, ClassicSimulation.BALL_HIT_DIST_SQ) then
        Visit(s.(ball := ClassicSimulation.PushBallIn(ClassicSimulation.ReflectBall(s.ball, edge.normal, m), edge)), false)
      else Visit(s, false)
    else
      var k := owners[i];
      var p := s.players[k];
      var ends := GetPaddleEndpoints(p.mode.paddlePosition, edge, CLASSIC_PADDLE_WIDTH_RATIO, m);
      if BallNearSegment(px, py, ends.start, ends.end, ClassicSimulation.BALL_HIT_DIST_SQ) then
        var reflected := ClassicSimulation.ReflectBall(s.ball, edge.normal, m);
        var spun := ClassicSimulation.ApplyPaddleSpin(reflected, SpinPlayer(prev, p), edge, m);
        Visit(s.(ball := ClassicSimulation.PushBallIn(spun, edge), sent := s.sent + [PaddleHitBy(p.sessionId)]), false)
      else if BallPassedEdge(px, py, BALL_RADIUS, edge) then
        Visit(Score(s, k, edges, random, m), true)
      else Visit(s, false)
  }

  /** The walk over the sides from `i` on. */
  function WalkEdges(s: ClassicState, edges: seq<Edge>, owners: map<int, nat>, prev: map<string, real>,
                     px: real, py: real, i: nat, random: real, m: Env): (r: ClassicState)
    requires SqrtSound(m) && TrigSound(m) && 0.0 <= random < 1.0
    requires Covered(s.players, edges) && OwnersWithin(owners, |s.players|)
    ensures SameSeats(s.players, r.players)
    decreases |edges| - i
  {
    if i >= |edges| then s
    else
      var v := VisitEdge(s, edges, owners, prev, px, py, i, random, m);
      SameSeatsFacts(s.players, v.state.players, edges);
      if v.stop then v.state
      else
        var r := WalkEdges(v.state, edges, owners, prev, px, py, i + 1, random, m);
        SameSeatsTrans(s.players, v.state.players, r.players);
        r
  }

  /** `gameLoop`: outside play nothing happens; otherwise move, walk the sides, and reset a ball that flew off. */
  function Tick(s: ClassicState, edges: seq<Edge>, prev: map<string, real>, arenaRadius: real,
                randomGoal: real, randomFar: real, m: Env): ClassicState
    requires SqrtSound(m) && TrigSound(m) && 0.0 <= randomGoal < 1.0 && 0.0 <= randomFar < 1.0
    requires s.phase == Playing ==> Covered(s.players, edges)
  {
    if s.phase != Playing then s
    else
      var moved := s.(ball := Advance(s.ball));
      var walked := WalkEdges(moved, edges, EdgeOwners(s.players, prev), prev, moved.ball.x, moved.ball.y, 0, randomGoal, m);
      SameSeatsFacts(moved.players, walked.players, edges);
      if ClassicSimulation.FarOut(walked.ball, arenaRadius, m) then
        walked.(ball := ResetBallValue(walked.players, edges, randomFar, m))
      else walked
  }

  // ---------------------------------------------------------------------
  // Properties of the walk

  /** A step that does not end the walk leaves the players as they were; one that does is a goal against a live owner. */
  lemma VisitEdgeOutcome(s: ClassicState, edges: seq<Edge>, owners: map<int, nat>, prev: map<string, real>,
                         px: real, py: real, i: nat, random: real, m: Env)
    requires SqrtSound(m) && TrigSound(m) && i < |edges| && 0.0 <= random < 1.0
    requires Covered(s.players, edges) && OwnersWithin(owners, |s.players|)
    ensures var v := VisitEdge(s, edges, owners, prev, px, py, i, random, m);
      !v.stop ==> v.state.players == s.players
    ensures var v := VisitEdge(s, edges, owners, prev, px, py, i, random, m);
      v.stop ==> i in owners && !s.players[owners[i]].eliminated && v.state == Score(s, owners[i], edges, random, m)
  {
  }

  /** A walk scores on at most one player, who loses exactly one life. */
  lemma {:induction false} WalkScoresAtMostOnce(s: ClassicState, edges: seq<Edge>, owners: map<int, nat>, prev: map<string, real>,
                                                px: real, py: real, i: nat, random: real, m: Env)
    requires SqrtSound(m) && TrigSound(m) && 0.0 <= random < 1.0
    requires Covered(s.players, edges) && OwnersWithin(owners, |s.players|)
    ensures AtMostOneScored(s.players, WalkEdges(s, edges, owners, prev, px, py, i, random, m).players)
    decreases |edges| - i
  {
    if i < |edges| {
      var v := VisitEdge(s, edges, owners, prev, px, py, i, random, m);
      VisitEdgeOutcome(s, edges, owners, prev, px, py, i, random, m);
      if v.stop {
        ScoredFacts(s, owners[i]);
      } else {
        WalkScoresAtMostOnce(v.state, edges, owners, prev, px, py, i + 1, random, m);
      }
    }
  }

  /** Two states equal in all but the ball's position. */
  predicate AgreeButPosition(a: ClassicState, b: ClassicState) {
    a == b.(ball := a.ball.(vx := b.ball.vx, vy := b.ball.vy))
  }

  /** One side's test does not look at where the ball is, only at the captured position. */
  lemma VisitUsesCapturedPosition(s: ClassicState, t: ClassicState, edges: seq<Edge>, owners: map<int, nat>,
                                  prev: map<string, real>, px: real, py: real, i: nat, random: real, m: Env)
    requires SqrtSound(m) && TrigSound(m) && i < |edges| && 0.0 <= random < 1.0
    requires Covered(s.players, edges) && OwnersWithin(owners, |s.players|)
    requires AgreeButPosition(s, t)
    ensures var v := VisitEdge(s, edges, owners, prev, px, py, i, random, m);
      var w := VisitEdge(t, edges, owners, prev, px, py, i, random, m);
      v.stop == w.stop && AgreeButPosition(v.state, w.state)
  {
    assert s.players == t.players && s.ball.vx == t.ball.vx && s.ball.vy == t.ball.vy;
  }

  /**
   * Every side is tested against the captured position, not the ball as the
   * pushes move it: two walks from balls at different places but with the
   * same velocity report the same hits and goals and end with the same
   * players, phase, winner and velocity.
   */
  lemma {:induction false} WalkUsesCapturedPosition(s: ClassicState, t: ClassicState, edges: seq<Edge>, owners: map<int, nat>,
                                                    prev: map<string, real>, px: real, py: real, i: nat, random: real, m: Env)
    requires SqrtSound(m) && TrigSound(m) && 0.0 <= random < 1.0
    requires Covered(s.players, edges) && OwnersWithin(owners, |s.players|)
    requires AgreeButPosition(s, t)
    ensures AgreeButPosition(WalkEdges(s, edges, owners, prev, px, py, i, random, m),
                             WalkEdges(t, edges, owners, prev, px, py, i, random, m))
    decreases |edges| - i
  {
    if i < |edges| {
      var v := VisitEdge(s, edges, owners, prev, px, py, i, random, m);
      var w := VisitEdge(t, edges, owners, prev, px, py, i, random, m);
      VisitUsesCapturedPosition(s, t, edges, owners, prev, px, py, i, random, m);
      if !v.stop {
        SameSeatsFacts(s.players, v.state.players, edges);
        WalkUsesCapturedPosition(v.state, w.state, edges, owners, prev, px, py, i + 1, random, m);
      }
    }
  }

  /** A tick scores on at most one player, by exactly one life. */
  lemma TickScoresAtMostOnce(s: ClassicState, edges: seq<Edge>, prev: map<string, real>, arenaRadius: real,
                             randomGoal: real, randomFar: real, m: Env)
    requires SqrtSound(m) && TrigSound(m) && 0.0 <= randomGoal < 1.0 && 0.0 <= randomFar < 1.0
    requires s.phase == Playing ==> Covered(s.players, edges)
    ensures AtMostOneScored(s.players, Tick(s, edges, prev, arenaRadius, randomGoal, randomFar, m).players)
  {
    if s.phase == Playing {
      var moved := s.(ball := Advance(s.ball));
      WalkScoresAtMostOnce(moved, edges, EdgeOwners(s.players, prev), prev, moved.ball.x, moved.ball.y, 0, randomGoal, m);
    }
  }

  /** Leaving during play only eliminates, so every side a player holds still exists. */
  lemma LeaveKeepsSeats(s: ClassicState, id: string, edges: seq<Edge>)
    requires s.phase == Playing && Covered(s.players, edges)
    ensures Covered(AfterLeave(s, id).players, edges)
  {
    match Find(s.players, id)
    case None =>
    case Some(k) =>
      var p := s.players[k];
      UpdateSameSeats(s.players, k, p.(eliminated := true, lives := 0));
      SameSeatsFacts(s.players, s.players[k := p.(eliminated := true, lives := 0)], edges);
  }

  // ---------------------------------------------------------------------
  // The room

  class ClassicGameRoom {
    const room: BaseGameRoom<ClassicFields>
    var mode: string
    var numSides: nat
    var arenaRadius: real
    var edges: seq<Edge>
    var prevPaddlePositions: map<string, real>
    var playersByEdge: map<int, nat>

    /** Session ids stay distinct, and during play every player's side exists. */
    ghost predicate Valid()
      reads this, room
    {
      room.Valid() && (room.phase == Playing ==> |edges| > 0 && Covered(room.players, edges))
    }

    /** The schema's defaults, then `onCreate`. */
    constructor(roomId: string)
      ensures fresh(room) && Valid() && room.roomId == roomId && room.maxPlayers == MAX_PLAYERS
      ensures room.State() == RoomState([], Waiting, "", "", BallState(0.0, 0.0, 0.0, 0.0), [])
      ensures mode == "classic" && numSides == 0 && arenaRadius == CLASSIC_ARENA_RADIUS
      ensures edges == [] && prevPaddlePositions == map[] && playersByEdge == map[]
    {
      room := new BaseGameRoom<ClassicFields>(roomId);
      mode := "classic";
      numSides := 0;
      arenaRadius := 350.0;
      edges := [];
      prevPaddlePositions := map[];
      playersByEdge := map[];
    }

    /** `onJoin` with this mode's `createPlayer`. */
    method OnJoin(sessionId: string, requested: Option<string>) returns (replayed: set<string>)
      requires Valid()
      modifies room
      ensures Valid()
      ensures var idx := |old(room.players)|;
        room.players == Put(old(room.players), CreatePlayer(sessionId, JoinName(requested, idx), idx))
      ensures room.State() == old(room.State()).(players := room.players) && replayed == room.audioSessionIds
    {
      ghost var before := room.players;
      replayed := room.OnJoin(sessionId, requested, CreatePlayer);
      var idx := |before|;
      var p := CreatePlayer(sessionId, JoinName(requested, idx), idx);
      PutFacts(before, p);
      assert forall k :: 0 <= k < |room.players| ==> room.players[k] == p || (k < |before| && room.players[k] == before[k]);
    }

    /** `onLeave`: eliminated during play, removed otherwise. */
    method OnLeave(sessionId: string)
      requires Valid()
      modifies room
      ensures Valid()
      ensures room.State() == AfterLeave(old(room.State()), sessionId)
    {
      ghost var before := room.State();
      room.OnLeave(sessionId);
      if before.phase == Playing {
        LeaveKeepsSeats(before, sessionId, edges);
      }
    }

    /** `set_name`, which only renames in the lobby. */
    method SetName(sessionId: string, data: Option<string>)
      requires Valid()
      modifies room
      ensures Valid()
      ensures room.State() == old(room.State()).(players := room.players)
      ensures var k := Find(old(room.players), sessionId);
        var name := SanitizedName(data);
        room.players == if k.Some? && old(room.phase) == Waiting && name != "" then old(room.players)[k.value := old(room.players)[k.value].(name := name)]
                        else old(room.players)
    {
      room.SetName(sessionId, data);
    }

    /** `paddle_input`: a live player's paddle takes the sent position, clamped to [0, 1], during play. */
    method PaddleInput(sessionId: string, position: real)
      requires Valid()
      modifies room
      ensures Valid()
      ensures room.State() == old(room.State()).(players := room.players)
      ensures var k := Find(old(room.players), sessionId);
        if k.Some? && !old(room.players)[k.value].eliminated && old(room.phase) == Playing then
          var p := old(room.players)[k.value];
          room.players == old(room.players)[k.value := p.(mode := p.mode.(paddlePosition := Clamp01(position)))]
        else room.players == old(room.players)
    {
      var target := room.PaddleInputTarget(sessionId);
      if target.Some? {
        var p := room.players[target.value];
        var q := p.(mode := p.mode.(paddlePosition := Clamp01(position)));
        UpdateKeepsDistinct(room.players, target.value, q);
        room.players := room.players[target.value := q];
      }
    }

    /** `player_ready`, starting the game when the ready check passes. */
    method PlayerReady(sessionId: string, random: real, m: Env)
      requires Valid() && Sound(m) && 0.0 <= random < 1.0
      modifies this, room
      ensures Valid()
      ensures old(room.phase) == Waiting && room.phase == Playing ==> |room.players| >= MIN_PLAYERS
      ensures old(room.phase) != Waiting ==> room.State() == old(room.State())
      ensures var k := Find(old(room.players), sessionId);
        if k.Some? && old(room.phase) == Waiting then
          var toggled := old(room.players)[k.value := old(room.players)[k.value].(ready := !old(room.players)[k.value].ready)];
          && (ShouldStart(toggled) ==>
                var config := GetArenaConfig(|toggled|);
                && room.phase == Playing && numSides == config.numSides && |edges| == numSides && IsClosedPolygon(edges)
                && |room.players| == |toggled|
                && (forall j :: 0 <= j < |room.players| ==>
                      room.players[j] == toggled[j].(mode := toggled[j].mode.(edgeIndex := config.edgeAssignments[j])))
                && room.ball == ResetBallValue(room.players, edges, random, m)
                && room.sent == old(room.sent) && room.winnerId == old(room.winnerId) && room.winnerName == old(room.winnerName))
          && (!ShouldStart(toggled) ==>
                room.State() == old(room.State()).(players := toggled) && numSides == old(numSides) && edges == old(edges))
        else room.State() == old(room.State()) && numSides == old(numSides) && edges == old(edges)
    {
      var start := room.PlayerReady(sessionId);
      if start {
        StartGame(random, m);
      }
    }

    /** The assignment loop of `startGame`: the k-th player in map order takes side `assignments[k]`. */
    method AssignEdges(assignments: seq<nat>)
      requires room.Valid() && |assignments| == |room.players|
      modifies room
      ensures room.Valid()
      ensures room.State() == old(room.State()).(players := room.players) && |room.players| == |old(room.players)|
      ensures forall k :: 0 <= k < |room.players| ==>
        room.players[k] == old(room.players)[k].(mode := old(room.players)[k].mode.(edgeIndex := assignments[k]))
    {
      ghost var before := room.players;
      var idx := 0;
      while idx < |room.players|
        invariant room.Valid() && room.State() == old(room.State()).(players := room.players)
        invariant idx <= |room.players| == |before|
        invariant forall k :: 0 <= k < idx ==>
          room.players[k] == before[k].(mode := before[k].mode.(edgeIndex := assignments[k]))
        invariant forall k :: idx <= k < |room.players| ==> room.players[k] == before[k]
        decreases |room.players| - idx
      {
        var p := room.players[idx];
        var q := p.(mode := p.mode.(edgeIndex := assignments[idx]));
        UpdateKeepsDistinct(room.players, idx, q);
        room.players := room.players[idx := q];
        idx := idx + 1;
      }
    }

    /**
     * `startGame`: the arena for the number of players, the phase to
     * "playing", the k-th player in map order to `edgeAssignments[k]`, and a
     * ball reset.
     */
    method StartGame(random: real, m: Env)
      requires room.Valid() && Sound(m) && 0.0 <= random < 1.0 && |room.players| >= MIN_PLAYERS
      modifies this, room
      ensures Valid() && room.phase == Playing
      ensures var config := GetArenaConfig(|room.players|);
        && numSides == config.numSides && arenaRadius == CLASSIC_ARENA_RADIUS
        && |edges| == numSides && IsClosedPolygon(edges)
        && |room.players| == |old(room.players)|
        && (forall k :: 0 <= k < |room.players| ==>
              room.players[k] == old(room.players)[k].(mode := old(room.players)[k].mode.(edgeIndex := config.edgeAssignments[k])))
      ensures room.ball == ResetBallValue(room.players, edges, random, m)
      ensures room.sent == old(room.sent) && room.winnerId == old(room.winnerId) && room.winnerName == old(room.winnerName)
    {
      var config := GetArenaConfig(|room.players|);
      numSides := config.numSides;
      arenaRadius := CLASSIC_ARENA_RADIUS;
      room.phase := Playing;
      edges := ComputeEdges(config.numSides, arenaRadius, m);
      AssignEdges(config.edgeAssignments);
      ResetBall(random, m);
    }

    /** `resetBall`. */
    method ResetBall(random: real, m: Env)
      requires 0.0 <= random < 1.0 && Covered(room.players, edges)
      modifies room
      ensures room.State() == old(room.State()).(ball := ResetBallValue(old(room.players), edges, random, m))
      ensures room.Valid() <==> old(room.Valid())
    {
      room.ResetBallToCenter();
      var alivePlayers := CollectAlive(room.players);
      if |alivePlayers| > 0 {
        var target := alivePlayers[PickIndex(random, |alivePlayers|)];
        AliveAt(room.players, PickIndex(random, |alivePlayers|));
        var edge := edges[target.mode.edgeIndex];
        var v := AimAt(edge.midpoint, m);
        room.ball := room.ball.(vx := v.x, vy := v.y);
      } else {
        room.LaunchBallRandom(random, m);
      }
    }

    /** `buildPlayersByEdge`. */
    method BuildPlayersByEdge()
      modifies this
      ensures playersByEdge == EdgeOwners(room.players, prevPaddlePositions)
      ensures edges == old(edges) && prevPaddlePositions == old(prevPaddlePositions)
      ensures numSides == old(numSides) && arenaRadius == old(arenaRadius) && mode == old(mode)
    {
      playersByEdge := ClassicSimulation.BuildPlayersByEdge(Seats(room.players, prevPaddlePositions));
    }

    /** Testing side `i` against the captured position `(px, py)`: the body of the loop in `checkCollisions`. */
    method TestEdge(i: nat, px: real, py: real, random: real, m: Env) returns (stop: bool)
      requires SqrtSound(m) && TrigSound(m) && i < |edges| && 0.0 <= random < 1.0
      requires room.Valid() && Covered(room.players, edges) && OwnersWithin(playersByEdge, |room.players|)
      modifies room
      ensures room.Valid()
      ensures Visit(room.State(), stop)
           == VisitEdge(old(room.State()), edges, playersByEdge, prevPaddlePositions, px, py, i, random, m)
    {
      var edge := edges[i];
      if i !in playersByEdge || room.players[playersByEdge[i]].eliminated {
        if BallNearSegment(px, py, edge.start, edge.end, ClassicSimulation.BALL_HIT_DIST_SQ) {
          room.ball := ClassicSimulation.ReflectBall(room.ball, edge.normal, m);
          room.ball := ClassicSimulation.PushBallIn(room.ball, edge);
        }
        return false;
      }
      var k := playersByEdge[i];
      var player := room.players[k];
      var endpoints := GetPaddleEndpoints(player.mode.paddlePosition, edge, CLASSIC_PADDLE_WIDTH_RATIO, m);
      if BallNearSegment(px, py, endpoints.start, endpoints.end, ClassicSimulation.BALL_HIT_DIST_SQ) {
        room.ball := ClassicSimulation.ReflectBall(room.ball, edge.normal, m);
        room.ball := ClassicSimulation.ApplyPaddleSpin(room.ball, SpinPlayer(prevPaddlePositions, player), edge, m);
        room.ball := ClassicSimulation.PushBallIn(room.ball, edge);
        room.sent := room.sent + [PaddleHitBy(player.sessionId)];
        return false;
      }
      if BallPassedEdge(px, py, BALL_RADIUS, edge) {
        ScoreGoal(k, random, m);
        return true;
      }
      return false;
    }

    /** The goal branch of `checkCollisions`. */
    method ScoreGoal(k: nat, random: real, m: Env)
      requires k < |room.players| && 0.0 <= random < 1.0
      requires room.Valid() && Covered(room.players, edges)
      modifies room
      ensures room.Valid()
      ensures room.State() == Score(old(room.State()), k, edges, random, m)
    {
      ghost var s := room.State();
      var p := room.players[k];
      var lost := p.(lives := p.lives - 1);
      UpdateKeepsDistinct(room.players, k, lost);
      room.players := room.players[k := lost];
      room.sent := room.sent + [PlayerScored(p.sessionId)];
      if lost.lives <= 0 {
        UpdateKeepsDistinct(room.players, k, lost.(eliminated := true));
        room.players := room.players[k := lost.(eliminated := true)];
        room.CheckWinCondition();
      }
      assert room.State() == Scored(s, k);
      ScoredSameSeats(s, k);
      SameSeatsFacts(s.players, room.players, edges);
      ResetBall(random, m);
    }

    /** `checkCollisions`: the sides in order, against the position captured before the walk, up to the first goal. */
    method CheckCollisions(random: real, m: Env)
      requires SqrtSound(m) && TrigSound(m) && 0.0 <= random < 1.0
      requires room.Valid() && Covered(room.players, edges)
      modifies this, room
      ensures edges == old(edges) && prevPaddlePositions == old(prevPaddlePositions)
      ensures numSides == old(numSides) && arenaRadius == old(arenaRadius) && mode == old(mode)
      ensures playersByEdge == EdgeOwners(old(room.players), prevPaddlePositions)
      ensures room.Valid() && Covered(room.players, edges)
      ensures room.State()
           == WalkEdges(old(room.State()), edges, playersByEdge, prevPaddlePositions, old(room.ball.x), old(room.ball.y), 0, random, m)
    {
      BuildPlayersByEdge();
      var px := room.ball.x;
      var py := room.ball.y;
      ghost var start := room.State();
      ghost var walk := WalkEdges(start, edges, playersByEdge, prevPaddlePositions, px, py, 0, random, m);

      var i := 0;
      while i < |edges|
        invariant room.Valid() && SameSeats(start.players, room.players)
        invariant Covered(room.players, edges) && OwnersWithin(playersByEdge, |room.players|)
        invariant WalkEdges(room.State(), edges, playersByEdge, prevPaddlePositions, px, py, i, random, m) == walk
        modifies room
        decreases |edges| - i
      {
        ghost var before := room.State();
        var stop := TestEdge(i, px, py, random, m);
        SameSeatsFacts(before.players, room.players, edges);
        SameSeatsTrans(start.players, before.players, room.players);
        if stop {
          return;
        }
        i := i + 1;
      }
    }

    /** The end of `gameLoop`: every player's current paddle position is recorded for the next tick's spin. */
    method RecordPaddlePositions()
      modifies this
      ensures prevPaddlePositions == RecordPositions(old(prevPaddlePositions), room.players)
      ensures edges == old(edges) && playersByEdge == old(playersByEdge)
      ensures numSides == old(numSides) && arenaRadius == old(arenaRadius) && mode == old(mode)
    {
      var ps := room.players;
      var recorded := prevPaddlePositions;
      for k := 0 to |ps|
        invariant recorded == RecordPositions(old(prevPaddlePositions), ps[..k])
      {
        assert ps[..k + 1][..k] == ps[..k];
        recorded := recorded[ps[k].sessionId := ps[k].mode.paddlePosition];
      }
      assert ps[..|ps|] == ps;
      prevPaddlePositions := recorded;
    }

    /** `gameLoop`. */
    method GameLoop(randomGoal: real, randomFar: real, m: Env)
      requires SqrtSound(m) && TrigSound(m) && 0.0 <= randomGoal < 1.0 && 0.0 <= randomFar < 1.0
      requires Valid()
      modifies this, room
      ensures edges == old(edges) && numSides == old(numSides) && arenaRadius == old(arenaRadius) && mode == old(mode)
      ensures Valid()
      ensures room.State() == Tick(old(room.State()), edges, old(prevPaddlePositions), arenaRadius, randomGoal, randomFar, m)
      ensures old(room.phase) == Playing ==> prevPaddlePositions == RecordPositions(old(prevPaddlePositions), room.players)
      ensures old(room.phase) != Playing ==> prevPaddlePositions == old(prevPaddlePositions)
    {
      if room.phase != Playing {
        return;
      }
      room.ball := Advance(room.ball);
      CheckCollisions(randomGoal, m);
      var dist := Hypot(m, room.ball.x, room.ball.y);
      if dist > arenaRadius * 1.5 {
        ResetBall(randomFar, m);
      }
      RecordPaddlePositions();
    }
  }
}
