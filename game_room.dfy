/**
 * The older all-in-one classic room (server/src/rooms/GameRoom.ts): one
 * class that holds the Colyseus state (players, phase, winner, ball) and the
 * room's own bookkeeping (sides, previous paddle positions, side owners,
 * announced clips), with the message handlers, the ready check, the match
 * start, the tick and the win check written out in it.
 *
 * Its statements are those of the classic room split across BaseGameRoom.ts
 * and ClassicGameRoom.ts, so each method here is proved against the same
 * value-level descriptions (`AfterLeave`, `WinCheck`, `ResetBallValue`,
 * `VisitEdge`, `WalkEdges`, `Tick`); the room itself is its own class with
 * its own fields.  There is no `set_name` handler in this room.
 *
 * GameRoom.ts imports ARENA_RADIUS, MAX_BALL_SPEED and PADDLE_WIDTH_RATIO
 * (the `myrto` values 350, 14 and 0.35); the model uses the CLASSIC_*
 * constants, which have the same values.
 */
module SingleClassRoom {
  import opened RealMath
  import opened Wrappers
  import opened Types
  import opened Constants
  import opened Physics
  import opened Geometry
  import opened BaseRoom
  import opened ClassicRoom
  import ClassicSimulation
  import AudioStore

  /** What the room keeps besides the synchronised state. */
  datatype Extras = Extras(
    audioSessionIds: set<string>,
    maxPlayers: nat,
    numSides: nat,
    arenaRadius: real,
    edges: seq<Edge>,
    prevPaddlePositions: map<string, real>,
    playersByEdge: map<int, nat>)

  /** The record `onJoin` builds: `PlayerSchema` with the join index as colour, `DEFAULT_LIVES` and the paddle in the middle. */
  function NewPlayer(sessionId: string, requested: Option<string>, idx: nat): (p: ClassicPlayer)
    ensures p.sessionId == sessionId && p.name == JoinName(requested, idx) && p.colorIndex == idx
    ensures p.lives == DEFAULT_LIVES && !p.eliminated && !p.ready
    ensures p.mode.edgeIndex == 0 && p.mode.paddlePosition == 0.5
  {
    RoomPlayer(sessionId, JoinName(requested, idx), DEFAULT_LIVES, false, false, idx, ClassicFields(0, 0.5))
  }

  /** The players once the k-th in map order has been given side `assignments[k]`. */
  function Assigned(ps: seq<ClassicPlayer>, assignments: seq<nat>): (r: seq<ClassicPlayer>)
    requires |assignments| == |ps|
    ensures |r| == |ps|
    ensures forall k :: 0 <= k < |ps| ==> r[k] == ps[k].(mode := ps[k].mode.(edgeIndex := assignments[k]))
  {
    seq(|ps|, k requires 0 <= k < |ps| => ps[k].(mode := ps[k].mode.(edgeIndex := assignments[k])))
  }

  /**
   * The arena's assignment seats every player on a side of its own: the
   * session ids stay distinct, every side index exists, and no two players
   * share a side.
   */
  lemma AssignedSeatsApart(ps: seq<ClassicPlayer>, edges: seq<Edge>)
    requires DistinctSessions(ps) && |edges| == GetArenaConfig(|ps|).numSides
    ensures var r := Assigned(ps, GetArenaConfig(|ps|).edgeAssignments);
      && DistinctSessions(r) && Covered(r, edges)
      && forall j, k :: 0 <= j < k < |r| ==> r[j].mode.edgeIndex != r[k].mode.edgeIndex
  {
    var r := Assigned(ps, GetArenaConfig(|ps|).edgeAssignments);
    assert forall k :: 0 <= k < |r| ==> r[k].sessionId == ps[k].sessionId;
  }

  class GameRoom {
    const roomId: string
    var players: seq<ClassicPlayer>
    var phase: RoomPhase
    var winnerId: string
    var winnerName: string
    /** `state.ball.x`, `state.ball.y`, `ballVx`, `ballVy`. */
    var ball: BallState
    var sent: seq<Broadcast>
    var audioSessionIds: set<string>
    var maxPlayers: nat
    var numSides: nat
    var arenaRadius: real
    var edges: seq<Edge>
    var prevPaddlePositions: map<string, real>
    var playersByEdge: map<int, nat>

    /** Session ids stay distinct, and during play every player's side exists. */
    ghost predicate Valid()
      reads this
    {
      DistinctSessions(players) && (phase == Playing ==> |edges| > 0 && Covered(players, edges))
    }

    function State(): ClassicState
      reads this
    {
      RoomState(players, phase, winnerId, winnerName, ball, sent)
    }

    function Rest(): Extras
      reads this
    {
      Extras(audioSessionIds, maxPlayers, numSides, arenaRadius, edges, prevPaddlePositions, playersByEdge)
    }

    /**
     * The state `startGame` leaves behind for the players `before`: phase
     * "playing", the arena for their number, the k-th player on side
     * `edgeAssignments[k]`, and the ball reset towards a live player.
     */
    ghost predicate Started(before: seq<ClassicPlayer>, random: real, m: Env)
      reads this
    {
      var config := GetArenaConfig(|before|);
      && phase == Playing && numSides == config.numSides && arenaRadius == CLASSIC_ARENA_RADIUS
      && |edges| == numSides && IsClosedPolygon(edges)
      && players == Assigned(before, config.edgeAssignments)
      && 0.0 <= random < 1.0 && Covered(players, edges)
      && ball == ResetBallValue(players, edges, random, m)
    }

    /** The schema's defaults, then `onCreate`. */
    constructor(roomId: string)
      ensures Valid() && this.roomId == roomId
      ensures State() == RoomState([], Waiting, "", "", BallState(0.0, 0.0, 0.0, 0.0), [])
      ensures Rest() == Extras({}, MAX_PLAYERS, 0, CLASSIC_ARENA_RADIUS, [], map[], map[])
    {
      this.roomId := roomId;
      players := [];
      phase := Waiting;
      winnerId := "";
      winnerName := "";
      ball := BallState(0.0, 0.0, 0.0, 0.0);
      sent := [];
      audioSessionIds := {};
      maxPlayers := MAX_PLAYERS;
      numSides := 0;
      arenaRadius := 350.0;
      edges := [];
      prevPaddlePositions := map[];
      playersByEdge := map[];
    }

    /** `paddle_input`: a live player's paddle takes the sent position, clamped to [0, 1], during play. */
    method PaddleInput(sessionId: string, position: real)
      requires Valid()
      modifies this
      ensures Valid() && Rest() == old(Rest())
      ensures State() == old(State()).(players := players)
      ensures var k := Find(old(players), sessionId);
        if k.Some? && !old(players)[k.value].eliminated && old(phase) == Playing then
          var p := old(players)[k.value];
          players == old(players)[k.value := p.(mode := p.mode.(paddlePosition := Clamp01(position)))]
          && 0.0 <= players[k.value].mode.paddlePosition <= 1.0
        else players == old(players)
    {
      var k := Find(players, sessionId);
      if k.Some? && !players[k.value].eliminated && phase == Playing {
        var p := players[k.value];
        var q := p.(mode := p.mode.(paddlePosition := Clamp01(position)));
        Clamp01Facts(position);
        UpdateKeepsDistinct(players, k.value, q);
        players := players[k.value := q];
        assert forall j :: 0 <= j < |players| ==> players[j].mode.edgeIndex == old(players)[j].mode.edgeIndex;
      }
    }

    /**
     * `player_ready`: in the lobby a known player's flag flips and the ready
     * check runs, which starts the game once at least `MIN_PLAYERS` players
     * are all ready; otherwise nothing changes.
     */
    method PlayerReady(sessionId: string, random: real, m: Env)
      requires Valid() && Sound(m) && 0.0 <= random < 1.0
      modifies this
      ensures Valid()
      ensures var k := Find(old(players), sessionId);
        if k.Some? && old(phase) == Waiting then
          var toggled := old(players)[k.value := old(players)[k.value].(ready := !old(players)[k.value].ready)];
          && (ShouldStart(toggled) ==> Started(toggled, random, m) && sent == old(sent))
          && (!ShouldStart(toggled) ==> State() == old(State()).(players := toggled) && Rest() == old(Rest()))
        else State() == old(State()) && Rest() == old(Rest())
    {
      var k := Find(players, sessionId);
      if k.Some? && phase == Waiting {
        var p := players[k.value];
        UpdateKeepsDistinct(players, k.value, p.(ready := !p.ready));
        players := players[k.value := p.(ready := !p.ready)];
        CheckAllReady(random, m);
      }
    }

    /** `audio_uploaded`: remember the sender's clip and tell the others. */
    method AudioUploaded(sessionId: string)
      modifies this
      ensures State() == old(State()).(sent := old(sent) + [AudioReady(sessionId)])
      ensures Rest() == old(Rest()).(audioSessionIds := old(audioSessionIds) + {sessionId})
    {
      audioSessionIds := audioSessionIds + {sessionId};
      sent := sent + [AudioReady(sessionId)];
    }

    /**
     * `onJoin`: the newcomer's record is stored under its session id, with
     * the join index as colour; the sessions whose clips it is sent are
     * returned.
     */
    method OnJoin(sessionId: string, requested: Option<string>) returns (replayed: set<string>)
      requires Valid()
      modifies this
      ensures Valid() && Rest() == old(Rest()) && replayed == audioSessionIds
      ensures State() == old(State()).(players := Put(old(players), NewPlayer(sessionId, requested, |old(players)|)))
      ensures Find(players, sessionId).Some? && players[Find(players, sessionId).value] == NewPlayer(sessionId, requested, |old(players)|)
    {
      var idx := |players|;
      var player := NewPlayer(sessionId, requested, idx);
      PutFacts(players, player);
      ghost var before := players;
      players := Put(players, player);
      assert forall k :: 0 <= k < |players| ==> players[k] == player || (k < |before| && players[k] == before[k]);
      replayed := audioSessionIds;
    }

    /** `onLeave`: eliminated with no lives during play, then the win check; deleted otherwise. */
    method OnLeave(sessionId: string)
      requires Valid()
      modifies this
      ensures Valid() && Rest() == old(Rest())
      ensures State() == AfterLeave(old(State()), sessionId)
    {
      var k := Find(players, sessionId);
      if k.None? {
        return;
      }
      if phase == Playing {
        ghost var s := State();
        LeaveKeepsSeats(s, sessionId, edges);
        UpdateKeepsDistinct(players, k.value, players[k.value].(eliminated := true, lives := 0));
        players := players[k.value := players[k.value].(eliminated := true, lives := 0)];
        CheckWinCondition();
      } else {
        RemoveFacts(players, sessionId);
        players := Remove(players, sessionId);
      }
    }

    /** `onDispose`: every clip stored under this room's id is dropped. */
    method OnDispose(store: AudioStore.AudioStore)
      modifies store
      ensures store.clips == AudioStore.WithoutRoom(old(store.clips), roomId)
    {
      store.ClearRoom(roomId);
    }

    /** `checkAllReady`: with at least `MIN_PLAYERS` players, all of them ready, the game starts; otherwise nothing happens. */
    method CheckAllReady(random: real, m: Env)
      requires DistinctSessions(players) && Sound(m) && 0.0 <= random < 1.0
      modifies this
      ensures DistinctSessions(players)
      ensures ShouldStart(old(players)) ==> Valid() && Started(old(players), random, m) && sent == old(sent)
      ensures !ShouldStart(old(players)) ==> State() == old(State()) && Rest() == old(Rest())
    {
      if |players| < MIN_PLAYERS {
        return;
      }
      var allReady := true;
      for i := 0 to |players|
        invariant allReady <==> forall k :: 0 <= k < i ==> players[k].ready
      {
        if !players[i].ready {
          allReady := false;
        }
      }
      if allReady {
        StartGame(random, m);
      }
    }

    /** The assignment loop of `startGame`: the k-th player in map order takes side `assignments[k]`. */
    method AssignEdges(assignments: seq<nat>)
      requires |assignments| == |players|
      modifies this
      ensures State() == old(State()).(players := Assigned(old(players), assignments)) && Rest() == old(Rest())
    {
      ghost var before := players;
      var idx := 0;
      while idx < |players|
        invariant State() == old(State()).(players := players) && Rest() == old(Rest())
        invariant idx <= |players| == |before|
        invariant forall k :: 0 <= k < idx ==>
          players[k] == before[k].(mode := before[k].mode.(edgeIndex := assignments[k]))
        invariant forall k :: idx <= k < |players| ==> players[k] == before[k]
        decreases |players| - idx
      {
        var p := players[idx];
        players := players[idx := p.(mode := p.mode.(edgeIndex := assignments[idx]))];
        idx := idx + 1;
      }
    }

    /**
     * `startGame`: the arena for the number of players, the phase to
     * "playing", the k-th player in map order to `edgeAssignments[k]`, and a
     * ball reset; no two players share a side.
     */
    method StartGame(random: real, m: Env)
      requires DistinctSessions(players) && Sound(m) && 0.0 <= random < 1.0 && |players| >= MIN_PLAYERS
      modifies this
      ensures Valid() && Started(old(players), random, m)
      ensures forall j, k :: 0 <= j < k < |players| ==> players[j].mode.edgeIndex != players[k].mode.edgeIndex
      ensures sent == old(sent) && winnerId == old(winnerId) && winnerName == old(winnerName)
      ensures audioSessionIds == old(audioSessionIds) && maxPlayers == old(maxPlayers)
      ensures prevPaddlePositions == old(prevPaddlePositions) && playersByEdge == old(playersByEdge)
    {
      SetUpArena(m);
      ResetBall(random, m);
    }

    /** The part of `startGame` before the ball reset: arena, phase and seats. */
    method SetUpArena(m: Env)
      requires DistinctSessions(players) && Sound(m) && |players| >= MIN_PLAYERS
      modifies this
      ensures var config := GetArenaConfig(|old(players)|);
        && phase == Playing && numSides == config.numSides && arenaRadius == CLASSIC_ARENA_RADIUS
        && |edges| == numSides && IsClosedPolygon(edges)
        && players == Assigned(old(players), config.edgeAssignments)
      ensures DistinctSessions(players) && Covered(players, edges) && |edges| > 0
      ensures forall j, k :: 0 <= j < k < |players| ==> players[j].mode.edgeIndex != players[k].mode.edgeIndex
      ensures ball == old(ball) && sent == old(sent) && winnerId == old(winnerId) && winnerName == old(winnerName)
      ensures audioSessionIds == old(audioSessionIds) && maxPlayers == old(maxPlayers)
      ensures prevPaddlePositions == old(prevPaddlePositions) && playersByEdge == old(playersByEdge)
    {
      ghost var before := players;
      var config := GetArenaConfig(|players|);
      numSides := config.numSides;
      arenaRadius := CLASSIC_ARENA_RADIUS;
      phase := Playing;
      edges := ComputeEdges(config.numSides, arenaRadius, m);
      AssignEdges(config.edgeAssignments);
      AssignedSeatsApart(before, edges);
    }

    /** `gameLoop`: outside play nothing happens; otherwise move, walk the sides, reset a ball that flew off, record the paddles. */
    method GameLoop(randomGoal: real, randomFar: real, m: Env)
      requires SqrtSound(m) && TrigSound(m) && 0.0 <= randomGoal < 1.0 && 0.0 <= randomFar < 1.0
      requires Valid()
      modifies this
      ensures edges == old(edges) && numSides == old(numSides) && arenaRadius == old(arenaRadius)
      ensures Valid()
      ensures State() == Tick(old(State()), edges, old(prevPaddlePositions), arenaRadius, randomGoal, randomFar, m)
      ensures audioSessionIds == old(audioSessionIds) && maxPlayers == old(maxPlayers)
      ensures old(phase) == Playing ==> prevPaddlePositions == RecordPositions(old(prevPaddlePositions), players)
      ensures old(phase) != Playing ==> Rest() == old(Rest())
    {
      if phase != Playing {
        return;
      }
      ball := Advance(ball);
      CheckCollisions(randomGoal, m);
      var dist := Hypot(m, ball.x, ball.y);
      if dist > arenaRadius * 1.5 {
        ResetBall(randomFar, m);
      }
      RecordPaddlePositions();
    }

    /** The end of `gameLoop`: every player's current paddle position is recorded for the next tick's spin. */
    method RecordPaddlePositions()
      modifies this
      ensures State() == old(State())
      ensures Rest() == old(Rest()).(prevPaddlePositions := RecordPositions(old(prevPaddlePositions), players))
    {
      var ps := players;
      var recorded := prevPaddlePositions;
      for k := 0 to |ps|
        invariant recorded == RecordPositions(old(prevPaddlePositions), ps[..k])
      {
        assert ps[..k + 1][..k] == ps[..k];
        recorded := recorded[ps[k].sessionId := ps[k].mode.paddlePosition];
      }
      assert ps[..|ps|] == ps;
      prevPaddlePositions := recorded;
    }

    /** `resetBall`: back to the centre and aimed at a random live player's side, or launched at a random angle. */
    method ResetBall(random: real, m: Env)
      requires 0.0 <= random < 1.0 && Covered(players, edges)
      modifies this
      ensures Rest() == old(Rest())
      ensures State() == old(State()).(ball := ResetBallValue(old(players), edges, random, m))
    {
      ball := ball.(x := 0.0, y := 0.0);
      var alivePlayers := CollectAlive(players);
      if |alivePlayers| > 0 {
        var target := alivePlayers[PickIndex(random, |alivePlayers|)];
        AliveAt(players, PickIndex(random, |alivePlayers|));
        var edge := edges[target.mode.edgeIndex];
        var v := AimAt(edge.midpoint, m);
        ball := ball.(vx := v.x, vy := v.y);
      } else {
        var v := RandomLaunch(random, m);
        ball := ball.(vx := v.x, vy := v.y);
      }
    }

    /** `checkCollisions`: the sides in order, against the position captured before the walk, up to the first goal. */
    method CheckCollisions(random: real, m: Env)
      requires SqrtSound(m) && TrigSound(m) && 0.0 <= random < 1.0
      requires DistinctSessions(players) && Covered(players, edges)
      modifies this
      ensures Rest() == old(Rest()).(playersByEdge := EdgeOwners(old(players), prevPaddlePositions))
      ensures DistinctSessions(players) && Covered(players, edges)
      ensures State() == WalkEdges(old(State()), edges, playersByEdge, prevPaddlePositions, old(ball.x), old(ball.y), 0, random, m)
    {
      BuildPlayersByEdge();
      var px := ball.x;
      var py := ball.y;
      ghost var start := State();
      ghost var rest := Rest();
      ghost var walk := WalkEdges(start, edges, playersByEdge, prevPaddlePositions, px, py, 0, random, m);

      var i := 0;
      while i < |edges|
        invariant Rest() == rest
        invariant DistinctSessions(players) && SameSeats(start.players, players)
        invariant Covered(players, edges) && OwnersWithin(playersByEdge, |players|)
        invariant WalkEdges(State(), edges, playersByEdge, prevPaddlePositions, px, py, i, random, m) == walk
        decreases |edges| - i
      {
        ghost var before := State();
        var stop := TestEdge(i, px, py, random, m);
        SameSeatsFacts(before.players, players, edges);
        SameSeatsTrans(start.players, before.players, players);
        if stop {
          return;
        }
        i := i + 1;
      }
    }

    /** `buildPlayersByEdge`: each side to the last player in map order seated on it. */
    method BuildPlayersByEdge()
      modifies this
      ensures State() == old(State())
      ensures Rest() == old(Rest()).(playersByEdge := EdgeOwners(players, prevPaddlePositions))
      ensures OwnersWithin(playersByEdge, |players|)
    {
      playersByEdge := ClassicSimulation.BuildPlayersByEdge(Seats(players, prevPaddlePositions));
    }

    /** Testing side `i` against the captured position `(px, py)`: the body of the loop in `checkCollisions`. */
    method TestEdge(i: nat, px: real, py: real, random: real, m: Env) returns (stop: bool)
      requires SqrtSound(m) && TrigSound(m) && i < |edges| && 0.0 <= random < 1.0
      requires DistinctSessions(players) && Covered(players, edges) && OwnersWithin(playersByEdge, |players|)
      modifies this
      ensures Rest() == old(Rest()) && DistinctSessions(players)
      ensures Visit(State(), stop) == VisitEdge(old(State()), edges, playersByEdge, prevPaddlePositions, px, py, i, random, m)
    {
      var edge := edges[i];
      if i !in playersByEdge || players[playersByEdge[i]].eliminated {
        if BallNearSegment(px, py, edge.start, edge.end, ClassicSimulation.BALL_HIT_DIST_SQ) {
          ReflectBall(edge.normal, m);
          PushBallIn(edge);
        }
        return false;
      }
      var k := playersByEdge[i];
      var player := players[k];
      var endpoints := GetPaddleEndpoints(player.mode.paddlePosition, edge, CLASSIC_PADDLE_WIDTH_RATIO, m);
      if BallNearSegment(px, py, endpoints.start, endpoints.end, ClassicSimulation.BALL_HIT_DIST_SQ) {
        ReflectBall(edge.normal, m);
        ApplyPaddleSpin(player, edge, m);
        PushBallIn(edge);
        sent := sent + [PaddleHitBy(player.sessionId)];
        return false;
      }
      if BallPassedEdge(px, py, BALL_RADIUS, edge) {
        ScoreGoal(k, random, m);
        return true;
      }
      return false;
    }

    /** `reflectBall`: bounce off a side, the speed capped at `MAX_BALL_SPEED`. */
    method ReflectBall(normal: Vec2, m: Env)
      requires SqrtSound(m)
      modifies this
      ensures State() == old(State()).(ball := ClassicSimulation.ReflectBall(old(ball), normal, m)) && Rest() == old(Rest())
      ensures ball.x == old(ball.x) && ball.y == old(ball.y) && NormSq(ball.vx, ball.vy) <= Sq(CLASSIC_MAX_BALL_SPEED)
    {
      ball := ClassicSimulation.ReflectBall(ball, normal, m);
    }

    /** `applyPaddleSpin`: the paddle's movement since the last tick along the side, times 0.6, is added, then the speed is capped. */
    method ApplyPaddleSpin(player: ClassicPlayer, edge: Edge, m: Env)
      requires SqrtSound(m)
      modifies this
      ensures State() == old(State()).(ball := ClassicSimulation.ApplyPaddleSpin(old(ball), SpinPlayer(prevPaddlePositions, player), edge, m))
      ensures Rest() == old(Rest())
      ensures ball.x == old(ball.x) && ball.y == old(ball.y) && NormSq(ball.vx, ball.vy) <= Sq(CLASSIC_MAX_BALL_SPEED)
    {
      ball := ClassicSimulation.ApplyPaddleSpin(ball, SpinPlayer(prevPaddlePositions, player), edge, m);
    }

    /** `pushBallIn`: the ball moves two units against the side's outward normal. */
    method PushBallIn(edge: Edge)
      modifies this
      ensures State() == old(State()).(ball := ClassicSimulation.PushBallIn(old(ball), edge)) && Rest() == old(Rest())
      ensures ball.x == old(ball.x) - 2.0 * edge.normal.x && ball.y == old(ball.y) - 2.0 * edge.normal.y
      ensures ball.vx == old(ball.vx) && ball.vy == old(ball.vy)
    {
      ball := ClassicSimulation.PushBallIn(ball, edge);
    }

    /** The goal branch of `checkCollisions`: one life lost, elimination and the win check at none left, then `resetBall`. */
    method ScoreGoal(k: nat, random: real, m: Env)
      requires k < |players| && 0.0 <= random < 1.0
      requires DistinctSessions(players) && Covered(players, edges)
      modifies this
      ensures Rest() == old(Rest()) && DistinctSessions(players)
      ensures State() == Score(old(State()), k, edges, random, m)
    {
      ghost var s := State();
      var p := players[k];
      var lost := p.(lives := p.lives - 1);
      UpdateKeepsDistinct(players, k, lost);
      players := players[k := lost];
      sent := sent + [PlayerScored(p.sessionId)];
      if lost.lives <= 0 {
        UpdateKeepsDistinct(players, k, lost.(eliminated := true));
        players := players[k := lost.(eliminated := true)];
        CheckWinCondition();
      }
      assert State() == Scored(s, k);
      ScoredSameSeats(s, k);
      SameSeatsFacts(s.players, players, edges);
      ResetBall(random, m);
    }

    /** `checkWinCondition`: at most one player left ends the game, naming the survivor or "Nobody". */
    method CheckWinCondition()
      modifies this
      ensures State() == WinCheck(old(State())) && Rest() == old(Rest())
    {
      var alivePlayers := CollectAlive(players);
      if |alivePlayers| <= 1 {
        var lastAlive: Option<ClassicPlayer> := if |alivePlayers| > 0 then Some(alivePlayers[0]) else None;
        EndGame(lastAlive);
      }
    }

    /** The end of `checkWinCondition`: phase "ended", the winner's id and name (or "" and "Nobody"), and the `game_over` broadcast. */
    method EndGame(lastAlive: Option<ClassicPlayer>)
      modifies this
      ensures var id := if lastAlive.Some? then lastAlive.value.sessionId else "";
        var name := if lastAlive.Some? then lastAlive.value.name else "Nobody";
        State() == old(State()).(phase := Ended, winnerId := id, winnerName := name, sent := old(sent) + [GameOver(id, name)])
      ensures Rest() == old(Rest())
    {
      phase := Ended;
      winnerId := if lastAlive.Some? then lastAlive.value.sessionId else "";
      winnerName := if lastAlive.Some? then lastAlive.value.name else "Nobody";
      sent := sent + [GameOver(winnerId, winnerName)];
    }
  }
}
