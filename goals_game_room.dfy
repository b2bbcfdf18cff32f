/**
 * The goals-mode room (server/src/rooms/GoalsGameRoom.ts): each player
 * guards a goal on a ring around the centre with a paddle orbiting it,
 * steered by held left/right keys.  Every tick steers the paddles, moves
 * the ball, bounces it off the round wall, and tests each live player in
 * turn for a save or a goal; a goal costs a life and re-launches the ball
 * from the centre, and the walk carries on with the next player.
 */
module GoalsRoom {
  import opened RealMath
  import opened Wrappers
  import opened Types
  import opened Constants
  import opened Physics
  import opened GoalsPhysics
  import opened BaseRoom
  import GoalsSimulation

  /** The fields `GoalsPlayerSchema` adds (its `paddleAngleVelocity` is never written). */
  datatype GoalsFields = GoalsFields(goalAngle: real, paddleAngle: real)

  type GoalsPlayer = RoomPlayer<GoalsFields>

  type GoalsState = RoomState<GoalsFields>

  /** `createPlayer`: `GOALS_LIVES`, both angles at the schema's default 0, the join index as colour. */
  function CreatePlayer(sessionId: string, name: string, index: nat): GoalsPlayer {
    RoomPlayer(sessionId, name, GOALS_LIVES, false, false, index, GoalsFields(0.0, 0.0))
  }

  /** A `paddle_input` payload with a boolean `left` and a boolean `right`. */
  datatype Keys = Keys(left: bool, right: bool)

  // ---------------------------------------------------------------------
  // Steering

  /** `applyInputs` for one paddle: a target half a radian to the held side, approached by `GOALS_ORBIT_ACCEL`. */
  function Steer(angle: real, keys: Keys): real {
    var target := if keys.left then angle - GOALS_ORBIT_SPEED else angle;
    var target' := if keys.right then target + GOALS_ORBIT_SPEED else target;
    angle + (target' - angle) * GOALS_ORBIT_ACCEL
  }

  /** No key or both keys hold the paddle still; one key turns it 0.09 radians that way. */
  lemma SteerFacts(angle: real, keys: Keys)
    ensures keys.left == keys.right ==> Steer(angle, keys) == angle
    ensures keys.left && !keys.right ==> Steer(angle, keys) == angle - GOALS_ORBIT_SPEED * GOALS_ORBIT_ACCEL
    ensures !keys.left && keys.right ==> Steer(angle, keys) == angle + GOALS_ORBIT_SPEED * GOALS_ORBIT_ACCEL
    ensures Abs(Steer(angle, keys) - angle) <= 0.09
  {
  }

  /** A live player with a stored input turns its paddle; anyone else is left alone. */
  function SteerPlayer(p: GoalsPlayer, inputs: map<string, Keys>): GoalsPlayer {
    if !p.eliminated && p.sessionId in inputs then p.(mode := p.mode.(paddleAngle := Steer(p.mode.paddleAngle, inputs[p.sessionId])))
    else p
  }

  /** Every player after `applyInputs`. */
  function SteerAll(ps: seq<GoalsPlayer>, inputs: map<string, Keys>): (r: seq<GoalsPlayer>)
    ensures |r| == |ps| && forall k :: 0 <= k < |ps| ==> r[k] == SteerPlayer(ps[k], inputs)
  {
    seq(|ps|, k requires 0 <= k < |ps| => SteerPlayer(ps[k], inputs))
  }

  /**
   * Steering turns paddles only, by at most 0.09 radians a tick, and never
   * the paddle of an eliminated player or of one who has sent no input.
   */
  lemma SteerAllFacts(ps: seq<GoalsPlayer>, inputs: map<string, Keys>, k: nat)
    requires k < |ps|
    ensures var q := SteerAll(ps, inputs)[k];
      && q == ps[k].(mode := ps[k].mode.(paddleAngle := q.mode.paddleAngle))
      && Abs(q.mode.paddleAngle - ps[k].mode.paddleAngle) <= 0.09
      && (ps[k].eliminated || ps[k].sessionId !in inputs ==> q == ps[k])
  {
    if !ps[k].eliminated && ps[k].sessionId in inputs {
      SteerFacts(ps[k].mode.paddleAngle, inputs[ps[k].sessionId]);
    }
  }

  // ---------------------------------------------------------------------
  // Goals and ball resets

  /** The centre of a player's goal: on the goal ring at its goal angle. */
  function GoalOf(p: GoalsPlayer, m: Env): Vec2 {
    GoalsSimulation.GoalCentre(GoalsSimulation.GoalsSimPlayer(p.mode.goalAngle, p.mode.paddleAngle, p.eliminated),
                               GOALS_GOAL_RING_RADIUS, m)
  }

  /** Every goal lies on the goal ring, 259 from the centre. */
  lemma GoalOnRing(p: GoalsPlayer, m: Env)
    requires TrigSound(m)
    ensures NormSq(0.0 - GoalOf(p, m).x, 0.0 - GoalOf(p, m).y) == Sq(GOALS_GOAL_RING_RADIUS)
  {
    var c := m.cos(p.mode.goalAngle);
    var s := m.sin(p.mode.goalAngle);
    var r := GOALS_GOAL_RING_RADIUS;
    assert Sq(0.0 - c * r) == Sq(c) * Sq(r);
    assert Sq(0.0 - s * r) == Sq(s) * Sq(r);
    assert Sq(c) + Sq(s) == 1.0;
  }

  /** `resetBall`: back to the centre, aimed at a randomly drawn live player's goal, or launched at random when nobody is left. */
  function ResetBallValue(ps: seq<GoalsPlayer>, random: real, m: Env): BallState
    requires 0.0 <= random < 1.0
  {
    var alive := Alive(ps);
    if |alive| > 0 then
      var v := AimAt(GoalOf(alive[PickIndex(random, |alive|)], m), m);
      BallState(0.0, 0.0, v.x, v.y)
    else
      var v := RandomLaunch(random, m);
      BallState(0.0, 0.0, v.x, v.y)
  }

  /** With a live player left, the reset aims the ball from the centre at that player's goal, at `BALL_SPEED`. */
  lemma ResetAimsAtLiveGoal(ps: seq<GoalsPlayer>, random: real, m: Env)
    requires 0.0 <= random < 1.0 && SqrtSound(m) && TrigSound(m)
    requires exists k :: 0 <= k < |ps| && !ps[k].eliminated
    ensures var b := ResetBallValue(ps, random, m);
      && b.x == 0.0 && b.y == 0.0 && NormSq(b.vx, b.vy) == Sq(BALL_SPEED)
      && exists k :: 0 <= k < |ps| && !ps[k].eliminated && Vec2(b.vx, b.vy) == AimAt(GoalOf(ps[k], m), m)
  {
    var j :| 0 <= j < |ps| && !ps[j].eliminated;
    SomeAlive(ps, j);
    var alive := Alive(ps);
    var pick := PickIndex(random, |alive|);
    var target := alive[pick];
    AliveAt(ps, pick);
    var idx :| 0 <= idx < |ps| && ps[idx] == target;
    var g := GoalOf(target, m);
    GoalOnRing(target, m);
    assert g != Vec2(0.0, 0.0);
    AimAtFacts(g, m);
  }

  /** With nobody left, the reset launches the ball from the centre at `BALL_SPEED`. */
  lemma ResetWithNobodyLeft(ps: seq<GoalsPlayer>, random: real, m: Env)
    requires 0.0 <= random < 1.0 && TrigSound(m)
    requires forall k :: 0 <= k < |ps| ==> ps[k].eliminated
    ensures var b := ResetBallValue(ps, random, m);
      b.x == 0.0 && b.y == 0.0 && NormSq(b.vx, b.vy) == Sq(BALL_SPEED)
  {
    NoSurvivor(ps);
    RandomLaunchSpeed(random, m);
  }

  // ---------------------------------------------------------------------
  // The walk over the players

  /** A goal against player `k`, then `resetBall`. */
  function Score(s: GoalsState, k: nat, random: real, m: Env): GoalsState
    requires k < |s.players| && 0.0 <= random < 1.0
  {
    var scored := Scored(s, k);
    scored.(ball := ResetBallValue(scored.players, random, m))
  }

  /** The room as the walk leaves it, and the tick's working copy of the ball (`ballState`). */
  datatype Walk = Walk(state: GoalsState, ball: BallState)

  /** Random draws in [0, 1), one for each reset the walk may need. */
  predicate Draws(randoms: seq<real>) {
    forall i :: 0 <= i < |randoms| ==> 0.0 <= randoms[i] < 1.0
  }

  /**
   * Player `k` of the `forEach`: skipped when eliminated; otherwise a save
   * (reported with `paddle_hit`), or a goal (the life lost, the ball reset
   * and copied back into the working copy), or nothing.
   */
  function VisitPlayer(w: Walk, k: nat, random: real, m: Env): (r: Walk)
    requires SqrtSound(m) && PiSound(m) && k < |w.state.players| && 0.0 <= random < 1.0
    ensures |r.state.players| == |w.state.players|
  {
    var p := w.state.players[k];
    if p.eliminated then w
    else
      var g := GoalOf(p, m);
      var c := PaddleCollision(w.ball, p.mode.paddleAngle, GOALS_PADDLE_ARC, g.x, g.y, GOALS_ORBIT_RADIUS, BALL_RADIUS, m);
      if c.hit then Walk(w.state.(sent := w.state.sent + [PaddleHitBy(p.sessionId)]), c.ball)
      else if CheckGoalsGoalCollision(w.ball.x, w.ball.y, g.x, g.y, GOALS_GOAL_RADIUS, GOALS_ORBIT_RADIUS, BALL_RADIUS, m) then
        ScoredFacts(w.state, k);
        var reset := Score(w.state, k, random, m);
        Walk(reset, reset.ball)
      else w
  }

  /** The `forEach` from player `k` on; player `i` uses draw `randoms[i]` if it is scored on. */
  function WalkPlayers(w: Walk, k: nat, randoms: seq<real>, m: Env): (r: Walk)
    requires SqrtSound(m) && PiSound(m) && Draws(randoms) && |randoms| == |w.state.players|
    ensures |r.state.players| == |w.state.players|
    decreases |randoms| - k
  {
    if k >= |randoms| then w
    else WalkPlayers(VisitPlayer(w, k, randoms[k], m), k + 1, randoms, m)
  }

  /** `gameLoop`: outside play nothing happens; otherwise steer, move, bounce off the wall, walk the players, cap the speed. */
  function Tick(s: GoalsState, inputs: map<string, Keys>, randoms: seq<real>, m: Env): GoalsState
    requires SqrtSound(m) && PiSound(m) && Draws(randoms) && |randoms| == |s.players|
  {
    if s.phase != Playing then s
    else
      var steered := s.(players := SteerAll(s.players, inputs));
      var moved := steered.(ball := Advance(steered.ball));
      var bounced := WallBounce(moved.ball, GOALS_ARENA_RADIUS, BALL_RADIUS, m).ball;
      var w := WalkPlayers(Walk(moved, bounced), 0, randoms, m);
      var v := ClampSpeed(w.ball.vx, w.ball.vy, GOALS_MAX_BALL_SPEED, m);
      w.state.(ball := BallState(w.ball.x, w.ball.y, v.x, v.y))
  }

  // ---------------------------------------------------------------------
  // Properties of the walk

  /** A ball at the centre is out of reach of every goal and paddle, since each goal is 259 away. */
  lemma CentreOutOfReach(p: GoalsPlayer, b: BallState, m: Env)
    requires SqrtSound(m) && PiSound(m) && TrigSound(m) && b.x == 0.0 && b.y == 0.0
    ensures var g := GoalOf(p, m);
      && !PaddleCollision(b, p.mode.paddleAngle, GOALS_PADDLE_ARC, g.x, g.y, GOALS_ORBIT_RADIUS, BALL_RADIUS, m).hit
      && !CheckGoalsGoalCollision(b.x, b.y, g.x, g.y, GOALS_GOAL_RADIUS, GOALS_ORBIT_RADIUS, BALL_RADIUS, m)
  {
    var g := GoalOf(p, m);
    GoalOnRing(p, m);
    SqrtCompare(m, NormSq(b.x - g.x, b.y - g.y), GOALS_ORBIT_RADIUS + BALL_RADIUS * 2.0);
  }

  /** From a ball at the centre, testing a player changes nothing. */
  lemma VisitFromCentre(w: Walk, k: nat, random: real, m: Env)
    requires SqrtSound(m) && PiSound(m) && TrigSound(m) && k < |w.state.players| && 0.0 <= random < 1.0
    requires w.ball.x == 0.0 && w.ball.y == 0.0
    ensures VisitPlayer(w, k, random, m) == w
  {
    CentreOutOfReach(w.state.players[k], w.ball, m);
  }

  /** From a ball at the centre, the rest of the walk changes nothing. */
  lemma {:induction false} WalkFromCentre(w: Walk, k: nat, randoms: seq<real>, m: Env)
    requires SqrtSound(m) && PiSound(m) && TrigSound(m) && Draws(randoms) && |randoms| == |w.state.players|
    requires w.ball.x == 0.0 && w.ball.y == 0.0
    ensures WalkPlayers(w, k, randoms, m) == w
    decreases |randoms| - k
  {
    if k < |randoms| {
      VisitFromCentre(w, k, randoms[k], m);
      WalkFromCentre(w, k + 1, randoms, m);
    }
  }

  /** Testing a player either leaves every player alone or is a goal against that live player, which re-centres the ball. */
  lemma VisitOutcome(w: Walk, k: nat, random: real, m: Env)
    requires SqrtSound(m) && PiSound(m) && k < |w.state.players| && 0.0 <= random < 1.0
    ensures var r := VisitPlayer(w, k, random, m);
      || r.state.players == w.state.players
      || (&& !w.state.players[k].eliminated
          && r.state.players == Scored(w.state, k).players
          && r.ball.x == 0.0 && r.ball.y == 0.0)
  {
  }

  /**
   * Although the walk goes on after a goal, a tick scores at most one goal:
   * the goal sends the ball back to the centre, out of every goal's reach.
   */
  lemma {:induction false} WalkScoresAtMostOnce(w: Walk, k: nat, randoms: seq<real>, m: Env)
    requires SqrtSound(m) && PiSound(m) && TrigSound(m) && Draws(randoms) && |randoms| == |w.state.players|
    ensures AtMostOneScored(w.state.players, WalkPlayers(w, k, randoms, m).state.players)
    decreases |randoms| - k
  {
    if k < |randoms| {
      var v := VisitPlayer(w, k, randoms[k], m);
      VisitOutcome(w, k, randoms[k], m);
      if v.state.players == w.state.players {
        WalkScoresAtMostOnce(v, k + 1, randoms, m);
      } else {
        ScoredFacts(w.state, k);
        WalkFromCentre(v, k + 1, randoms, m);
      }
    }
  }

  /** A tick scores on at most one player, by exactly one life, and leaves the ball no faster than `GOALS_MAX_BALL_SPEED`. */
  lemma TickFacts(s: GoalsState, inputs: map<string, Keys>, randoms: seq<real>, m: Env)
    requires SqrtSound(m) && PiSound(m) && TrigSound(m) && Draws(randoms) && |randoms| == |s.players|
    requires s.phase == Playing
    ensures AtMostOneScored(SteerAll(s.players, inputs), Tick(s, inputs, randoms, m).players)
    ensures var b := Tick(s, inputs, randoms, m).ball; NormSq(b.vx, b.vy) <= Sq(GOALS_MAX_BALL_SPEED)
  {
    var steered := s.(players := SteerAll(s.players, inputs));
    var moved := steered.(ball := Advance(steered.ball));
    var bounced := WallBounce(moved.ball, GOALS_ARENA_RADIUS, BALL_RADIUS, m).ball;
    WalkScoresAtMostOnce(Walk(moved, bounced), 0, randoms, m);
  }

  // ---------------------------------------------------------------------
  // The room

  class GoalsGameRoom {
    const room: BaseGameRoom<GoalsFields>
    var mode: string
    var arenaRadius: real
    var goalRingRadius: real
    var goalRadius: real
    var orbitRadius: real
    /** The last keys each player sent; kept until replaced. */
    var inputs: map<string, Keys>

    /** The schema's defaults, then `onCreate`. */
    constructor(roomId: string)
      ensures fresh(room) && room.Valid() && room.roomId == roomId && room.maxPlayers == MAX_PLAYERS
      ensures room.State() == RoomState([], Waiting, "", "", BallState(0.0, 0.0, 0.0, 0.0), [])
      ensures mode == "goals" && arenaRadius == GOALS_ARENA_RADIUS && goalRingRadius == GOALS_GOAL_RING_RADIUS
      ensures goalRadius == GOALS_GOAL_RADIUS && orbitRadius == GOALS_ORBIT_RADIUS && inputs == map[]
    {
      room := new BaseGameRoom<GoalsFields>(roomId);
      mode := "goals";
      arenaRadius := GOALS_ARENA_RADIUS;
      goalRingRadius := GOALS_GOAL_RING_RADIUS;
      goalRadius := GOALS_GOAL_RADIUS;
      orbitRadius := GOALS_ORBIT_RADIUS;
      inputs := map[];
    }

    /** `onJoin` with this mode's `createPlayer`. */
    method OnJoin(sessionId: string, requested: Option<string>) returns (replayed: set<string>)
      requires room.Valid()
      modifies room
      ensures room.Valid()
      ensures var idx := |old(room.players)|;
        room.players == Put(old(room.players), CreatePlayer(sessionId, JoinName(requested, idx), idx))
      ensures room.State() == old(room.State()).(players := room.players) && replayed == room.audioSessionIds
    {
      replayed := room.OnJoin(sessionId, requested, CreatePlayer);
    }

    /**
     * `paddle_input`: during play, a live player's well-formed keys replace
     * whatever that player sent before; anything else is ignored.
     */
    method PaddleInput(sessionId: string, data: Option<Keys>)
      requires room.Valid()
      modifies this
      ensures var k := Find(room.players, sessionId);
        if k.Some? && !room.players[k.value].eliminated && room.phase == Playing && data.Some? then
          inputs == old(inputs)[sessionId := data.value]
        else inputs == old(inputs)
    {
      var target := room.PaddleInputTarget(sessionId);
      if target.Some? && data.Some? {
        inputs := inputs[room.players[target.value].sessionId := data.value];
      }
    }

    /** `player_ready`, starting the game when the ready check passes. */
    method PlayerReady(sessionId: string, random: real, m: Env)
      requires room.Valid() && 0.0 <= random < 1.0
      modifies room
      ensures room.Valid()
      ensures old(room.phase) == Waiting && room.phase == Playing ==> |room.players| >= MIN_PLAYERS
      ensures old(room.phase) != Waiting ==> room.State() == old(room.State())
      ensures var k := Find(old(room.players), sessionId);
        if k.Some? && old(room.phase) == Waiting then
          var toggled := old(room.players)[k.value := old(room.players)[k.value].(ready := !old(room.players)[k.value].ready)];
          && (ShouldStart(toggled) ==>
                var slots := GetGoalsSlotAngles(|toggled|, m.pi);
                && room.phase == Playing && |room.players| == |toggled|
                && (forall j :: 0 <= j < |room.players| ==> room.players[j] == toggled[j].(mode := GoalsFields(slots[j], slots[j])))
                && room.ball == ResetBallValue(room.players, random, m)
                && room.sent == old(room.sent) && room.winnerId == old(room.winnerId) && room.winnerName == old(room.winnerName))
          && (!ShouldStart(toggled) ==> room.State() == old(room.State()).(players := toggled))
        else room.State() == old(room.State())
    {
      var start := room.PlayerReady(sessionId);
      if start {
        StartGame(random, m);
      }
    }

    /**
     * `startGame`: the phase to "playing", the k-th player in map order to
     * the k-th slot angle for both its goal and its paddle, and a ball reset.
     */
    method StartGame(random: real, m: Env)
      requires room.Valid() && 0.0 <= random < 1.0
      modifies room
      ensures room.Valid() && room.phase == Playing
      ensures var slots := GetGoalsSlotAngles(|room.players|, m.pi);
        && |room.players| == |old(room.players)|
        && (forall k :: 0 <= k < |room.players| ==>
              room.players[k] == old(room.players)[k].(mode := GoalsFields(slots[k], slots[k])))
      ensures room.ball == ResetBallValue(room.players, random, m)
      ensures room.sent == old(room.sent) && room.winnerId == old(room.winnerId) && room.winnerName == old(room.winnerName)
    {
      room.phase := Playing;
      var slots := GetGoalsSlotAngles(|room.players|, m.pi);
      ghost var before := room.players;
      var idx := 0;
      while idx < |room.players|
        invariant room.Valid() && room.phase == Playing
        invariant room.sent == old(room.sent) && room.winnerId == old(room.winnerId) && room.winnerName == old(room.winnerName)
        invariant idx <= |room.players| == |before| == |slots|
        invariant forall k :: 0 <= k < idx ==> room.players[k] == before[k].(mode := GoalsFields(slots[k], slots[k]))
        invariant forall k :: idx <= k < |room.players| ==> room.players[k] == before[k]
        decreases |room.players| - idx
      {
        var p := room.players[idx];
        var q := p.(mode := GoalsFields(slots[idx], slots[idx]));
        UpdateKeepsDistinct(room.players, idx, q);
        room.players := room.players[idx := q];
        idx := idx + 1;
      }
      ResetBall(random, m);
    }

    /** `resetBall`. */
    method ResetBall(random: real, m: Env)
      requires 0.0 <= random < 1.0
      modifies room
      ensures room.State() == old(room.State()).(ball := ResetBallValue(old(room.players), random, m))
      ensures room.Valid() <==> old(room.Valid())
    {
      room.ResetBallToCenter();
      var alivePlayers := CollectAlive(room.players);
      if |alivePlayers| > 0 {
        var target := alivePlayers[PickIndex(random, |alivePlayers|)];
        var goal := GoalOf(target, m);
        var v := AimAt(goal, m);
        room.ball := room.ball.(vx := v.x, vy := v.y);
      } else {
        room.LaunchBallRandom(random, m);
      }
    }

    /** `applyInputs`: each live player with a stored input turns its paddle. */
    method ApplyInputs()
      requires room.Valid()
      modifies room
      ensures room.Valid()
      ensures room.State() == old(room.State()).(players := SteerAll(old(room.players), inputs))
    {
      ghost var before := room.players;
      var idx := 0;
      while idx < |room.players|
        invariant room.Valid() && room.State() == old(room.State()).(players := room.players)
        invariant idx <= |room.players| == |before|
        invariant forall k :: 0 <= k < idx ==> room.players[k] == SteerPlayer(before[k], inputs)
        invariant forall k :: idx <= k < |room.players| ==> room.players[k] == before[k]
        decreases |room.players| - idx
      {
        var p := room.players[idx];
        if !p.eliminated && p.sessionId in inputs {
          var keys := inputs[p.sessionId];
          var target := p.mode.paddleAngle;
          if keys.left {
            target := target - GOALS_ORBIT_SPEED;
          }
          if keys.right {
            target := target + GOALS_ORBIT_SPEED;
          }
          var q := p.(mode := p.mode.(paddleAngle := p.mode.paddleAngle + (target - p.mode.paddleAngle) * GOALS_ORBIT_ACCEL));
          UpdateKeepsDistinct(room.players, idx, q);
          room.players := room.players[idx := q];
        }
        idx := idx + 1;
      }
      assert room.players == SteerAll(before, inputs);
    }

    /** The body of the `forEach` in `gameLoop` for player `k`, with `ballState` the tick's working copy of the ball. */
    method CheckPlayer(k: nat, ballState: GoalsBall, random: real, m: Env)
      requires SqrtSound(m) && PiSound(m) && k < |room.players| && 0.0 <= random < 1.0 && room.Valid()
      modifies room, ballState
      ensures room.Valid()
      ensures Walk(room.State(), ballState.Value()) == VisitPlayer(Walk(old(room.State()), old(ballState.Value())), k, random, m)
    {
      var player := room.players[k];
      if player.eliminated {
        return;
      }
      var goal := GoalOf(player, m);
      var saved := CheckGoalsPaddleCollision(ballState, player.mode.paddleAngle, GOALS_PADDLE_ARC, goal.x, goal.y,
                                             GOALS_ORBIT_RADIUS, BALL_RADIUS, m);
      if saved {
        room.sent := room.sent + [PaddleHitBy(player.sessionId)];
      } else if CheckGoalsGoalCollision(ballState.x, ballState.y, goal.x, goal.y, GOALS_GOAL_RADIUS, GOALS_ORBIT_RADIUS, BALL_RADIUS, m) {
        ScoreGoal(k, random, m);
        ballState.x := room.ball.x;
        ballState.y := room.ball.y;
        ballState.vx := room.ball.vx;
        ballState.vy := room.ball.vy;
      }
    }

    /** The goal branch of the `forEach` in `gameLoop`. */
    method ScoreGoal(k: nat, random: real, m: Env)
      requires k < |room.players| && 0.0 <= random < 1.0 && room.Valid()
      modifies room
      ensures room.Valid()
      ensures room.State() == Score(old(room.State()), k, random, m)
    {
      ghost var s := room.State();
      var player := room.players[k];
      var lost := player.(lives := player.lives - 1);
      UpdateKeepsDistinct(room.players, k, lost);
      room.players := room.players[k := lost];
      room.sent := room.sent + [PlayerScored(player.sessionId)];
      if lost.lives <= 0 {
        UpdateKeepsDistinct(room.players, k, lost.(eliminated := true));
        room.players := room.players[k := lost.(eliminated := true)];
        room.CheckWinCondition();
      }
      assert room.State() == Scored(s, k);
      ResetBall(random, m);
    }

    /** `gameLoop`. */
    method GameLoop(randoms: seq<real>, m: Env)
      requires SqrtSound(m) && PiSound(m) && Draws(randoms) && |randoms| == |room.players| && room.Valid()
      modifies room
      ensures room.Valid()
      ensures room.State() == Tick(old(room.State()), inputs, randoms, m)
    {
      if room.phase != Playing {
        return;
      }
      ApplyInputs();
      room.ball := Advance(room.ball);
      ghost var moved := room.State();

      var ballState := new GoalsBall(room.ball.x, room.ball.y, room.ball.vx, room.ball.vy);
      var _ := BounceOffCircularWall(ballState, GOALS_ARENA_RADIUS, BALL_RADIUS, m);
      ghost var walk := WalkPlayers(Walk(moved, ballState.Value()), 0, randoms, m);

      var k := 0;
      while k < |room.players|
        invariant room.Valid() && |room.players| == |randoms| && k <= |randoms|
        invariant WalkPlayers(Walk(room.State(), ballState.Value()), k, randoms, m) == walk
        modifies room, ballState
        decreases |randoms| - k
      {
        CheckPlayer(k, ballState, randoms[k], m);
        k := k + 1;
      }

      var clamped := ClampSpeed(ballState.vx, ballState.vy, GOALS_MAX_BALL_SPEED, m);
      room.ball := BallState(ballState.x, ballState.y, clamped.x, clamped.y);
    }
  }
}
