/**
 * The local classic game against bots (client/src/game/classic/ClassicGame.ts):
 * the player and bots defend sides of a regular polygon; a simulation tick
 * runs whenever the ticker has accumulated a whole frame, steering the
 * paddles, moving the ball, testing every side against the ball's
 * position at the start of the test, and relaunching a ball that flew off.
 * When the local player is eliminated the game stops at once with no
 * winner.  Drawing, the HUD text and audio are not modelled; randomness
 * comes in as draws of `Math.random()`.
 */
module LocalClassicGame {
  import opened RealMath
  import opened Wrappers
  import opened Types
  import opened Constants
  import opened Physics
  import opened Geometry
  import opened LocalMatch
  import Strings
  import ClientPaddle
  import ClientBall
  import ClassicSimulation
  import BaseRoom

  /** The part of the game a tick changes: players, ball, whether it runs, what `onGameOver` was told, the HUD flag. */
  datatype Match = Match(players: seq<LocalPlayer>, ball: BallState, running: bool, reports: seq<Option<string>>, hudDirty: bool)

  /** The sides, who defends which, the arena's radius, the keys held and the frame accumulator. */
  datatype Setting = Setting(edges: seq<Edge>, playersByEdge: map<nat, nat>, arenaRadius: real, keys: set<string>, tickAccumulator: real)

  /** Every player's side exists and every defended side names a player. */
  predicate Fits(ps: seq<LocalPlayer>, edges: seq<Edge>, owners: map<nat, nat>) {
    && (forall j :: 0 <= j < |ps| ==> ps[j].mode.edgeIndex < |edges|)
    && (forall e :: e in owners ==> owners[e] < |ps|)
  }

  /** Same players in the same seats (lives, paddles and bots may differ). */
  predicate SameSeats(a: seq<LocalPlayer>, b: seq<LocalPlayer>) {
    |a| == |b| && forall j :: 0 <= j < |a| ==> a[j].mode.edgeIndex == b[j].mode.edgeIndex
  }

  lemma SameSeatsFits(a: seq<LocalPlayer>, b: seq<LocalPlayer>, edges: seq<Edge>, owners: map<nat, nat>)
    requires Fits(a, edges, owners) && SameSeats(a, b)
    ensures Fits(b, edges, owners)
  {
  }

  lemma HitKeepsSeats(ps: seq<LocalPlayer>, k: nat)
    requires k < |ps|
    ensures SameSeats(ps, ps[k := Hit(ps[k])])
  {
  }

  // ---------------------------------------------------------------------
  // Ball, launch and the end of the match

  /** `ball.reflect(normal)`: mirrored in the side and sped up by 2%. */
  function Bounced(b: BallState, normal: Vec2): BallState {
    var v := ReflectVelocity(b.vx, b.vy, normal, DEFAULT_SPEED_UP);
    b.(vx := v.x, vy := v.y)
  }

  /** `ball.addSpin(tangent)` with the default influence. */
  function Spun(b: BallState, tangent: Vec2): BallState {
    b.(vx := b.vx + tangent.x * ClientBall.SPIN_INFLUENCE, vy := b.vy + tangent.y * ClientBall.SPIN_INFLUENCE)
  }

  /** `launchBall`: the ball relaunched at the side of the reservoir's pick, or left alone when nobody is alive. */
  function Launched(s: Match, edges: seq<Edge>, draws: seq<real>, m: Env): Match
    requires |draws| == |s.players| && forall j :: 0 <= j < |s.players| ==> s.players[j].mode.edgeIndex < |edges|
  {
    match Reservoir(s.players, draws, |s.players|)
    case None => s
    case Some(k) =>
      var v := BaseRoom.AimAt(edges[s.players[k].mode.edgeIndex].midpoint, m);
      s.(ball := BallState(0.0, 0.0, v.x, v.y))
  }

  /** A ball at the centre, moving at `BALL_SPEED` straight towards `target`. */
  ghost predicate AimedAt(b: BallState, target: Vec2, m: Env) {
    && b.x == 0.0 && b.y == 0.0
    && b.vx * Hypot(m, target.x, target.y) == target.x * BALL_SPEED
    && b.vy * Hypot(m, target.x, target.y) == target.y * BALL_SPEED
    && NormSq(b.vx, b.vy) == Sq(BALL_SPEED)
  }

  /**
   * A launch changes only the ball; with somebody alive it puts the ball
   * at the centre, aimed at the middle of a live player's side at
   * `BALL_SPEED`; with nobody alive the ball keeps going.
   */
  lemma LaunchedFacts(s: Match, edges: seq<Edge>, draws: seq<real>, m: Env)
    requires |draws| == |s.players| && forall j :: 0 <= j < |s.players| ==> s.players[j].mode.edgeIndex < |edges|
    requires SqrtSound(m) && forall j :: 0 <= j < |draws| ==> 0.0 <= draws[j] < 1.0
    requires forall e :: e in edges ==> e.midpoint != Vec2(0.0, 0.0)
    ensures var r := Launched(s, edges, draws, m);
      && r == s.(ball := r.ball)
      && (CountAlive(s.players) == 0 ==> r == s)
      && (CountAlive(s.players) > 0 ==>
            exists k :: 0 <= k < |s.players| && !s.players[k].eliminated && AimedAt(r.ball, edges[s.players[k].mode.edgeIndex].midpoint, m))
  {
    ReservoirPicksWhenAlive(s.players, draws, |s.players|);
    assert s.players[..|s.players|] == s.players;
    match Reservoir(s.players, draws, |s.players|)
    case None =>
    case Some(k) =>
      var mid := edges[s.players[k].mode.edgeIndex].midpoint;
      BaseRoom.AimAtFacts(mid, m);
  }

  /** `checkWinCondition`: with at most one player left the game stops and reports the survivor, or "Nobody". */
  function WinCheck(s: Match): Match {
    if CountAlive(s.players) <= 1 then s.(running := false, reports := s.reports + [Some(WinnerName(s.players))])
    else s
  }

  /**
   * A ball past live player `k`'s side: one life lost.  Losing the last
   * life eliminates; the local player's elimination stops the game with no
   * winner and no new ball; a bot's runs the win check.  Then a new ball.
   *
   * So a goal against a live player costs that player exactly one life and
   * touches nobody else.  The local player's last life ends the game with
   * a `null` report and the ball left where it is; a bot's last life that
   * leaves at most one survivor ends it with the survivor's name.
   */
  function Score(s: Match, k: nat, edges: seq<Edge>, draws: seq<real>, m: Env): (r: Match)
    requires k < |s.players| && |draws| == |s.players|
    requires forall j :: 0 <= j < |s.players| ==> s.players[j].mode.edgeIndex < |edges|
    ensures r.hudDirty
    ensures !s.players[k].eliminated ==>
      && LostOneLife(s.players, r.players, k)
      && (k == 0 && s.players[0].lives <= 1 ==> !r.running && r.reports == s.reports + [None] && r.ball == s.ball)
      && (k != 0 && s.players[k].lives <= 1 && CountAlive(r.players) <= 1 ==>
            !r.running && r.reports == s.reports + [Some(WinnerName(r.players))])
      && (s.players[k].lives > 1 ==> r.running == s.running && r.reports == s.reports)
  {
    var hit := s.(players := s.players[k := Hit(s.players[k])], hudDirty := true);
    if hit.players[k].eliminated && k == 0 then hit.(running := false, reports := hit.reports + [None])
    else if hit.players[k].eliminated then Launched(WinCheck(hit), edges, draws, m)
    else Launched(hit, edges, draws, m)
  }

  // ---------------------------------------------------------------------
  // The walk over the sides

  datatype Visit = Visit(state: Match, stop: bool)

  /**
   * Side `i` against the ball position `(px, py)` captured before the walk:
   * a side without a live defender is a wall; a live defender's paddle
   * bounces the ball with spin; a ball past a live defender's side scores
   * and ends the walk.
   */
  function VisitEdge(s: Match, edges: seq<Edge>, owners: map<nat, nat>, px: real, py: real, i: nat,
                     draws: seq<real>, m: Env): (r: Visit)
    requires TrigSound(m) && i < |edges| && |draws| == |s.players| && Fits(s.players, edges, owners)
    ensures SameSeats(s.players, r.state.players)
  {
    var edge := edges[i];
    if i !in owners || s.players[owners[i]].eliminated then
      if BallNearSegment(px, py, edge.start, edge.end, ClassicSimulation.BALL_HIT_DIST_SQ) then
        Visit(s.(ball := ClassicSimulation.PushBallIn(Bounced(s.ball, edge.normal), edge)), false)
      else Visit(s, false)
    else
      var k := owners[i];
      var p := s.players[k];
      var ends := GetPaddleEndpoints(p.mode.positionT, edge, CLASSIC_PADDLE_WIDTH_RATIO, m);
      if BallNearSegment(px, py, ends.start, ends.end, ClassicSimulation.BALL_HIT_DIST_SQ) then
        var spun := Spun(Bounced(s.ball, edge.normal), ClientPaddle.Tangent(p.mode.velocityT, edge, m));
        Visit(s.(ball := ClassicSimulation.PushBallIn(spun, edge)), false)
      else if BallPassedEdge(px, py, BALL_RADIUS, edge) then
        HitKeepsSeats(s.players, k);
        Visit(Score(s, k, edges, draws, m), true)
      else Visit(s, false)
  }

  /** `checkCollisions` from side `i` on. */
  function Walk(s: Match, edges: seq<Edge>, owners: map<nat, nat>, px: real, py: real, i: nat,
                draws: seq<real>, m: Env): (r: Match)
    requires TrigSound(m) && |draws| == |s.players| && Fits(s.players, edges, owners)
    ensures SameSeats(s.players, r.players)
    decreases |edges| - i
  {
    if i >= |edges| then s
    else
      var v := VisitEdge(s, edges, owners, px, py, i, draws, m);
      SameSeatsFits(s.players, v.state.players, edges, owners);
      if v.stop then v.state
      else Walk(v.state, edges, owners, px, py, i + 1, draws, m)
  }

  /** A side that does not end the walk leaves the players alone; one that does is a goal against its live defender. */
  lemma VisitEdgeOutcome(s: Match, edges: seq<Edge>, owners: map<nat, nat>, px: real, py: real, i: nat,
                         draws: seq<real>, m: Env)
    requires TrigSound(m) && i < |edges| && |draws| == |s.players| && Fits(s.players, edges, owners)
    ensures var v := VisitEdge(s, edges, owners, px, py, i, draws, m);
      && (!v.stop ==> v.state.players == s.players && v.state.running == s.running && v.state.reports == s.reports)
      && (v.stop ==> i in owners && !s.players[owners[i]].eliminated && v.state == Score(s, owners[i], edges, draws, m))
  {
  }

  /** One walk costs at most one player at most one life. */
  lemma {:induction false} WalkLosesAtMostOneLife(s: Match, edges: seq<Edge>, owners: map<nat, nat>, px: real, py: real, i: nat,
                                                 draws: seq<real>, m: Env)
    requires TrigSound(m) && |draws| == |s.players| && Fits(s.players, edges, owners)
    ensures AtMostOneLifeLost(s.players, Walk(s, edges, owners, px, py, i, draws, m).players)
    decreases |edges| - i
  {
    if i < |edges| {
      var v := VisitEdge(s, edges, owners, px, py, i, draws, m);
      VisitEdgeOutcome(s, edges, owners, px, py, i, draws, m);
      SameSeatsFits(s.players, v.state.players, edges, owners);
      if v.stop {
      } else {
        WalkLosesAtMostOneLife(v.state, edges, owners, px, py, i + 1, draws, m);
      }
    }
  }

  /** Two matches equal but for where the ball is. */
  predicate AgreeButPosition(a: Match, b: Match) {
    a == b.(ball := a.ball.(vx := b.ball.vx, vy := b.ball.vy))
  }

  /** A goal's outcome does not depend on where the ball is. */
  lemma ScoreIgnoresPosition(s: Match, t: Match, k: nat, edges: seq<Edge>, draws: seq<real>, m: Env)
    requires k < |s.players| && |draws| == |s.players|
    requires forall j :: 0 <= j < |s.players| ==> s.players[j].mode.edgeIndex < |edges|
    requires AgreeButPosition(s, t)
    ensures AgreeButPosition(Score(s, k, edges, draws, m), Score(t, k, edges, draws, m))
  {
    assert s.players == t.players;
  }

  lemma VisitUsesCapturedPosition(s: Match, t: Match, edges: seq<Edge>, owners: map<nat, nat>, px: real, py: real, i: nat,
                                  draws: seq<real>, m: Env)
    requires TrigSound(m) && i < |edges| && |draws| == |s.players| && Fits(s.players, edges, owners)
    requires AgreeButPosition(s, t)
    ensures var v := VisitEdge(s, edges, owners, px, py, i, draws, m);
      var w := VisitEdge(t, edges, owners, px, py, i, draws, m);
      v.stop == w.stop && AgreeButPosition(v.state, w.state)
  {
    assert s.players == t.players && s.ball.vx == t.ball.vx && s.ball.vy == t.ball.vy;
    if i in owners && !s.players[owners[i]].eliminated {
      ScoreIgnoresPosition(s, t, owners[i], edges, draws, m);
    }
  }

  /**
   * Every side is tested against the position captured before the walk,
   * not the ball as the pushes move it: two walks of balls at different
   * places with the same velocity agree on everything but the position.
   */
  lemma {:induction false} WalkUsesCapturedPosition(s: Match, t: Match, edges: seq<Edge>, owners: map<nat, nat>,
                                                    px: real, py: real, i: nat, draws: seq<real>, m: Env)
    requires TrigSound(m) && |draws| == |s.players| && Fits(s.players, edges, owners)
    requires AgreeButPosition(s, t)
    ensures AgreeButPosition(Walk(s, edges, owners, px, py, i, draws, m), Walk(t, edges, owners, px, py, i, draws, m))
    decreases |edges| - i
  {
    if i < |edges| {
      var v := VisitEdge(s, edges, owners, px, py, i, draws, m);
      var w := VisitEdge(t, edges, owners, px, py, i, draws, m);
      VisitUsesCapturedPosition(s, t, edges, owners, px, py, i, draws, m);
      if !v.stop {
        SameSeatsFits(s.players, v.state.players, edges, owners);
        WalkUsesCapturedPosition(v.state, w.state, edges, owners, px, py, i + 1, draws, m);
      }
    }
  }

  // ---------------------------------------------------------------------
  // A tick

  /** `updateAI`: every bot takes its turn against its own side; the local player is left alone. */
  function BotsTurn(ps: seq<LocalPlayer>, edges: seq<Edge>, ball: BallState, arenaRadius: real, rolls: seq<Roll>, widthRatio: real): (r: seq<LocalPlayer>)
    requires |rolls| == |ps| && forall j :: 0 <= j < |ps| ==> ps[j].mode.edgeIndex < |edges|
    requires forall j :: 0 <= j < |rolls| ==> 0.0 <= rolls[j].target < 1.0 && 0.0 <= rolls[j].timer < 1.0
    ensures |r| == |ps|
  {
    seq(|ps|, j requires 0 <= j < |ps| =>
      if j == 0 then ps[0]
      else BotTurn(ps[j], edges[ps[j].mode.edgeIndex], ball, arenaRadius, rolls[j], widthRatio))
  }

  /** The loop of `updateAI`: bot after bot, the local player (index 0) left alone. */
  method TakeBotTurns(ps: seq<LocalPlayer>, edges: seq<Edge>, ball: BallState, arenaRadius: real, rolls: seq<Roll>, widthRatio: real)
    returns (r: seq<LocalPlayer>)
    requires |rolls| == |ps| && forall j :: 0 <= j < |ps| ==> ps[j].mode.edgeIndex < |edges|
    requires forall j :: 0 <= j < |rolls| ==> 0.0 <= rolls[j].target < 1.0 && 0.0 <= rolls[j].timer < 1.0
    ensures r == BotsTurn(ps, edges, ball, arenaRadius, rolls, widthRatio)
  {
    r := ps;
    var i := 1;
    while i < |ps|
      invariant |r| == |ps|
      invariant forall j :: 0 <= j < |ps| ==> r[j] == (if j < i then BotsTurn(ps, edges, ball, arenaRadius, rolls, widthRatio)[j] else ps[j])
    {
      r := r[i := BotTurn(r[i], edges[r[i].mode.edgeIndex], ball, arenaRadius, rolls[i], widthRatio)];
      i := i + 1;
    }
  }

  /** The players after `handleInput` and `updateAI`. */
  function Steer(ps: seq<LocalPlayer>, f: Setting, ball: BallState, rolls: seq<Roll>): (r: seq<LocalPlayer>)
    requires |ps| > 0 && |rolls| == |ps| && forall j :: 0 <= j < |ps| ==> ps[j].mode.edgeIndex < |f.edges|
    requires forall j :: 0 <= j < |rolls| ==> 0.0 <= rolls[j].target < 1.0 && 0.0 <= rolls[j].timer < 1.0
    ensures SameSeats(ps, r)
  {
    var steered := ps[0 := Steered(ps[0], f.keys, CLASSIC_PADDLE_SPEED, CLASSIC_PADDLE_WIDTH_RATIO)];
    BotsTurn(steered, f.edges, ball, f.arenaRadius, rolls, CLASSIC_PADDLE_WIDTH_RATIO)
  }

  /** `checkOutOfBounds`: a ball more than 1.5 radii from the centre is relaunched. */
  function OutOfBounds(s: Match, edges: seq<Edge>, arenaRadius: real, draws: seq<real>, m: Env): Match
    requires |draws| == |s.players| && forall j :: 0 <= j < |s.players| ==> s.players[j].mode.edgeIndex < |edges|
  {
    if Hypot(m, s.ball.x, s.ball.y) > arenaRadius * 1.5 then Launched(s, edges, draws, m) else s
  }

  /**
   * One simulation tick: input, bots, ball, sides, bounds; the HUD is
   * redrawn if needed.  After the input and the bots have moved, the tick
   * costs at most one player at most one life.
   */
  function Tick(s: Match, f: Setting, rolls: seq<Roll>, drawsGoal: seq<real>, drawsFar: seq<real>, m: Env): (r: Match)
    requires TrigSound(m) && |s.players| > 0 && Fits(s.players, f.edges, f.playersByEdge)
    requires |rolls| == |s.players| && |drawsGoal| == |s.players| && |drawsFar| == |s.players|
    requires forall j :: 0 <= j < |rolls| ==> 0.0 <= rolls[j].target < 1.0 && 0.0 <= rolls[j].timer < 1.0
    ensures !r.hudDirty
    ensures AtMostOneLifeLost(Steer(s.players, f, s.ball, rolls), r.players)
  {
    var steered := Steer(s.players, f, s.ball, rolls);
    var moved := s.(players := steered, ball := Advance(s.ball));
    SameSeatsFits(s.players, steered, f.edges, f.playersByEdge);
    WalkLosesAtMostOneLife(moved, f.edges, f.playersByEdge, moved.ball.x, moved.ball.y, 0, drawsGoal, m);
    var walked := Walk(moved, f.edges, f.playersByEdge, moved.ball.x, moved.ball.y, 0, drawsGoal, m);
    OutOfBounds(walked, f.edges, f.arenaRadius, drawsFar, m).(hudDirty := false)
  }

  // ---------------------------------------------------------------------
  // The game

  /** `init`'s players: the local player first, then "Bot 1", "Bot 2", …; the k-th defends the k-th assigned side. */
  function InitialPlayers(playerName: string, config: ArenaConfig, aggressiveness: seq<real>): (ps: seq<LocalPlayer>)
    requires |aggressiveness| == |config.edgeAssignments|
    ensures |ps| == |config.edgeAssignments|
  {
    seq(|config.edgeAssignments|, i requires 0 <= i < |config.edgeAssignments| =>
      Contestant(if i == 0 then playerName else "Bot " + Strings.NatToString(i), DEFAULT_LIVES, false,
                 Seat(0.5, 0.0, config.edgeAssignments[i],
                      if i == 0 then None else Some(AIState(0.3 + aggressiveness[i] * 0.7, CLASSIC_PADDLE_SPEED, 0.5, 0)))))
  }

  /** `init`'s `playersByEdge`: each assigned side to the player defending it. */
  ghost predicate IsInitialOwners(owners: map<nat, nat>, config: ArenaConfig) {
    && (forall e :: e in owners ==> owners[e] < |config.edgeAssignments| && config.edgeAssignments[owners[e]] == e)
    && (forall j :: 0 <= j < |config.edgeAssignments| ==> config.edgeAssignments[j] in owners && owners[config.edgeAssignments[j]] == j)
  }

  /** The loop of `init` that seats the players and records who defends which side. */
  method SeatPlayers(playerName: string, config: ArenaConfig, aggressiveness: seq<real>) returns (ps: seq<LocalPlayer>, owners: map<nat, nat>)
    requires |aggressiveness| == |config.edgeAssignments|
    requires forall j, k :: 0 <= j < k < |config.edgeAssignments| ==> config.edgeAssignments[j] != config.edgeAssignments[k]
    ensures ps == InitialPlayers(playerName, config, aggressiveness)
    ensures IsInitialOwners(owners, config)
  {
    ps := [];
    owners := map[];
    for i := 0 to |config.edgeAssignments|
      invariant |ps| == i
      invariant forall j :: 0 <= j < i ==> ps[j] == InitialPlayers(playerName, config, aggressiveness)[j]
      invariant forall e :: e in owners ==> owners[e] < i && config.edgeAssignments[owners[e]] == e
      invariant forall j :: 0 <= j < i ==> config.edgeAssignments[j] in owners && owners[config.edgeAssignments[j]] == j
    {
      var edgeIdx := config.edgeAssignments[i];
      var ai := if i == 0 then None else Some(AIState(0.3 + aggressiveness[i] * 0.7, CLASSIC_PADDLE_SPEED, 0.5, 0));
      var name := if i == 0 then playerName else "Bot " + Strings.NatToString(i);
      ps := ps + [Contestant(name, DEFAULT_LIVES, false, Seat(0.5, 0.0, edgeIdx, ai))];
      owners := owners[edgeIdx := i];
    }
  }

  /** `new ClassicArena(playerCount, radius)`: the configuration and the sides of its polygon. */
  method BuildArena(playerCount: nat, radius: real, m: Env) returns (config: ArenaConfig, sides: seq<Edge>)
    requires playerCount >= 2 && radius != 0.0 && SqrtSound(m) && PiSound(m) && CircleSound(m)
    ensures config == GetArenaConfig(playerCount) && |sides| == config.numSides && IsClosedPolygon(sides)
  {
    config := GetArenaConfig(playerCount);
    sides := ComputeEdges(config.numSides, radius, m);
  }

  /** The seats `init` hands out fit the arena it builds. */
  lemma InitialSeatsFit(playerName: string, playerCount: nat, aggressiveness: seq<real>, owners: map<nat, nat>, edges: seq<Edge>)
    requires |aggressiveness| == playerCount && |edges| == GetArenaConfig(playerCount).numSides
    requires IsInitialOwners(owners, GetArenaConfig(playerCount))
    ensures var ps := InitialPlayers(playerName, GetArenaConfig(playerCount), aggressiveness);
      && |ps| == playerCount && Fits(ps, edges, owners)
      && forall e :: e in owners ==> ps[owners[e]].mode.edgeIndex == e
  {
  }

  class ClassicGame {
    var edges: seq<Edge>
    var playersByEdge: map<nat, nat>
    var arenaRadius: real
    var keys: set<string>
    var tickAccumulator: real
    var players: seq<LocalPlayer>
    var ball: BallState
    var running: bool
    /** The calls of `onGameOver` so far: a winner's name, or `None` for `null`. */
    var reports: seq<Option<string>>
    var hudDirty: bool

    function State(): Match
      reads this
    {
      Match(players, ball, running, reports, hudDirty)
    }

    function Rest(): Setting
      reads this
    {
      Setting(edges, playersByEdge, arenaRadius, keys, tickAccumulator)
    }

    /** There is a local player; every seat's side exists and each defended side names its defender. */
    ghost predicate Valid()
      reads this
    {
      && |players| > 0 && Fits(players, edges, playersByEdge)
      && forall e :: e in playersByEdge ==> players[playersByEdge[e]].mode.edgeIndex == e
    }

    /**
     * `init`: the arena for `playerCount` players at `CLASSIC_ARENA_RADIUS`,
     * the k-th player on the k-th assigned side with full lives and the
     * paddle in the middle, a first ball launched, and the game running.
     */
    constructor(playerCount: nat, playerName: string, aggressiveness: seq<real>, draws: seq<real>, m: Env)
      requires playerCount >= 2 && SqrtSound(m) && PiSound(m) && CircleSound(m)
      requires |aggressiveness| == playerCount && |draws| == playerCount
      ensures Valid() && running && reports == [] && hudDirty && keys == {} && tickAccumulator == 0.0
      ensures arenaRadius == CLASSIC_ARENA_RADIUS && |edges| == GetArenaConfig(playerCount).numSides && IsClosedPolygon(edges)
      ensures players == InitialPlayers(playerName, GetArenaConfig(playerCount), aggressiveness)
      ensures IsInitialOwners(playersByEdge, GetArenaConfig(playerCount))
      ensures ball == Launched(Match(players, BallState(0.0, 0.0, 0.0, 0.0), false, [], true), edges, draws, m).ball
    {
      var config, sides := BuildArena(playerCount, CLASSIC_ARENA_RADIUS, m);
      var ps, owners := SeatPlayers(playerName, config, aggressiveness);
      edges := sides;
      playersByEdge := owners;
      arenaRadius := CLASSIC_ARENA_RADIUS;
      keys := {};
      tickAccumulator := 0.0;
      players := ps;
      ball := BallState(0.0, 0.0, 0.0, 0.0);
      running := false;
      reports := [];
      hudDirty := true;
      new;
      assert Valid() by {
        InitialSeatsFit(playerName, playerCount, aggressiveness, owners, sides);
      }
      LaunchBall(draws, m);
      running := true;
    }

    /** `onKeyDown`: the (lower-cased) key is held. */
    method KeyDown(key: string)
      modifies this
      ensures keys == old(keys) + {key}
      ensures State() == old(State()) && Rest() == old(Rest()).(keys := keys)
    {
      keys := keys + {key};
    }

    /** `onKeyUp`: the (lower-cased) key is released. */
    method KeyUp(key: string)
      modifies this
      ensures keys == old(keys) - {key}
      ensures State() == old(State()) && Rest() == old(Rest()).(keys := keys)
    {
      keys := keys - {key};
    }

    /**
     * `gameLoop`: a stopped game does nothing; otherwise the frame time is
     * added up and a tick runs, using up one whole frame, only once a whole
     * frame has accumulated.
     */
    method GameLoop(deltaTime: real, rolls: seq<Roll>, drawsGoal: seq<real>, drawsFar: seq<real>, m: Env)
      requires Valid() && TrigSound(m)
      requires |rolls| == |players| && |drawsGoal| == |players| && |drawsFar| == |players|
      requires forall j :: 0 <= j < |rolls| ==> 0.0 <= rolls[j].target < 1.0 && 0.0 <= rolls[j].timer < 1.0
      modifies this
      ensures Valid()
      ensures edges == old(edges) && playersByEdge == old(playersByEdge) && arenaRadius == old(arenaRadius) && keys == old(keys)
      ensures !old(running) ==> tickAccumulator == old(tickAccumulator) && State() == old(State())
      ensures old(running) && old(tickAccumulator) + deltaTime < 1.0 ==>
        tickAccumulator == old(tickAccumulator) + deltaTime && State() == old(State())
      ensures old(running) && old(tickAccumulator) + deltaTime >= 1.0 ==>
        tickAccumulator == old(tickAccumulator) + deltaTime - 1.0
        && State() == Tick(old(State()), old(Rest()), rolls, drawsGoal, drawsFar, m)
    {
      if !running {
        return;
      }
      tickAccumulator := tickAccumulator + deltaTime;
      if tickAccumulator >= 1.0 {
        tickAccumulator := tickAccumulator - 1.0;
        RunTick(rolls, drawsGoal, drawsFar, m);
      }
    }

    /** The body of a tick. */
    method RunTick(rolls: seq<Roll>, drawsGoal: seq<real>, drawsFar: seq<real>, m: Env)
      requires Valid() && TrigSound(m)
      requires |rolls| == |players| && |drawsGoal| == |players| && |drawsFar| == |players|
      requires forall j :: 0 <= j < |rolls| ==> 0.0 <= rolls[j].target < 1.0 && 0.0 <= rolls[j].timer < 1.0
      modifies this
      ensures Valid() && Rest() == old(Rest())
      ensures State() == Tick(old(State()), old(Rest()), rolls, drawsGoal, drawsFar, m)
    {
      HandleInput();
      UpdateAI(rolls);
      ball := Advance(ball);
      CheckCollisions(drawsGoal, m);
      CheckOutOfBounds(drawsFar, m);
      if hudDirty {
        hudDirty := false;
      }
    }

    /** `handleInput`: the local player's paddle follows the keys unless the player is out. */
    method HandleInput()
      requires Valid()
      modifies this
      ensures Valid() && Rest() == old(Rest())
      ensures State() == old(State()).(players := old(players)[0 := Steered(old(players)[0], keys, CLASSIC_PADDLE_SPEED, CLASSIC_PADDLE_WIDTH_RATIO)])
    {
      var player := players[0];
      if player.eliminated {
        return;
      }
      if "a" in keys || "arrowleft" in keys {
        player := Moved(player, -CLASSIC_PADDLE_SPEED, CLASSIC_PADDLE_WIDTH_RATIO);
      }
      if "d" in keys || "arrowright" in keys {
        player := Moved(player, CLASSIC_PADDLE_SPEED, CLASSIC_PADDLE_WIDTH_RATIO);
      }
      players := players[0 := player];
    }

    /** `updateAI`: each bot in turn, against the ball as it is before it moves. */
    method UpdateAI(rolls: seq<Roll>)
      requires Valid() && |rolls| == |players|
      requires forall j :: 0 <= j < |rolls| ==> 0.0 <= rolls[j].target < 1.0 && 0.0 <= rolls[j].timer < 1.0
      modifies this
      ensures Valid() && Rest() == old(Rest())
      ensures State() == old(State()).(players := BotsTurn(old(players), edges, ball, arenaRadius, rolls, CLASSIC_PADDLE_WIDTH_RATIO))
    {
      var ps := TakeBotTurns(players, edges, ball, arenaRadius, rolls, CLASSIC_PADDLE_WIDTH_RATIO);
      players := ps;
    }

    /** `checkCollisions`: every side in turn against the ball's position on entry, until a goal. */
    method CheckCollisions(draws: seq<real>, m: Env)
      requires Valid() && TrigSound(m) && |draws| == |players|
      modifies this
      ensures Valid() && Rest() == old(Rest())
      ensures State() == Walk(old(State()), edges, playersByEdge, old(ball.x), old(ball.y), 0, draws, m)
    {
      var px := ball.x;
      var py := ball.y;
      ghost var start := State();
      ghost var rest := Rest();
      ghost var walk := Walk(start, edges, playersByEdge, px, py, 0, draws, m);
      var i := 0;
      while i < |edges|
        invariant Valid() && Rest() == rest && SameSeats(start.players, players)
        invariant Walk(State(), edges, playersByEdge, px, py, i, draws, m) == walk
        decreases |edges| - i
      {
        ghost var before := State();
        var stop := TestEdge(i, px, py, draws, m);
        if stop {
          return;
        }
        i := i + 1;
      }
    }

    /** One side of `checkCollisions`; `stop` is the `break` (or `return`) after a goal. */
    method TestEdge(i: nat, px: real, py: real, draws: seq<real>, m: Env) returns (stop: bool)
      requires Valid() && TrigSound(m) && i < |edges| && |draws| == |players|
      modifies this
      ensures Valid() && Rest() == old(Rest()) && SameSeats(old(players), players)
      ensures Visit(State(), stop) == VisitEdge(old(State()), edges, playersByEdge, px, py, i, draws, m)
    {
      if i !in playersByEdge || players[playersByEdge[i]].eliminated {
        var edge := edges[i];
        if BallNearSegment(px, py, edge.start, edge.end, ClassicSimulation.BALL_HIT_DIST_SQ) {
          ball := ClassicSimulation.PushBallIn(Bounced(ball, edge.normal), edge);
        }
        return false;
      }
      stop := TestDefendedEdge(i, playersByEdge[i], px, py, draws, m);
    }

    /** A side whose defender `k` is still in: the paddle, then the goal line. */
    method TestDefendedEdge(i: nat, k: nat, px: real, py: real, draws: seq<real>, m: Env) returns (stop: bool)
      requires Valid() && TrigSound(m) && i < |edges| && |draws| == |players|
      requires i in playersByEdge && k == playersByEdge[i] && !players[k].eliminated
      modifies this
      ensures Valid() && Rest() == old(Rest()) && SameSeats(old(players), players)
      ensures Visit(State(), stop) == VisitEdge(old(State()), edges, playersByEdge, px, py, i, draws, m)
    {
      var edge := edges[i];
      var p := players[k];
      var ends := GetPaddleEndpoints(p.mode.positionT, edge, CLASSIC_PADDLE_WIDTH_RATIO, m);
      if BallNearSegment(px, py, ends.start, ends.end, ClassicSimulation.BALL_HIT_DIST_SQ) {
        var tangent := ClientPaddle.Tangent(p.mode.velocityT, edge, m);
        ball := ClassicSimulation.PushBallIn(Spun(Bounced(ball, edge.normal), tangent), edge);
        return false;
      }
      stop := false;
      if BallPassedEdge(px, py, BALL_RADIUS, edge) {
        HitKeepsSeats(players, k);
        ScoreGoal(k, draws, m);
        stop := true;
      }
    }

    /** The goal branch of `checkCollisions` against live player `k`. */
    method ScoreGoal(k: nat, draws: seq<real>, m: Env)
      requires Valid() && k < |players| && |draws| == |players|
      modifies this
      ensures Valid() && Rest() == old(Rest())
      ensures State() == Score(old(State()), k, edges, draws, m)
    {
      HitKeepsSeats(players, k);
      players := players[k := Hit(players[k])];
      hudDirty := true;
      if players[k].eliminated {
        if k == 0 {
          running := false;
          reports := reports + [None];
          return;
        }
        CheckWinCondition();
      }
      LaunchBall(draws, m);
    }

    /** `checkOutOfBounds`. */
    method CheckOutOfBounds(draws: seq<real>, m: Env)
      requires Valid() && |draws| == |players|
      modifies this
      ensures Valid() && Rest() == old(Rest())
      ensures State() == OutOfBounds(old(State()), edges, arenaRadius, draws, m)
    {
      var dist := Hypot(m, ball.x, ball.y);
      if dist > arenaRadius * 1.5 {
        LaunchBall(draws, m);
      }
    }

    /** `launchBall`: the reservoir pick over the live players, then the ball aimed at the pick's side. */
    method LaunchBall(draws: seq<real>, m: Env)
      requires |draws| == |players| && forall j :: 0 <= j < |players| ==> players[j].mode.edgeIndex < |edges|
      modifies this
      ensures Rest() == old(Rest()) && players == old(players)
      ensures State() == Launched(old(State()), edges, draws, m)
    {
      var picked := PickTarget(players, draws);
      if picked.Some? {
        var edge := edges[players[picked.value].mode.edgeIndex];
        var v := BaseRoom.AimAt(edge.midpoint, m);
        ball := BallState(0.0, 0.0, v.x, v.y);
      }
    }

    /** `checkWinCondition`. */
    method CheckWinCondition()
      modifies this
      ensures Rest() == old(Rest())
      ensures State() == WinCheck(old(State()))
    {
      var aliveCount, lastAlive := CountSurvivors(players);
      if aliveCount <= 1 {
        running := false;
        reports := reports + [Some(WinnerName(players))];
      }
    }
  }
}
