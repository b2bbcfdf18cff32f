/**
 * The original local game against bots (client/src/game/Game.ts): the same
 * polygon, players, bots, launches and win check as the classic local game,
 * but a tick runs on every frame, each side is tested against the ball
 * where it is at that moment (a push off an earlier side moves it), and a
 * goal against any player, the local one included, runs the win check
 * and relaunches.  Drawing, the HUD text and the window's key listeners
 * are not modelled; randomness comes in as draws of `Math.random()`.
 */
module LocalGame {
  import opened RealMath
  import opened Wrappers
  import opened Types
  import opened Constants
  import opened Physics
  import opened Geometry
  import opened LocalMatch
  import ClientPaddle
  import ClassicSimulation
  import BaseRoom
  import LC = LocalClassicGame

  /** The literal paddle step of `handleInput`, a fraction of the side per frame. */
  const PADDLE_SPEED: real := 0.02

  /** The sides, who defends which, the arena's radius, the keys held and `ballHitDistSq`. */
  datatype Setting = Setting(edges: seq<Edge>, playersByEdge: map<nat, nat>, arenaRadius: real, keys: set<string>,
                             ballHitDistSq: real)

  /** Every player's own side is recorded as defended by that player. */
  predicate OwnsOwnSide(ps: seq<LocalPlayer>, owners: map<nat, nat>) {
    forall j :: 0 <= j < |ps| ==> ps[j].mode.edgeIndex in owners && owners[ps[j].mode.edgeIndex] == j
  }

  /** The seats `init` hands out are each recorded as defended by their own player. */
  lemma InitialOwnsOwnSide(playerName: string, playerCount: nat, aggressiveness: seq<real>, owners: map<nat, nat>)
    requires |aggressiveness| == playerCount && LC.IsInitialOwners(owners, GetArenaConfig(playerCount))
    ensures OwnsOwnSide(LC.InitialPlayers(playerName, GetArenaConfig(playerCount), aggressiveness), owners)
  {
  }

  // ---------------------------------------------------------------------
  // The ball against a segment and a side

  /**
   * `ballNearLineSegment(a, c)`: the point of segment `ac` nearest the ball,
   * by the clamped projection, within `hitDistSq` (squared).  Game.ts
   * repeats the arithmetic of the shared `ballNearSegment` line for line,
   * so it is that function; for `a == c` the source divides 0 by 0 and the
   * NaN fails the comparison.
   */
  function NearLineSegment(b: BallState, a: Vec2, c: Vec2, hitDistSq: real): (r: bool)
    ensures a == c ==> !r
    ensures a != c ==> (r <==> exists t :: 0.0 <= t <= 1.0 && DistSqToLinePoint(b.x, b.y, a, c, t) <= hitDistSq)
  {
    if a != c then
      BallNearSegmentIffSomePointWithinReach(b.x, b.y, a, c, hitDistSq);
      BallNearSegment(b.x, b.y, a, c, hitDistSq)
    else false
  }

  /**
   * `ballPassedThroughEdge(edge)`: more than a radius beyond the side's line
   * and level with the side, extended by a radius at either end; the same
   * arithmetic as the shared `ballPassedEdge`.  A ball no more than a
   * radius beyond the line has not passed.
   */
  function PassedThroughEdge(b: BallState, radius: real, edge: Edge): (r: bool)
    ensures EdgeOffset(b.x, b.y, edge) <= radius ==> !r
    ensures r ==> edge.length != 0.0 && -radius <= EdgeProjection(b.x, b.y, edge) <= edge.length + radius
  {
    BallPassedEdge(b.x, b.y, radius, edge)
  }

  // ---------------------------------------------------------------------
  // A goal

  /**
   * A ball past live player `k`'s side: one life lost and the HUD marked;
   * losing the last life eliminates and runs the win check, whoever the
   * player is; then a new ball.
   *
   * So a goal costs its live victim exactly one life and touches nobody
   * else.  A last life lost that leaves at most one survivor stops the game
   * and reports the survivor, or "Nobody"; otherwise the game goes on,
   * even when the local player is the one eliminated.
   */
  function Goal(s: LC.Match, k: nat, edges: seq<Edge>, draws: seq<real>, m: Env): (r: LC.Match)
    requires k < |s.players| && |draws| == |s.players|
    requires forall j :: 0 <= j < |s.players| ==> s.players[j].mode.edgeIndex < |edges|
    ensures r.hudDirty
    ensures !s.players[k].eliminated ==>
      && LostOneLife(s.players, r.players, k)
      && (s.players[k].lives <= 1 && CountAlive(r.players) <= 1 ==>
            !r.running && r.reports == s.reports + [Some(WinnerName(r.players))])
      && (s.players[k].lives > 1 || CountAlive(r.players) >= 2 ==> r.running == s.running && r.reports == s.reports)
  {
    var hit := s.(players := s.players[k := Hit(s.players[k])], hudDirty := true);
    LC.Launched(if hit.players[k].eliminated then LC.WinCheck(hit) else hit, edges, draws, m)
  }

  /** While anybody is left, a goal puts a new ball at the centre aimed at a live player's side. */
  lemma GoalRelaunches(s: LC.Match, k: nat, edges: seq<Edge>, draws: seq<real>, m: Env)
    requires k < |s.players| && |draws| == |s.players|
    requires forall j :: 0 <= j < |s.players| ==> s.players[j].mode.edgeIndex < |edges|
    requires SqrtSound(m) && forall j :: 0 <= j < |draws| ==> 0.0 <= draws[j] < 1.0
    requires forall e :: e in edges ==> e.midpoint != Vec2(0.0, 0.0)
    ensures var r := Goal(s, k, edges, draws, m);
      CountAlive(r.players) > 0 ==>
        exists j :: 0 <= j < |r.players| && !r.players[j].eliminated && LC.AimedAt(r.ball, edges[r.players[j].mode.edgeIndex].midpoint, m)
  {
    var hit := s.(players := s.players[k := Hit(s.players[k])], hudDirty := true);
    var before := if hit.players[k].eliminated then LC.WinCheck(hit) else hit;
    LC.LaunchedFacts(before, edges, draws, m);
  }

  // ---------------------------------------------------------------------
  // The walk over the sides

  /**
   * Side `i` against the ball where it is now: a side without a live
   * defender is a wall; a live defender's paddle (of `PADDLE_WIDTH_RATIO`,
   * at its place on the side) bounces the ball with spin; a ball past a
   * live defender's side scores and ends the walk.
   */
  function VisitSide(s: LC.Match, f: Setting, i: nat, draws: seq<real>, m: Env): (r: LC.Visit)
    requires TrigSound(m) && i < |f.edges| && |draws| == |s.players| && LC.Fits(s.players, f.edges, f.playersByEdge)
    ensures LC.SameSeats(s.players, r.state.players)
  {
    var edge := f.edges[i];
    var b := s.ball;
    if i !in f.playersByEdge || s.players[f.playersByEdge[i]].eliminated then
      if NearLineSegment(b, edge.start, edge.end, f.ballHitDistSq) then
        LC.Visit(s.(ball := ClassicSimulation.PushBallIn(LC.Bounced(b, edge.normal), edge)), false)
      else LC.Visit(s, false)
    else
      var k := f.playersByEdge[i];
      var p := s.players[k];
      var ends := GetPaddleEndpoints(p.mode.positionT, edge, ClientPaddle.PADDLE_WIDTH_RATIO, m);
      if NearLineSegment(b, ends.start, ends.end, f.ballHitDistSq) then
        var spun := LC.Spun(LC.Bounced(b, edge.normal), ClientPaddle.Tangent(p.mode.velocityT, edge, m));
        LC.Visit(s.(ball := ClassicSimulation.PushBallIn(spun, edge)), false)
      else if PassedThroughEdge(b, BALL_RADIUS, edge) then
        LC.HitKeepsSeats(s.players, k);
        LC.Visit(Goal(s, k, f.edges, draws, m), true)
      else LC.Visit(s, false)
  }

  /** `checkCollisions` from side `i` on. */
  function Walk(s: LC.Match, f: Setting, i: nat, draws: seq<real>, m: Env): (r: LC.Match)
    requires TrigSound(m) && |draws| == |s.players| && LC.Fits(s.players, f.edges, f.playersByEdge)
    ensures LC.SameSeats(s.players, r.players)
    decreases |f.edges| - i
  {
    if i >= |f.edges| then s
    else
      var v := VisitSide(s, f, i, draws, m);
      LC.SameSeatsFits(s.players, v.state.players, f.edges, f.playersByEdge);
      if v.stop then v.state
      else Walk(v.state, f, i + 1, draws, m)
  }

  /** A side that does not end the walk leaves the players alone; one that does is a goal against its live defender. */
  lemma VisitSideOutcome(s: LC.Match, f: Setting, i: nat, draws: seq<real>, m: Env)
    requires TrigSound(m) && i < |f.edges| && |draws| == |s.players| && LC.Fits(s.players, f.edges, f.playersByEdge)
    ensures var v := VisitSide(s, f, i, draws, m);
      && (!v.stop ==> v.state.players == s.players && v.state.running == s.running && v.state.reports == s.reports)
      && (v.stop ==> i in f.playersByEdge && !s.players[f.playersByEdge[i]].eliminated
                     && v.state == Goal(s, f.playersByEdge[i], f.edges, draws, m))
  {
  }

  /** One walk costs at most one player at most one life. */
  lemma {:induction false} WalkLosesAtMostOneLife(s: LC.Match, f: Setting, i: nat, draws: seq<real>, m: Env)
    requires TrigSound(m) && |draws| == |s.players| && LC.Fits(s.players, f.edges, f.playersByEdge)
    ensures AtMostOneLifeLost(s.players, Walk(s, f, i, draws, m).players)
    decreases |f.edges| - i
  {
    if i < |f.edges| {
      var v := VisitSide(s, f, i, draws, m);
      VisitSideOutcome(s, f, i, draws, m);
      LC.SameSeatsFits(s.players, v.state.players, f.edges, f.playersByEdge);
      if !v.stop {
        WalkLosesAtMostOneLife(v.state, f, i + 1, draws, m);
      }
    }
  }

  /** A wall that the ball reaches moves the ball before the next side is tested. */
  lemma WallPushMovesTheBall(s: LC.Match, f: Setting, i: nat, draws: seq<real>, m: Env)
    requires TrigSound(m) && i < |f.edges| && |draws| == |s.players| && LC.Fits(s.players, f.edges, f.playersByEdge)
    requires i !in f.playersByEdge
    requires NearLineSegment(s.ball, f.edges[i].start, f.edges[i].end, f.ballHitDistSq)
    ensures var v := VisitSide(s, f, i, draws, m);
      && !v.stop
      && v.state.ball.x == s.ball.x - 2.0 * f.edges[i].normal.x
      && v.state.ball.y == s.ball.y - 2.0 * f.edges[i].normal.y
  {
  }

  // ---------------------------------------------------------------------
  // The walk as written

  /**
   * Side `i` as the source writes it: a live defender's paddle is asked for
   * `getEndpoints()`, which `Paddle` does not define (it has
   * `getPaddleEndpoints()`), so that side throws (`None`).  Walls behave as
   * in `VisitSide`.
   */
  function VisitSideAsWritten(s: LC.Match, f: Setting, i: nat, draws: seq<real>, m: Env): (r: Option<LC.Visit>)
    requires TrigSound(m) && i < |f.edges| && |draws| == |s.players| && LC.Fits(s.players, f.edges, f.playersByEdge)
    ensures r.None? <==> i in f.playersByEdge && !s.players[f.playersByEdge[i]].eliminated
    ensures r.Some? ==> r.value == VisitSide(s, f, i, draws, m) && !r.value.stop && r.value.state.players == s.players
  {
    if i !in f.playersByEdge || s.players[f.playersByEdge[i]].eliminated then Some(VisitSide(s, f, i, draws, m))
    else None
  }

  /**
   * `checkCollisions` as written from side `i` on; `None` when it throws.
   * When it does not throw it only met walls: it agrees with the corrected
   * walk and leaves every player as they were.
   */
  function WalkAsWritten(s: LC.Match, f: Setting, i: nat, draws: seq<real>, m: Env): (r: Option<LC.Match>)
    requires TrigSound(m) && |draws| == |s.players| && LC.Fits(s.players, f.edges, f.playersByEdge)
    ensures r.Some? ==> r.value == Walk(s, f, i, draws, m) && r.value.players == s.players
    decreases |f.edges| - i
  {
    if i >= |f.edges| then Some(s)
    else
      match VisitSideAsWritten(s, f, i, draws, m)
      case None => None
      case Some(v) =>
        LC.SameSeatsFits(s.players, v.state.players, f.edges, f.playersByEdge);
        if v.stop then Some(v.state)
        else WalkAsWritten(v.state, f, i + 1, draws, m)
  }

  /** As written, the walk throws once it comes to a side with a live defender, since walls never end it. */
  lemma {:induction false} WalkAsWrittenThrowsAtDefendedSide(s: LC.Match, f: Setting, i: nat, e: nat, draws: seq<real>, m: Env)
    requires TrigSound(m) && |draws| == |s.players| && LC.Fits(s.players, f.edges, f.playersByEdge)
    requires i <= e < |f.edges| && e in f.playersByEdge && !s.players[f.playersByEdge[e]].eliminated
    ensures WalkAsWritten(s, f, i, draws, m) == None
    decreases e - i
  {
    if i < e {
      match VisitSideAsWritten(s, f, i, draws, m)
      case None =>
      case Some(v) =>
        assert !v.stop && v.state.players == s.players;
        WalkAsWrittenThrowsAtDefendedSide(v.state, f, i + 1, e, draws, m);
    }
  }

  /** As written, every tick's walk throws while anybody is still in the game. */
  lemma AsWrittenWalkThrowsWhileAnyoneIsIn(s: LC.Match, f: Setting, draws: seq<real>, m: Env)
    requires TrigSound(m) && |draws| == |s.players| && LC.Fits(s.players, f.edges, f.playersByEdge)
    requires OwnsOwnSide(s.players, f.playersByEdge) && CountAlive(s.players) > 0
    ensures WalkAsWritten(s, f, 0, draws, m) == None
  {
    LastAliveFacts(s.players);
    var k := LastAlive(s.players).value;
    var e := s.players[k].mode.edgeIndex;
    WalkAsWrittenThrowsAtDefendedSide(s, f, 0, e, draws, m);
  }

  // ---------------------------------------------------------------------
  // A frame

  /** The players after `handleInput` and `updateAI`. */
  function Steer(ps: seq<LocalPlayer>, f: Setting, ball: BallState, rolls: seq<Roll>): (r: seq<LocalPlayer>)
    requires |ps| > 0 && |rolls| == |ps| && forall j :: 0 <= j < |ps| ==> ps[j].mode.edgeIndex < |f.edges|
    requires forall j :: 0 <= j < |rolls| ==> 0.0 <= rolls[j].target < 1.0 && 0.0 <= rolls[j].timer < 1.0
    ensures LC.SameSeats(ps, r)
  {
    var steered := ps[0 := Steered(ps[0], f.keys, PADDLE_SPEED, ClientPaddle.PADDLE_WIDTH_RATIO)];
    LC.BotsTurn(steered, f.edges, ball, f.arenaRadius, rolls, ClientPaddle.PADDLE_WIDTH_RATIO)
  }

  /** One frame of a running game: input, bots, ball, sides, bounds; the HUD is redrawn if needed. */
  function Frame(s: LC.Match, f: Setting, rolls: seq<Roll>, drawsGoal: seq<real>, drawsFar: seq<real>, m: Env): LC.Match
    requires TrigSound(m) && |s.players| > 0 && LC.Fits(s.players, f.edges, f.playersByEdge)
    requires |rolls| == |s.players| && |drawsGoal| == |s.players| && |drawsFar| == |s.players|
    requires forall j :: 0 <= j < |rolls| ==> 0.0 <= rolls[j].target < 1.0 && 0.0 <= rolls[j].timer < 1.0
  {
    var steered := Steer(s.players, f, s.ball, rolls);
    var moved := s.(players := steered, ball := Advance(s.ball));
    LC.SameSeatsFits(s.players, steered, f.edges, f.playersByEdge);
    var walked := Walk(moved, f, 0, drawsGoal, m);
    LC.OutOfBounds(walked, f.edges, f.arenaRadius, drawsFar, m).(hudDirty := false)
  }

  /** A frame costs at most one player at most one life. */
  lemma FrameLosesAtMostOneLife(s: LC.Match, f: Setting, rolls: seq<Roll>, drawsGoal: seq<real>, drawsFar: seq<real>, m: Env)
    requires TrigSound(m) && |s.players| > 0 && LC.Fits(s.players, f.edges, f.playersByEdge)
    requires |rolls| == |s.players| && |drawsGoal| == |s.players| && |drawsFar| == |s.players|
    requires forall j :: 0 <= j < |rolls| ==> 0.0 <= rolls[j].target < 1.0 && 0.0 <= rolls[j].timer < 1.0
    ensures var steered := Steer(s.players, f, s.ball, rolls);
      AtMostOneLifeLost(steered, Frame(s, f, rolls, drawsGoal, drawsFar, m).players)
  {
    var steered := Steer(s.players, f, s.ball, rolls);
    var moved := s.(players := steered, ball := Advance(s.ball));
    LC.SameSeatsFits(s.players, steered, f.edges, f.playersByEdge);
    WalkLosesAtMostOneLife(moved, f, 0, drawsGoal, m);
  }

  /** `init`'s radius: the arena's default radius, or 38% of the screen's smaller dimension if that is less. */
  function ArenaRadius(defaultRadius: real, width: real, height: real): (r: real)
    ensures r <= defaultRadius && r <= width * 0.38 && r <= height * 0.38
    ensures r == defaultRadius || r == width * 0.38 || r == height * 0.38
  {
    Min(defaultRadius, Min(width, height) * 0.38)
  }

  class Game {
    var edges: seq<Edge>
    var playersByEdge: map<nat, nat>
    var arenaRadius: real
    var keys: set<string>
    var ballHitDistSq: real
    var players: seq<LocalPlayer>
    var ball: BallState
    var running: bool
    /** The calls of `onGameOver` so far, each with a winner's name. */
    var reports: seq<Option<string>>
    var hudDirty: bool

    function State(): LC.Match
      reads this
    {
      LC.Match(players, ball, running, reports, hudDirty)
    }

    function Rest(): Setting
      reads this
    {
      Setting(edges, playersByEdge, arenaRadius, keys, ballHitDistSq)
    }

    /** There is a local player; every seat's side exists, is recorded as the seat's own, and each defended side names its defender. */
    ghost predicate Valid()
      reads this
    {
      && |players| > 0 && LC.Fits(players, edges, playersByEdge) && OwnsOwnSide(players, playersByEdge)
      && forall e :: e in playersByEdge ==> players[playersByEdge[e]].mode.edgeIndex == e
    }

    /**
     * `init`: the arena for `playerCount` players at the smaller of
     * `defaultRadius` and 38% of the screen, the k-th player on the k-th
     * assigned side with full lives and the paddle in the middle, the hit
     * distance from the ball's radius, a first ball launched, and the game
     * running.
     */
    constructor(playerCount: nat, playerName: string, defaultRadius: real, width: real, height: real,
                aggressiveness: seq<real>, draws: seq<real>, m: Env)
      requires playerCount >= 2 && SqrtSound(m) && PiSound(m) && CircleSound(m)
      requires defaultRadius > 0.0 && width > 0.0 && height > 0.0
      requires |aggressiveness| == playerCount && |draws| == playerCount
      ensures Valid() && running && reports == [] && hudDirty && keys == {}
      ensures arenaRadius == ArenaRadius(defaultRadius, width, height) && ballHitDistSq == Sq(BALL_RADIUS + 4.0)
      ensures |edges| == GetArenaConfig(playerCount).numSides && IsClosedPolygon(edges)
      ensures players == LC.InitialPlayers(playerName, GetArenaConfig(playerCount), aggressiveness)
      ensures LC.IsInitialOwners(playersByEdge, GetArenaConfig(playerCount))
      ensures ball == LC.Launched(LC.Match(players, BallState(0.0, 0.0, 0.0, 0.0), false, [], true), edges, draws, m).ball
    {
      var radius := ArenaRadius(defaultRadius, width, height);
      var config, sides := LC.BuildArena(playerCount, radius, m);
      var ps, owners := LC.SeatPlayers(playerName, config, aggressiveness);
      edges := sides;
      playersByEdge := owners;
      arenaRadius := radius;
      keys := {};
      ballHitDistSq := Sq(BALL_RADIUS + 4.0);
      players := ps;
      ball := BallState(0.0, 0.0, 0.0, 0.0);
      running := false;
      reports := [];
      hudDirty := true;
      new;
      assert Valid() by {
        LC.InitialSeatsFit(playerName, playerCount, aggressiveness, owners, sides);
        InitialOwnsOwnSide(playerName, playerCount, aggressiveness, owners);
      }
      LaunchBall(draws, m);
      running := true;
    }

    /** `onKeyDown`: the (lower-cased) key is held. */
    method KeyDown(key: string)
      modifies this
      ensures keys == old(keys) + {key}
      ensures State() == old(State()) && Rest() == old(Rest()).(keys := keys)
    {
      keys := keys + {key};
    }

    /** `onKeyUp`: the (lower-cased) key is released. */
    method KeyUp(key: string)
      modifies this
      ensures keys == old(keys) - {key}
      ensures State() == old(State()) && Rest() == old(Rest()).(keys := keys)
    {
      keys := keys - {key};
    }

    /** `gameLoop`: a stopped game does nothing; a running one plays one frame. */
    method GameLoop(rolls: seq<Roll>, drawsGoal: seq<real>, drawsFar: seq<real>, m: Env)
      requires Valid() && TrigSound(m)
      requires |rolls| == |players| && |drawsGoal| == |players| && |drawsFar| == |players|
      requires forall j :: 0 <= j < |rolls| ==> 0.0 <= rolls[j].target < 1.0 && 0.0 <= rolls[j].timer < 1.0
      modifies this
      ensures Valid() && Rest() == old(Rest())
      ensures !old(running) ==> State() == old(State())
      ensures old(running) ==> State() == Frame(old(State()), old(Rest()), rolls, drawsGoal, drawsFar, m)
    {
      if !running {
        return;
      }
      RunFrame(rolls, drawsGoal, drawsFar, m);
    }

    /** The body of a frame. */
    method RunFrame(rolls: seq<Roll>, drawsGoal: seq<real>, drawsFar: seq<real>, m: Env)
      requires Valid() && TrigSound(m)
      requires |rolls| == |players| && |drawsGoal| == |players| && |drawsFar| == |players|
      requires forall j :: 0 <= j < |rolls| ==> 0.0 <= rolls[j].target < 1.0 && 0.0 <= rolls[j].timer < 1.0
      modifies this
      ensures Valid() && Rest() == old(Rest())
      ensures State() == Frame(old(State()), old(Rest()), rolls, drawsGoal, drawsFar, m)
    {
      SteerAndMove(rolls);
      CheckCollisions(drawsGoal, m);
      CheckOutOfBounds(drawsFar, m);
      if hudDirty {
        hudDirty := false;
      }
    }

    /** The start of a frame: the keys and the bots move the paddles, then the ball moves. */
    method SteerAndMove(rolls: seq<Roll>)
      requires Valid() && |rolls| == |players|
      requires forall j :: 0 <= j < |rolls| ==> 0.0 <= rolls[j].target < 1.0 && 0.0 <= rolls[j].timer < 1.0
      modifies this
      ensures Valid() && Rest() == old(Rest())
      ensures State() == old(State()).(players := Steer(old(players), Rest(), old(ball), rolls), ball := Advance(old(ball)))
    {
      HandleInput();
      UpdateAI(rolls);
      ball := Advance(ball);
    }

    /** `handleInput`: the local player's paddle follows the keys unless the player is out. */
    method HandleInput()
      requires Valid()
      modifies this
      ensures Valid() && Rest() == old(Rest())
      ensures State() == old(State()).(players := old(players)[0 := Steered(old(players)[0], keys, PADDLE_SPEED, ClientPaddle.PADDLE_WIDTH_RATIO)])
    {
      var player := players[0];
      if player.eliminated {
        return;
      }
      if "a" in keys || "arrowleft" in keys {
        player := Moved(player, -PADDLE_SPEED, ClientPaddle.PADDLE_WIDTH_RATIO);
      }
      if "d" in keys || "arrowright" in keys {
        player := Moved(player, PADDLE_SPEED, ClientPaddle.PADDLE_WIDTH_RATIO);
      }
      players := players[0 := player];
    }

    /** `updateAI`: each bot in turn, against the ball as it is before it moves. */
    method UpdateAI(rolls: seq<Roll>)
      requires Valid() && |rolls| == |players|
      requires forall j :: 0 <= j < |rolls| ==> 0.0 <= rolls[j].target < 1.0 && 0.0 <= rolls[j].timer < 1.0
      modifies this
      ensures Valid() && Rest() == old(Rest())
      ensures State() == old(State()).(players := LC.BotsTurn(old(players), edges, ball, arenaRadius, rolls, ClientPaddle.PADDLE_WIDTH_RATIO))
    {
      var ps := LC.TakeBotTurns(players, edges, ball, arenaRadius, rolls, ClientPaddle.PADDLE_WIDTH_RATIO);
      players := ps;
    }

    /**
     * `checkCollisions`: every side in turn against the ball where it then is, until a goal.
     * This is the corrected pass, which takes the paddle's ends from `getPaddleEndpoints`.
     */
    method CheckCollisions(draws: seq<real>, m: Env)
      requires Valid() && TrigSound(m) && |draws| == |players|
      modifies this
      ensures Valid() && Rest() == old(Rest())
      ensures State() == Walk(old(State()), Rest(), 0, draws, m)
    {
      ghost var start := State();
      ghost var rest := Rest();
      ghost var walk := Walk(start, rest, 0, draws, m);
      var i := 0;
      while i < |edges|
        invariant Valid() && Rest() == rest && LC.SameSeats(start.players, players)
        invariant Walk(State(), rest, i, draws, m) == walk
        decreases |edges| - i
      {
        var stop := TestSide(i, draws, m);
        if stop {
          return;
        }
        i := i + 1;
      }
    }

    /** One side of `checkCollisions`; `stop` is the `break` after a goal. */
    method TestSide(i: nat, draws: seq<real>, m: Env) returns (stop: bool)
      requires Valid() && TrigSound(m) && i < |edges| && |draws| == |players|
      modifies this
      ensures Valid() && Rest() == old(Rest()) && LC.SameSeats(old(players), players)
      ensures LC.Visit(State(), stop) == VisitSide(old(State()), Rest(), i, draws, m)
    {
      if i !in playersByEdge || players[playersByEdge[i]].eliminated {
        var edge := edges[i];
        if NearLineSegment(ball, edge.start, edge.end, ballHitDistSq) {
          ball := LC.Bounced(ball, edge.normal);
          PushBallIn(edge);
        }
        return false;
      }
      stop := TestDefendedSide(i, playersByEdge[i], draws, m);
    }

    /** A side whose defender `k` is still in: the paddle, then the goal line. */
    method TestDefendedSide(i: nat, k: nat, draws: seq<real>, m: Env) returns (stop: bool)
      requires Valid() && TrigSound(m) && i < |edges| && |draws| == |players|
      requires i in playersByEdge && k == playersByEdge[i] && !players[k].eliminated
      modifies this
      ensures Valid() && Rest() == old(Rest()) && LC.SameSeats(old(players), players)
      ensures LC.Visit(State(), stop) == VisitSide(old(State()), Rest(), i, draws, m)
    {
      var edge := edges[i];
      var p := players[k];
      var ends := GetPaddleEndpoints(p.mode.positionT, edge, ClientPaddle.PADDLE_WIDTH_RATIO, m);
      if NearLineSegment(ball, ends.start, ends.end, ballHitDistSq) {
        var tangent := ClientPaddle.Tangent(p.mode.velocityT, edge, m);
        ball := LC.Spun(LC.Bounced(ball, edge.normal), tangent);
        PushBallIn(edge);
        return false;
      }
      stop := false;
      if PassedThroughEdge(ball, BALL_RADIUS, edge) {
        LC.HitKeepsSeats(players, k);
        ScoreGoal(k, draws, m);
        stop := true;
      }
    }

    /** `pushBallIn(edge)`: the ball moves two units against the side's outward normal; its velocity stays. */
    method PushBallIn(edge: Edge)
      modifies this
      ensures ball.x == old(ball.x) - edge.normal.x * 2.0 && ball.y == old(ball.y) - edge.normal.y * 2.0
      ensures ball.vx == old(ball.vx) && ball.vy == old(ball.vy)
      ensures ball == ClassicSimulation.PushBallIn(old(ball), edge)
      ensures players == old(players) && running == old(running) && reports == old(reports) && hudDirty == old(hudDirty)
      ensures Rest() == old(Rest())
    {
      ball := ball.(x := ball.x - edge.normal.x * 2.0, y := ball.y - edge.normal.y * 2.0);
    }

    /** The goal branch of `checkCollisions` against live player `k`. */
    method ScoreGoal(k: nat, draws: seq<real>, m: Env)
      requires Valid() && k < |players| && |draws| == |players|
      modifies this
      ensures Valid() && Rest() == old(Rest())
      ensures State() == Goal(old(State()), k, edges, draws, m)
    {
      LC.HitKeepsSeats(players, k);
      players := players[k := Hit(players[k])];
      hudDirty := true;
      if players[k].eliminated {
        CheckWinCondition();
      }
      LaunchBall(draws, m);
    }

    /** `checkOutOfBounds`. */
    method CheckOutOfBounds(draws: seq<real>, m: Env)
      requires Valid() && |draws| == |players|
      modifies this
      ensures Valid() && Rest() == old(Rest())
      ensures State() == LC.OutOfBounds(old(State()), edges, arenaRadius, draws, m)
    {
      var dist := Hypot(m, ball.x, ball.y);
      if dist > arenaRadius * 1.5 {
        LaunchBall(draws, m);
      }
    }

    /** `launchBall`: the reservoir pick over the live players, then the ball aimed at the pick's side. */
    method LaunchBall(draws: seq<real>, m: Env)
      requires |draws| == |players| && forall j :: 0 <= j < |players| ==> players[j].mode.edgeIndex < |edges|
      modifies this
      ensures Rest() == old(Rest()) && players == old(players)
      ensures State() == LC.Launched(old(State()), edges, draws, m)
    {
      var picked := PickTarget(players, draws);
      if picked.Some? {
        var edge := edges[players[picked.value].mode.edgeIndex];
        var v := BaseRoom.AimAt(edge.midpoint, m);
        ball := BallState(0.0, 0.0, v.x, v.y);
      }
    }

    /** `checkWinCondition`. */
    method CheckWinCondition()
      modifies this
      ensures Rest() == old(Rest())
      ensures State() == LC.WinCheck(old(State()))
    {
      var aliveCount, lastAlive := CountSurvivors(players);
      if aliveCount <= 1 {
        running := false;
        reports := reports + [Some(WinnerName(players))];
      }
    }
  }
}
