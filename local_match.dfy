/**
 * What the three local games against bots share (client/src/game/Game.ts,
 * client/src/game/classic/ClassicGame.ts and client/src/game/goals/GoalsGame.ts):
 * the players as records with lives and an elimination flag, the count of
 * survivors and the name reported when the match ends, the bots' paddle
 * steering of the two polygon games and their random pick of the player a
 * new ball is aimed at.  The code is written out again in each source file;
 * here it is defined once.
 */
module LocalMatch {
  import opened RealMath
  import opened Wrappers
  import opened Types
  import opened Physics
  import opened PaddleTrack

  /** A player of a local game: the mode's own part (paddle, AI) in `mode`. */
  datatype Contestant<Mode> = Contestant(name: string, lives: int, eliminated: bool, mode: Mode)

  // ---------------------------------------------------------------------
  // Survivors and the end of the match

  /** The number of players not eliminated. */
  function CountAlive<Mode>(ps: seq<Contestant<Mode>>): nat {
    if |ps| == 0 then 0
    else CountAlive(ps[..|ps| - 1]) + (if ps[|ps| - 1].eliminated then 0 else 1)
  }

  /** The index of the last player not eliminated, if any. */
  function LastAlive<Mode>(ps: seq<Contestant<Mode>>): (r: Option<nat>)
    ensures r.Some? ==> r.value < |ps| && !ps[r.value].eliminated
  {
    if |ps| == 0 then None
    else if !ps[|ps| - 1].eliminated then Some(|ps| - 1)
    else LastAlive(ps[..|ps| - 1])
  }

  /**
   * The last survivor is reported exactly when someone survives, and
   * everybody after it is out; when only one survives, everybody else is.
   */
  lemma {:induction false} LastAliveFacts<Mode>(ps: seq<Contestant<Mode>>)
    ensures LastAlive(ps).None? <==> CountAlive(ps) == 0
    ensures LastAlive(ps).Some? ==> forall j :: LastAlive(ps).value < j < |ps| ==> ps[j].eliminated
    ensures CountAlive(ps) == 1 ==> forall j :: 0 <= j < |ps| && j != LastAlive(ps).value ==> ps[j].eliminated
  {
    if |ps| > 0 {
      var init := ps[..|ps| - 1];
      LastAliveFacts(init);
      if !ps[|ps| - 1].eliminated && CountAlive(ps) == 1 {
        NoneAlive(init);
      }
    }
  }

  /** With nobody alive, everybody is eliminated. */
  lemma {:induction false} NoneAlive<Mode>(ps: seq<Contestant<Mode>>)
    requires CountAlive(ps) == 0
    ensures forall j :: 0 <= j < |ps| ==> ps[j].eliminated
  {
    if |ps| > 0 {
      NoneAlive(ps[..|ps| - 1]);
    }
  }

  /** A player not eliminated is counted. */
  lemma {:induction false} AliveCounted<Mode>(ps: seq<Contestant<Mode>>, k: nat)
    requires k < |ps| && !ps[k].eliminated
    ensures CountAlive(ps) >= 1
  {
    if k < |ps| - 1 {
      AliveCounted(ps[..|ps| - 1], k);
    }
  }

  /** Two players not eliminated mean the match goes on. */
  lemma {:induction false} TwoAliveCounted<Mode>(ps: seq<Contestant<Mode>>, i: nat, j: nat)
    requires i < j < |ps| && !ps[i].eliminated && !ps[j].eliminated
    ensures CountAlive(ps) >= 2
  {
    if j < |ps| - 1 {
      TwoAliveCounted(ps[..|ps| - 1], i, j);
    } else {
      AliveCounted(ps[..|ps| - 1], i);
    }
  }

  /** `lastAlive?.name ?? "Nobody"`: what `onGameOver` is told when at most one player is left. */
  function WinnerName<Mode>(ps: seq<Contestant<Mode>>): string {
    match LastAlive(ps)
    case None => "Nobody"
    case Some(k) => ps[k].name
  }

  /** The name reported is the sole survivor's, or "Nobody" when nobody survives. */
  lemma WinnerNameFacts<Mode>(ps: seq<Contestant<Mode>>)
    ensures CountAlive(ps) == 0 ==> WinnerName(ps) == "Nobody"
    ensures CountAlive(ps) == 1 ==>
      exists k :: (&& 0 <= k < |ps| && !ps[k].eliminated && WinnerName(ps) == ps[k].name
                   && (forall j :: 0 <= j < |ps| && j != k ==> ps[j].eliminated))
  {
    LastAliveFacts(ps);
  }

  /** The loop of `checkWinCondition`: the survivors counted, the last one remembered. */
  method CountSurvivors<Mode>(ps: seq<Contestant<Mode>>) returns (aliveCount: nat, lastAlive: Option<nat>)
    ensures aliveCount == CountAlive(ps) && lastAlive == LastAlive(ps)
  {
    aliveCount := 0;
    lastAlive := None;
    for i := 0 to |ps|
      invariant aliveCount == CountAlive(ps[..i]) && lastAlive == LastAlive(ps[..i])
    {
      assert ps[..i + 1][..i] == ps[..i];
      if !ps[i].eliminated {
        aliveCount := aliveCount + 1;
        lastAlive := Some(i);
      }
    }
    assert ps[..|ps|] == ps;
  }

  // ---------------------------------------------------------------------
  // Losing a life

  /** A ball past a live player's goal or side: one life fewer, out at zero. */
  function Hit<Mode>(p: Contestant<Mode>): Contestant<Mode> {
    p.(lives := p.lives - 1, eliminated := p.lives - 1 <= 0)
  }

  /** Player `k`, who was still in, lost exactly one life and nothing else about anyone changed. */
  ghost predicate LostOneLife<Mode>(before: seq<Contestant<Mode>>, after: seq<Contestant<Mode>>, k: nat) {
    k < |before| && !before[k].eliminated && after == before[k := Hit(before[k])]
  }

  /** Nobody lost a life, or exactly one live player lost exactly one. */
  ghost predicate AtMostOneLifeLost<Mode>(before: seq<Contestant<Mode>>, after: seq<Contestant<Mode>>) {
    after == before || exists k: nat :: LostOneLife(before, after, k)
  }

  /** Only the hit player can drop out, and only on their last life. */
  lemma HitFacts<Mode>(ps: seq<Contestant<Mode>>, k: nat)
    requires k < |ps| && !ps[k].eliminated
    ensures var after := ps[k := Hit(ps[k])];
      && after[k].lives == ps[k].lives - 1
      && (after[k].eliminated <==> ps[k].lives <= 1)
      && CountAlive(after) == CountAlive(ps) - (if ps[k].lives <= 1 then 1 else 0)
  {
    HitCount(ps, k);
  }

  lemma {:induction false} HitCount<Mode>(ps: seq<Contestant<Mode>>, k: nat)
    requires k < |ps| && !ps[k].eliminated
    ensures CountAlive(ps[k := Hit(ps[k])]) == CountAlive(ps) - (if ps[k].lives <= 1 then 1 else 0)
  {
    var after := ps[k := Hit(ps[k])];
    var n := |ps| - 1;
    if k < n {
      assert after[..n] == ps[..n][k := Hit(ps[k])];
      HitCount(ps[..n], k);
    } else {
      assert after[..n] == ps[..n];
    }
  }

  // ---------------------------------------------------------------------
  // The polygon games' paddles and bots

  /** A bot's state: how far it leans into the ball, its speed, and where it drifts when idle. */
  datatype AIState = AIState(aggressiveness: real, speed: real, roamTarget: real, roamTimer: int)

  /** The two draws of `Math.random()` a bot uses when it picks a new roam target. */
  datatype Roll = Roll(target: real, timer: real)

  /** A polygon game's seat: the paddle's position and last step, its side, and the bot driving it. */
  datatype Seat = Seat(positionT: real, velocityT: real, edgeIndex: nat, ai: Option<AIState>)

  type LocalPlayer = Contestant<Seat>

  /** `paddle.move(delta)`: the step along the side, clamped, remembered as the paddle's velocity. */
  function Moved(p: LocalPlayer, delta: real, widthRatio: real): (r: LocalPlayer)
    ensures r.mode.positionT == Slide(p.mode.positionT, delta, widthRatio)
    ensures r.mode.velocityT == r.mode.positionT - p.mode.positionT
    ensures r == p.(mode := r.mode) && r.mode == p.mode.(positionT := r.mode.positionT, velocityT := r.mode.velocityT)
  {
    var t := Slide(p.mode.positionT, delta, widthRatio);
    p.(mode := p.mode.(positionT := t, velocityT := t - p.mode.positionT))
  }

  /**
   * `handleInput`: the local player's paddle steps left for "a" or the left
   * arrow, then right for "d" or the right arrow; an eliminated player's
   * keys are ignored.
   */
  function Steered(p: LocalPlayer, keys: set<string>, speed: real, widthRatio: real): LocalPlayer {
    if p.eliminated then p
    else
      var left := if "a" in keys || "arrowleft" in keys then Moved(p, -speed, widthRatio) else p;
      if "d" in keys || "arrowright" in keys then Moved(left, speed, widthRatio) else left
  }

  /**
   * Keys move only the paddle, keep it on its side, and do nothing to an
   * eliminated player or when neither direction is held.
   */
  lemma SteeredFacts(p: LocalPlayer, keys: set<string>, speed: real, widthRatio: real)
    requires widthRatio <= 1.0
    ensures var r := Steered(p, keys, speed, widthRatio);
      && (p.eliminated ==> r == p)
      && (!("a" in keys || "arrowleft" in keys || "d" in keys || "arrowright" in keys) ==> r == p)
      && r.name == p.name && r.lives == p.lives && r.eliminated == p.eliminated
      && r.mode.edgeIndex == p.mode.edgeIndex && r.mode.ai == p.mode.ai
      && (r != p ==> widthRatio / 2.0 <= r.mode.positionT <= 1.0 - widthRatio / 2.0)
  {
    SlideFacts(p.mode.positionT, -speed, widthRatio);
    var left := if "a" in keys || "arrowleft" in keys then Moved(p, -speed, widthRatio) else p;
    SlideFacts(left.mode.positionT, speed, widthRatio);
  }

  /** `Math.sign`. */
  function Sign(x: real): real {
    if x > 0.0 then 1.0 else if x < 0.0 then -1.0 else 0.0
  }

  /** A bot's goal on its side, kept away from the corners. */
  function ClampGoal(goalT: real): (g: real)
    ensures 0.05 <= g <= 0.95
    ensures 0.05 <= goalT <= 0.95 ==> g == goalT
  {
    Max(0.05, Min(0.95, goalT))
  }

  /**
   * The step a bot asks of its paddle: towards the clamped goal, at most
   * its speed; none when it is within 0.005 of the goal.  So the bot holds
   * still exactly inside the dead band, and otherwise steps towards the
   * goal by at most its speed and never past the goal.
   */
  function AIMove(goalT: real, positionT: real, speed: real): (r: Option<real>)
    ensures var diff := ClampGoal(goalT) - positionT;
      r.None? <==> -0.005 <= diff <= 0.005
    ensures var g := ClampGoal(goalT);
      speed >= 0.0 && r.Some? ==>
        && Abs(r.value) <= speed
        && (positionT < g ==> positionT <= positionT + r.value <= g)
        && (g < positionT ==> g <= positionT + r.value <= positionT)
  {
    var diff := ClampGoal(goalT) - positionT;
    if Abs(diff) > 0.005 then Some(Sign(diff) * Min(speed, Abs(diff))) else None
  }

  /** The ball is on the inner side of `edge`, closer than 0.7 radii or coming towards it. */
  function Defends(ball: BallState, edge: Edge, arenaRadius: real): bool {
    var distToEdge := -EdgeOffset(ball.x, ball.y, edge);
    var approachSpeed := -(ball.vx * edge.normal.x + ball.vy * edge.normal.y);
    var close := distToEdge > 0.0 && distToEdge < arenaRadius * 0.7;
    var approaching := approachSpeed > 0.0 && distToEdge > 0.0;
    close || approaching
  }

  /** Where along the side the ball is level with, clamped to [0, 1]. */
  function BallLevel(ball: BallState, edge: Edge): (t: real)
    requires edge.length != 0.0
    ensures 0.0 <= t <= 1.0
  {
    var edgeDx := edge.end.x - edge.start.x;
    var edgeDy := edge.end.y - edge.start.y;
    Max(0.0, Min(1.0, ((ball.x - edge.start.x) * edgeDx + (ball.y - edge.start.y) * edgeDy) / (edge.length * edge.length)))
  }

  /**
   * A roam pick: the timer counts down and, once it runs out, a new target
   * in [0.25, 0.75) and a new timer of 40 to 119 ticks are drawn.
   */
  function Roam(ai: AIState, roll: Roll): (r: AIState)
    requires 0.0 <= roll.target < 1.0 && 0.0 <= roll.timer < 1.0
    ensures r.aggressiveness == ai.aggressiveness && r.speed == ai.speed
    ensures ai.roamTimer - 1 > 0 ==> r == ai.(roamTimer := ai.roamTimer - 1)
    ensures ai.roamTimer - 1 <= 0 ==> 0.25 <= r.roamTarget < 0.75 && 40 <= r.roamTimer <= 119
  {
    var counted := ai.(roamTimer := ai.roamTimer - 1);
    if counted.roamTimer <= 0 then
      MulStrictMono(80.0, roll.timer, 1.0);
      counted.(roamTarget := 0.25 + roll.target * 0.5, roamTimer := 40 + (roll.timer * 80.0).Floor)
    else counted
  }

  /** The move a bot's paddle makes for `goalT`, if it moves at all. */
  function SteerTo(p: LocalPlayer, goalT: real, speed: real, widthRatio: real): LocalPlayer {
    match AIMove(goalT, p.mode.positionT, speed)
    case None => p
    case Some(d) => Moved(p, d, widthRatio)
  }

  /**
   * One bot's turn of `updateAI` against its side `edge`: defend by heading
   * for the ball's level, offset by up to 0.06 towards the nearer end, or
   * else drift to its roam target.  For a side of zero length the source's
   * level is 0/0, NaN, and the bot does not move.  The turn changes
   * nothing but the bot's paddle and roaming, and leaves the local player
   * and eliminated players alone.
   */
  function BotTurn(p: LocalPlayer, edge: Edge, ball: BallState, arenaRadius: real, roll: Roll, widthRatio: real): (r: LocalPlayer)
    requires 0.0 <= roll.target < 1.0 && 0.0 <= roll.timer < 1.0
    ensures p.eliminated || p.mode.ai.None? ==> r == p
    ensures r.name == p.name && r.lives == p.lives && r.eliminated == p.eliminated && r.mode.edgeIndex == p.mode.edgeIndex
    ensures r.mode.ai.Some? <==> p.mode.ai.Some?
  {
    if p.eliminated || p.mode.ai.None? then p
    else
      var ai := p.mode.ai.value;
      if Defends(ball, edge, arenaRadius) then
        if edge.length == 0.0 then p
        else
          var level := BallLevel(ball, edge);
          var offset := (if level > 0.5 then 1.0 else -1.0) * 0.06 * ai.aggressiveness;
          SteerTo(p, level + offset, ai.speed, widthRatio)
      else
        var roamed := Roam(ai, roll);
        SteerTo(p.(mode := p.mode.(ai := Some(roamed))), roamed.roamTarget, ai.speed, widthRatio)
  }

  /** A bot's turn moves its paddle by at most the bot's speed. */
  lemma BotTurnFacts(p: LocalPlayer, edge: Edge, ball: BallState, arenaRadius: real, roll: Roll, widthRatio: real)
    requires 0.0 <= roll.target < 1.0 && 0.0 <= roll.timer < 1.0 && widthRatio <= 1.0
    requires p.mode.ai.Some? ==> p.mode.ai.value.speed >= 0.0
    requires widthRatio / 2.0 <= p.mode.positionT <= 1.0 - widthRatio / 2.0
    ensures var r := BotTurn(p, edge, ball, arenaRadius, roll, widthRatio);
      p.mode.ai.Some? ==> Abs(r.mode.positionT - p.mode.positionT) <= p.mode.ai.value.speed
  {
    if !p.eliminated && p.mode.ai.Some? {
      var ai := p.mode.ai.value;
      var pos := p.mode.positionT;
      var goal: real;
      if Defends(ball, edge, arenaRadius) {
        if edge.length == 0.0 {
          return;
        }
        var level := BallLevel(ball, edge);
        goal := level + (if level > 0.5 then 1.0 else -1.0) * 0.06 * ai.aggressiveness;
      } else {
        goal := Roam(ai, roll).roamTarget;
      }
      match AIMove(goal, pos, ai.speed)
      case None =>
      case Some(d) =>
        SlideStepBound(pos, d, widthRatio);
    }
  }

  /** A clamped step is never longer than the step asked for. */
  lemma SlideStepBound(position: real, delta: real, widthRatio: real)
    requires widthRatio / 2.0 <= position <= 1.0 - widthRatio / 2.0
    ensures Abs(Slide(position, delta, widthRatio) - position) <= Abs(delta)
  {
  }

  // ---------------------------------------------------------------------
  // Aiming a new ball

  /**
   * The reservoir pick of `launchBall` over the first `n` players: each
   * live player replaces the pick when its draw is below one over the
   * number of live players seen so far.
   */
  function Reservoir<Mode>(ps: seq<Contestant<Mode>>, draws: seq<real>, n: nat): (r: Option<nat>)
    requires n <= |ps| && |draws| == |ps|
    ensures r.Some? ==> r.value < n && !ps[r.value].eliminated
  {
    if n == 0 then None
    else
      var prev := Reservoir(ps, draws, n - 1);
      if ps[n - 1].eliminated then prev
      else if draws[n - 1] < 1.0 / (CountAlive(ps[..n]) as real) then Some(n - 1)
      else prev
  }

  /** For draws of `Math.random()`, somebody is picked exactly when somebody is alive. */
  lemma {:induction false} ReservoirPicksWhenAlive<Mode>(ps: seq<Contestant<Mode>>, draws: seq<real>, n: nat)
    requires n <= |ps| && |draws| == |ps|
    requires forall i :: 0 <= i < |draws| ==> 0.0 <= draws[i] < 1.0
    ensures Reservoir(ps, draws, n).None? <==> CountAlive(ps[..n]) == 0
  {
    if n > 0 {
      ReservoirPicksWhenAlive(ps, draws, n - 1);
      assert ps[..n][..n - 1] == ps[..n - 1];
    }
  }

  /** The loop of `launchBall`: count the live players and keep the reservoir pick. */
  method PickTarget<Mode>(ps: seq<Contestant<Mode>>, draws: seq<real>) returns (picked: Option<nat>)
    requires |draws| == |ps|
    ensures picked == Reservoir(ps, draws, |ps|)
  {
    var aliveCount: nat := 0;
    picked := None;
    for i := 0 to |ps|
      invariant aliveCount == CountAlive(ps[..i]) && picked == Reservoir(ps, draws, i)
    {
      assert ps[..i + 1][..i] == ps[..i];
      if ps[i].eliminated {
        continue;
      }
      aliveCount := aliveCount + 1;
      if draws[i] < 1.0 / (aliveCount as real) {
        picked := Some(i);
      }
    }
  }
}
