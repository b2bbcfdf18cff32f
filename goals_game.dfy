/**
 * The local goals game against bots (client/src/game/goals/GoalsGame.ts):
 * every player guards a goal on a ring with a paddle orbiting it; several
 * balls fly at once.  A simulation tick runs whenever the ticker has
 * accumulated a whole frame: the local player's paddle turns and its orbit
 * widens or narrows with the keys, the bots chase the nearest ball or
 * roam, the balls move, each ball bounces off the arena wall and is tested
 * against every live player's paddle and goal, and a spawn timer adds a
 * ball every `GOALS_BALL_SPAWN_INTERVAL` ticks.  Drawing, the HUD text and
 * audio are not modelled; randomness comes in as draws of `Math.random()`.
 */
module LocalGoalsGame {
  import opened RealMath
  import opened Wrappers
  import opened Types
  import opened Constants
  import opened Physics
  import opened GoalsPhysics
  import opened LocalMatch
  import Strings
  import BaseRoom
  import LC = LocalClassicGame

  /** A bot's roaming: where it drifts when no ball is near, and for how many more ticks. */
  datatype GoalsAI = GoalsAI(speed: real, roamTarget: real, roamTimer: int)

  /** Where a player's goal sits on the ring, where its paddle is round the goal, and how far out it orbits. */
  datatype Orbit = Orbit(goalAngle: real, paddleAngle: real, orbitRadius: real, ai: Option<GoalsAI>)

  type GoalsPlayer = Contestant<Orbit>

  /** The part of the game a tick changes: players, balls, whether it runs, what `onGameOver` was told, the HUD flag. */
  datatype Match = Match(players: seq<GoalsPlayer>, balls: seq<BallState>, running: bool, reports: seq<Option<string>>, hudDirty: bool)

  /** The centre of the goal at `goalAngle` on the goal ring. */
  function GoalPoint(goalAngle: real, m: Env): Vec2 {
    Vec2(m.cos(goalAngle) * GOALS_GOAL_RING_RADIUS, m.sin(goalAngle) * GOALS_GOAL_RING_RADIUS)
  }

  /** Every goal lies on the goal ring, so never at the centre. */
  lemma GoalPointOnRing(goalAngle: real, m: Env)
    requires TrigSound(m)
    ensures var g := GoalPoint(goalAngle, m);
      NormSq(g.x, g.y) == Sq(GOALS_GOAL_RING_RADIUS) && g != Vec2(0.0, 0.0)
  {
    ScaleNormSq(m.cos(goalAngle), m.sin(goalAngle), GOALS_GOAL_RING_RADIUS);
  }

  // ---------------------------------------------------------------------
  // Launching, removing, the end of the match

  /** `players.filter(p => !p.eliminated)`, as indices, in order. */
  function AliveIndices<Mode>(ps: seq<Contestant<Mode>>): (r: seq<nat>)
    ensures |r| == CountAlive(ps)
    ensures forall j :: 0 <= j < |r| ==> r[j] < |ps| && !ps[r[j]].eliminated
    ensures forall k :: 0 <= k < |ps| && !ps[k].eliminated ==> k in r
  {
    if |ps| == 0 then []
    else AliveIndices(ps[..|ps| - 1]) + (if ps[|ps| - 1].eliminated then [] else [|ps| - 1])
  }

  /**
   * `launchBall`: with nobody alive nothing happens; otherwise a new ball is
   * appended, at the centre and aimed at the goal of the live player the
   * draw picks.
   */
  function Launch(s: Match, draw: real, m: Env): (r: Match)
    requires 0.0 <= draw < 1.0
    ensures r == s.(balls := r.balls) && |s.balls| <= |r.balls| && r.balls[..|s.balls|] == s.balls
    ensures CountAlive(s.players) == 0 ==> r == s
    ensures CountAlive(s.players) > 0 ==> |r.balls| == |s.balls| + 1 && r.balls[|s.balls|].x == 0.0 && r.balls[|s.balls|].y == 0.0
  {
    var alive := AliveIndices(s.players);
    if |alive| == 0 then s
    else
      var target := s.players[alive[BaseRoom.PickIndex(draw, |alive|)]];
      var v := BaseRoom.AimAt(GoalPoint(target.mode.goalAngle, m), m);
      var r := s.(balls := s.balls + [BallState(0.0, 0.0, v.x, v.y)]);
      assert r.balls[..|s.balls|] == s.balls;
      r
  }

  /**
   * A launch only ever adds one ball, at the centre and aimed at a live
   * player's goal at `BALL_SPEED`, and only when somebody is alive;
   * nothing else changes.
   */
  lemma LaunchFacts(s: Match, draw: real, m: Env)
    requires 0.0 <= draw < 1.0 && SqrtSound(m) && TrigSound(m)
    ensures var r := Launch(s, draw, m);
      && r == s.(balls := r.balls)
      && (CountAlive(s.players) == 0 ==> r == s)
      && (CountAlive(s.players) > 0 ==>
            && |r.balls| == |s.balls| + 1 && r.balls[..|s.balls|] == s.balls
            && exists k :: 0 <= k < |s.players| && !s.players[k].eliminated
                           && LC.AimedAt(r.balls[|s.balls|], GoalPoint(s.players[k].mode.goalAngle, m), m))
  {
    var r := Launch(s, draw, m);
    var alive := AliveIndices(s.players);
    if |alive| > 0 {
      var k := alive[BaseRoom.PickIndex(draw, |alive|)];
      var g := GoalPoint(s.players[k].mode.goalAngle, m);
      GoalPointOnRing(s.players[k].mode.goalAngle, m);
      BaseRoom.AimAtFacts(g, m);
      assert r.balls[..|s.balls|] == s.balls;
      assert LC.AimedAt(r.balls[|s.balls|], g, m);
    }
  }

  /** With somebody alive, a launch onto balls that are all aimed at goals appends one more such ball. */
  lemma LaunchAddsAimedBall(s: Match, draw: real, m: Env)
    requires 0.0 <= draw < 1.0 && SqrtSound(m) && TrigSound(m) && CountAlive(s.players) > 0
    requires forall j :: 0 <= j < |s.balls| ==> AimedAtAGoal(s.balls[j], s.players, m)
    ensures var r := Launch(s, draw, m);
      && r == s.(balls := r.balls) && |r.balls| == |s.balls| + 1
      && forall j :: 0 <= j < |r.balls| ==> AimedAtAGoal(r.balls[j], s.players, m)
  {
    LaunchFacts(s, draw, m);
    var r := Launch(s, draw, m);
    forall j | 0 <= j < |r.balls|
      ensures AimedAtAGoal(r.balls[j], s.players, m)
    {
      if j < |s.balls| {
        assert r.balls[j] == r.balls[..|s.balls|][j];
      }
    }
  }

  /** `balls.splice(i, 1)`: the ball at `i` taken out, the others kept in order. */
  function RemoveAt(balls: seq<BallState>, i: nat): (r: seq<BallState>)
    requires i < |balls|
    ensures |r| == |balls| - 1
    ensures forall j :: 0 <= j < i ==> r[j] == balls[j]
    ensures forall j :: i <= j < |r| ==> r[j] == balls[j + 1]
  {
    balls[..i] + balls[i + 1..]
  }

  /** `checkWinCondition`: with at most one player left the game stops and reports the survivor, or "Nobody". */
  function WinCheck(s: Match): Match {
    if CountAlive(s.players) <= 1 then s.(running := false, reports := s.reports + [Some(WinnerName(s.players))])
    else s
  }

  // ---------------------------------------------------------------------
  // One ball against the wall and the players

  /**
   * What testing one ball ends in: kept and written back, removed after a
   * goal against player `conceder`, or the game stopped by the local
   * player's last goal conceded.
   */
  datatype Outcome = Kept(state: Match) | Removed(state: Match, conceder: nat) | Stopped(state: Match)

  /** The shape of an outcome for ball `bi`: only that ball changes, or it is spliced out and at most one ball appended. */
  ghost predicate Shaped(s: Match, bi: nat, r: Outcome) {
    bi < |s.balls| &&
    match r
    case Kept(t) => |t.balls| == |s.balls| && t == s.(balls := s.balls[bi := t.balls[bi]])
    case Removed(t, k) =>
      && |s.balls| - 1 <= |t.balls| <= |s.balls|
      && t.balls[..|s.balls| - 1] == s.balls[..bi] + s.balls[bi + 1..]
      && LostOneLife(s.players, t.players, k)
    case Stopped(t) =>
      && |t.balls| == |s.balls| && t.balls == s.balls[bi := t.balls[bi]] && !t.running
      && LostOneLife(s.players, t.players, 0)
  }

  /**
   * A ball past live player `k`'s paddle and into the goal: one life lost
   * and the HUD marked.  The local player's last life stops the game with
   * a `null` report and the ball written back where it is; otherwise a
   * last life lost runs the win check, and the ball is spliced out and a
   * new one launched.
   */
  function Conceded(s: Match, bi: nat, bs: BallState, k: nat, draw: real, m: Env): (r: Outcome)
    requires k < |s.players| && !s.players[k].eliminated && bi < |s.balls| && 0.0 <= draw < 1.0
    ensures Shaped(s, bi, r)
  {
    var hit := s.(players := s.players[k := Hit(s.players[k])], hudDirty := true);
    if hit.players[k].eliminated && k == 0 then
      Stopped(hit.(running := false, reports := hit.reports + [None], balls := hit.balls[bi := bs]))
    else
      var after := if hit.players[k].eliminated then WinCheck(hit) else hit;
      var removed := after.(balls := RemoveAt(after.balls, bi));
      Removed(Launch(removed, draw, m), k)
  }

  /**
   * The inner loop of `checkCollisions` for ball `bi`, now at `bs`, from
   * player `i` on: eliminated players are skipped; a paddle save sends the
   * ball back and the loop goes on; a goal ends it; past the last player
   * the ball's speed is capped at `GOALS_MAX_BALL_SPEED` and written back.
   */
  function Defend(s: Match, bi: nat, bs: BallState, i: nat, draw: real, m: Env): (r: Outcome)
    requires SqrtSound(m) && PiSound(m) && bi < |s.balls| && 0.0 <= draw < 1.0
    ensures Shaped(s, bi, r)
    decreases |s.players| - i
  {
    if i >= |s.players| then
      var c := ClampSpeed(bs.vx, bs.vy, GOALS_MAX_BALL_SPEED, m);
      Kept(s.(balls := s.balls[bi := BallState(bs.x, bs.y, c.x, c.y)]))
    else
      var p := s.players[i];
      if p.eliminated then Defend(s, bi, bs, i + 1, draw, m)
      else
        var g := GoalPoint(p.mode.goalAngle, m);
        var c := PaddleCollision(bs, p.mode.paddleAngle, GOALS_PADDLE_ARC, g.x, g.y, p.mode.orbitRadius, BALL_RADIUS, m);
        if c.hit then Defend(s, bi, c.ball, i + 1, draw, m)
        else if CheckGoalsGoalCollision(bs.x, bs.y, g.x, g.y, GOALS_GOAL_RADIUS, GOALS_ORBIT_RADIUS, BALL_RADIUS, m) then
          Conceded(s, bi, bs, i, draw, m)
        else Defend(s, bi, bs, i + 1, draw, m)
  }

  /** One ball of `checkCollisions`: off the arena wall, then against the players. */
  function BallTurn(s: Match, bi: nat, draw: real, m: Env): (r: Outcome)
    requires SqrtSound(m) && PiSound(m) && bi < |s.balls| && 0.0 <= draw < 1.0
    ensures Shaped(s, bi, r)
  {
    Defend(s, bi, WallBounce(s.balls[bi], GOALS_ARENA_RADIUS, BALL_RADIUS, m).ball, 0, draw, m)
  }

  /**
   * A goal against live player `k` costs exactly that player one life.  The
   * local player's last life stops the game with a `null` report and the
   * ball left where it was; any other goal removes the ball and, with
   * anybody still in, launches a replacement at a live player's goal.  A
   * player's last life runs the win check, which stops the game and
   * reports the winner exactly when at most one player is left.
   */
  lemma ConcededFacts(s: Match, bi: nat, bs: BallState, k: nat, draw: real, m: Env)
    requires k < |s.players| && bi < |s.balls| && 0.0 <= draw < 1.0 && !s.players[k].eliminated
    requires SqrtSound(m) && TrigSound(m)
    ensures var r := Conceded(s, bi, bs, k, draw, m);
      && LostOneLife(s.players, r.state.players, k) && r.state.hudDirty
      && (k == 0 && s.players[0].lives <= 1 <==> r.Stopped?)
      && (r.Stopped? ==> !r.state.running && r.state.reports == s.reports + [None] && r.state.balls == s.balls[bi := bs])
      && (r.Removed? ==> r.conceder == k)
      && (r.Removed? && (s.players[k].lives > 1 || CountAlive(r.state.players) > 1) ==>
            r.state.running == s.running && r.state.reports == s.reports)
      && (r.Removed? && s.players[k].lives <= 1 && CountAlive(r.state.players) <= 1 ==>
            !r.state.running && r.state.reports == s.reports + [Some(WinnerName(r.state.players))])
      && (r.Removed? && CountAlive(r.state.players) > 0 ==>
            && |r.state.balls| == |s.balls| && r.state.balls[..|s.balls| - 1] == RemoveAt(s.balls, bi)
            && exists j :: 0 <= j < |s.players| && !r.state.players[j].eliminated
                           && LC.AimedAt(r.state.balls[|s.balls| - 1], GoalPoint(r.state.players[j].mode.goalAngle, m), m))
  {
    var hit := s.(players := s.players[k := Hit(s.players[k])], hudDirty := true);
    if !(hit.players[k].eliminated && k == 0) {
      var after := if hit.players[k].eliminated then WinCheck(hit) else hit;
      LaunchFacts(after.(balls := RemoveAt(after.balls, bi)), draw, m);
    }
  }

  // ---------------------------------------------------------------------
  // The sweep over the balls

  /** What a sweep leaves, the balls it tested (as they were when tested), and whether the game was stopped. */
  datatype Swept = Swept(state: Match, tested: seq<BallState>, stopped: bool)

  /** A tested ball put in front of what the rest of the sweep tested. */
  function Then(b: BallState, rest: Swept): Swept {
    Swept(rest.state, [b] + rest.tested, rest.stopped)
  }

  /**
   * `checkCollisions` as written, from slot `i` on: a `for … of` over the
   * live array.  A goal splices the scoring ball out of slot `i` and
   * pushes the new ball on the end, and the iterator still moves on to
   * slot `i + 1`; the ball that slid into slot `i` is passed over and the
   * new ball is tested.  `draws[0]` is the draw of this ball's launch.
   */
  function SweepAsWritten(s: Match, i: nat, draws: seq<real>, m: Env): (r: Swept)
    requires SqrtSound(m) && PiSound(m) && |s.balls| <= i + |draws|
    requires forall j :: 0 <= j < |draws| ==> 0.0 <= draws[j] < 1.0
    ensures r.stopped ==> !r.state.running
    ensures i >= |s.balls| ==> r == Swept(s, [], false)
    ensures i < |s.balls| ==> 0 < |r.tested| <= |s.balls| - i && r.tested[0] == s.balls[i]
    decreases |s.balls| - i, 1
  {
    if i >= |s.balls| then Swept(s, [], false)
    else Then(s.balls[i], SweepAsWrittenOn(s, i, draws, m, BallTurn(s, i, draws[0], m)))
  }

  /** The as-written sweep once the ball in slot `i` has had its turn `out`. */
  function SweepAsWrittenOn(s: Match, i: nat, draws: seq<real>, m: Env, out: Outcome): (r: Swept)
    requires SqrtSound(m) && PiSound(m) && i < |s.balls| <= i + |draws| && Shaped(s, i, out)
    requires forall j :: 0 <= j < |draws| ==> 0.0 <= draws[j] < 1.0
    ensures r.stopped ==> !r.state.running
    ensures |r.tested| < |s.balls| - i
    decreases |s.balls| - i, 0
  {
    match out
    case Stopped(t) => Swept(t, [], true)
    case Kept(t) => SweepAsWritten(t, i + 1, draws[1..], m)
    case Removed(t, _) => SweepAsWritten(t, i + 1, draws[1..], m)
  }

  /**
   * `checkCollisions` as evidently intended: each of the `left` balls from
   * slot `i` on is tested once.  After a goal the next ball has slid into
   * slot `i`, so the sweep stays there; balls launched during the sweep
   * wait for the next tick.
   */
  function Sweep(s: Match, i: nat, left: nat, draws: seq<real>, m: Env): (r: Swept)
    requires SqrtSound(m) && PiSound(m) && i + left <= |s.balls| && left <= |draws|
    requires forall j :: 0 <= j < |draws| ==> 0.0 <= draws[j] < 1.0
    ensures r.stopped ==> !r.state.running
    ensures |r.tested| <= left && (!r.stopped ==> |r.tested| == left)
    ensures left > 0 ==> 0 < |r.tested| && r.tested[0] == s.balls[i]
    decreases left, 1
  {
    if left == 0 then Swept(s, [], false)
    else Then(s.balls[i], SweepOn(s, i, left, draws, m, BallTurn(s, i, draws[0], m)))
  }

  /** The corrected sweep once the ball in slot `i` has had its turn `out`. */
  function SweepOn(s: Match, i: nat, left: nat, draws: seq<real>, m: Env, out: Outcome): (r: Swept)
    requires SqrtSound(m) && PiSound(m) && 0 < left && i + left <= |s.balls| && left <= |draws|
    requires forall j :: 0 <= j < |draws| ==> 0.0 <= draws[j] < 1.0
    requires Shaped(s, i, out)
    ensures out.Stopped? ==> r == Swept(out.state, [], true)
    ensures r.stopped ==> !r.state.running
    ensures |r.tested| <= left - 1 && (!r.stopped ==> |r.tested| == left - 1)
    decreases left, 0
  {
    match out
    case Stopped(t) => Swept(t, [], true)
    case Kept(t) => Sweep(t, i + 1, left - 1, draws[1..], m)
    case Removed(t, _) => Sweep(t, i, left - 1, draws[1..], m)
  }

  /** One step of the corrected sweep: where it goes on after the ball in slot `i` has had its turn. */
  lemma SweepStep(s: Match, i: nat, left: nat, draws: seq<real>, m: Env)
    requires SqrtSound(m) && PiSound(m) && 0 < left && i + left <= |s.balls| && left <= |draws|
    requires forall j :: 0 <= j < |draws| ==> 0.0 <= draws[j] < 1.0
    ensures var out := BallTurn(s, i, draws[0], m);
      var r := Sweep(s, i, left, draws, m).state;
      && (out.Stopped? ==> r == out.state)
      && (out.Kept? ==> r == Sweep(out.state, i + 1, left - 1, draws[1..], m).state)
      && (out.Removed? ==> r == Sweep(out.state, i, left - 1, draws[1..], m).state)
  {
  }

  /**
   * The corrected sweep tests exactly the balls that were in slots
   * `i .. i + left` when it started, each once and in order, unless the
   * local player's elimination stops it, after which it has tested a
   * prefix of them.
   */
  lemma {:induction false} SweepTestsEachBallOnce(s: Match, i: nat, left: nat, draws: seq<real>, m: Env)
    requires SqrtSound(m) && PiSound(m) && i + left <= |s.balls| && left <= |draws|
    requires forall j :: 0 <= j < |draws| ==> 0.0 <= draws[j] < 1.0
    ensures var r := Sweep(s, i, left, draws, m);
      && r.tested <= s.balls[i..i + left]
      && (!r.stopped ==> r.tested == s.balls[i..i + left])
    decreases left, 1
  {
    if left > 0 {
      SweepOnTests(s, i, left, draws, m, BallTurn(s, i, draws[0], m));
      assert s.balls[i..i + left] == [s.balls[i]] + s.balls[i + 1..i + left];
    }
  }

  lemma {:induction false} SweepOnTests(s: Match, i: nat, left: nat, draws: seq<real>, m: Env, out: Outcome)
    requires SqrtSound(m) && PiSound(m) && 0 < left && i + left <= |s.balls| && left <= |draws|
    requires forall j :: 0 <= j < |draws| ==> 0.0 <= draws[j] < 1.0
    requires Shaped(s, i, out)
    ensures var r := SweepOn(s, i, left, draws, m, out);
      && r.tested <= s.balls[i + 1..i + left]
      && (!r.stopped ==> r.tested == s.balls[i + 1..i + left])
    decreases left, 0
  {
    match out
    case Stopped(t) =>
    case Kept(t) =>
      SweepTestsEachBallOnce(t, i + 1, left - 1, draws[1..], m);
      KeptSlots(s.balls, t.balls, i, left);
    case Removed(t, _) =>
      SweepTestsEachBallOnce(t, i, left - 1, draws[1..], m);
      RemovedSlots(s.balls, t.balls, i, left);
  }

  lemma KeptSlots(before: seq<BallState>, after: seq<BallState>, i: nat, left: nat)
    requires 0 < left && i + left <= |before| == |after| && after == before[i := after[i]]
    ensures after[i + 1..i + left] == before[i + 1..i + left]
  {
  }

  lemma RemovedSlots(before: seq<BallState>, after: seq<BallState>, i: nat, left: nat)
    requires 0 < left && i + left <= |before| <= |after| + 1
    requires after[..|before| - 1] == before[..i] + before[i + 1..]
    ensures after[i..i + left - 1] == before[i + 1..i + left]
  {
    assert after[i..i + left - 1] == after[..|before| - 1][i..i + left - 1];
  }

  /** The as-written sweep from slot `i` on never touches the slots before `i`. */
  lemma {:induction false} SweepAsWrittenKeepsEarlierSlots(s: Match, i: nat, draws: seq<real>, m: Env)
    requires SqrtSound(m) && PiSound(m) && i <= |s.balls| <= i + |draws|
    requires forall j :: 0 <= j < |draws| ==> 0.0 <= draws[j] < 1.0
    ensures var r := SweepAsWritten(s, i, draws, m);
      i <= |r.state.balls| && r.state.balls[..i] == s.balls[..i]
    decreases |s.balls| - i, 1
  {
    if i < |s.balls| {
      SweepAsWrittenOnKeeps(s, i, draws, m, BallTurn(s, i, draws[0], m));
    }
  }

  lemma {:induction false} SweepAsWrittenOnKeeps(s: Match, i: nat, draws: seq<real>, m: Env, out: Outcome)
    requires SqrtSound(m) && PiSound(m) && i < |s.balls| <= i + |draws| && Shaped(s, i, out)
    requires forall j :: 0 <= j < |draws| ==> 0.0 <= draws[j] < 1.0
    ensures var r := SweepAsWrittenOn(s, i, draws, m, out);
      i <= |r.state.balls| && r.state.balls[..i] == s.balls[..i]
    decreases |s.balls| - i, 0
  {
    match out
    case Stopped(t) =>
      assert t.balls[..i] == s.balls[..i];
    case Kept(t) =>
      SweepAsWrittenKeepsEarlierSlots(t, i + 1, draws[1..], m);
      PrefixOfPrefix(SweepAsWritten(t, i + 1, draws[1..], m).state.balls, t.balls, i);
      assert t.balls[..i] == s.balls[..i];
    case Removed(t, _) =>
      RemovedKeepsEarlier(s.balls, t.balls, i);
      if i + 1 <= |t.balls| {
        SweepAsWrittenKeepsEarlierSlots(t, i + 1, draws[1..], m);
        PrefixOfPrefix(SweepAsWritten(t, i + 1, draws[1..], m).state.balls, t.balls, i);
      }
  }

  lemma PrefixOfPrefix(a: seq<BallState>, b: seq<BallState>, i: nat)
    requires i < |a| && i < |b| && a[..i + 1] == b[..i + 1]
    ensures a[..i] == b[..i]
  {
    assert a[..i] == a[..i + 1][..i];
  }

  lemma RemovedKeepsEarlier(before: seq<BallState>, after: seq<BallState>, i: nat)
    requires i < |before| && |before| - 1 <= |after| && after[..|before| - 1] == before[..i] + before[i + 1..]
    ensures after[..i] == before[..i]
  {
    assert after[..i] == after[..|before| - 1][..i];
  }

  /**
   * As written, after a goal at slot `i` the ball that followed the scoring
   * ball is never tested in that tick: it comes out in slot `i` exactly as
   * it went in, with no wall bounce, no paddle or goal test and no speed cap.
   */
  lemma AsWrittenSkipsTheBallAfterAGoal(s: Match, i: nat, draws: seq<real>, m: Env)
    requires SqrtSound(m) && PiSound(m) && i + 1 < |s.balls| && |s.balls| <= i + |draws|
    requires forall j :: 0 <= j < |draws| ==> 0.0 <= draws[j] < 1.0
    requires BallTurn(s, i, draws[0], m).Removed?
    ensures var r := SweepAsWritten(s, i, draws, m);
      i < |r.state.balls| && r.state.balls[i] == s.balls[i + 1]
  {
    var t := BallTurn(s, i, draws[0], m).state;
    SweepAsWrittenKeepsEarlierSlots(t, i + 1, draws[1..], m);
    assert t.balls[i] == t.balls[..|s.balls| - 1][i];
    var r := SweepAsWritten(t, i + 1, draws[1..], m);
    assert r.state.balls[..i + 1][i] == t.balls[..i + 1][i];
  }

  /** Between `before` and `after` the seats stay, nobody gains a life, and nobody out comes back. */
  ghost predicate Worn(before: seq<GoalsPlayer>, after: seq<GoalsPlayer>) {
    && |after| == |before|
    && forall j :: 0 <= j < |before| ==>
         && after[j].name == before[j].name && after[j].mode == before[j].mode
         && after[j].lives <= before[j].lives
         && (before[j].eliminated ==> after[j] == before[j])
  }

  lemma WornTransitive(a: seq<GoalsPlayer>, b: seq<GoalsPlayer>, c: seq<GoalsPlayer>)
    requires Worn(a, b) && Worn(b, c)
    ensures Worn(a, c)
  {
  }

  /**
   * A sweep only ever takes lives: every player keeps name, goal, paddle
   * and orbit, nobody gains a life, and an eliminated player is untouched.
   */
  lemma {:induction false} SweepWears(s: Match, i: nat, left: nat, draws: seq<real>, m: Env)
    requires SqrtSound(m) && PiSound(m) && i + left <= |s.balls| && left <= |draws|
    requires forall j :: 0 <= j < |draws| ==> 0.0 <= draws[j] < 1.0
    ensures Worn(s.players, Sweep(s, i, left, draws, m).state.players)
    decreases left, 1
  {
    if left > 0 {
      SweepOnWears(s, i, left, draws, m, BallTurn(s, i, draws[0], m));
    }
  }

  lemma {:induction false} SweepOnWears(s: Match, i: nat, left: nat, draws: seq<real>, m: Env, out: Outcome)
    requires SqrtSound(m) && PiSound(m) && 0 < left && i + left <= |s.balls| && left <= |draws|
    requires forall j :: 0 <= j < |draws| ==> 0.0 <= draws[j] < 1.0
    requires Shaped(s, i, out)
    ensures Worn(s.players, SweepOn(s, i, left, draws, m, out).state.players)
    decreases left, 0
  {
    match out
    case Stopped(t) =>
    case Kept(t) =>
      SweepWears(t, i + 1, left - 1, draws[1..], m);
    case Removed(t, _) =>
      SweepWears(t, i, left - 1, draws[1..], m);
      WornTransitive(s.players, t.players, SweepOn(s, i, left, draws, m, out).state.players);
  }

  // ---------------------------------------------------------------------
  // The local player's keys

  /** The orbit radius is within the bounds the keys keep it in. */
  predicate InOrbitRange(p: GoalsPlayer) {
    GOALS_ORBIT_RADIUS_MIN <= p.mode.orbitRadius <= GOALS_ORBIT_RADIUS_MAX
  }

  /**
   * `handleInput`: "a" or the left arrow sets the paddle's target
   * `GOALS_ORBIT_SPEED` back, "d" or the right arrow as far forward, and the
   * paddle moves `GOALS_ORBIT_ACCEL` of the way there; "w" or the up arrow
   * widens the orbit by `GOALS_ORBIT_RADIUS_SPEED` up to the maximum, then
   * "s" or the down arrow narrows it down to the minimum.  An eliminated
   * player's keys are ignored.
   *
   * One direction key turns the paddle by `GOALS_ORBIT_SPEED *
   * GOALS_ORBIT_ACCEL` that way, both or neither leave it; the orbit only
   * changes for "w"/"s", never leaves its bounds once inside them, and
   * with only "w" grows by the step up to the maximum, with only "s"
   * shrinks down to the minimum.  Nothing else about the player changes.
   */
  function Orbited(p: GoalsPlayer, keys: set<string>): (r: GoalsPlayer)
    ensures
      var left := "a" in keys || "arrowleft" in keys;
      var right := "d" in keys || "arrowright" in keys;
      var up := "w" in keys || "arrowup" in keys;
      var down := "s" in keys || "arrowdown" in keys;
      var radius := p.mode.orbitRadius;
      && (p.eliminated ==> r == p)
      && r == p.(mode := p.mode.(paddleAngle := r.mode.paddleAngle, orbitRadius := r.mode.orbitRadius))
      && (!p.eliminated && left == right ==> r.mode.paddleAngle == p.mode.paddleAngle)
      && (!p.eliminated && left && !right ==> r.mode.paddleAngle == p.mode.paddleAngle - GOALS_ORBIT_SPEED * GOALS_ORBIT_ACCEL)
      && (!p.eliminated && right && !left ==> r.mode.paddleAngle == p.mode.paddleAngle + GOALS_ORBIT_SPEED * GOALS_ORBIT_ACCEL)
      && (!up && !down ==> r.mode.orbitRadius == radius)
      && (!p.eliminated && up && !down ==> r.mode.orbitRadius == Min(radius + GOALS_ORBIT_RADIUS_SPEED, GOALS_ORBIT_RADIUS_MAX))
      && (!p.eliminated && down && !up ==> r.mode.orbitRadius == Max(radius - GOALS_ORBIT_RADIUS_SPEED, GOALS_ORBIT_RADIUS_MIN))
      && (InOrbitRange(p) ==> InOrbitRange(r))
  {
    if p.eliminated then p
    else
      var a := p.mode.paddleAngle;
      var back := if "a" in keys || "arrowleft" in keys then a - GOALS_ORBIT_SPEED else a;
      var target := if "d" in keys || "arrowright" in keys then back + GOALS_ORBIT_SPEED else back;
      var r := p.mode.orbitRadius;
      var wider := if "w" in keys || "arrowup" in keys then Min(r + GOALS_ORBIT_RADIUS_SPEED, GOALS_ORBIT_RADIUS_MAX) else r;
      var narrower := if "s" in keys || "arrowdown" in keys then Max(wider - GOALS_ORBIT_RADIUS_SPEED, GOALS_ORBIT_RADIUS_MIN) else wider;
      p.(mode := p.mode.(paddleAngle := a + (target - a) * GOALS_ORBIT_ACCEL, orbitRadius := narrower))
  }


  // ---------------------------------------------------------------------
  // The bots

  /** How far a ball is from a goal: `Math.sqrt(dx * dx + dy * dy)`. */
  function DistanceTo(b: BallState, g: Vec2, m: Env): real {
    Hypot(m, b.x - g.x, b.y - g.y)
  }

  /**
   * The ball a bot guarding `g` watches: scanning in order, a ball replaces
   * the one kept so far only when strictly nearer; none when there are no
   * balls.
   */
  function Nearest(balls: seq<BallState>, g: Vec2, m: Env): (r: Option<nat>)
    ensures r.None? <==> |balls| == 0
    ensures r.Some? ==> r.value < |balls|
  {
    if |balls| == 0 then None
    else
      var n := Nearest(balls[..|balls| - 1], g, m);
      if n.None? || DistanceTo(balls[|balls| - 1], g, m) < DistanceTo(balls[n.value], g, m) then Some(|balls| - 1)
      else n
  }

  /** The ball picked is a nearest one, and the first of the nearest. */
  lemma {:induction false} NearestIsFirstClosest(balls: seq<BallState>, g: Vec2, m: Env)
    ensures var r := Nearest(balls, g, m);
      r.Some? ==>
        && (forall j :: 0 <= j < |balls| ==> DistanceTo(balls[r.value], g, m) <= DistanceTo(balls[j], g, m))
        && (forall j :: 0 <= j < r.value ==> DistanceTo(balls[r.value], g, m) < DistanceTo(balls[j], g, m))
  {
    if |balls| > 0 {
      var init := balls[..|balls| - 1];
      NearestIsFirstClosest(init, g, m);
      assert forall j :: 0 <= j < |init| ==> init[j] == balls[j];
    }
  }

  /** The nearest-ball scan of `updateAI`: the first ball at the least distance, and that distance. */
  method FindNearest(balls: seq<BallState>, g: Vec2, m: Env) returns (nearest: Option<nat>, nearestDist: real)
    ensures nearest == Nearest(balls, g, m)
    ensures nearest.Some? ==> nearestDist == DistanceTo(balls[nearest.value], g, m)
  {
    nearest := None;
    nearestDist := 0.0;
    for i := 0 to |balls|
      invariant nearest == Nearest(balls[..i], g, m)
      invariant nearest.Some? ==> nearest.value < i && nearestDist == DistanceTo(balls[nearest.value], g, m)
    {
      assert balls[..i + 1][..i] == balls[..i];
      var dist := DistanceTo(balls[i], g, m);
      if nearest.None? || dist < nearestDist {
        nearest := Some(i);
        nearestDist := dist;
      }
    }
    assert balls[..|balls|] == balls;
  }

  /**
   * The roaming half of a goals bot: the timer counts down, and on running
   * out a new target is drawn within half a radian either side of the
   * bot's goal and the timer reset to 40 plus up to 79 ticks.
   */
  function GoalsRoam(ai: GoalsAI, goalAngle: real, roll: Roll): (r: GoalsAI)
    requires 0.0 <= roll.target < 1.0 && 0.0 <= roll.timer < 1.0
    ensures r.speed == ai.speed
    ensures ai.roamTimer - 1 > 0 ==> r == ai.(roamTimer := ai.roamTimer - 1)
    ensures ai.roamTimer - 1 <= 0 ==> goalAngle - 0.5 <= r.roamTarget < goalAngle + 0.5 && 40 <= r.roamTimer <= 119
  {
    var counted := ai.(roamTimer := ai.roamTimer - 1);
    if counted.roamTimer <= 0 then
      MulStrictMono(80.0, roll.timer, 1.0);
      counted.(roamTarget := goalAngle + (roll.target - 0.5) * 1.0, roamTimer := 40 + (roll.timer * 80.0).Floor)
    else counted
  }

  /**
   * The bot turn of player `p`: chase the nearest ball when it is within
   * 60% of the arena's radius, otherwise roam.
   *
   * A bot only turns its paddle and keeps its roaming state.  When a ball
   * is near, the paddle turns towards the nearest ball's direction from
   * the goal, by 0.15 times `GOALS_ORBIT_ACCEL` of the gap; otherwise it
   * turns towards the roam target, by 5% of the gap.  Either way it ends
   * between where it was and where it is heading.
   */
  function Chased(p: GoalsPlayer, balls: seq<BallState>, roll: Roll, m: Env): (r: GoalsPlayer)
    requires 0.0 <= roll.target < 1.0 && 0.0 <= roll.timer < 1.0
    ensures
      var a := p.mode.paddleAngle;
      var g := GoalPoint(p.mode.goalAngle, m);
      var n := Nearest(balls, g, m);
      && (p.eliminated || p.mode.ai.None? ==> r == p)
      && r == p.(mode := p.mode.(paddleAngle := r.mode.paddleAngle, ai := r.mode.ai))
      && (r.mode.ai.Some? <==> p.mode.ai.Some?)
      && (!p.eliminated && p.mode.ai.Some? && n.Some? && DistanceTo(balls[n.value], g, m) < GOALS_ARENA_RADIUS * 0.6 ==>
            var b := balls[n.value];
            var heading := m.atan2(b.y - g.y, b.x - g.x);
            && r.mode.ai == p.mode.ai
            && r.mode.paddleAngle - a == (heading - a) * (0.15 * GOALS_ORBIT_ACCEL)
            && Between(a, r.mode.paddleAngle, heading))
      && (!p.eliminated && p.mode.ai.Some? && !(n.Some? && DistanceTo(balls[n.value], g, m) < GOALS_ARENA_RADIUS * 0.6) ==>
            var heading := r.mode.ai.value.roamTarget;
            && r.mode.ai == Some(GoalsRoam(p.mode.ai.value, p.mode.goalAngle, roll))
            && r.mode.paddleAngle - a == (heading - a) * 0.05
            && Between(a, r.mode.paddleAngle, heading))
  {
    if p.eliminated || p.mode.ai.None? then p
    else
      var g := GoalPoint(p.mode.goalAngle, m);
      var n := Nearest(balls, g, m);
      var a := p.mode.paddleAngle;
      if n.Some? && DistanceTo(balls[n.value], g, m) < GOALS_ARENA_RADIUS * 0.6 then
        var b := balls[n.value];
        var target := a + (m.atan2(b.y - g.y, b.x - g.x) - a) * 0.15;
        FractionBetween(a, m.atan2(b.y - g.y, b.x - g.x), 0.15 * GOALS_ORBIT_ACCEL);
        p.(mode := p.mode.(paddleAngle := a + (target - a) * GOALS_ORBIT_ACCEL))
      else
        var ai := GoalsRoam(p.mode.ai.value, p.mode.goalAngle, roll);
        FractionBetween(a, ai.roamTarget, 0.05);
        p.(mode := p.mode.(paddleAngle := a + (ai.roamTarget - a) * 0.05, ai := Some(ai)))
  }

  /** `x` lies between `a` and `b`, whichever is larger. */
  predicate Between(a: real, x: real, b: real) {
    Min(a, b) <= x <= Max(a, b)
  }

  lemma FractionBetween(a: real, b: real, f: real)
    requires 0.0 <= f <= 1.0
    ensures a + (a + (b - a) * 0.15 - a) * GOALS_ORBIT_ACCEL - a == (b - a) * (0.15 * GOALS_ORBIT_ACCEL)
    ensures Between(a, a + (b - a) * f, b)
  {
    if a <= b {
      MulNonNeg(b - a, f);
      MulNonNeg(b - a, 1.0 - f);
    } else {
      MulNonNeg(a - b, f);
      MulNonNeg(a - b, 1.0 - f);
    }
  }

  /** `updateAI`: every bot after the local player takes its turn, against the balls where they are. */
  function BotsTurn(ps: seq<GoalsPlayer>, balls: seq<BallState>, rolls: seq<Roll>, m: Env): (r: seq<GoalsPlayer>)
    requires |rolls| == |ps|
    requires forall j :: 0 <= j < |rolls| ==> 0.0 <= rolls[j].target < 1.0 && 0.0 <= rolls[j].timer < 1.0
    ensures |r| == |ps| && (|ps| > 0 ==> r[0] == ps[0])
    ensures forall j :: 1 <= j < |ps| ==> r[j] == Chased(ps[j], balls, rolls[j], m)
  {
    seq(|ps|, j requires 0 <= j < |ps| => if j == 0 then ps[0] else Chased(ps[j], balls, rolls[j], m))
  }

  // ---------------------------------------------------------------------
  // A tick

  /** `ball.update()` for every ball: one step of each ball's own velocity. */
  function Flown(balls: seq<BallState>): (r: seq<BallState>)
    ensures |r| == |balls|
  {
    seq(|balls|, j requires 0 <= j < |balls| => Advance(balls[j]))
  }

  /**
   * One simulation tick without the spawn timer: the keys, the bots, the
   * balls' motion, the (corrected) collision sweep over every ball there
   * was, and the HUD redrawn.
   *
   * Over a tick every player keeps name and goal, nobody gains a life,
   * nobody eliminated comes back or moves, orbits stay within their
   * bounds, and the HUD is clean afterwards.
   */
  function Tick(s: Match, keys: set<string>, rolls: seq<Roll>, draws: seq<real>, m: Env): (r: Match)
    requires SqrtSound(m) && PiSound(m) && |s.players| > 0 && |rolls| == |s.players| && |s.balls| <= |draws|
    requires forall j :: 0 <= j < |rolls| ==> 0.0 <= rolls[j].target < 1.0 && 0.0 <= rolls[j].timer < 1.0
    requires forall j :: 0 <= j < |draws| ==> 0.0 <= draws[j] < 1.0
    ensures
      && |r.players| == |s.players| && !r.hudDirty
      && (forall j :: 0 <= j < |s.players| ==>
            && r.players[j].name == s.players[j].name && r.players[j].mode.goalAngle == s.players[j].mode.goalAngle
            && r.players[j].lives <= s.players[j].lives
            && (s.players[j].eliminated ==> r.players[j] == s.players[j])
            && (InOrbitRange(s.players[j]) ==> InOrbitRange(r.players[j])))
  {
    var steered := BotsTurn(s.players[0 := Orbited(s.players[0], keys)], s.balls, rolls, m);
    var moved := s.(players := steered, balls := Flown(s.balls));
    SweepWears(moved, 0, |moved.balls|, draws, m);
    Sweep(moved, 0, |moved.balls|, draws, m).state.(hudDirty := false)
  }

  /**
   * The spawn timer after a tick: one more, or back to 0 when it reaches
   * `GOALS_BALL_SPAWN_INTERVAL`.  From 0 it counts ticks modulo the interval,
   * so a ball is spawned exactly on every `GOALS_BALL_SPAWN_INTERVAL`-th tick.
   */
  function SpawnTimerAfter(t: nat): (r: nat)
    ensures t < GOALS_BALL_SPAWN_INTERVAL ==> r == (t + 1) % GOALS_BALL_SPAWN_INTERVAL
    ensures r == 0 <==> t + 1 >= GOALS_BALL_SPAWN_INTERVAL
  {
    if t + 1 >= GOALS_BALL_SPAWN_INTERVAL then 0 else t + 1
  }

  /** The spawn timer after `n` ticks from 0. */
  function SpawnTimerAfterTicks(n: nat): nat {
    if n == 0 then 0 else SpawnTimerAfter(SpawnTimerAfterTicks(n - 1))
  }

  /** After `n` ticks the timer reads `n` modulo the interval, and the `n`-th tick spawned a ball exactly when `n` is a multiple of it. */
  lemma {:induction false} SpawnEveryInterval(n: nat)
    ensures SpawnTimerAfterTicks(n) == n % GOALS_BALL_SPAWN_INTERVAL
    ensures n > 0 ==> (SpawnTimerAfterTicks(n - 1) + 1 >= GOALS_BALL_SPAWN_INTERVAL <==> n % GOALS_BALL_SPAWN_INTERVAL == 0)
  {
    if n > 0 {
      SpawnEveryInterval(n - 1);
      NextRemainder(n - 1);
    }
  }

  /** Counting one more moves the remainder by the interval on by one, wrapping to 0 at the interval. */
  lemma NextRemainder(a: nat)
    ensures var r := a % GOALS_BALL_SPAWN_INTERVAL;
      (a + 1) % GOALS_BALL_SPAWN_INTERVAL == if r + 1 == GOALS_BALL_SPAWN_INTERVAL then 0 else r + 1
  {
    var q := a / GOALS_BALL_SPAWN_INTERVAL;
    var r := a % GOALS_BALL_SPAWN_INTERVAL;
    assert a == q * GOALS_BALL_SPAWN_INTERVAL + r;
    if r + 1 == GOALS_BALL_SPAWN_INTERVAL {
      assert a + 1 == (q + 1) * GOALS_BALL_SPAWN_INTERVAL;
    } else {
      assert a + 1 == q * GOALS_BALL_SPAWN_INTERVAL + (r + 1);
    }
  }

  /** The end of a tick: the timer runs on and a ball is launched when it comes round. */
  function Spawned(s: Match, timer: nat, draw: real, m: Env): (r: Match)
    requires 0.0 <= draw < 1.0
    ensures r == s.(balls := r.balls) && |s.balls| <= |r.balls| && r.balls[..|s.balls|] == s.balls
    ensures |r.balls| == |s.balls| + 1 <==> timer + 1 >= GOALS_BALL_SPAWN_INTERVAL && CountAlive(s.players) > 0
    ensures |r.balls| <= |s.balls| + 1
  {
    if timer + 1 >= GOALS_BALL_SPAWN_INTERVAL then Launch(s, draw, m) else s
  }

  // ---------------------------------------------------------------------
  // Setting up

  /** `init`'s players: the local player first, then "Bot 1", "Bot 2", …, each on its slot with a full set of lives. */
  function InitialPlayers(playerName: string, count: nat, m: Env): (ps: seq<GoalsPlayer>)
    ensures |ps| == count && CountAlive(ps) == count
    ensures count > 0 ==> ps[0].name == playerName && ps[0].mode.ai.None?
    ensures forall j :: 0 <= j < count ==>
      && !ps[j].eliminated && ps[j].lives == GOALS_LIVES && InOrbitRange(ps[j])
      && ps[j].mode.paddleAngle == ps[j].mode.goalAngle && (j > 0 <==> ps[j].mode.ai.Some?)
  {
    var slots := GetGoalsSlotAngles(count, m.pi);
    var ps := seq(count, i requires 0 <= i < count =>
      Contestant(if i == 0 then playerName else "Bot " + Strings.NatToString(i), GOALS_LIVES, false,
                 Orbit(slots[i], slots[i], GOALS_ORBIT_RADIUS,
                       if i == 0 then None else Some(GoalsAI(GOALS_ORBIT_SPEED, slots[i], 0)))));
    AllAliveCounted(ps);
    ps
  }

  /**
   * The local player's goal is at angle 0, and the goals go round the ring
   * in strictly increasing angles below a full turn.
   */
  lemma InitialPlayersFacts(playerName: string, count: nat, m: Env)
    requires PiSound(m)
    ensures var ps := InitialPlayers(playerName, count, m);
      && (count > 0 ==> ps[0].mode.goalAngle == 0.0)
      && (forall i, j :: 0 <= i < j < count ==> ps[i].mode.goalAngle < ps[j].mode.goalAngle < 2.0 * m.pi)
  {
    var ps := InitialPlayers(playerName, count, m);
    forall i, j | 0 <= i < j < count
      ensures ps[i].mode.goalAngle < ps[j].mode.goalAngle < 2.0 * m.pi
    {
      SlotAnglesIncrease(count, m.pi, i, j);
    }
  }

  /** `init`'s loop over the slots. */
  method SeatPlayers(playerName: string, count: nat, m: Env) returns (ps: seq<GoalsPlayer>)
    ensures ps == InitialPlayers(playerName, count, m)
  {
    var slots := GetGoalsSlotAngles(count, m.pi);
    ps := [];
    for i := 0 to count
      invariant ps == InitialPlayers(playerName, count, m)[..i]
    {
      var goalAngle := slots[i];
      var ai := if i == 0 then None else Some(GoalsAI(GOALS_ORBIT_SPEED, goalAngle, 0));
      var name := if i == 0 then playerName else "Bot " + Strings.NatToString(i);
      ps := ps + [Contestant(name, GOALS_LIVES, false, Orbit(goalAngle, goalAngle, GOALS_ORBIT_RADIUS, ai))];
    }
  }

  /** Nobody eliminated means everybody counted. */
  lemma {:induction false} AllAliveCounted(ps: seq<GoalsPlayer>)
    requires forall j :: 0 <= j < |ps| ==> !ps[j].eliminated
    ensures CountAlive(ps) == |ps|
  {
    if |ps| > 0 {
      AllAliveCounted(ps[..|ps| - 1]);
    }
  }

  /** `Math.max(1, playerCount - 1)`: the balls in play at the start. */
  function InitialBallCount(playerCount: nat): nat {
    if playerCount >= 2 then playerCount - 1 else 1
  }

  /** The ball flies from the centre at `BALL_SPEED` towards one of the players' goals. */
  ghost predicate AimedAtAGoal(b: BallState, ps: seq<GoalsPlayer>, m: Env) {
    exists k :: 0 <= k < |ps| && LC.AimedAt(b, GoalPoint(ps[k].mode.goalAngle, m), m)
  }

  /** What `launchBall`, `removeBall` and friends report back to the collision sweep. */
  datatype Verdict = Keep | Remove | Stop

  function VerdictOf(o: Outcome): Verdict {
    match o
    case Kept(_) => Keep
    case Removed(_, _) => Remove
    case Stopped(_) => Stop
  }

  /** The parts of the game a tick's steps other than the loop itself leave alone. */
  datatype Setting = Setting(keys: set<string>, tickAccumulator: real, ballSpawnTimer: nat)

  class GoalsGame {
    var players: seq<GoalsPlayer>
    var balls: seq<BallState>
    var running: bool
    /** The calls of `onGameOver` so far: a winner's name, or `None` for `null`. */
    var reports: seq<Option<string>>
    var hudDirty: bool
    var keys: set<string>
    var tickAccumulator: real
    var ballSpawnTimer: nat

    function State(): Match
      reads this
    {
      Match(players, balls, running, reports, hudDirty)
    }

    function Rest(): Setting
      reads this
    {
      Setting(keys, tickAccumulator, ballSpawnTimer)
    }

    /** There is a local player, every orbit is within bounds, and the spawn timer is below the interval. */
    ghost predicate Valid()
      reads this
    {
      && |players| > 0 && ballSpawnTimer < GOALS_BALL_SPAWN_INTERVAL
      && forall j :: 0 <= j < |players| ==> InOrbitRange(players[j])
    }

    /**
     * `init`: the players on their slots, `max(1, playerCount - 1)` balls
     * launched, each at a player's goal, and the game running.
     */
    constructor(playerCount: nat, playerName: string, draws: seq<real>, m: Env)
      requires playerCount >= 1 && SqrtSound(m) && TrigSound(m) && PiSound(m)
      requires |draws| == InitialBallCount(playerCount)
      requires forall j :: 0 <= j < |draws| ==> 0.0 <= draws[j] < 1.0
      ensures Valid() && running && reports == [] && hudDirty && Rest() == Setting({}, 0.0, 0)
      ensures players == InitialPlayers(playerName, playerCount, m)
      ensures |balls| == InitialBallCount(playerCount)
      ensures forall j :: 0 <= j < |balls| ==> AimedAtAGoal(balls[j], players, m)
    {
      var ps := SeatPlayers(playerName, playerCount, m);
      InitialPlayersFacts(playerName, playerCount, m);
      players := ps;
      balls := [];
      running := false;
      reports := [];
      hudDirty := true;
      keys := {};
      tickAccumulator := 0.0;
      ballSpawnTimer := 0;
      new;
      assert Valid() && CountAlive(players) > 0;
      LaunchInitialBalls(draws, m);
      running := true;
    }

    /** `init`'s launches, one per draw, with everybody still in. */
    method LaunchInitialBalls(draws: seq<real>, m: Env)
      requires Valid() && CountAlive(players) > 0 && balls == [] && SqrtSound(m) && TrigSound(m)
      requires forall j :: 0 <= j < |draws| ==> 0.0 <= draws[j] < 1.0
      modifies this
      ensures Valid() && Rest() == old(Rest()) && State() == old(State()).(balls := balls)
      ensures |balls| == |draws| && forall j :: 0 <= j < |balls| ==> AimedAtAGoal(balls[j], players, m)
    {
      for i := 0 to |draws|
        invariant Valid() && Rest() == old(Rest()) && State() == old(State()).(balls := balls)
        invariant |balls| == i && forall j :: 0 <= j < i ==> AimedAtAGoal(balls[j], players, m)
      {
        LaunchAddsAimedBall(State(), draws[i], m);
        LaunchBall(draws[i], m);
      }
    }

    /** `onKeyDown`: the (lower-cased) key is held. */
    method KeyDown(key: string)
      modifies this
      ensures Rest() == old(Rest()).(keys := old(keys) + {key})
      ensures State() == old(State())
    {
      keys := keys + {key};
    }

    /** `onKeyUp`: the (lower-cased) key is released. */
    method KeyUp(key: string)
      modifies this
      ensures Rest() == old(Rest()).(keys := old(keys) - {key})
      ensures State() == old(State())
    {
      keys := keys - {key};
    }

    /**
     * `gameLoop`: a stopped game does nothing; a running one adds the
     * frame's time and, once a whole tick has gathered, spends it on one
     * tick.  `rolls` are the bots' draws, `draws` those of the launches
     * after goals, `spawnDraw` that of a spawned ball.
     */
    method GameLoop(deltaTime: real, rolls: seq<Roll>, draws: seq<real>, spawnDraw: real, m: Env)
      requires Valid() && SqrtSound(m) && PiSound(m)
      requires |rolls| == |players| && |balls| <= |draws| && 0.0 <= spawnDraw < 1.0
      requires forall j :: 0 <= j < |rolls| ==> 0.0 <= rolls[j].target < 1.0 && 0.0 <= rolls[j].timer < 1.0
      requires forall j :: 0 <= j < |draws| ==> 0.0 <= draws[j] < 1.0
      modifies this
      ensures Valid() && keys == old(keys)
      ensures !old(running) ==> State() == old(State()) && Rest() == old(Rest())
      ensures old(running) && old(tickAccumulator) + deltaTime < 1.0 ==>
        State() == old(State()) && Rest() == old(Rest()).(tickAccumulator := old(tickAccumulator) + deltaTime)
      ensures old(running) && old(tickAccumulator) + deltaTime >= 1.0 ==>
        && tickAccumulator == old(tickAccumulator) + deltaTime - 1.0
        && ballSpawnTimer == SpawnTimerAfter(old(ballSpawnTimer))
        && State() == Spawned(Tick(old(State()), keys, rolls, draws, m), old(ballSpawnTimer), spawnDraw, m)
    {
      if !running {
        return;
      }
      tickAccumulator := tickAccumulator + deltaTime;
      if tickAccumulator >= 1.0 {
        tickAccumulator := tickAccumulator - 1.0;
        RunTick(rolls, draws, spawnDraw, m);
      }
    }

    /** The body of a tick. */
    method RunTick(rolls: seq<Roll>, draws: seq<real>, spawnDraw: real, m: Env)
      requires Valid() && SqrtSound(m) && PiSound(m)
      requires |rolls| == |players| && |balls| <= |draws| && 0.0 <= spawnDraw < 1.0
      requires forall j :: 0 <= j < |rolls| ==> 0.0 <= rolls[j].target < 1.0 && 0.0 <= rolls[j].timer < 1.0
      requires forall j :: 0 <= j < |draws| ==> 0.0 <= draws[j] < 1.0
      modifies this
      ensures Valid() && Rest() == old(Rest()).(ballSpawnTimer := SpawnTimerAfter(old(ballSpawnTimer)))
      ensures State() == Spawned(Tick(old(State()), keys, rolls, draws, m), old(ballSpawnTimer), spawnDraw, m)
    {
      PlayTick(rolls, draws, m);
      ballSpawnTimer := ballSpawnTimer + 1;
      if ballSpawnTimer >= GOALS_BALL_SPAWN_INTERVAL {
        ballSpawnTimer := 0;
        LaunchBall(spawnDraw, m);
      }
    }

    /** A tick up to the spawn timer. */
    method PlayTick(rolls: seq<Roll>, draws: seq<real>, m: Env)
      requires Valid() && SqrtSound(m) && PiSound(m)
      requires |rolls| == |players| && |balls| <= |draws|
      requires forall j :: 0 <= j < |rolls| ==> 0.0 <= rolls[j].target < 1.0 && 0.0 <= rolls[j].timer < 1.0
      requires forall j :: 0 <= j < |draws| ==> 0.0 <= draws[j] < 1.0
      modifies this
      ensures Valid() && Rest() == old(Rest())
      ensures State() == Tick(old(State()), keys, rolls, draws, m)
    {
      HandleInput();
      UpdateAI(rolls, m);
      MoveBalls();
      CheckCollisions(draws, m);
      if hudDirty {
        hudDirty := false;
      }
    }

    /** `handleInput`: the local player's paddle and orbit follow the keys unless the player is out. */
    method HandleInput()
      requires Valid()
      modifies this
      ensures Valid() && Rest() == old(Rest())
      ensures State() == old(State()).(players := old(players)[0 := Orbited(old(players)[0], keys)])
    {
      var player := players[0];
      if player.eliminated {
        return;
      }
      var target := player.mode.paddleAngle;
      if "a" in keys || "arrowleft" in keys {
        target := target - GOALS_ORBIT_SPEED;
      }
      if "d" in keys || "arrowright" in keys {
        target := target + GOALS_ORBIT_SPEED;
      }
      var angle := player.mode.paddleAngle + (target - player.mode.paddleAngle) * GOALS_ORBIT_ACCEL;
      var radius := player.mode.orbitRadius;
      if "w" in keys || "arrowup" in keys {
        radius := Min(radius + GOALS_ORBIT_RADIUS_SPEED, GOALS_ORBIT_RADIUS_MAX);
      }
      if "s" in keys || "arrowdown" in keys {
        radius := Max(radius - GOALS_ORBIT_RADIUS_SPEED, GOALS_ORBIT_RADIUS_MIN);
      }
      assert player.(mode := player.mode.(paddleAngle := angle, orbitRadius := radius)) == Orbited(player, keys);
      players := players[0 := player.(mode := player.mode.(paddleAngle := angle, orbitRadius := radius))];
    }

    /** `updateAI`: the bots take their turns, in seat order. */
    method UpdateAI(rolls: seq<Roll>, m: Env)
      requires Valid() && |rolls| == |players|
      requires forall j :: 0 <= j < |rolls| ==> 0.0 <= rolls[j].target < 1.0 && 0.0 <= rolls[j].timer < 1.0
      modifies this
      ensures Valid() && Rest() == old(Rest())
      ensures State() == old(State()).(players := BotsTurn(old(players), balls, rolls, m))
    {
      var i := 1;
      while i < |players|
        invariant |players| == |old(players)| && 1 <= i
        invariant forall j :: 0 <= j < |players| ==>
          players[j] == (if 1 <= j < i then Chased(old(players)[j], balls, rolls[j], m) else old(players)[j])
        invariant Valid() && Rest() == old(Rest()) && State() == old(State()).(players := players)
      {
        var p := ChaseOrRoam(players[i], rolls[i], m);
        players := players[i := p];
        i := i + 1;
      }
    }

    /** One bot's turn in `updateAI`. */
    method ChaseOrRoam(p: GoalsPlayer, roll: Roll, m: Env) returns (r: GoalsPlayer)
      requires 0.0 <= roll.target < 1.0 && 0.0 <= roll.timer < 1.0
      ensures r == Chased(p, balls, roll, m) && r.mode.orbitRadius == p.mode.orbitRadius
    {
      if p.eliminated || p.mode.ai.None? {
        return p;
      }
      var g := GoalPoint(p.mode.goalAngle, m);
      var nearest, nearestDist := FindNearest(balls, g, m);
      var angle := p.mode.paddleAngle;
      if nearest.Some? && nearestDist < GOALS_ARENA_RADIUS * 0.6 {
        var ball := balls[nearest.value];
        var ballAngle := m.atan2(ball.y - g.y, ball.x - g.x);
        var target := angle;
        target := target + (ballAngle - target) * 0.15;
        r := p.(mode := p.mode.(paddleAngle := angle + (target - angle) * GOALS_ORBIT_ACCEL));
      } else {
        var ai := p.mode.ai.value;
        ai := ai.(roamTimer := ai.roamTimer - 1);
        if ai.roamTimer <= 0 {
          ai := ai.(roamTarget := p.mode.goalAngle + (roll.target - 0.5) * 1.0, roamTimer := 40 + (roll.timer * 80.0).Floor);
        }
        r := p.(mode := p.mode.(paddleAngle := angle + (ai.roamTarget - angle) * 0.05, ai := Some(ai)));
      }
    }

    /** `ball.update()` for every ball. */
    method MoveBalls()
      modifies this
      ensures Rest() == old(Rest()) && State() == old(State()).(balls := Flown(old(balls)))
    {
      for i := 0 to |balls|
        invariant |balls| == |old(balls)| && Rest() == old(Rest()) && State() == old(State()).(balls := balls)
        invariant forall j :: 0 <= j < |balls| ==> balls[j] == (if j < i then Advance(old(balls)[j]) else old(balls)[j])
      {
        balls := balls[i := Advance(balls[i])];
      }
    }

    /**
     * `checkCollisions`, corrected: each ball there was when the sweep
     * started is tested once; after a goal the next ball has slid into the
     * scoring ball's slot, which is tested next.
     */
    method CheckCollisions(draws: seq<real>, m: Env)
      requires Valid() && SqrtSound(m) && PiSound(m) && |balls| <= |draws|
      requires forall j :: 0 <= j < |draws| ==> 0.0 <= draws[j] < 1.0
      modifies this
      ensures Valid() && Rest() == old(Rest())
      ensures State() == Sweep(old(State()), 0, |old(balls)|, draws, m).state
    {
      ghost var goal := Sweep(State(), 0, |balls|, draws, m).state;
      var i: nat := 0;
      var left: nat := |balls|;
      var used: nat := 0;
      assert draws[used..] == draws;
      while left > 0
        invariant i + left <= |balls| && used + left <= |draws|
        invariant Sweep(State(), i, left, draws[used..], m).state == goal
        invariant Valid() && Rest() == old(Rest())
        decreases left
      {
        var verdict := SweepOne(i, left, draws[used..], m);
        assert draws[used..][1..] == draws[used + 1..];
        if verdict == Stop {
          return;
        }
        if verdict == Keep {
          i := i + 1;
        }
        left := left - 1;
        used := used + 1;
      }
      assert Sweep(State(), i, 0, draws[used..], m).state == State();
    }

    /** One step of the corrected sweep, with `draws` from this ball's launch on. */
    method SweepOne(i: nat, left: nat, draws: seq<real>, m: Env) returns (verdict: Verdict)
      requires Valid() && SqrtSound(m) && PiSound(m) && 0 < left && i + left <= |balls| && left <= |draws|
      requires forall j :: 0 <= j < |draws| ==> 0.0 <= draws[j] < 1.0
      modifies this
      ensures Valid() && Rest() == old(Rest())
      ensures verdict == Stop ==> State() == Sweep(old(State()), i, left, draws, m).state
      ensures verdict == Keep ==>
        i + left <= |balls| && Sweep(State(), i + 1, left - 1, draws[1..], m).state == Sweep(old(State()), i, left, draws, m).state
      ensures verdict == Remove ==>
        i + left - 1 <= |balls| && Sweep(State(), i, left - 1, draws[1..], m).state == Sweep(old(State()), i, left, draws, m).state
    {
      SweepStep(State(), i, left, draws, m);
      verdict := TestBall(i, draws[0], m);
    }

    /** One ball of `checkCollisions`: off the wall, then past the players in seat order. */
    method TestBall(bi: nat, draw: real, m: Env) returns (verdict: Verdict)
      requires Valid() && SqrtSound(m) && PiSound(m) && bi < |balls| && 0.0 <= draw < 1.0
      modifies this
      ensures Valid() && Rest() == old(Rest())
      ensures State() == BallTurn(old(State()), bi, draw, m).state
      ensures verdict == VerdictOf(BallTurn(old(State()), bi, draw, m))
    {
      var bs := WallBounce(balls[bi], GOALS_ARENA_RADIUS, BALL_RADIUS, m).ball;
      var i := 0;
      while i < |players|
        invariant 0 <= i <= |players| && State() == old(State()) && Rest() == old(Rest())
        invariant Defend(State(), bi, bs, i, draw, m) == BallTurn(old(State()), bi, draw, m)
        decreases |players| - i
      {
        var player := players[i];
        if !player.eliminated {
          var g := GoalPoint(player.mode.goalAngle, m);
          var saved := PaddleCollision(bs, player.mode.paddleAngle, GOALS_PADDLE_ARC, g.x, g.y, player.mode.orbitRadius, BALL_RADIUS, m);
          if saved.hit {
            assert Defend(State(), bi, saved.ball, i + 1, draw, m) == Defend(State(), bi, bs, i, draw, m);
            bs := saved.ball;
          } else if CheckGoalsGoalCollision(bs.x, bs.y, g.x, g.y, GOALS_GOAL_RADIUS, GOALS_ORBIT_RADIUS, BALL_RADIUS, m) {
            assert Conceded(State(), bi, bs, i, draw, m) == Defend(State(), bi, bs, i, draw, m);
            verdict := ConcedeGoal(bi, bs, i, draw, m);
            return;
          } else {
            assert Defend(State(), bi, bs, i + 1, draw, m) == Defend(State(), bi, bs, i, draw, m);
          }
        } else {
          assert Defend(State(), bi, bs, i + 1, draw, m) == Defend(State(), bi, bs, i, draw, m);
        }
        i := i + 1;
      }
      var clamped := ClampSpeed(bs.vx, bs.vy, GOALS_MAX_BALL_SPEED, m);
      assert Defend(State(), bi, bs, i, draw, m) == Kept(State().(balls := balls[bi := BallState(bs.x, bs.y, clamped.x, clamped.y)]));
      balls := balls[bi := BallState(bs.x, bs.y, clamped.x, clamped.y)];
      verdict := Keep;
    }

    /** A goal against live player `k` by ball `bi`, now at `bs`. */
    method ConcedeGoal(bi: nat, bs: BallState, k: nat, draw: real, m: Env) returns (verdict: Verdict)
      requires Valid() && k < |players| && !players[k].eliminated && bi < |balls| && 0.0 <= draw < 1.0
      modifies this
      ensures Valid() && Rest() == old(Rest())
      ensures State() == Conceded(old(State()), bi, bs, k, draw, m).state
      ensures verdict == VerdictOf(Conceded(old(State()), bi, bs, k, draw, m))
    {
      LoseLife(k);
      if players[k].eliminated {
        if k == 0 {
          running := false;
          reports := reports + [None];
          balls := balls[bi := bs];
          return Stop;
        }
        CheckWinCondition();
      }
      ghost var after := State();
      RemoveBall(bi);
      LaunchBall(draw, m);
      assert State() == Launch(after.(balls := RemoveAt(after.balls, bi)), draw, m);
      verdict := Remove;
    }

    /** `player.lives--`, eliminated at 0 lives, and the HUD marked. */
    method LoseLife(k: nat)
      requires Valid() && k < |players| && !players[k].eliminated
      modifies this
      ensures Valid() && Rest() == old(Rest())
      ensures State() == old(State()).(players := old(players)[k := Hit(old(players)[k])], hudDirty := true)
    {
      var player := players[k];
      player := player.(lives := player.lives - 1);
      hudDirty := true;
      if player.lives <= 0 {
        player := player.(eliminated := true);
      }
      players := players[k := player];
    }

    /** `removeBall`: the ball taken out of the list. */
    method RemoveBall(bi: nat)
      requires bi < |balls|
      modifies this
      ensures Rest() == old(Rest()) && State() == old(State()).(balls := RemoveAt(old(balls), bi))
    {
      balls := balls[..bi] + balls[bi + 1..];
    }

    /** `launchBall`: a new ball aimed at the goal of the live player the draw picks, if any. */
    method LaunchBall(draw: real, m: Env)
      requires 0.0 <= draw < 1.0
      modifies this
      ensures Rest() == old(Rest()) && State() == Launch(old(State()), draw, m)
    {
      var alive := AliveIndices(players);
      if |alive| == 0 {
        return;
      }
      var target := players[alive[BaseRoom.PickIndex(draw, |alive|)]];
      var v := BaseRoom.AimAt(GoalPoint(target.mode.goalAngle, m), m);
      balls := balls + [BallState(0.0, 0.0, v.x, v.y)];
    }

    /** `checkWinCondition`. */
    method CheckWinCondition()
      modifies this
      ensures Rest() == old(Rest()) && State() == WinCheck(old(State()))
    {
      var aliveCount, lastAlive := CountSurvivors(players);
      if aliveCount <= 1 {
        running := false;
        reports := reports + [Some(WinnerName(players))];
      }
    }
  }
}
