/**
 * One tick of goals mode (shared/src/goals-simulation.ts): advance a fresh
 * copy of the ball, bounce it off the circular wall, then let each live
 * player's paddle save it or its goal take it, stopping at the first goal;
 * a ball still in play has its speed capped.
 */
module GoalsSimulation {
  import opened RealMath
  import opened Wrappers
  import opened Types
  import opened Constants
  import opened Physics
  import opened GoalsPhysics
  import opened SimEvents

  datatype GoalsSimPlayer = GoalsSimPlayer(goalAngle: real, paddleAngle: real, eliminated: bool)

  /** The tick's input; the arena's sizes may be left out. */
  datatype GoalsSimState = GoalsSimState(
    ball: BallState,
    players: seq<GoalsSimPlayer>,
    arenaRadius: Option<real>,
    goalRingRadius: Option<real>,
    goalRadius: Option<real>,
    orbitRadius: Option<real>,
    paddleArc: Option<real>)

  /** The arena's sizes with the defaults filled in. */
  datatype Settings = Settings(arenaRadius: real, goalRingRadius: real, goalRadius: real, orbitRadius: real, paddleArc: real)

  function SettingsOf(s: GoalsSimState): Settings {
    Settings(
      s.arenaRadius.GetOr(GOALS_ARENA_RADIUS),
      s.goalRingRadius.GetOr(GOALS_GOAL_RING_RADIUS),
      s.goalRadius.GetOr(GOALS_GOAL_RADIUS),
      s.orbitRadius.GetOr(GOALS_ORBIT_RADIUS),
      s.paddleArc.GetOr(GOALS_PADDLE_ARC))
  }

  /** A size given in the state is used as is; a missing one is the `GOALS_*` constant. */
  lemma MissingSizesDefault(s: GoalsSimState)
    ensures var st := SettingsOf(s);
      && st.arenaRadius == (if s.arenaRadius.Some? then s.arenaRadius.value else GOALS_ARENA_RADIUS)
      && st.goalRingRadius == (if s.goalRingRadius.Some? then s.goalRingRadius.value else GOALS_GOAL_RING_RADIUS)
      && st.goalRadius == (if s.goalRadius.Some? then s.goalRadius.value else GOALS_GOAL_RADIUS)
      && st.orbitRadius == (if s.orbitRadius.Some? then s.orbitRadius.value else GOALS_ORBIT_RADIUS)
      && st.paddleArc == (if s.paddleArc.Some? then s.paddleArc.value else GOALS_PADDLE_ARC)
  {
  }

  /** Where a player's goal sits: on the goal ring at the goal's angle. */
  function GoalCentre(p: GoalsSimPlayer, goalRingRadius: real, m: Env): Vec2 {
    Vec2(m.cos(p.goalAngle) * goalRingRadius, m.sin(p.goalAngle) * goalRingRadius)
  }

  /** What testing one player does: the ball moves on (possibly with a save reported), or a goal ends the walk. */
  datatype PlayerOutcome = Next(ball: BallState, hit: seq<SimEvent>) | Goal(event: SimEvent)

  /** Player `i` tested against `ball`: skipped when eliminated; otherwise a save, a goal, or nothing. */
  function PlayerStep(st: Settings, ps: seq<GoalsSimPlayer>, ball: BallState, i: nat, m: Env): PlayerOutcome
    requires SqrtSound(m) && PiSound(m) && i < |ps|
  {
    var p := ps[i];
    if p.eliminated then Next(ball, [])
    else
      var g := GoalCentre(p, st.goalRingRadius, m);
      var c := PaddleCollision(ball, p.paddleAngle, st.paddleArc, g.x, g.y, st.orbitRadius, BALL_RADIUS, m);
      if c.hit then Next(c.ball, [SimEvent(PaddleHit, i)])
      else if CheckGoalsGoalCollision(c.ball.x, c.ball.y, g.x, g.y, st.goalRadius, st.orbitRadius, BALL_RADIUS, m) then
        Goal(SimEvent(Scored, i))
      else Next(c.ball, [])
  }

  /** The walk over the players from `i` on, with `events` reported so far; `ballReset` says whether a goal stopped it. */
  function RunPlayers(st: Settings, ps: seq<GoalsSimPlayer>, ball: BallState, i: nat, events: seq<SimEvent>, m: Env): SimResult
    requires SqrtSound(m) && PiSound(m)
    decreases |ps| - i
  {
    if i >= |ps| then SimResult(ball, events, false)
    else match PlayerStep(st, ps, ball, i, m)
      case Next(b, hit) => RunPlayers(st, ps, b, i + 1, events + hit, m)
      case Goal(ev) => SimResult(ball, events + [ev], true)
  }

  /** The advanced ball does not sit at the centre of an arena no wider than itself, where the wall bounce divides by zero. */
  predicate StepDefined(s: GoalsSimState) {
    WallBounceDefined(Advance(s.ball), SettingsOf(s).arenaRadius, BALL_RADIUS)
  }

  /** The whole tick: advance, bounce off the wall, walk the players, cap the speed unless reset. */
  function GoalsStep(s: GoalsSimState, m: Env): SimResult
    requires SqrtSound(m) && PiSound(m) && StepDefined(s)
  {
    var st := SettingsOf(s);
    var bounced := WallBounce(Advance(s.ball), st.arenaRadius, BALL_RADIUS, m).ball;
    var r := RunPlayers(st, s.players, bounced, 0, [], m);
    if r.ballReset then r
    else
      var c := ClampSpeed(r.ball.vx, r.ball.vy, GOALS_MAX_BALL_SPEED, m);
      r.(ball := BallState(r.ball.x, r.ball.y, c.x, c.y))
  }

  /** `goalsPhysicsStep`. */
  method GoalsPhysicsStep(state: GoalsSimState, m: Env) returns (result: SimResult)
    requires SqrtSound(m) && PiSound(m) && StepDefined(state)
    ensures result == GoalsStep(state, m)
  {
    var arenaRadius := state.arenaRadius.GetOr(GOALS_ARENA_RADIUS);
    var goalRingRadius := state.goalRingRadius.GetOr(GOALS_GOAL_RING_RADIUS);
    var goalRadius := state.goalRadius.GetOr(GOALS_GOAL_RADIUS);
    var orbitRadius := state.orbitRadius.GetOr(GOALS_ORBIT_RADIUS);
    var paddleArc := state.paddleArc.GetOr(GOALS_PADDLE_ARC);
    ghost var st := SettingsOf(state);

    var ball := new GoalsBall(state.ball.x + state.ball.vx, state.ball.y + state.ball.vy, state.ball.vx, state.ball.vy);
    var events: seq<SimEvent> := [];
    var ballReset := false;

    var _ := BounceOffCircularWall(ball, arenaRadius, BALL_RADIUS, m);
    ghost var bounced := ball.Value();
    ghost var walk := RunPlayers(st, state.players, bounced, 0, [], m);
    GoalsStepFromWalk(state, m, bounced, walk);

    var i := 0;
    while i < |state.players|
      invariant i <= |state.players|
      invariant RunPlayers(st, state.players, ball.Value(), i, events, m) == walk
      invariant !ballReset
      decreases |state.players| - i
    {
      ghost var before := ball.Value();
      var player := state.players[i];
      if player.eliminated {
        assert events + [] == events;
        i := i + 1;
        continue;
      }
      var goal := GoalCentre(player, goalRingRadius, m);
      var goalX := goal.x;
      var goalY := goal.y;
      assert st == Settings(arenaRadius, goalRingRadius, goalRadius, orbitRadius, paddleArc);
      ghost var expected := PaddleCollision(before, player.paddleAngle, paddleArc, goalX, goalY, orbitRadius, BALL_RADIUS, m);
      var saved := CheckGoalsPaddleCollision(ball, player.paddleAngle, paddleArc, goalX, goalY, orbitRadius, BALL_RADIUS, m);
      assert Collision(saved, ball.Value()) == expected;
      if saved {
        LivePlayerStep(st, state.players, before, i, m, Collision(saved, ball.Value()), false);
        events := events + [SimEvent(PaddleHit, i)];
      } else if CheckGoalsGoalCollision(ball.x, ball.y, goalX, goalY, goalRadius, orbitRadius, BALL_RADIUS, m) {
        LivePlayerStep(st, state.players, before, i, m, Collision(saved, ball.Value()), true);
        events := events + [SimEvent(Scored, i)];
        ballReset := true;
        break;
      } else {
        LivePlayerStep(st, state.players, before, i, m, Collision(saved, ball.Value()), false);
        assert events + [] == events;
      }
      i := i + 1;
    }
    assert walk == SimResult(ball.Value(), events, ballReset);

    if !ballReset {
      var clamped := ClampSpeed(ball.vx, ball.vy, GOALS_MAX_BALL_SPEED, m);
      ball.vx := clamped.x;
      ball.vy := clamped.y;
    }
    result := SimResult(ball.Value(), events, ballReset);
  }

  /** Testing a live player, given what the paddle check and the goal check answered. */
  lemma LivePlayerStep(st: Settings, ps: seq<GoalsSimPlayer>, b: BallState, i: nat, m: Env, c: Collision, scored: bool)
    requires SqrtSound(m) && PiSound(m) && i < |ps| && !ps[i].eliminated
    requires var g := GoalCentre(ps[i], st.goalRingRadius, m);
      && c == PaddleCollision(b, ps[i].paddleAngle, st.paddleArc, g.x, g.y, st.orbitRadius, BALL_RADIUS, m)
      && scored == (!c.hit && CheckGoalsGoalCollision(c.ball.x, c.ball.y, g.x, g.y, st.goalRadius, st.orbitRadius, BALL_RADIUS, m))
    ensures PlayerStep(st, ps, b, i, m)
         == if c.hit then Next(c.ball, [SimEvent(PaddleHit, i)]) else if scored then Goal(SimEvent(Scored, i)) else Next(c.ball, [])
  {
  }

  /** The tick in terms of the ball after the wall bounce and the walk from it. */
  lemma GoalsStepFromWalk(s: GoalsSimState, m: Env, bounced: BallState, walk: SimResult)
    requires SqrtSound(m) && PiSound(m) && StepDefined(s)
    requires bounced == WallBounce(Advance(s.ball), SettingsOf(s).arenaRadius, BALL_RADIUS, m).ball
    requires walk == RunPlayers(SettingsOf(s), s.players, bounced, 0, [], m)
    ensures GoalsStep(s, m)
         == if walk.ballReset then walk
            else var c := ClampSpeed(walk.ball.vx, walk.ball.vy, GOALS_MAX_BALL_SPEED, m);
                 walk.(ball := BallState(walk.ball.x, walk.ball.y, c.x, c.y))
  {
  }

  // ---------------------------------------------------------------------
  // Properties of the tick

  /**
   * A live player's test reports a save exactly when the paddle check says
   * it saved the ball, and a goal exactly when it did not and the goal check
   * says the ball is in; an eliminated player's test does nothing.
   */
  lemma PlayerStepReports(st: Settings, ps: seq<GoalsSimPlayer>, ball: BallState, i: nat, m: Env)
    requires SqrtSound(m) && PiSound(m) && i < |ps|
    ensures var o := PlayerStep(st, ps, ball, i, m);
      var p := ps[i];
      var g := GoalCentre(p, st.goalRingRadius, m);
      var c := PaddleCollision(ball, p.paddleAngle, st.paddleArc, g.x, g.y, st.orbitRadius, BALL_RADIUS, m);
      && (p.eliminated ==> o == Next(ball, []))
      && (!p.eliminated ==>
            && (o.Next? && o.hit == [SimEvent(PaddleHit, i)] <==> c.hit)
            && (o.Goal? <==> !c.hit && CheckGoalsGoalCollision(ball.x, ball.y, g.x, g.y, st.goalRadius, st.orbitRadius, BALL_RADIUS, m))
            && (o.Goal? ==> o.event == SimEvent(Scored, i)))
  {
    var p := ps[i];
    if !p.eliminated {
      var g := GoalCentre(p, st.goalRingRadius, m);
      PaddleSaveConditions(ball, p.paddleAngle, st.paddleArc, g.x, g.y, st.orbitRadius, BALL_RADIUS, m);
    }
  }

  lemma {:induction false} WalkScoresOnceAtEnd(st: Settings, ps: seq<GoalsSimPlayer>, ball: BallState, i: nat,
                                               events: seq<SimEvent>, m: Env)
    requires SqrtSound(m) && PiSound(m)
    requires forall k :: 0 <= k < |events| ==> events[k].kind == PaddleHit
    ensures var r := RunPlayers(st, ps, ball, i, events, m);
      && HitsBeforeLast(r.events)
      && (r.ballReset <==> EndsWithGoal(r.events))
    decreases |ps| - i
  {
    if i < |ps| {
      match PlayerStep(st, ps, ball, i, m)
      case Next(b, hit) =>
        WalkScoresOnceAtEnd(st, ps, b, i + 1, events + hit, m);
      case Goal(ev) =>
    }
  }

  /** A tick reports at most one goal, only as its last event, and resets the ball exactly when it reports one. */
  lemma AtMostOneGoalAndItIsLast(s: GoalsSimState, m: Env)
    requires SqrtSound(m) && PiSound(m) && StepDefined(s)
    ensures var r := GoalsStep(s, m);
      && HitsBeforeLast(r.events)
      && (r.ballReset <==> EndsWithGoal(r.events))
  {
    var st := SettingsOf(s);
    var bounced := WallBounce(Advance(s.ball), st.arenaRadius, BALL_RADIUS, m).ball;
    WalkScoresOnceAtEnd(st, s.players, bounced, 0, [], m);
  }

  /** Every event that testing a player reports satisfies `ok`. */
  predicate OutcomeEventsSatisfy(o: PlayerOutcome, ok: SimEvent -> bool) {
    match o
    case Next(_, hit) => AllSatisfy(hit, ok)
    case Goal(ev) => ok(ev)
  }

  /** If testing any player only reports events satisfying `ok`, so does the walk. */
  lemma {:induction false} WalkEventsSatisfy(st: Settings, ps: seq<GoalsSimPlayer>, ball: BallState, i: nat,
                                             events: seq<SimEvent>, m: Env, ok: SimEvent -> bool)
    requires SqrtSound(m) && PiSound(m)
    requires forall b: BallState, j: nat :: j < |ps| ==> OutcomeEventsSatisfy(PlayerStep(st, ps, b, j, m), ok)
    requires AllSatisfy(events, ok)
    ensures AllSatisfy(RunPlayers(st, ps, ball, i, events, m).events, ok)
    decreases |ps| - i
  {
    if i < |ps| {
      assert OutcomeEventsSatisfy(PlayerStep(st, ps, ball, i, m), ok);
      match PlayerStep(st, ps, ball, i, m)
      case Next(b, hit) =>
        ConcatSatisfies(events, hit, ok);
        WalkEventsSatisfy(st, ps, b, i + 1, events + hit, m, ok);
      case Goal(ev) =>
        ConcatSatisfies(events, [ev], ok);
    }
  }

  /** The event names a player of the tick who is not eliminated. */
  predicate FromLivePlayer(ps: seq<GoalsSimPlayer>, ev: SimEvent) {
    ev.playerIndex < |ps| && !ps[ev.playerIndex].eliminated
  }

  /** Eliminated players are skipped: every event names a live player. */
  lemma EventsComeFromLivePlayers(s: GoalsSimState, m: Env)
    requires SqrtSound(m) && PiSound(m) && StepDefined(s)
    ensures var r := GoalsStep(s, m);
      forall k :: 0 <= k < |r.events| ==> FromLivePlayer(s.players, r.events[k])
  {
    var st := SettingsOf(s);
    var ok := (ev: SimEvent) => FromLivePlayer(s.players, ev);
    forall b: BallState, j: nat | j < |s.players|
      ensures OutcomeEventsSatisfy(PlayerStep(st, s.players, b, j, m), ok)
    {
    }
    var bounced := WallBounce(Advance(s.ball), st.arenaRadius, BALL_RADIUS, m).ball;
    WalkEventsSatisfy(st, s.players, bounced, 0, [], m, ok);
    assert GoalsStep(s, m).events == RunPlayers(st, s.players, bounced, 0, [], m).events;
  }

  /** The players named by `events` strictly increase, each below `bound`. */
  predicate IncreasingBelow(events: seq<SimEvent>, bound: nat) {
    && (forall k, l :: 0 <= k < l < |events| ==> events[k].playerIndex < events[l].playerIndex)
    && (forall k :: 0 <= k < |events| ==> events[k].playerIndex < bound)
  }

  lemma {:induction false} WalkIndicesIncrease(st: Settings, ps: seq<GoalsSimPlayer>, ball: BallState, i: nat,
                                               events: seq<SimEvent>, m: Env)
    requires SqrtSound(m) && PiSound(m)
    requires IncreasingBelow(events, i)
    ensures IncreasingBelow(RunPlayers(st, ps, ball, i, events, m).events, if i <= |ps| then |ps| else i)
    decreases |ps| - i
  {
    if i < |ps| {
      match PlayerStep(st, ps, ball, i, m)
      case Next(b, hit) =>
        assert hit == [] || hit == [SimEvent(PaddleHit, i)];
        assert IncreasingBelow(events + hit, i + 1);
        WalkIndicesIncrease(st, ps, b, i + 1, events + hit, m);
      case Goal(ev) =>
        assert IncreasingBelow(events + [ev], i + 1);
    }
  }

  /** Players are tested in order and each at most once: the events' player indices strictly increase. */
  lemma EachPlayerReportedAtMostOnce(s: GoalsSimState, m: Env)
    requires SqrtSound(m) && PiSound(m) && StepDefined(s)
    ensures IncreasingBelow(GoalsStep(s, m).events, |s.players|)
  {
    var st := SettingsOf(s);
    var bounced := WallBounce(Advance(s.ball), st.arenaRadius, BALL_RADIUS, m).ball;
    WalkIndicesIncrease(st, s.players, bounced, 0, [], m);
    assert GoalsStep(s, m).events == RunPlayers(st, s.players, bounced, 0, [], m).events;
  }

  /**
   * A ball still in play leaves the tick no faster than `GOALS_MAX_BALL_SPEED`;
   * a reset ball is returned as the walk left it, without the cap.
   */
  lemma SpeedCappedUnlessReset(s: GoalsSimState, m: Env)
    requires SqrtSound(m) && PiSound(m) && StepDefined(s)
    ensures var r := GoalsStep(s, m);
      var st := SettingsOf(s);
      var w := RunPlayers(st, s.players, WallBounce(Advance(s.ball), st.arenaRadius, BALL_RADIUS, m).ball, 0, [], m);
      && (!r.ballReset ==> NormSq(r.ball.vx, r.ball.vy) <= Sq(GOALS_MAX_BALL_SPEED) && r.ball.x == w.ball.x && r.ball.y == w.ball.y)
      && (r.ballReset ==> r.ball == w.ball)
  {
  }

  /**
   * With every player eliminated the tick is only the advance, the wall
   * bounce and the speed cap: no events and no reset.
   */
  lemma NoLivePlayersOnlyMoves(s: GoalsSimState, m: Env)
    requires SqrtSound(m) && PiSound(m) && StepDefined(s)
    requires forall k :: 0 <= k < |s.players| ==> s.players[k].eliminated
    ensures var r := GoalsStep(s, m);
      var b := WallBounce(Advance(s.ball), SettingsOf(s).arenaRadius, BALL_RADIUS, m).ball;
      && r.events == [] && !r.ballReset
      && r.ball.x == b.x && r.ball.y == b.y
      && (NormSq(b.vx, b.vy) <= Sq(GOALS_MAX_BALL_SPEED) ==> r.ball == b)
  {
    var b := WallBounce(Advance(s.ball), SettingsOf(s).arenaRadius, BALL_RADIUS, m).ball;
    SkipAllEliminated(SettingsOf(s), s.players, b, 0, m);
  }

  lemma {:induction false} SkipAllEliminated(st: Settings, ps: seq<GoalsSimPlayer>, ball: BallState, i: nat, m: Env)
    requires SqrtSound(m) && PiSound(m)
    requires forall k :: i <= k < |ps| ==> ps[k].eliminated
    ensures RunPlayers(st, ps, ball, i, [], m) == SimResult(ball, [], false)
    decreases |ps| - i
  {
    if i < |ps| {
      assert PlayerStep(st, ps, ball, i, m) == Next(ball, []);
      var none: seq<SimEvent> := [];
      assert none + [] == none;
      SkipAllEliminated(st, ps, ball, i + 1, m);
    }
  }
}
