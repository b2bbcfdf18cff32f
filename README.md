# Polygon pong, modelled in Dafny

A model of the game core of MMORPGang, a multiplayer "polygon pong" written
in TypeScript. Every player defends a side of a regular polygon (classic
mode) or a goal on a ring guarded by a paddle orbiting it (goals mode).
The model covers the sequential, tick-driven parts of the shared library,
the Colyseus server rooms and the two browser-only games against bots.
It proves the properties these parts promise.

One Dafny module per source file:

| module | file | what it holds |
|---|---|---|
| `Types`, `Constants`, `Wrappers` | shared/src/types.ts, shared/src/constants.ts | the shared records and constants, and `Option` |
| `RealMath` | (none) | `Math.sqrt`, `cos`, `sin`, `atan2` and `PI` as a parameter `Env`; ghost predicates state the few axioms used (a square root is non-negative and squares back, `cos² + sin² = 1`, `π > 0`, the unit circle is injective over one turn) |
| `Strings` | (none) | `trim`, `slice` and decimal rendering, as the rooms and the game state use them |
| `Geometry` | shared/src/geometry.ts | `getArenaConfig`, the polygon's corners and sides |
| `Physics` | shared/src/physics.ts | segment proximity, the goal-line test, reflection with speed-up, speed capping, paddle endpoints |
| `GoalsPhysics` | shared/src/goals-physics.ts | angle wrapping, the circular wall, the orbiting-paddle save, the goal test, slot angles |
| `SimEvents`, `ClassicSimulation`, `GoalsSimulation` | shared/src/classic-simulation.ts, shared/src/goals-simulation.ts | the two pure per-tick steps and their event lists |
| `SharedIndex`, `Myrto` | shared/src/index.ts | the older vector helpers and the `myrto` namespace |
| `AudioStore` | server/src/audioStore.ts | the per-room audio map and `clearRoom` |
| `ServerGameState`, `ServerPhysics` | server/src/game/GameState.ts, server/src/game/Physics.ts | the socket server's player table and its goal physics |
| `BaseRoom`, `ClassicRoom`, `GoalsRoom` | server/src/rooms/BaseGameRoom.ts, ClassicGameRoom.ts, GoalsGameRoom.ts | the room lifecycle (`waiting → playing → ended`) as a class, held by each mode's room class |
| `SingleClassRoom` | server/src/rooms/GameRoom.ts | the older single-class room |
| `VectorObject`, `ClientBall`, `PaddleTrack`, `ClientPaddle`, `ClientClassicPaddle` | client/src/game/Ball.ts, Paddle.ts, classic/ClassicPaddle.ts | the mutable ball and paddles of the client |
| `LocalMatch`, `LocalClassicGame`, `LocalGame`, `LocalGoalsGame` | client/src/game/classic/ClassicGame.ts, client/src/game/Game.ts, client/src/game/goals/GoalsGame.ts | the local games against bots |

The form follows the source. Pure helpers are functions, with lemmas
about them. The rooms, the game state, the balls, the paddles and the
local games are classes whose methods update fields in place. Each such
method's `ensures` ties the new state to a function of the old state, for
example `State() == Walk(old(State()), …)`. Lemmas then prove what the
source promises about that function. A loop in the source is a `while`
loop in the method, proved equal to a recursive specification function.
`Math.random()` draws are parameters of the methods that use them, each
required to lie in `[0, 1)`.

## Model

| member | source | states |
|---|---|---|
| AudioStore.ClipKey | server/src/main.ts:27 | the upload key `roomId:sessionId` starts with the room's prefix and ends with the session id |
| AudioStore.AudioStore.constructor | server/src/audioStore.ts:1 | the store starts empty |
| AudioStore.AudioStore.Store | server/src/main.ts:27 | an upload files the clip under its key and changes no other key |
| AudioStore.AudioStore.ClearRoom | server/src/audioStore.ts:3-9 | the loop deletes exactly the keys starting with `roomId:` and keeps every other entry |
| AudioStore.ClearedRoomHasNoClips | server/src/audioStore.ts:3-9 | after clearing a room no clip of that room is left |
| AudioStore.ClearRoomKeepsOtherClips | server/src/audioStore.ts:5 | a key without the room's prefix keeps its clip |
| AudioStore.ClearRoomIdempotent | server/src/audioStore.ts:3-9 | clearing a room twice is clearing it once |
| AudioStore.RoomsDoNotShareClips | server/src/audioStore.ts:5 | with `:`-free room ids, the `:` separator keeps a clip of one room out of every other room |
| AudioStore.ClearRoomKeepsOtherRooms | server/src/audioStore.ts:5 | when room ids hold no `:`, disposing a room keeps every clip of every other room, including a room whose id extends it ("ab" vs "abc") |
| ClientBall.Ball.constructor | client/src/game/Ball.ts:10-15 | a new ball sits at the centre at rest, with radius `BALL_RADIUS` |
| ClientBall.Ball.Update | client/src/game/Ball.ts:24-27 | one tick moves the ball by its velocity and leaves the velocity alone |
| ClientBall.Ball.Reflect | client/src/game/Ball.ts:29-35 | the new velocity is the shared reflection with speed-up 1.02; for a unit normal the normal component is reversed and scaled, the tangent component scaled, and the squared speed multiplied by 1.02² |
| ClientBall.Ball.AddSpin | client/src/game/Ball.ts:37-40 | the velocity gains `influence` times the tangent velocity |
| ClientBall.Ball.Launch | client/src/game/Ball.ts:42-50 | the ball returns to the centre with a fresh velocity equal to the aim at `target` (speed `BALL_SPEED` by `BaseRoom.AimAtFacts`), and at rest for a target at the centre |
| Geometry.GetArenaConfig | shared/src/geometry.ts:8-16 | one assignment per player, each a side of the polygon, pairwise distinct; two players get opposite sides of a square, otherwise there are as many sides as players |
| Geometry.ArenaConfigValues | shared/src/geometry.ts:9-15 | two players get exactly `{4, [0, 2]}`; `n` other players get `n` sides with player `k` on side `k` |
| Geometry.ComputeVertices | shared/src/geometry.ts:18-23 | `numSides` corners, corner `i` at angle `2πi/n − π/2` on the circle, and neighbouring corners differ for a non-zero radius |
| Geometry.AllNeighbourVerticesDiffer | shared/src/geometry.ts:18-23 | every corner differs from the next one round the polygon |
| Geometry.MakeEdge | shared/src/geometry.ts:30-43 | a side keeps its ends, has positive length whose square is `dx²+dy²`, a unit normal perpendicular to the side, and the midpoint halfway between the ends |
| Geometry.ComputeEdges | shared/src/geometry.ts:25-47 | `numSides` sides, side `i` from corner `i` to corner `(i+1) mod n`; the sides close up and each has a unit normal and positive length |
| Strings.TrimStart | server/src/rooms/BaseGameRoom.ts:39 | the leading part of `trim`: a suffix of the input, whose dropped characters are all whitespace, starting with a non-whitespace character |
| Strings.TrimEnd | server/src/rooms/BaseGameRoom.ts:39 | the trailing part of `trim`: a prefix of the input, whose dropped characters are all whitespace, ending with a non-whitespace character |
| Strings.TrimFacts | server/src/rooms/BaseGameRoom.ts:39 | `trim` returns a contiguous piece of the input with no whitespace at either end |
| Strings.BlankIffAllWhitespace | server/src/rooms/BaseGameRoom.ts:39-40 | a name trims to the empty string exactly when every character is whitespace |
| Strings.TrimIdempotent | server/src/rooms/BaseGameRoom.ts:39 | trimming twice is trimming once |
| Strings.Prefix | server/src/rooms/BaseGameRoom.ts:39 | `slice(0, n)` is a prefix of at most `n` characters, the whole string when it is short enough and exactly `n` characters otherwise |
| Strings.NatToStringRoundTrip | server/src/rooms/BaseGameRoom.ts:60 | the decimal rendering in `Player ${idx + 1}` is non-empty, all digits, without a leading zero, and parses back to the number |
| PaddleTrack.SlideFacts | client/src/game/Paddle.ts:30-31 | the clamped paddle stays on its side, a step inside the range is taken in full, and a paddle pinned at an end does not move further out |
| SimEvents.ConcatSatisfies | shared/src/classic-simulation.ts:62-75 | a property of every event survives appending more events that have it |
| ClientPaddle.TangentSpeed | client/src/game/Paddle.ts:63-70 | the tangent velocity's length is the paddle's speed along its side, `velocity_t · length` |
| ClientPaddle.SpanOfPaddle | client/src/game/Paddle.ts:72-80 | the paddle's two endpoints lie `widthRatio · length` apart |
| ClientPaddle.Paddle.constructor | client/src/game/Paddle.ts:5-21 | a new paddle sits at the middle of its side, still, with the given side index, colour and width and no side yet |
| ClientPaddle.Paddle.SetEdge | client/src/game/Paddle.ts:23-26 | the side is stored and the container placed on it; position and velocity are kept |
| ClientPaddle.Paddle.Move | client/src/game/Paddle.ts:28-34 | the position is the clamped step, the velocity the position's change; the paddle stays on its side, a step inside the range is taken in full, and a paddle pinned at an end does not move further out |
| ClientPaddle.Paddle.UpdatePosition | client/src/game/Paddle.ts:36-45 | without a side nothing moves; otherwise the container sits at the paddle's point of its side, turned to the side's angle |
| ClientPaddle.Paddle.TangentVelocity | client/src/game/Paddle.ts:63-70 | (0, 0) without a side; otherwise the paddle's step along the side's direction, of length `velocity_t · length` |
| ClientPaddle.Paddle.PaddleEndpoints | client/src/game/Paddle.ts:72-80 | the endpoints are centred on the container, `widthRatio · length` apart, and agree with the shared `getPaddleEndpoints` |
| ClientClassicPaddle.InterpolationHalvesGap | client/src/game/classic/ClassicPaddle.ts:85-88 | after `n` interpolations the gap to the server position is the first gap over `2ⁿ`, and the paddle stays between its start and the server position |
| ClientClassicPaddle.ClassicPaddle.constructor | client/src/game/classic/ClassicPaddle.ts:5-23 | a new paddle sits at the middle, still, with the server position 0.5, a zero tangent vector and no side yet; `widthRatio` defaults to 0.35 |
| ClientClassicPaddle.ClassicPaddle.SetEdge | client/src/game/classic/ClassicPaddle.ts:25-28 | the side is stored and the container placed on it; positions and velocity are kept |
| ClientClassicPaddle.ClassicPaddle.Move | client/src/game/classic/ClassicPaddle.ts:30-36 | the position is the clamped step and the velocity its change; the paddle stays on its side, takes in-range steps in full and does not move past an end |
| ClientClassicPaddle.ClassicPaddle.UpdatePosition | client/src/game/classic/ClassicPaddle.ts:38-47 | without a side nothing moves; otherwise the container follows the paddle's point on its side |
| ClientClassicPaddle.ClassicPaddle.GetTangentVelocity | client/src/game/classic/ClassicPaddle.ts:65-75 | the reused vector object is returned, holding (0, 0) without a side and otherwise the step along the side, of length `velocity_t · length` |
| ClientClassicPaddle.ClassicPaddle.Endpoints | client/src/game/classic/ClassicPaddle.ts:77-79 | the shared endpoints are centred on the paddle's point of its side and lie `widthRatio · length` apart |
| ClientClassicPaddle.ClassicPaddle.SyncPosition | client/src/game/classic/ClassicPaddle.ts:81-83 | only the server position changes |
| ClientClassicPaddle.ClassicPaddle.Interpolate | client/src/game/classic/ClassicPaddle.ts:85-88 | the paddle closes half of the gap to the server position and stays put when already there |
| Physics.ClosestParameterIsClosest | shared/src/physics.ts:8-14 | the clamped projection lies in [0, 1] and gives the point of the segment nearest the ball |
| Physics.BallNearSegmentIffSomePointWithinReach | shared/src/physics.ts:3-16 | for a segment of non-zero length, `ballNearSegment` holds exactly when some point of the segment is within `hitDistSq` (squared) of the ball |
| Physics.EdgeFrameCoordinates | shared/src/physics.ts:18-32 | the offset and projection that `ballPassedEdge` tests are the ball's coordinates in the side's own frame (start, unit direction, normal) |
| Physics.ReflectReversesNormal | shared/src/physics.ts:34-44 | for a unit normal the reflected velocity's normal component is the old one reversed, times `speedUp` |
| Physics.ReflectKeepsTangent | shared/src/physics.ts:34-44 | the component along the side is the old one times `speedUp` |
| Physics.ReflectScalesSpeed | shared/src/physics.ts:34-44 | for a unit normal the squared speed is multiplied by `speedUp²` |
| Physics.ReflectVelocityInvolution | shared/src/physics.ts:34-44 | with no speed-up, reflecting twice in the same side gives the velocity back |
| Physics.ClampSpeed | shared/src/physics.ts:46-53 | the result never exceeds `maxSpeed`; a velocity within the cap is returned unchanged; a faster one keeps its direction and gets exactly speed `maxSpeed` |
| Physics.GetPaddleEndpoints | shared/src/physics.ts:55-71 | the paddle's ends are symmetric about the point at `paddlePosition` along the side and lie `length · widthRatio` apart, whatever cos and sin evaluate to |
| Physics.PaddleLiesOnItsSide | shared/src/physics.ts:55-71 | on a side whose angle is its direction, the paddle is the piece of the side between fractions `p − w/2` and `p + w/2` |
| GoalsPhysics.WrappedInRange | shared/src/goals-physics.ts:4-9 | the two wrap-around loops give a value in [−π, π] that differs from `a − b` by whole turns, and keep a difference already in range |
| GoalsPhysics.AngleDiff | shared/src/goals-physics.ts:4-9 | both loops terminate with `a − b` wrapped into [−π, π]; `angleDiff(a, a) = 0` |
| GoalsPhysics.NormalizeZero | shared/src/goals-physics.ts:11-14 | the zero vector normalises to (0, 0) |
| GoalsPhysics.NormalizeUnit | shared/src/goals-physics.ts:11-14 | any other vector normalises to a unit vector along it |
| GoalsPhysics.ReflectMirrors | shared/src/goals-physics.ts:16-20 | for a unit normal, reflection reverses the normal component and keeps the speed |
| GoalsPhysics.GoalsBall.constructor | shared/src/goals-physics.ts:22-27 | the ball object holds the given position and velocity |
| GoalsPhysics.BounceOffCircularWall | shared/src/goals-physics.ts:33-51 | the ball object ends as the wall-bounce value says, and the result is whether it bounced |
| GoalsPhysics.WallBounceMissIffInside | shared/src/goals-physics.ts:38-39 | no bounce exactly when the ball's centre is nearer than `arenaRadius − ballRadius`, and then the ball is untouched |
| GoalsPhysics.WallBounceLandsInside | shared/src/goals-physics.ts:41-50 | after a bounce the ball lies on the same ray at distance exactly `arenaRadius − ballRadius`, with its radial velocity reversed and its speed kept |
| GoalsPhysics.CheckGoalsPaddleCollision | shared/src/goals-physics.ts:57-94 | the ball object ends as the paddle-collision value says, and the result is whether it was saved |
| GoalsPhysics.PaddleSaveConditions | shared/src/goals-physics.ts:66-93 | a save happens exactly when the ball is in the band `orbitRadius ± 2·ballRadius`, within half the arc of the paddle's angle, and moving towards the goal; otherwise the ball is untouched |
| GoalsPhysics.ReboundFacts | shared/src/goals-physics.ts:85-91 | the rebound puts the ball `push` from the goal along the normal, with the normal velocity reversed and the speed kept |
| GoalsPhysics.ApproachingHasUnitNormal | shared/src/goals-physics.ts:80-83 | a ball that passes the approach test is not at the goal's centre, so the normal is a unit vector |
| GoalsPhysics.PaddleSaveBouncesOut | shared/src/goals-physics.ts:85-93 | after a save the ball is `orbitRadius + ballRadius + 1` from the goal and moving away from it as fast as it came, so the next frame cannot save it again |
| GoalsPhysics.CheckGoalsGoalCollision | shared/src/goals-physics.ts:100-116 | a goal exactly when the ball is nearer the goal's centre than both `goalRadius + ballRadius` and `orbitRadius`; the ball is only read |
| GoalsPhysics.SlotAnglesIncrease | shared/src/goals-physics.ts:121-123 | the `count` slot angles start at 0, strictly increase and stay below 2π |
| ClassicSimulation.ReflectBall | shared/src/classic-simulation.ts:88-93 | the position is kept, the velocity is the 1.02 reflection, capped at `CLASSIC_MAX_BALL_SPEED` and untouched by the cap when within it |
| ClassicSimulation.ApplyPaddleSpin | shared/src/classic-simulation.ts:95-103 | the position is kept, the velocity gains the paddle's kick and is capped at `CLASSIC_MAX_BALL_SPEED`, untouched by the cap when within it |
| ClassicSimulation.PushBallInMovesInward | shared/src/classic-simulation.ts:105-108 | for a unit normal the ball ends 2 nearer the side's line with its velocity kept |
| ClassicSimulation.OwnerMapKeys | shared/src/classic-simulation.ts:44-48 | the sides in `playersByEdge` are exactly the sides some player names |
| ClassicSimulation.OwnerMapValues | shared/src/classic-simulation.ts:44-48 | each side maps to a player naming it, and no later player names it: the later player wins a shared side |
| ClassicSimulation.Owner | shared/src/classic-simulation.ts:52 | the owner found is a player naming the side, and there is none exactly when no player names it |
| ClassicSimulation.BuildPlayersByEdge | shared/src/classic-simulation.ts:44-48 | the loop builds the owner map |
| ClassicSimulation.StepFromWalk | shared/src/classic-simulation.ts:33-86 | the tick is the walk over the sides from the advanced ball, then the far-out reset |
| ClassicSimulation.ClassicPhysicsStep | shared/src/classic-simulation.ts:33-86 | the loop computes the tick specified by the walk; the input state is a value and is not changed |
| ClassicSimulation.QuietWalk | shared/src/classic-simulation.ts:50-78 | when no side from `i` on does anything, the walk returns the ball and events unchanged and no reset |
| ClassicSimulation.NoTriggerJustAdvances | shared/src/classic-simulation.ts:34-39 | with no side within reach and the ball within 1.5 radii, the tick returns exactly the advanced ball, no events and no reset |
| ClassicSimulation.WalkScoresOnceAtEnd | shared/src/classic-simulation.ts:73-77 | every event of the walk but the last is a paddle hit, and the walk resets exactly when it ends with a goal |
| ClassicSimulation.AtMostOneGoalAndItIsLast | shared/src/classic-simulation.ts:62-85 | at most one `scored` event, only as the last one; `ballReset` holds exactly when there is one or the ball is more than 1.5 radii out |
| ClassicSimulation.WalkEventsSatisfy | shared/src/classic-simulation.ts:50-78 | a property every side's events have holds of all the walk's events |
| ClassicSimulation.EdgeStepEventsFromLiveOwner | shared/src/classic-simulation.ts:54-75 | testing one side reports only events of the side's live owner; a wall reports none |
| ClassicSimulation.OwnerIsLiveOwner | shared/src/classic-simulation.ts:62 | the live owner of a side names that side |
| ClassicSimulation.EventsComeFromLiveOwners | shared/src/classic-simulation.ts:54-75 | every event names a non-eliminated player who owns the side it was reported for |
| ClassicSimulation.WalkCapsSpeed | shared/src/classic-simulation.ts:88-103 | through the walk the velocity stays untouched or within the classic cap |
| ClassicSimulation.StepCapsSpeed | shared/src/classic-simulation.ts:88-103 | at the end of a tick the velocity is the one the ball started with or within `CLASSIC_MAX_BALL_SPEED` |
| ClassicSimulation.FarBallIsReset | shared/src/classic-simulation.ts:80-83 | a ball ending more than 1.5 arena radii from the centre is always reset |
| ClassicSimulation.FarOutSquared | shared/src/classic-simulation.ts:80-81 | the `sqrt` distance test is the squared-distance test |
| GoalsSimulation.MissingSizesDefault | shared/src/goals-simulation.ts:42-46 | a size given in the state is used as is; a missing one falls back to its `GOALS_*` constant |
| GoalsSimulation.GoalsPhysicsStep | shared/src/goals-simulation.ts:41-88 | the method, which mutates a fresh ball object, computes the tick the walk over the players specifies; the input state is a value and is not changed |
| GoalsSimulation.LivePlayerStep | shared/src/goals-simulation.ts:64-78 | testing a live player is the paddle check, then the goal check on the ball the paddle check left |
| GoalsSimulation.GoalsStepFromWalk | shared/src/goals-simulation.ts:48-87 | the tick is advance, wall bounce, the walk, then the cap unless reset |
| GoalsSimulation.PlayerStepReports | shared/src/goals-simulation.ts:60-78 | an eliminated player is skipped; a live player gets `paddle_hit` exactly when the paddle check saved, and `scored` exactly when it did not and the goal check fired |
| GoalsSimulation.WalkScoresOnceAtEnd | shared/src/goals-simulation.ts:72-78 | every event of the walk but the last is a paddle hit, and the walk resets exactly when it ends with a goal |
| GoalsSimulation.AtMostOneGoalAndItIsLast | shared/src/goals-simulation.ts:72-78 | at most one `scored` event, only as the last one, and `ballReset` exactly when it is present |
| GoalsSimulation.WalkEventsSatisfy | shared/src/goals-simulation.ts:60-79 | a property every player's events have holds of all the walk's events |
| GoalsSimulation.EventsComeFromLivePlayers | shared/src/goals-simulation.ts:60-62 | eliminated players never appear in events |
| GoalsSimulation.WalkIndicesIncrease | shared/src/goals-simulation.ts:60-79 | the walk reports players in increasing order, each below the player count |
| GoalsSimulation.EachPlayerReportedAtMostOnce | shared/src/goals-simulation.ts:60-79 | the events' player indices strictly increase, so no player is reported twice |
| GoalsSimulation.SpeedCappedUnlessReset | shared/src/goals-simulation.ts:81-85 | a ball still in play ends no faster than `GOALS_MAX_BALL_SPEED` at the walk's position; a reset ball is returned unclamped |
| GoalsSimulation.NoLivePlayersOnlyMoves | shared/src/goals-simulation.ts:58-85 | with every player eliminated the tick only advances, bounces and caps: no events and no reset |
| GoalsSimulation.SkipAllEliminated | shared/src/goals-simulation.ts:62 | a run of eliminated players leaves ball and events unchanged |
| SharedIndex.Reflect | shared/src/index.ts:7-12 | `reflect` first divides the normal by its length, so it is the mirror in the unit normal along `normal` |
| SharedIndex.ReflectMirrorsAnyNormal | shared/src/index.ts:7-12 | whatever the normal's length, the reflection keeps the speed and reverses the component along the normal |
| SharedIndex.ReflectScaleInvariant | shared/src/index.ts:7-12 | scaling the normal by any positive factor leaves the reflection unchanged |
| SharedIndex.NormalizeScaleInvariant | shared/src/index.ts:14-17 | normalising is blind to a positive scale factor |
| SharedIndex.HypotScale | shared/src/index.ts:8 | the length of a vector scaled by `c > 0` is `c` times its length |
| Myrto.ComputeEdges | shared/src/index.ts:155-172 | `numSides` sides, side `i` from corner `i` to corner `(i+1) % n`, closing up, each with a unit normal and positive length |
| Myrto.Side | shared/src/index.ts:158-170 | one side runs between two consecutive corners, with a unit normal and positive length |
| Myrto.SidesClose | shared/src/index.ts:157-171 | sides that join consecutive corners close up into a polygon |
| ServerPhysics.OffCentreHasUnitNormal | server/src/game/Physics.ts:30 | a ball a positive distance from the goal has a unit normal |
| ServerPhysics.CheckPaddleCollision | server/src/game/Physics.ts:11-40 | the ball object ends as the paddle-collision value says, and the result is whether the paddle hit |
| ServerPhysics.PaddleHitConditions | server/src/game/Physics.ts:17-28 | a hit exactly when the ball is in the band `ORBIT_RADIUS ± BALL_RADIUS` and within half the paddle's arc, whichever way it moves; a miss leaves the ball untouched |
| ServerPhysics.BandInSquares | server/src/game/Physics.ts:19-23 | the `sqrt` band test is the same test on squared distances |
| ServerPhysics.HitIgnoresVelocity | server/src/game/Physics.ts:17-28 | whether the paddle hits does not depend on the ball's velocity: there is no approach-direction test |
| ServerPhysics.PaddleHitPlacesBall | server/src/game/Physics.ts:30-37 | after a hit the ball is `ORBIT_RADIUS + BALL_RADIUS` from the goal on its ray, with the radial velocity reversed and the speed kept |
| ServerPhysics.UnitNormalIsItsOwnNormal | server/src/game/Physics.ts:30-31 | normalising a unit vector gives it back, so `reflect`'s second normalisation changes nothing |
| ServerPhysics.OutgoingBallTurnedBack | server/src/game/Physics.ts:21-33 | a ball flying away from the goal but in the band and in front of the paddle is hit and turned back towards the goal |
| ServerPhysics.ReversedAlongRay | server/src/game/Physics.ts:30-31 | reversing the component along the unit normal reverses the one along the ray itself |
| ServerPhysics.CheckGoalCollision | server/src/game/Physics.ts:42-66 | ball object and returned player record end as the goal-collision value says, and the result is whether a goal was scored |
| ServerPhysics.GoalConditions | server/src/game/Physics.ts:48-53 | a goal exactly when the ball is nearer the goal than `GOAL_RADIUS + BALL_RADIUS` (inside the orbit); otherwise ball and player are untouched |
| ServerPhysics.GoalCostsALife | server/src/game/Physics.ts:55-57 | a goal takes one life from a player who has any and none otherwise, so lives never go negative; nothing else about the player changes |
| ServerPhysics.GoalRelaunchesBall | server/src/game/Physics.ts:59-63 | after a goal the ball restarts at the centre at speed `BALL_BASE_SPEED` |
| ServerPhysics.RelaunchSpeed | server/src/game/Physics.ts:59-63 | every random direction gets speed `BALL_BASE_SPEED` |
| ServerGameState.GoalAngles | server/src/game/GameState.ts:18-20 | the used-angle set holds exactly the goal angles of the current players |
| ServerGameState.IndexOf | server/src/game/GameState.ts:46-47 | finds the first record keyed by the socket id, and reports none exactly when no record has that key |
| ServerGameState.Put | server/src/game/GameState.ts:24-33 | assigning a record under its key replaces an existing record in place or appends a new one, and leaves every other record alone |
| ServerGameState.Without | server/src/game/GameState.ts:37 | deleting a key keeps exactly the records with other keys |
| ServerGameState.FirstFree | server/src/game/GameState.ts:21 | the free slot is the first slot angle not in use, and there is none exactly when every slot is used |
| ServerGameState.GameStateManager.constructor | server/src/game/GameState.ts:11-15 | a new manager has no players and no inputs, is in the lobby, and has `MAX_PLAYERS` evenly spaced slots |
| ServerGameState.GameStateManager.AddPlayer | server/src/game/GameState.ts:17-34 | with no free slot nothing changes; otherwise the new record goes under the socket id in the first free slot; keys and goals stay distinct |
| ServerGameState.GameStateManager.RemovePlayer | server/src/game/GameState.ts:36-39 | the player record and the buffered input of the socket are removed; the invariant is kept |
| ServerGameState.GameStateManager.SetInput | server/src/game/GameState.ts:41-43 | the socket's buffered input becomes the new one; players and phase are unchanged |
| ServerGameState.GameStateManager.SetPlayerName | server/src/game/GameState.ts:45-52 | succeeds exactly for a known socket with a name that is not blank, and then stores the trimmed name cut to 24 characters |
| ServerGameState.GameStateManager.SetPhase | server/src/game/GameState.ts:54-56 | the phase becomes the given one and nothing else changes |
| ServerGameState.GameStateManager.CanStartGame | server/src/game/GameState.ts:62-65 | true exactly when two different players have a name that is not blank |
| ServerGameState.GameStateManager.GetHostId | server/src/game/GameState.ts:67-70 | the host is the first named player in join order, and there is none exactly when nobody is named |
| ServerGameState.GameStateManager.IsHost | server/src/game/GameState.ts:72-74 | a socket is host only when it is a named player, and the first named player always is |
| ServerGameState.GameStateManager.GetLobbyState | server/src/game/GameState.ts:76-85 | one entry per player in join order; joined exactly when named; an unnamed player shows the first six characters of the id; the host is a joined entry, and there is none exactly when nobody joined |
| ServerGameState.GameStateManager.ApplyInputs | server/src/game/GameState.ts:87-96 | every player is steered by its own buffered input and only its angle changes |
| ServerGameState.GameStateManager.GetState | server/src/game/GameState.ts:98-105 | the snapshot carries the current players and phase with the given ball and tick |
| ServerGameState.PutKeepsValid | server/src/game/GameState.ts:17-34 | adding a player in a free slot keeps keys distinct, goals distinct and every goal on a slot |
| ServerGameState.WithoutKeepsValid | server/src/game/GameState.ts:36-39 | removing a player keeps keys distinct, goals distinct and every goal on a slot |
| ServerGameState.AtMostOnePerSlot | server/src/game/GameState.ts:17-22 | players with distinct goals on slot angles are never more than the slots |
| ServerGameState.ServerHoldsAtMostMaxPlayers | server/src/game/GameState.ts:13-22 | the server never holds more than `MAX_PLAYERS` players |
| ServerGameState.AddPlayerFacts | server/src/game/GameState.ts:17-34 | the server is full exactly when every slot is some player's goal; otherwise the socket gets a fresh record in a slot nobody else uses, with no name, `STARTING_LIVES`, no score, connected, and keeps its place if it was present |
| ServerGameState.RemoveFacts | server/src/game/GameState.ts:36-39 | removal forgets the socket's record and input and keeps every other record and input |
| ServerGameState.NameSetJoins | server/src/game/GameState.ts:45-52 | after a successful rename the player counts as named, with a name of at most 24 characters that starts the trimmed name |
| ServerGameState.TwoNamed | server/src/game/GameState.ts:62-65 | at least two named entries exactly when two different players are named |
| ServerGameState.HostIsFirstNamed | server/src/game/GameState.ts:67-70 | the host is the first named player, and there is none exactly when nobody is named |
| ServerGameState.HostMigratesOnRemoval | server/src/game/GameState.ts:67-70 | when the host leaves, the next named player in join order becomes host, or nobody |
| ServerGameState.SteerFacts | server/src/game/GameState.ts:87-96 | only the angle changes; no input or both keys keep it, left alone turns by `-ORBIT_SPEED * ORBIT_ACCEL`, right alone by `+ORBIT_SPEED * ORBIT_ACCEL` |
| ServerGameState.LobbyFallbackName | server/src/game/GameState.ts:80 | an unnamed socket `socket_abcdef1234` is listed as `socket` and not joined |
| BaseRoom.Find | server/src/rooms/BaseGameRoom.ts:22 | the record found has the session id, and none is found only when no record has it |
| BaseRoom.PutFacts | server/src/rooms/BaseGameRoom.ts:63 | storing a record keeps session ids distinct, makes it the session's record, keeps every other record and adds one entry only for a new session |
| BaseRoom.RemoveFacts | server/src/rooms/BaseGameRoom.ts:84 | deleting a session removes exactly its record, keeps the others and keeps session ids distinct |
| BaseRoom.SanitizedNameFacts | server/src/rooms/BaseGameRoom.ts:39-40 | the sanitised name is empty exactly when none was sent or it is blank; otherwise it starts the trimmed name, is at most 16 characters and starts with a visible character |
| BaseRoom.JoinNameFacts | server/src/rooms/BaseGameRoom.ts:60 | a non-empty requested name is kept; otherwise the name is `Player ` followed by the decimal digits of the join index plus one |
| BaseRoom.AllReady | server/src/rooms/BaseGameRoom.ts:97-100 | true exactly when every player is ready |
| BaseRoom.CollectAlive | server/src/rooms/BaseGameRoom.ts:108-111 | collects the players not eliminated, in map order |
| BaseRoom.AliveMembers | server/src/rooms/BaseGameRoom.ts:108-111 | the collected players are exactly the records not eliminated |
| BaseRoom.OnlySurvivor | server/src/rooms/BaseGameRoom.ts:108-114 | with every other player eliminated, the one survivor is all that is collected |
| BaseRoom.TwoSurvivors | server/src/rooms/BaseGameRoom.ts:108-113 | two players still in the game means at least two are collected |
| BaseRoom.WinCheckWithTwoLeft | server/src/rooms/BaseGameRoom.ts:113 | while two players are still in the game the win check changes nothing |
| BaseRoom.WinCheckWithOneLeft | server/src/rooms/BaseGameRoom.ts:113-124 | with one player left the game ends, that player is the winner and `game_over` names them |
| BaseRoom.WinCheckWithNoneLeft | server/src/rooms/BaseGameRoom.ts:113-124 | with nobody left the game ends with winner id "" and name "Nobody" |
| BaseRoom.WinCheckKeepsPlayers | server/src/rooms/BaseGameRoom.ts:107-125 | the win check changes no player and not the ball, and the phase can only become `ended` |
| BaseRoom.ScoredFacts | server/src/rooms/ClassicGameRoom.ts:141-148 | a goal costs the scored player exactly one life, eliminates at zero, changes no other player and is announced before any `game_over` |
| BaseRoom.LeaveWhilePlaying | server/src/rooms/BaseGameRoom.ts:79-82 | a player leaving during play stays in place, eliminated with no lives, and the ball is untouched |
| BaseRoom.LeaveOutsidePlay | server/src/rooms/BaseGameRoom.ts:83-85 | a player leaving outside play is deleted and every other record is kept |
| BaseRoom.PickIndex | server/src/rooms/ClassicGameRoom.ts:101 | `floor(random * n)` for a draw in [0, 1) is an index below `n` |
| BaseRoom.AimAtFacts | server/src/rooms/ClassicGameRoom.ts:105-110 | aimed at any point but the centre the ball moves at `BALL_SPEED` straight towards it |
| BaseRoom.RandomLaunchSpeed | server/src/rooms/BaseGameRoom.ts:132-136 | a random launch always has speed `BALL_SPEED` |
| BaseRoom.BaseGameRoom.constructor | server/src/rooms/BaseGameRoom.ts:7-11 | a new room has no players, no clips, is waiting, with the ball at rest at the centre and room for `MAX_PLAYERS` |
| BaseRoom.BaseGameRoom.PaddleInputTarget | server/src/rooms/BaseGameRoom.ts:21-26 | input is handled exactly for a known player still in the game while the game is on |
| BaseRoom.BaseGameRoom.PlayerReady | server/src/rooms/BaseGameRoom.ts:28-34 | in the lobby a known player's ready flag flips and the game starts exactly when the ready check passes; otherwise nothing changes |
| BaseRoom.BaseGameRoom.SetName | server/src/rooms/BaseGameRoom.ts:36-41 | in the lobby a known player takes the sanitised name unless it is empty; otherwise nothing changes |
| BaseRoom.BaseGameRoom.AudioUploaded | server/src/rooms/BaseGameRoom.ts:43-46 | the sender's clip is remembered and `audio_ready` is broadcast; nothing else changes |
| BaseRoom.BaseGameRoom.OnJoin | server/src/rooms/BaseGameRoom.ts:55-70 | the mode's record for the join index and name is stored under the session id, and the newcomer is sent every known clip |
| BaseRoom.BaseGameRoom.OnLeave | server/src/rooms/BaseGameRoom.ts:72-86 | the room ends as the leave rule says: unknown sessions change nothing |
| BaseRoom.BaseGameRoom.OnDispose | server/src/rooms/BaseGameRoom.ts:88-91 | every clip stored under the room's id is dropped and nothing else |
| BaseRoom.BaseGameRoom.CheckAllReady | server/src/rooms/BaseGameRoom.ts:93-105 | the game starts exactly when there are at least `MIN_PLAYERS` players and all are ready |
| BaseRoom.BaseGameRoom.CheckWinCondition | server/src/rooms/BaseGameRoom.ts:107-125 | the room ends as the win check says |
| BaseRoom.BaseGameRoom.ResetBallToCenter | server/src/rooms/BaseGameRoom.ts:127-130 | the ball goes back to the centre, keeping its velocity |
| BaseRoom.BaseGameRoom.LaunchBallRandom | server/src/rooms/BaseGameRoom.ts:132-136 | the velocity becomes `BALL_SPEED` at angle `2π·random`; nothing else changes |
| ClassicRoom.Clamp01Facts | server/src/rooms/ClassicGameRoom.ts:45-47 | the stored paddle position lies in [0, 1] and is the sent one whenever that already does; below 0 gives 0, above 1 gives 1 |
| ClassicRoom.EdgeOwners | server/src/rooms/ClassicGameRoom.ts:155-160 | every side in the owner map is held by the recorded player, who exists |
| ClassicRoom.ResetAimsAtLivePlayer | server/src/rooms/ClassicGameRoom.ts:92-110 | with a live player left, the reset puts the ball at the centre aimed at the middle of some live player's side |
| ClassicRoom.ResetWithNobodyLeft | server/src/rooms/ClassicGameRoom.ts:111-113 | with nobody left, the reset launches the ball from the centre at `BALL_SPEED` |
| ClassicRoom.StillPaddleAddsNoSpin | server/src/rooms/ClassicGameRoom.ts:169-175 | a paddle with no recorded position, or one that has not moved since the last tick, adds no spin |
| ClassicRoom.RecordedPositionsAreCurrent | server/src/rooms/ClassicGameRoom.ts:87-89 | after the tick every player's recorded paddle position is its current one |
| ClassicRoom.Score | server/src/rooms/ClassicGameRoom.ts:141-150 | a goal and the ball reset change only lives and elimination of the players |
| ClassicRoom.VisitEdge | server/src/rooms/ClassicGameRoom.ts:120-152 | testing one side changes only lives and elimination of the players |
| ClassicRoom.WalkEdges | server/src/rooms/ClassicGameRoom.ts:120-152 | the walk over the sides changes only lives and elimination of the players |
| ClassicRoom.VisitEdgeOutcome | server/src/rooms/ClassicGameRoom.ts:120-152 | a side that does not end the walk leaves the players unchanged; one that ends it is a goal against its live owner |
| ClassicRoom.WalkScoresAtMostOnce | server/src/rooms/ClassicGameRoom.ts:120-152 | a walk scores on at most one player, who loses exactly one life and is eliminated at zero |
| ClassicRoom.VisitUsesCapturedPosition | server/src/rooms/ClassicGameRoom.ts:118-152 | one side's test gives the same verdict and the same outcome, up to the ball's position, for states that differ only in where the ball is |
| ClassicRoom.WalkUsesCapturedPosition | server/src/rooms/ClassicGameRoom.ts:118-152 | every side is tested against the position captured before the walk: walks from balls at different places with the same velocity end alike but for the position |
| ClassicRoom.TickScoresAtMostOnce | server/src/rooms/ClassicGameRoom.ts:74-90 | a tick scores on at most one player, by exactly one life |
| ClassicRoom.LeaveKeepsSeats | server/src/rooms/BaseGameRoom.ts:79-82 | leaving during play only eliminates, so every side a player holds still exists |
| ClassicRoom.ClassicGameRoom.constructor | server/src/rooms/ClassicGameRoom.ts:20-29 | a new classic room is empty and waiting, in mode `classic`, with no sides, radius 350 and no recorded positions |
| ClassicRoom.ClassicGameRoom.OnJoin | server/src/rooms/ClassicGameRoom.ts:35-43 | the newcomer gets `DEFAULT_LIVES`, the paddle in the middle and the join index as colour, stored under the session id |
| ClassicRoom.ClassicGameRoom.OnLeave | server/src/rooms/BaseGameRoom.ts:72-86 | the room ends as the leave rule says, and during play every player's side still exists |
| ClassicRoom.ClassicGameRoom.SetName | server/src/rooms/BaseGameRoom.ts:36-41 | only in the lobby a known player takes the sanitised name unless it is empty |
| ClassicRoom.ClassicGameRoom.PaddleInput | server/src/rooms/ClassicGameRoom.ts:45-47 | during play a live player's paddle takes the sent position clamped to [0, 1]; otherwise nothing changes |
| ClassicRoom.ClassicGameRoom.PlayerReady | server/src/rooms/BaseGameRoom.ts:28-34 | a game starts only from the lobby and only with at least `MIN_PLAYERS` players; outside the lobby nothing changes |
| ClassicRoom.ClassicGameRoom.AssignEdges | server/src/rooms/ClassicGameRoom.ts:62-66 | the k-th player in map order takes side `edgeAssignments[k]` and nothing else changes |
| ClassicRoom.ClassicGameRoom.StartGame | server/src/rooms/ClassicGameRoom.ts:54-72 | the game is on with the configured number of sides forming a closed polygon, each player on its assigned side, and the ball reset |
| ClassicRoom.ClassicGameRoom.ResetBall | server/src/rooms/ClassicGameRoom.ts:92-114 | the ball becomes the reset value and nothing else changes |
| ClassicRoom.ClassicGameRoom.BuildPlayersByEdge | server/src/rooms/ClassicGameRoom.ts:155-160 | the side map becomes the owner map of the current players |
| ClassicRoom.ClassicGameRoom.TestEdge | server/src/rooms/ClassicGameRoom.ts:121-151 | one pass of the side loop does what the side test says and reports whether it scored |
| ClassicRoom.ClassicGameRoom.ScoreGoal | server/src/rooms/ClassicGameRoom.ts:141-150 | the goal branch does what the goal rule says: one life less, elimination and win check at zero, ball reset |
| ClassicRoom.ClassicGameRoom.CheckCollisions | server/src/rooms/ClassicGameRoom.ts:116-153 | the room ends as the walk over the sides from the captured ball position says |
| ClassicRoom.ClassicGameRoom.RecordPaddlePositions | server/src/rooms/ClassicGameRoom.ts:87-89 | every player's paddle position is recorded for the next tick |
| ClassicRoom.ClassicGameRoom.GameLoop | server/src/rooms/ClassicGameRoom.ts:74-90 | the room ends as the tick says: nothing outside play, otherwise move, walk the sides, reset a ball beyond 1.5 radii, record paddle positions |
| GoalsRoom.SteerFacts | server/src/rooms/GoalsGameRoom.ts:140-143 | no key or both keys hold the paddle still; one key turns it `GOALS_ORBIT_SPEED * GOALS_ORBIT_ACCEL` that way, never more than 0.09 radians |
| GoalsRoom.SteerAll | server/src/rooms/GoalsGameRoom.ts:134-145 | every player in map order is steered by its own stored input |
| GoalsRoom.SteerAllFacts | server/src/rooms/GoalsGameRoom.ts:134-145 | steering changes only paddle angles, by at most 0.09 radians, and never for an eliminated player or one with no input |
| GoalsRoom.GoalOnRing | server/src/rooms/GoalsGameRoom.ts:98-99 | every goal lies on the goal ring, `GOALS_GOAL_RING_RADIUS` from the centre |
| GoalsRoom.ResetAimsAtLiveGoal | server/src/rooms/GoalsGameRoom.ts:147-161 | with a live player left, the reset puts the ball at the centre aimed at some live player's goal at `BALL_SPEED` |
| GoalsRoom.ResetWithNobodyLeft | server/src/rooms/GoalsGameRoom.ts:162-164 | with nobody left, the reset launches the ball from the centre at `BALL_SPEED` |
| GoalsRoom.VisitPlayer | server/src/rooms/GoalsGameRoom.ts:95-123 | testing one player keeps the number of players |
| GoalsRoom.CentreOutOfReach | server/src/rooms/GoalsGameRoom.ts:98-108 | a ball at the centre can neither be saved by a paddle nor score in any goal |
| GoalsRoom.WalkFromCentre | server/src/rooms/GoalsGameRoom.ts:95-123 | once the ball is back at the centre the rest of the walk changes nothing |
| GoalsRoom.VisitOutcome | server/src/rooms/GoalsGameRoom.ts:95-123 | testing a player either leaves every player alone or is a goal against that live player, which puts the ball back at the centre |
| GoalsRoom.WalkScoresAtMostOnce | server/src/rooms/GoalsGameRoom.ts:95-123 | although the walk goes on after a goal, at most one player is scored on, by exactly one life |
| GoalsRoom.TickFacts | server/src/rooms/GoalsGameRoom.ts:78-132 | a tick scores on at most one player and leaves the ball no faster than `GOALS_MAX_BALL_SPEED` |
| GoalsRoom.GoalsGameRoom.constructor | server/src/rooms/GoalsGameRoom.ts:52-59 | a new goals room is empty and waiting, in mode `goals`, with the goals arena's radii and no inputs |
| GoalsRoom.GoalsGameRoom.OnJoin | server/src/rooms/GoalsGameRoom.ts:34-41 | the newcomer gets `GOALS_LIVES` and the join index as colour, stored under the session id |
| GoalsRoom.GoalsGameRoom.PaddleInput | server/src/rooms/GoalsGameRoom.ts:43-50 | during play a live player's well-formed keys replace its stored input; otherwise nothing changes |
| GoalsRoom.GoalsGameRoom.PlayerReady | server/src/rooms/BaseGameRoom.ts:28-34 | a game starts only from the lobby and only with at least `MIN_PLAYERS` players; outside the lobby nothing changes |
| GoalsRoom.GoalsGameRoom.StartGame | server/src/rooms/GoalsGameRoom.ts:61-76 | the game is on, the k-th player's goal and paddle both sit at slot angle k, and the ball is reset |
| GoalsRoom.GoalsGameRoom.ResetBall | server/src/rooms/GoalsGameRoom.ts:147-165 | the ball becomes the reset value and nothing else changes |
| GoalsRoom.GoalsGameRoom.ApplyInputs | server/src/rooms/GoalsGameRoom.ts:134-145 | the players become the steered players and nothing else changes |
| GoalsRoom.GoalsGameRoom.CheckPlayer | server/src/rooms/GoalsGameRoom.ts:95-123 | one pass of the player loop does what the player test says to the room and the working ball |
| GoalsRoom.GoalsGameRoom.ScoreGoal | server/src/rooms/GoalsGameRoom.ts:109-116 | the goal branch does what the goal rule says: one life less, elimination and win check at zero, ball reset |
| GoalsRoom.GoalsGameRoom.GameLoop | server/src/rooms/GoalsGameRoom.ts:78-132 | the room ends as the tick says: nothing outside play, otherwise steer, move, bounce off the wall, walk the players, cap the speed |
| SingleClassRoom.NewPlayer | server/src/rooms/GameRoom.ts:66-75 | the joiner's record has the session id, the requested name or `Player n`, the join index as colour, `DEFAULT_LIVES`, the paddle in the middle, not ready and not eliminated |
| SingleClassRoom.AssignedSeatsApart | server/src/rooms/GameRoom.ts:118-129 | the arena's assignment puts every player on an existing side of its own, keeping session ids distinct |
| SingleClassRoom.GameRoom.constructor | server/src/rooms/GameRoom.ts:25-36 | a new room is empty and waiting, with the ball at rest at the centre, room for `MAX_PLAYERS`, no sides and no clips |
| SingleClassRoom.GameRoom.PaddleInput | server/src/rooms/GameRoom.ts:39-44 | during play a live player's paddle takes the sent position clamped to [0, 1]; otherwise nothing changes |
| SingleClassRoom.GameRoom.PlayerReady | server/src/rooms/GameRoom.ts:46-52 | in the lobby a known player's ready flag flips and the game starts when the ready check passes; otherwise nothing changes |
| SingleClassRoom.GameRoom.AudioUploaded | server/src/rooms/GameRoom.ts:54-57 | the sender's clip is remembered and `audio_ready` is broadcast; nothing else changes |
| SingleClassRoom.GameRoom.OnJoin | server/src/rooms/GameRoom.ts:66-82 | the joiner's record is stored under its session id and the newcomer is sent every known clip |
| SingleClassRoom.GameRoom.OnLeave | server/src/rooms/GameRoom.ts:84-97 | the room ends as the leave rule says: eliminated with no lives during play, deleted otherwise |
| SingleClassRoom.GameRoom.OnDispose | server/src/rooms/GameRoom.ts:99-102 | every clip stored under the room's id is dropped and nothing else |
| SingleClassRoom.GameRoom.CheckAllReady | server/src/rooms/GameRoom.ts:104-115 | with at least `MIN_PLAYERS` players all ready the game starts; otherwise nothing changes |
| SingleClassRoom.GameRoom.AssignEdges | server/src/rooms/GameRoom.ts:125-129 | the k-th player in map order takes side `assignments[k]` and nothing else changes |
| SingleClassRoom.GameRoom.StartGame | server/src/rooms/GameRoom.ts:117-135 | the game is on with the configured closed polygon, each player on a side of its own, the ball reset, and nothing else changed |
| SingleClassRoom.GameRoom.GameLoop | server/src/rooms/GameRoom.ts:137-153 | the room ends as the classic tick says and the paddle positions are recorded |
| SingleClassRoom.GameRoom.RecordPaddlePositions | server/src/rooms/GameRoom.ts:150-152 | every player's paddle position is recorded and nothing else changes |
| SingleClassRoom.GameRoom.ResetBall | server/src/rooms/GameRoom.ts:155-180 | the ball becomes the reset value and nothing else changes |
| SingleClassRoom.GameRoom.CheckCollisions | server/src/rooms/GameRoom.ts:182-219 | the room ends as the walk over the sides from the captured ball position says |
| SingleClassRoom.GameRoom.BuildPlayersByEdge | server/src/rooms/GameRoom.ts:221-226 | the side map becomes the owner map of the current players and nothing else changes |
| SingleClassRoom.GameRoom.TestEdge | server/src/rooms/GameRoom.ts:187-217 | one pass of the side loop does what the side test says and reports whether it scored |
| SingleClassRoom.GameRoom.ReflectBall | server/src/rooms/GameRoom.ts:228-233 | the velocity is reflected and capped at `MAX_BALL_SPEED`; the position stays |
| SingleClassRoom.GameRoom.ApplyPaddleSpin | server/src/rooms/GameRoom.ts:235-245 | the paddle's movement adds spin, capped at `MAX_BALL_SPEED`; the position stays |
| SingleClassRoom.GameRoom.PushBallIn | server/src/rooms/GameRoom.ts:247-250 | the ball moves two units against the side's outward normal; the velocity stays |
| SingleClassRoom.GameRoom.ScoreGoal | server/src/rooms/GameRoom.ts:207-216 | the goal branch does what the goal rule says: one life less, elimination and win check at zero, ball reset |
| SingleClassRoom.GameRoom.CheckWinCondition | server/src/rooms/GameRoom.ts:252-270 | the room ends as the win check says and nothing else changes |
| SingleClassRoom.GameRoom.EndGame | server/src/rooms/GameRoom.ts:258-269 | the game ends naming the last player alive, or "" and "Nobody", and `game_over` is broadcast |
| LocalMatch.LastAlive | client/src/game/classic/ClassicGame.ts:253-260 | the remembered survivor, if any, is a player not eliminated |
| LocalMatch.LastAliveFacts | client/src/game/classic/ClassicGame.ts:253-260 | a survivor is remembered exactly when someone is alive, it is the last one in order, and when only one survives everybody else is out |
| LocalMatch.TwoAliveCounted | client/src/game/classic/ClassicGame.ts:253-261 | two players not eliminated mean the match goes on |
| LocalMatch.WinnerNameFacts | client/src/game/classic/ClassicGame.ts:270 | the name reported is the sole survivor's, or "Nobody" when nobody survives |
| LocalMatch.CountSurvivors | client/src/game/classic/ClassicGame.ts:253-260 | the loop counts the players not eliminated and remembers the last one |
| LocalMatch.HitFacts | client/src/game/classic/ClassicGame.ts:211-214 | a goal costs the player exactly one life, eliminates exactly on the last life, and lowers the survivor count by one exactly then |
| LocalMatch.Moved | client/src/game/classic/ClassicPaddle.ts:30-35 | the paddle slides along its side, clamped, and the step taken becomes its velocity; nothing else changes |
| LocalMatch.SteeredFacts | client/src/game/classic/ClassicGame.ts:131-136 | keys move only the local player's paddle and keep it on its side; an eliminated player or no direction key changes nothing |
| LocalMatch.ClampGoal | client/src/game/classic/ClassicGame.ts:175 | the bot's goal lies in [0.05, 0.95], and a goal already inside stays as it is |
| LocalMatch.AIMove | client/src/game/classic/ClassicGame.ts:175-181 | the bot holds still exactly inside the 0.005 dead band; otherwise, for a non-negative speed, it steps towards the clamped goal by at most its speed and never past it |
| LocalMatch.BallLevel | client/src/game/classic/ClassicGame.ts:145-152 | the ball's level along the side lies in [0, 1] |
| LocalMatch.Roam | client/src/game/classic/ClassicGame.ts:167-172 | the roam timer counts down and, once it runs out, a new target in [0.25, 0.75) and a new timer of 40 to 119 ticks are drawn |
| LocalMatch.BotTurn | client/src/game/classic/ClassicGame.ts:138-183 | a bot's turn changes only its paddle and roaming (name, lives, elimination and side stay, and it keeps its bot), and leaves the local player and eliminated players alone |
| LocalMatch.BotTurnFacts | client/src/game/classic/ClassicGame.ts:138-183 | a bot's turn moves its paddle, clamped to its side, by at most the bot's speed |
| LocalMatch.SlideStepBound | client/src/game/classic/ClassicPaddle.ts:30-35 | a clamped step is never longer than the step asked for |
| LocalMatch.Reservoir | client/src/game/classic/ClassicGame.ts:239-245 | the player picked is one not eliminated |
| LocalMatch.ReservoirPicksWhenAlive | client/src/game/classic/ClassicGame.ts:239-249 | for draws in [0, 1) somebody is picked exactly when somebody is alive |
| LocalMatch.PickTarget | client/src/game/classic/ClassicGame.ts:239-245 | the loop's pick is the reservoir pick over all players |
| LocalClassicGame.LaunchedFacts | client/src/game/classic/ClassicGame.ts:238-250 | a launch changes only the ball; with somebody alive the ball starts at the centre aimed at the middle of a live player's side at `BALL_SPEED`; with nobody alive it keeps going |
| LocalClassicGame.Score | client/src/game/classic/ClassicGame.ts:210-228 | a goal marks the HUD; against a live defender it costs the live defender exactly one life and touches nobody else; the local player's last life stops the game with a `null` report and no new ball; a bot's last life leaving at most one survivor stops it with the survivor's name |
| LocalClassicGame.VisitEdge | client/src/game/classic/ClassicGame.ts:189-230 | testing one side keeps every player on their side |
| LocalClassicGame.Walk | client/src/game/classic/ClassicGame.ts:185-231 | the walk over the sides keeps every player on their side |
| LocalClassicGame.VisitEdgeOutcome | client/src/game/classic/ClassicGame.ts:189-230 | a side that does not end the walk leaves players, running flag and reports alone; one that does is a goal against its live defender |
| LocalClassicGame.WalkLosesAtMostOneLife | client/src/game/classic/ClassicGame.ts:185-231 | one walk costs at most one live player exactly one life and nobody else anything |
| LocalClassicGame.ScoreIgnoresPosition | client/src/game/classic/ClassicGame.ts:210-228 | a goal's outcome does not depend on where the ball is |
| LocalClassicGame.VisitUsesCapturedPosition | client/src/game/classic/ClassicGame.ts:186-202 | one side's test gives the same verdict and the same outcome, up to the ball's position, for matches that differ only in where the ball is |
| LocalClassicGame.WalkUsesCapturedPosition | client/src/game/classic/ClassicGame.ts:186-202 | every side is tested against the position captured before the walk: walks of balls at different places with the same velocity agree on everything but the position |
| LocalClassicGame.TakeBotTurns | client/src/game/classic/ClassicGame.ts:138-183 | the loop gives every bot its turn and leaves the local player alone |
| LocalClassicGame.Steer | client/src/game/classic/ClassicGame.ts:112-113 | input and bots keep every player on their side |
| LocalClassicGame.Tick | client/src/game/classic/ClassicGame.ts:110-121 | after a tick the HUD is clean, and after the input and the bots have moved the tick costs at most one player exactly one life |
| LocalClassicGame.SeatPlayers | client/src/game/classic/ClassicGame.ts:68-90 | the k-th player is the local one or `Bot k`, with full lives, the paddle in the middle and the k-th assigned side, and each assigned side maps back to its defender |
| LocalClassicGame.BuildArena | client/src/game/classic/ClassicGame.ts:59 | the arena has the configured number of sides and they form a closed polygon |
| LocalClassicGame.InitialSeatsFit | client/src/game/classic/ClassicGame.ts:66-90 | the seats `init` hands out fit the arena it builds, and every side in the map is defended by the player sitting there |
| LocalClassicGame.ClassicGame.constructor | client/src/game/classic/ClassicGame.ts:48-102 | the game starts running with the configured closed polygon, the initial players, the side map and a first ball launched |
| LocalClassicGame.ClassicGame.KeyDown | client/src/game/classic/ClassicGame.ts:104 | the key is held and nothing else changes |
| LocalClassicGame.ClassicGame.KeyUp | client/src/game/classic/ClassicGame.ts:105 | the key is released and nothing else changes |
| LocalClassicGame.ClassicGame.GameLoop | client/src/game/classic/ClassicGame.ts:107-122 | a stopped game does nothing; otherwise the frame time accumulates and a tick runs, using up one frame, exactly when a whole frame has accumulated |
| LocalClassicGame.ClassicGame.RunTick | client/src/game/classic/ClassicGame.ts:111-120 | the game ends as one tick says and the setting is unchanged |
| LocalClassicGame.ClassicGame.HandleInput | client/src/game/classic/ClassicGame.ts:131-136 | only the local player is steered by the held keys |
| LocalClassicGame.ClassicGame.UpdateAI | client/src/game/classic/ClassicGame.ts:138-183 | every bot takes its turn and nothing else changes |
| LocalClassicGame.ClassicGame.CheckCollisions | client/src/game/classic/ClassicGame.ts:185-231 | the game ends as the walk over the sides from the entry position says |
| LocalClassicGame.ClassicGame.TestEdge | client/src/game/classic/ClassicGame.ts:190-229 | one pass of the side loop does what the side test says and reports whether it stopped |
| LocalClassicGame.ClassicGame.TestDefendedEdge | client/src/game/classic/ClassicGame.ts:201-229 | a live defender's side does what the side test says |
| LocalClassicGame.ClassicGame.ScoreGoal | client/src/game/classic/ClassicGame.ts:210-228 | the goal branch does what the goal rule says |
| LocalClassicGame.ClassicGame.CheckOutOfBounds | client/src/game/classic/ClassicGame.ts:124-129 | a ball more than 1.5 radii out is relaunched; otherwise nothing changes |
| LocalClassicGame.ClassicGame.LaunchBall | client/src/game/classic/ClassicGame.ts:238-250 | the ball becomes the launch value and nothing else changes |
| LocalClassicGame.ClassicGame.CheckWinCondition | client/src/game/classic/ClassicGame.ts:252-272 | with at most one player left the game stops and reports the survivor's name or "Nobody"; otherwise nothing changes |
| LocalGame.NearLineSegment | client/src/game/Game.ts:211-222 | a degenerate segment is never near; otherwise the ball is near iff some point of the segment is within the hit distance |
| LocalGame.PassedThroughEdge | client/src/game/Game.ts:224-234 | a ball no more than a radius beyond the side's line has not passed; one that has passed is level with the side, extended by a radius at each end |
| LocalGame.Goal | client/src/game/Game.ts:197-206 | a goal costs its live victim exactly one life and nobody else anything, marks the HUD, and stops the game reporting the survivor or "Nobody" exactly when the last life leaves at most one player |
| LocalGame.GoalRelaunches | client/src/game/Game.ts:205 | after a goal, while anyone is left, the new ball is aimed at a live player's side |
| LocalGame.VisitSideOutcome | client/src/game/Game.ts:176-208 | a side that does not end the walk leaves the players alone; one that ends it is a goal against its live defender |
| LocalGame.WalkLosesAtMostOneLife | client/src/game/Game.ts:175-209 | one pass over the sides costs at most one player at most one life |
| LocalGame.WallPushMovesTheBall | client/src/game/Game.ts:180-186 | an undefended side the ball reaches reflects it and pushes it in before the next side is tested |
| LocalGame.WalkAsWrittenThrowsAtDefendedSide | client/src/game/Game.ts:189 | as written, the pass throws once it reaches a side with a live defender, since `getEndpoints` does not exist on the paddle |
| LocalGame.AsWrittenWalkThrowsWhileAnyoneIsIn | client/src/game/Game.ts:175-209 | as written, every frame's pass throws while anyone is still in the game |
| LocalGame.VisitSideAsWritten | client/src/game/Game.ts:177-207 | as written, a side throws exactly when it has a live defender; an undefended side is tested as in the corrected side test, never ends the pass and leaves the players alone |
| LocalGame.WalkAsWritten | client/src/game/Game.ts:175-209 | as written, a pass that does not throw agrees with the corrected pass and leaves every player as they were |
| LocalGame.Steer | client/src/game/Game.ts:119-173 | input and the bots move paddles only: every seat keeps its side, lives and elimination |
| LocalGame.FrameLosesAtMostOneLife | client/src/game/Game.ts:99-110 | a whole frame costs at most one player at most one life |
| LocalGame.ArenaRadius | client/src/game/Game.ts:51-54 | the radius is the smallest of the default and 38% of either screen dimension |
| LocalGame.InitialOwnsOwnSide | client/src/game/Game.ts:65-86 | every seat `init` hands out is recorded in the side map as defended by its own player |
| LocalGame.Game.constructor | client/src/game/Game.ts:43-94 | the arena for the player count, each player on its assigned side with full lives, the hit distance from the ball's radius, a first ball launched, the game running |
| LocalGame.Game.KeyDown | client/src/game/Game.ts:96 | the key joins the held keys; nothing else changes |
| LocalGame.Game.KeyUp | client/src/game/Game.ts:97 | the key leaves the held keys; nothing else changes |
| LocalGame.Game.GameLoop | client/src/game/Game.ts:99-110 | a stopped game does nothing; a running one plays exactly one frame |
| LocalGame.Game.RunFrame | client/src/game/Game.ts:101-109 | input, bots, ball, sides and bounds in that order |
| LocalGame.Game.SteerAndMove | client/src/game/Game.ts:101-103 | the paddles are steered against the ball before it moves, then the ball advances |
| LocalGame.Game.HandleInput | client/src/game/Game.ts:119-125 | the local player's paddle follows the keys unless that player is out |
| LocalGame.Game.UpdateAI | client/src/game/Game.ts:127-173 | each bot in seat order takes its turn against the ball as it was before it moves |
| LocalGame.Game.CheckCollisions | client/src/game/Game.ts:175-209 | the new state is the corrected pass over the sides from side 0 (paddle ends taken from `getPaddleEndpoints`) |
| LocalGame.Game.TestSide | client/src/game/Game.ts:177-207 | one side does what the side test says and keeps every seat's side |
| LocalGame.Game.TestDefendedSide | client/src/game/Game.ts:189-207 | a live defender's side does what the side test says |
| LocalGame.Game.PushBallIn | client/src/game/Game.ts:236-239 | the ball moves two units against the side's outward normal; its velocity and everything else stay |
| LocalGame.Game.ScoreGoal | client/src/game/Game.ts:197-206 | the goal branch does what the goal rule says |
| LocalGame.Game.CheckOutOfBounds | client/src/game/Game.ts:112-117 | a ball more than 1.5 radii out is relaunched; otherwise nothing changes |
| LocalGame.Game.LaunchBall | client/src/game/Game.ts:241-253 | the reservoir pick over the live players, then the ball aimed at the pick's side; the players stay |
| LocalGame.Game.CheckWinCondition | client/src/game/Game.ts:255-268 | with at most one player left the game stops and reports the survivor's name or "Nobody"; otherwise nothing changes |
| LocalGoalsGame.GoalPointOnRing | client/src/game/goals/GoalsGame.ts:186-187 | every goal centre lies on the goal ring, so never at the arena's centre |
| LocalGoalsGame.AliveIndices | client/src/game/goals/GoalsGame.ts:312 | exactly the live players' seats, in order, as many as there are live players |
| LocalGoalsGame.LaunchFacts | client/src/game/goals/GoalsGame.ts:311-322 | a launch adds one ball, at the centre and aimed at a live player's goal at the ball speed, only when somebody is alive; nothing else changes |
| LocalGoalsGame.Launch | client/src/game/goals/GoalsGame.ts:311-322 | a launch changes only the balls and keeps those there were; with nobody alive it changes nothing, otherwise it appends exactly one ball, at the centre |
| LocalGoalsGame.RemoveAt | client/src/game/goals/GoalsGame.ts:303-309 | the ball at the slot is taken out and the others keep their order |
| LocalGoalsGame.Conceded | client/src/game/goals/GoalsGame.ts:248-271 | a goal changes only the scoring ball, or splices it out and appends at most one new ball |
| LocalGoalsGame.Defend | client/src/game/goals/GoalsGame.ts:234-279 | testing a ball against the players changes only that ball, or splices it out and appends at most one |
| LocalGoalsGame.BallTurn | client/src/game/goals/GoalsGame.ts:224-280 | one ball's turn changes only that ball, or splices it out and appends at most one |
| LocalGoalsGame.ConcededFacts | client/src/game/goals/GoalsGame.ts:248-271 | a goal costs its live victim exactly one life; the local player's last life stops the game with a null report; any other goal removes the ball and relaunches while anyone is in; the win check stops the game exactly when at most one player is left |
| LocalGoalsGame.SweepStep | client/src/game/goals/GoalsGame.ts:224-280 | after a kept ball the sweep moves to the next slot; after a goal it stays at the same slot, where the next ball has slid |
| LocalGoalsGame.Sweep | client/src/game/goals/GoalsGame.ts:223-281 | the corrected sweep over `left` slots tests the first slot's ball first and at most `left` balls, exactly `left` unless the game was stopped, and a stop leaves the game not running |
| LocalGoalsGame.SweepOn | client/src/game/goals/GoalsGame.ts:224-280 | after one ball's turn the corrected sweep tests at most the remaining balls, all of them unless stopped; a stopping turn ends it on the spot with the game not running |
| LocalGoalsGame.SweepAsWritten | client/src/game/goals/GoalsGame.ts:223-281 | the as-written sweep from a slot past the end tests nothing and changes nothing; otherwise it tests the ball in that slot first and at most one ball per remaining slot, and a stop leaves the game not running |
| LocalGoalsGame.SweepAsWrittenOn | client/src/game/goals/GoalsGame.ts:224-280 | after one ball's turn the as-written sweep tests fewer balls than there were slots left, and a stop leaves the game not running |
| LocalGoalsGame.SweepTestsEachBallOnce | client/src/game/goals/GoalsGame.ts:223-281 | the corrected sweep tests exactly the balls in its slots at the start, each once and in order, or a prefix of them when the local player's elimination stops it |
| LocalGoalsGame.SweepAsWrittenKeepsEarlierSlots | client/src/game/goals/GoalsGame.ts:224 | the as-written sweep from a slot on never changes the slots before it |
| LocalGoalsGame.AsWrittenSkipsTheBallAfterAGoal | client/src/game/goals/GoalsGame.ts:224-281 | as written, after a goal the ball that slid into the scoring ball's slot is never tested that tick: no wall bounce, no paddle or goal test, no speed cap |
| LocalGoalsGame.SweepWears | client/src/game/goals/GoalsGame.ts:223-281 | a sweep only takes lives: every player keeps name, goal, paddle and orbit, nobody gains a life, and an eliminated player is untouched |
| LocalGoalsGame.Orbited | client/src/game/goals/GoalsGame.ts:162-179 | one direction key turns the paddle by the orbit speed times the acceleration that way, both or neither leave it; "w" and "s" move the orbit by the step within its bounds; nothing else changes |
| LocalGoalsGame.NearestIsFirstClosest | client/src/game/goals/GoalsGame.ts:189-200 | the ball picked is no farther than any other and nearer than every ball before it |
| LocalGoalsGame.Nearest | client/src/game/goals/GoalsGame.ts:189-200 | no ball is picked exactly when there are no balls; a pick is a valid slot |
| LocalGoalsGame.FindNearest | client/src/game/goals/GoalsGame.ts:189-200 | the scan returns the first nearest ball and its distance |
| LocalGoalsGame.GoalsRoam | client/src/game/goals/GoalsGame.ts:210-214 | the timer counts down; on running out the new target is within half a radian of the bot's goal and the timer is between 40 and 119 |
| LocalGoalsGame.Chased | client/src/game/goals/GoalsGame.ts:202-219 | a bot only turns its paddle: towards the nearest ball by 0.15 times the acceleration of the gap when one is within 60% of the arena's radius, otherwise 5% of the way to its roam target, ending between where it was and where it heads |
| LocalGoalsGame.BotsTurn | client/src/game/goals/GoalsGame.ts:181-221 | the local player is left alone and every later seat takes its bot turn against the balls as they are |
| LocalGoalsGame.Flown | client/src/game/goals/GoalsGame.ts:144-146 | every ball moves, none is added or removed |
| LocalGoalsGame.Tick | client/src/game/goals/GoalsGame.ts:142-152 | over a tick every player keeps name and goal, nobody gains a life, nobody eliminated comes back or moves, orbits stay in bounds, and the HUD is clean afterwards |
| LocalGoalsGame.SpawnTimerAfter | client/src/game/goals/GoalsGame.ts:154-158 | the timer goes to 0 exactly when it reaches the spawn interval, otherwise one more |
| LocalGoalsGame.SpawnEveryInterval | client/src/game/goals/GoalsGame.ts:154-158 | from 0, after n ticks the timer reads n modulo the interval, and a ball is spawned on exactly every interval-th tick |
| LocalGoalsGame.Spawned | client/src/game/goals/GoalsGame.ts:154-158 | the end of a tick changes only the balls, keeps those there were, and adds one exactly when the timer comes round to the interval and somebody is alive |
| LocalGoalsGame.InitialPlayers | client/src/game/goals/GoalsGame.ts:85-115 | as many players as asked, all counted alive, with full lives, the paddle facing its own goal at an orbit within bounds; the local player first, and only it without a bot |
| LocalGoalsGame.InitialPlayersFacts | client/src/game/goals/GoalsGame.ts:85-115 | the local player's goal is at angle 0 and the goals go round the ring at strictly increasing angles below a full turn |
| LocalGoalsGame.SeatPlayers | client/src/game/goals/GoalsGame.ts:87-115 | the loop seats exactly the initial players |
| LocalGoalsGame.AllAliveCounted | client/src/game/goals/GoalsGame.ts:312 | with nobody eliminated every player is counted alive |
| LocalGoalsGame.GoalsGame.constructor | client/src/game/goals/GoalsGame.ts:70-132 | the players on their slots, max(1, playerCount - 1) balls each aimed at a player's goal, and the game running |
| LocalGoalsGame.GoalsGame.LaunchInitialBalls | client/src/game/goals/GoalsGame.ts:121-124 | one ball per draw, each aimed at a player's goal; nothing else changes |
| LocalGoalsGame.LaunchAddsAimedBall | client/src/game/goals/GoalsGame.ts:121-124 | with somebody alive, a launch onto balls all aimed at goals appends one more such ball and changes nothing else |
| LocalGoalsGame.GoalsGame.KeyDown | client/src/game/goals/GoalsGame.ts:134 | the key joins the held keys; nothing else changes |
| LocalGoalsGame.GoalsGame.KeyUp | client/src/game/goals/GoalsGame.ts:135 | the key leaves the held keys; nothing else changes |
| LocalGoalsGame.GoalsGame.GameLoop | client/src/game/goals/GoalsGame.ts:137-160 | a stopped game does nothing; a running one gathers the frame's time and plays exactly one tick once a whole tick has gathered |
| LocalGoalsGame.GoalsGame.RunTick | client/src/game/goals/GoalsGame.ts:141-158 | one tick, then the spawn timer runs on and a ball is launched when it comes round |
| LocalGoalsGame.GoalsGame.PlayTick | client/src/game/goals/GoalsGame.ts:142-152 | input, bots, ball motion and the corrected sweep in that order |
| LocalGoalsGame.GoalsGame.HandleInput | client/src/game/goals/GoalsGame.ts:162-179 | the local player's paddle and orbit follow the keys unless that player is out |
| LocalGoalsGame.GoalsGame.UpdateAI | client/src/game/goals/GoalsGame.ts:181-221 | the bots take their turns in seat order |
| LocalGoalsGame.GoalsGame.ChaseOrRoam | client/src/game/goals/GoalsGame.ts:183-219 | one bot's turn, with the orbit left alone |
| LocalGoalsGame.GoalsGame.MoveBalls | client/src/game/goals/GoalsGame.ts:144-146 | every ball takes one step of its velocity; nothing else changes |
| LocalGoalsGame.GoalsGame.CheckCollisions | client/src/game/goals/GoalsGame.ts:223-281 | the new state is the corrected sweep over every ball there was at the start |
| LocalGoalsGame.GoalsGame.SweepOne | client/src/game/goals/GoalsGame.ts:224-280 | one step of the corrected sweep, keeping, removing or stopping as the ball's turn says |
| LocalGoalsGame.GoalsGame.TestBall | client/src/game/goals/GoalsGame.ts:225-279 | the ball bounces off the wall and is tested against the players in seat order, as the ball-turn rule says |
| LocalGoalsGame.GoalsGame.ConcedeGoal | client/src/game/goals/GoalsGame.ts:248-271 | the goal branch does what the goal rule says |
| LocalGoalsGame.GoalsGame.LoseLife | client/src/game/goals/GoalsGame.ts:249-256 | one life lost, eliminated at 0 lives, and the HUD marked; nothing else changes |
| LocalGoalsGame.GoalsGame.RemoveBall | client/src/game/goals/GoalsGame.ts:303-309 | the ball is taken out of its slot and the others keep their order |
| LocalGoalsGame.GoalsGame.LaunchBall | client/src/game/goals/GoalsGame.ts:311-322 | a new ball aimed at the goal of the live player the draw picks, if any |
| LocalGoalsGame.GoalsGame.CheckWinCondition | client/src/game/goals/GoalsGame.ts:324-344 | with at most one player left the game stops and reports the survivor's name or "Nobody"; otherwise nothing changes |
| LocalGame.VisitSide | client/src/game/Game.ts:177-207 | testing one side never changes which side any seat defends |
| LocalGame.Walk | client/src/game/Game.ts:175-209 | the pass over the sides never changes which side any seat defends |
| SingleClassRoom.GameRoom.SetUpArena | server/src/rooms/GameRoom.ts:117-129 | the phase becomes playing, the arena is the configured closed polygon, and every player gets the configured side, no two alike |

## Left out

- Drawing, the HUD text, audio, PixiJS containers and React pages are not modelled; the HUD is only the `hudDirty` flag.
- Networking is not modelled: Colyseus transport, `broadcast`, `setSimulationInterval`, `setTimeout`, the socket server loop and `console` output. Messages arrive as method calls.
- Timing is not modelled beyond the client's tick accumulator, which is modelled. The server's tick interval is not.
- Floating point is not modelled: numbers are reals, and there is no rounding, no overflow, and no NaN or Infinity. Where the source divides by a possibly-zero length and the comparison with NaN is false, the model returns that outcome (`ballNearSegment`, `ballPassedEdge`).
- `Math.sqrt`, `cos`, `sin`, `atan2` and `PI` are fields of `RealMath.Env` with a few axioms, so no coordinate is ever computed. Properties that need more of trigonometry (for example that the polygon's sides all have the same length) are not stated.
- Randomness is modelled as parameters: each `Math.random()` draw is an argument in `[0, 1)`. The model does not say how the draws are distributed.
- Keys are held as the lower-cased strings the handlers store. Keyboard events themselves are not modelled.
- Balls in the goals game are values in a sequence. `removeBall`'s `indexOf` is the slot of the ball being tested, which is the only ball it is ever called with.
- Ball and paddle sprites are values inside the game state. Paddle visibility is dropped with the drawing.
- `Geometry.ComputeEdges` requires `numSides != 1` and `radius != 0`. For one side, or radius 0, a side has length 0 and its normal divides by zero. `getArenaConfig` never produces one side, and the games always pass a positive radius.
- `Myrto.ComputeEdges` requires `numSides != 1` and `radius != 0`, for the same reason as `Geometry.ComputeEdges`: the source would build a side of length 0 and divide by zero, giving NaN normals.
- `SharedIndex.Reflect` requires a non-zero `normal`. The source divides by the normal's length and returns NaN coordinates for the zero vector.
- `GoalsSimulation.GoalsPhysicsStep` requires that the advanced ball is not at the exact centre of an arena no wider than the ball (`StepDefined`). That is the only case where the wall bounce divides 0 by 0. It cannot arise with the default sizes, where the arena is wider than the ball.
- `LocalGame.Game.constructor` and `LocalClassicGame.ClassicGame.constructor` require at least two players. With one player the arena has a single side of length 0, whose normal divides by zero, and with none every frame reads a local player who does not exist. `LocalGoalsGame.GoalsGame.constructor` requires at least one player, because every tick reads `players[0]`.
- The screen's width and height, from which client/src/game/Game.ts derives its radius, are parameters. The world's scale in the goals game is drawing only.
- A player who joins a classic room while a game is on gets side 0. This is modelled as the source has it.
- The `mmorpong` namespace of shared/src/index.ts (lines 30-103) holds colours, constants and message shapes, and repeats the slot angles of shared/src/goals-physics.ts, which model it. The top-level `normalize` (shared/src/index.ts:14-17) is not part of that namespace; it is modelled by `GoalsPhysics.Normalize`, and `SharedIndex.NormalizeScaleInvariant` states its property.
- The `myrto` duplicates of `getArenaConfig`, `computeVertices`, `getPaddleEndpoints`, `ballNearSegment`, `ballPassedEdge` and `clampSpeed` (shared/src/index.ts:138-227) are modelled once, by `Geometry.GetArenaConfig`, `Geometry.ComputeVertices`, `Physics.GetPaddleEndpoints`, `Physics.BallNearSegment`, `Physics.BallPassedEdge` and `Physics.ClampSpeed`, which have the same bodies. Only `computeEdges` gets its own model, `Myrto.ComputeEdges`.
- The server's `paddleAngleVelocity` is declared but never written by the shown rooms, so it is constant 0 and is not modelled.
- Server-side `server/src/game/Ball.ts`, `main.ts`, the schema classes and the online client games are not part of this model.
- `hasLobbyChanged`, `consumeLobbyChange` and the phase guards on `setPlayerName` that server/src/game/GameState.test.ts expects do not exist in server/src/game/GameState.ts, so they are not modelled.
- `Strings.Prefix`, `BaseRoom.SanitizedName` and `ServerGameState.GameStateManager.SetPlayerName` count characters as Unicode code points, while JavaScript's `slice` and `length` count UTF-16 code units. A name with characters outside the Basic Multilingual Plane (an emoji, say) is cut at a different place, and a cut that would leave a lone surrogate cannot be represented.
- `RealMath.Env`'s axioms are ghost predicates on a parameter. A real `Math` object satisfies them only up to rounding.

## Findings

| source | as written | input that shows it | evidently intended | confidence | as-written member | corrected member |
|---|---|---|---|---|---|---|
| client/src/game/Game.ts:189 | `checkCollisions` calls `player.paddle.getEndpoints()`, but the paddle class (client/src/game/Paddle.ts) only has `getPaddleEndpoints`, so the call throws a TypeError | any frame while at least one player is still in: the walk reaches that player's side and throws before any paddle or goal test | the paddle's endpoints from `getPaddleEndpoints()` | not executed | `LocalGame.WalkAsWritten`, `LocalGame.AsWrittenWalkThrowsWhileAnyoneIsIn` | `LocalGame.Walk`, `LocalGame.WalkLosesAtMostOneLife` |
| client/src/game/goals/GoalsGame.ts:224-271 | `checkCollisions` runs `for … of` over `this.balls` while a goal splices the scoring ball out (`removeBall`, lines 303-309) and `launchBall` pushes a new one | two balls, the first scoring: the second slides into slot 0 and the iterator moves to slot 1, the new ball; the second ball gets no wall bounce, paddle or goal test, and no speed cap that tick | every ball present at the start of the sweep is tested once | not executed | `LocalGoalsGame.SweepAsWritten`, `LocalGoalsGame.AsWrittenSkipsTheBallAfterAGoal` | `LocalGoalsGame.Sweep`, `LocalGoalsGame.SweepTestsEachBallOnce` |
