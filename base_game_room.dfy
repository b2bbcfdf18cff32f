/**
 * The match lifecycle every game room shares (server/src/rooms/BaseGameRoom.ts):
 * the `paddle_input`, `player_ready`, `set_name` and `audio_uploaded`
 * handlers, joining and leaving, disposal, the ready check, the win check and
 * the ball resets.
 *
 * The room's players live in a Colyseus map keyed by session id and iterated
 * in insertion order; they are a sequence of records with distinct session
 * ids here.  A room mode adds its own fields to the record (`Mode`), and the
 * two hooks the base class leaves abstract are supplied by the mode:
 * `createPlayer` is a function parameter of `OnJoin`, and `startGame` is run
 * by the mode when `PlayerReady` reports that the ready check passed.
 * `broadcast` appends to the `sent` log; `Math.random` is a parameter.
 */
module BaseRoom {
  import opened RealMath
  import opened Wrappers
  import opened Types
  import opened Strings
  import opened Constants
  import AudioStore

  datatype RoomPhase = Waiting | Playing | Ended

  /** The messages a room broadcasts. */
  datatype Broadcast =
    | AudioReady(sessionId: string)
    | PaddleHitBy(sessionId: string)
    | PlayerScored(scoredOnId: string)
    | GameOver(winnerId: string, winnerName: string)

  /** `BasePlayerSchema` with the mode's own fields in `mode`. */
  datatype RoomPlayer<Mode> = RoomPlayer(
    sessionId: string,
    name: string,
    lives: int,
    eliminated: bool,
    ready: bool,
    colorIndex: nat,
    mode: Mode)

  /**
   * What the handlers change: the players, the phase, the winner, the ball
   * (`state.ball` for the position, `ballVx`/`ballVy` for the velocity) and
   * the broadcast log.
   */
  datatype RoomState<Mode> = RoomState(
    players: seq<RoomPlayer<Mode>>,
    phase: RoomPhase,
    winnerId: string,
    winnerName: string,
    ball: BallState,
    sent: seq<Broadcast>)

  // ---------------------------------------------------------------------
  // The players map

  predicate DistinctSessions<Mode>(ps: seq<RoomPlayer<Mode>>) {
    forall i, j :: 0 <= i < j < |ps| ==> ps[i].sessionId != ps[j].sessionId
  }

  /** `players.get(id)`: where the record of session `id` sits, if there is one. */
  function Find<Mode>(ps: seq<RoomPlayer<Mode>>, id: string): (r: Option<nat>)
    ensures r.Some? ==> r.value < |ps| && ps[r.value].sessionId == id
    ensures r.None? ==> forall k :: 0 <= k < |ps| ==> ps[k].sessionId != id
  {
    if |ps| == 0 then None
    else if ps[0].sessionId == id then Some(0)
    else match Find(ps[1..], id)
      case Some(k) => Some(k + 1)
      case None => None
  }

  /** `players.set(p.sessionId, p)`: a known session keeps its place, a new one goes last. */
  function Put<Mode>(ps: seq<RoomPlayer<Mode>>, p: RoomPlayer<Mode>): seq<RoomPlayer<Mode>> {
    match Find(ps, p.sessionId)
    case Some(k) => ps[k := p]
    case None => ps + [p]
  }

  /** `players.delete(id)`. */
  function Remove<Mode>(ps: seq<RoomPlayer<Mode>>, id: string): seq<RoomPlayer<Mode>> {
    match Find(ps, id)
    case Some(k) => ps[..k] + ps[k + 1..]
    case None => ps
  }

  /** Storing a record replaces the session's old one in place or adds it at the end, and keeps the keys distinct. */
  lemma PutFacts<Mode>(ps: seq<RoomPlayer<Mode>>, p: RoomPlayer<Mode>)
    requires DistinctSessions(ps)
    ensures var r := Put(ps, p);
      && DistinctSessions(r)
      && Find(r, p.sessionId).Some? && r[Find(r, p.sessionId).value] == p
      && (forall k :: 0 <= k < |ps| && ps[k].sessionId != p.sessionId ==> r[k] == ps[k])
      && |r| == (if Find(ps, p.sessionId).Some? then |ps| else |ps| + 1)
  {
    var r := Put(ps, p);
    match Find(ps, p.sessionId)
    case Some(k) =>
      assert r[k] == p;
      FindUnique(r, p.sessionId, k);
    case None =>
      assert r[|ps|] == p;
      FindUnique(r, p.sessionId, |ps|);
  }

  /** With distinct keys, the record found for a session is the one with that id. */
  lemma FindUnique<Mode>(ps: seq<RoomPlayer<Mode>>, id: string, k: nat)
    requires DistinctSessions(ps) && k < |ps| && ps[k].sessionId == id
    ensures Find(ps, id) == Some(k)
  {
  }

  /** Deleting a session removes its record and keeps every other one, in order. */
  lemma RemoveFacts<Mode>(ps: seq<RoomPlayer<Mode>>, id: string)
    requires DistinctSessions(ps)
    ensures var r := Remove(ps, id);
      && DistinctSessions(r)
      && Find(r, id).None?
      && (forall p :: p in ps && p.sessionId != id <==> p in r)
      && |r| == (if Find(ps, id).Some? then |ps| - 1 else |ps|)
  {
    match Find(ps, id)
    case Some(k) => RemoveAt(ps, k);
    case None =>
  }

  /** Cutting out the record at `k`: the others close up, keeping their order. */
  lemma RemoveAt<Mode>(ps: seq<RoomPlayer<Mode>>, k: nat)
    requires DistinctSessions(ps) && k < |ps|
    ensures var r := ps[..k] + ps[k + 1..];
      && |r| == |ps| - 1
      && DistinctSessions(r)
      && (forall j :: 0 <= j < |r| ==> r[j].sessionId != ps[k].sessionId)
      && (forall p :: p in ps && p.sessionId != ps[k].sessionId <==> p in r)
  {
    var r := ps[..k] + ps[k + 1..];
    assert forall j :: 0 <= j < |r| ==> r[j] == ps[if j < k then j else j + 1];
    forall p | p in ps && p.sessionId != ps[k].sessionId
      ensures p in r
    {
      var j :| 0 <= j < |ps| && ps[j] == p;
      if j < k { assert r[j] == p; } else { assert r[j - 1] == p; }
    }
  }

  /** Changing a record but not its session id keeps the keys distinct. */
  lemma UpdateKeepsDistinct<Mode>(ps: seq<RoomPlayer<Mode>>, k: nat, p: RoomPlayer<Mode>)
    requires DistinctSessions(ps) && k < |ps| && p.sessionId == ps[k].sessionId
    ensures DistinctSessions(ps[k := p])
  {
  }

  // ---------------------------------------------------------------------
  // Names

  /**
   * `set_name`: a string name is trimmed and cut to 16 characters; anything
   * else counts as the empty name, which the handler ignores.
   */
  function SanitizedName(data: Option<string>): string {
    if data.Some? then Prefix(Trim(data.value), 16) else ""
  }

  /**
   * The name is empty exactly when none was sent or it is blank; otherwise
   * it is the start of the trimmed text, at most 16 characters long and
   * beginning with a non-whitespace character (it may end in whitespace when
   * the cut falls inside the name).
   */
  lemma SanitizedNameFacts(data: Option<string>)
    ensures var r := SanitizedName(data);
      && (r == [] <==> data.None? || IsBlank(data.value))
      && |r| <= 16
      && (data.Some? ==> r <= Trim(data.value))
      && (r != [] ==> !IsWhitespace(r[0]))
  {
    if data.Some? {
      var t := Trim(data.value);
      var _ := TrimFacts(data.value);
      var r := Prefix(t, 16);
      if t != [] {
        assert r[0] == t[0];
      }
    }
  }

  /** `options.name || `Player ${idx + 1}``: the requested name unless it is missing or empty. */
  function JoinName(requested: Option<string>, idx: nat): string {
    if requested.Some? && requested.value != "" then requested.value
    else "Player " + NatToString(idx + 1)
  }

  /** A non-empty requested name is kept; otherwise the player is "Player " and the decimal number `idx + 1`. */
  lemma JoinNameFacts(requested: Option<string>, idx: nat)
    ensures var r := JoinName(requested, idx);
      if requested.Some? && requested.value != "" then r == requested.value
      else
        && |r| > 7 && r[..7] == "Player "
        && (forall k :: 7 <= k < |r| ==> '0' <= r[k] <= '9')
        && ParseNat(r[7..]) == idx + 1
  {
    var digits := NatToString(idx + 1);
    NatToStringRoundTrip(idx + 1);
    var r := "Player " + digits;
    assert r[7..] == digits;
    assert forall k :: 7 <= k < |r| ==> r[k] == digits[k - 7];
  }

  // ---------------------------------------------------------------------
  // The ready check and the win check

  /** The ready check passes: at least `MIN_PLAYERS` players and every one ready. */
  predicate ShouldStart<Mode>(ps: seq<RoomPlayer<Mode>>) {
    |ps| >= MIN_PLAYERS && forall k :: 0 <= k < |ps| ==> ps[k].ready
  }

  /** The `forEach` in `checkAllReady`: whether every player is ready. */
  method AllReady<Mode>(ps: seq<RoomPlayer<Mode>>) returns (allReady: bool)
    ensures allReady <==> forall k :: 0 <= k < |ps| ==> ps[k].ready
  {
    allReady := true;
    for i := 0 to |ps|
      invariant allReady <==> forall k :: 0 <= k < i ==> ps[k].ready
    {
      if !ps[i].ready {
        allReady := false;
      }
    }
  }

  /** The players still in the game, in map order. */
  function Alive<Mode>(ps: seq<RoomPlayer<Mode>>): seq<RoomPlayer<Mode>> {
    if |ps| == 0 then []
    else Alive(ps[..|ps| - 1]) + (if ps[|ps| - 1].eliminated then [] else [ps[|ps| - 1]])
  }

  /** The `forEach` that pushes every player not eliminated onto `alivePlayers`. */
  method CollectAlive<Mode>(ps: seq<RoomPlayer<Mode>>) returns (alive: seq<RoomPlayer<Mode>>)
    ensures alive == Alive(ps)
  {
    alive := [];
    for i := 0 to |ps|
      invariant alive == Alive(ps[..i])
    {
      assert ps[..i + 1][..i] == ps[..i];
      if !ps[i].eliminated {
        alive := alive + [ps[i]];
      }
    }
    assert ps[..|ps|] == ps;
  }

  /** The players collected are exactly the records not eliminated. */
  lemma {:induction false} AliveMembers<Mode>(ps: seq<RoomPlayer<Mode>>)
    ensures |Alive(ps)| <= |ps|
    ensures forall p :: p in Alive(ps) <==> p in ps && !p.eliminated
  {
    if |ps| > 0 {
      var front := ps[..|ps| - 1];
      AliveMembers(front);
      assert ps == front + [ps[|ps| - 1]];
    }
  }

  /** Every collected player is a live player of the room. */
  lemma AliveAt<Mode>(ps: seq<RoomPlayer<Mode>>, i: nat)
    requires i < |Alive(ps)|
    ensures Alive(ps)[i] in ps && !Alive(ps)[i].eliminated
  {
    AliveMembers(ps);
    assert Alive(ps)[i] in Alive(ps);
  }

  /** One live player is enough for something to be collected. */
  lemma SomeAlive<Mode>(ps: seq<RoomPlayer<Mode>>, j: nat)
    requires j < |ps| && !ps[j].eliminated
    ensures |Alive(ps)| > 0
  {
    AliveMembers(ps);
    assert ps[j] in Alive(ps);
  }

  /** With every other player eliminated, the one survivor is all that is collected. */
  lemma {:induction false} OnlySurvivor<Mode>(ps: seq<RoomPlayer<Mode>>, k: nat)
    requires k < |ps| && !ps[k].eliminated
    requires forall j :: 0 <= j < |ps| && j != k ==> ps[j].eliminated
    ensures Alive(ps) == [ps[k]]
  {
    var front := ps[..|ps| - 1];
    if k < |ps| - 1 {
      OnlySurvivor(front, k);
    } else {
      NoSurvivor(front);
    }
  }

  /** With every player eliminated, nobody is collected. */
  lemma {:induction false} NoSurvivor<Mode>(ps: seq<RoomPlayer<Mode>>)
    requires forall j :: 0 <= j < |ps| ==> ps[j].eliminated
    ensures Alive(ps) == []
  {
    if |ps| > 0 {
      NoSurvivor(ps[..|ps| - 1]);
    }
  }

  /** Two players still in the game means at least two are collected. */
  lemma {:induction false} TwoSurvivors<Mode>(ps: seq<RoomPlayer<Mode>>, i: nat, j: nat)
    requires i < j < |ps| && !ps[i].eliminated && !ps[j].eliminated
    ensures |Alive(ps)| >= 2
  {
    var front := ps[..|ps| - 1];
    if j < |ps| - 1 {
      TwoSurvivors(front, i, j);
    } else {
      assert front[i] == ps[i];
      AliveMembers(front);
      assert ps[i] in Alive(front);
    }
  }

  /** `checkWinCondition`: at most one player left ends the game, naming the survivor or "Nobody". */
  function WinCheck<Mode>(s: RoomState<Mode>): RoomState<Mode> {
    var alive := Alive(s.players);
    if |alive| <= 1 then
      var id := if |alive| == 1 then alive[0].sessionId else "";
      var name := if |alive| == 1 then alive[0].name else "Nobody";
      s.(phase := Ended, winnerId := id, winnerName := name, sent := s.sent + [GameOver(id, name)])
    else s
  }

  /** While two players are still in the game the win check changes nothing. */
  lemma WinCheckWithTwoLeft<Mode>(s: RoomState<Mode>, i: nat, j: nat)
    requires i < j < |s.players| && !s.players[i].eliminated && !s.players[j].eliminated
    ensures WinCheck(s) == s
  {
    TwoSurvivors(s.players, i, j);
  }

  /** With one player left, the game ends and that player wins. */
  lemma WinCheckWithOneLeft<Mode>(s: RoomState<Mode>, k: nat)
    requires k < |s.players| && !s.players[k].eliminated
    requires forall j :: 0 <= j < |s.players| && j != k ==> s.players[j].eliminated
    ensures var p := s.players[k];
      WinCheck(s) == s.(phase := Ended, winnerId := p.sessionId, winnerName := p.name,
                        sent := s.sent + [GameOver(p.sessionId, p.name)])
  {
    OnlySurvivor(s.players, k);
  }

  /** With nobody left, the game ends with no winner: id "" and name "Nobody". */
  lemma WinCheckWithNoneLeft<Mode>(s: RoomState<Mode>)
    requires forall j :: 0 <= j < |s.players| ==> s.players[j].eliminated
    ensures WinCheck(s) == s.(phase := Ended, winnerId := "", winnerName := "Nobody",
                              sent := s.sent + [GameOver("", "Nobody")])
  {
    NoSurvivor(s.players);
  }

  /** The win check touches only the phase, the winner and the log. */
  lemma WinCheckKeepsPlayers<Mode>(s: RoomState<Mode>)
    ensures WinCheck(s).players == s.players && WinCheck(s).ball == s.ball
    ensures WinCheck(s).phase == s.phase || WinCheck(s).phase == Ended
  {
  }

  // ---------------------------------------------------------------------
  // Goals

  /**
   * A goal against player `k`, before the ball is reset: one life less and a
   * `player_scored` broadcast; at no lives left the player is eliminated and
   * the win check runs.
   */
  function Scored<Mode>(s: RoomState<Mode>, k: nat): RoomState<Mode>
    requires k < |s.players|
  {
    var p := s.players[k];
    var lost := p.(lives := p.lives - 1);
    var scored := s.(players := s.players[k := lost], sent := s.sent + [PlayerScored(p.sessionId)]);
    if lost.lives <= 0 then WinCheck(scored.(players := scored.players[k := lost.(eliminated := true)])) else scored
  }

  /**
   * A goal costs the scored player exactly one life, eliminates at zero,
   * changes no other player, and is announced before any `game_over`.
   */
  lemma ScoredFacts<Mode>(s: RoomState<Mode>, k: nat)
    requires k < |s.players|
    ensures var p := s.players[k];
      Scored(s, k).players == s.players[k := p.(lives := p.lives - 1, eliminated := p.eliminated || p.lives - 1 <= 0)]
    ensures |Scored(s, k).sent| > |s.sent| && Scored(s, k).sent[..|s.sent| + 1] == s.sent + [PlayerScored(s.players[k].sessionId)]
    ensures Scored(s, k).phase == s.phase || Scored(s, k).phase == Ended
  {
    var p := s.players[k];
    var lost := p.(lives := p.lives - 1);
    var scored := s.(players := s.players[k := lost], sent := s.sent + [PlayerScored(p.sessionId)]);
    WinCheckKeepsPlayers(scored.(players := scored.players[k := lost.(eliminated := true)]));
  }

  /** At most one player was scored on, losing exactly one life and being eliminated at zero. */
  ghost predicate AtMostOneScored<Mode>(before: seq<RoomPlayer<Mode>>, after: seq<RoomPlayer<Mode>>) {
    && |before| == |after|
    && (forall k :: 0 <= k < |before| ==>
          after[k] == before[k] || after[k] == before[k].(lives := before[k].lives - 1, eliminated := before[k].lives - 1 <= 0))
    && (forall j, k :: 0 <= j < |before| && 0 <= k < |before| && j != k && after[j] != before[j] ==> after[k] == before[k])
  }

  // ---------------------------------------------------------------------
  // Leaving

  /** `onLeave`: during play the record stays, eliminated with no lives, and the win check runs; otherwise it is deleted. */
  function AfterLeave<Mode>(s: RoomState<Mode>, id: string): RoomState<Mode> {
    match Find(s.players, id)
    case None => s
    case Some(k) =>
      if s.phase == Playing then
        WinCheck(s.(players := s.players[k := s.players[k].(eliminated := true, lives := 0)]))
      else s.(players := Remove(s.players, id))
  }

  /** Leaving during play keeps the record in place with only `eliminated` and `lives` changed. */
  lemma LeaveWhilePlaying<Mode>(s: RoomState<Mode>, id: string, k: nat)
    requires k < |s.players| && s.players[k].sessionId == id && DistinctSessions(s.players)
    requires s.phase == Playing
    ensures var r := AfterLeave(s, id);
      && r.players == s.players[k := s.players[k].(eliminated := true, lives := 0)]
      && r.ball == s.ball
  {
    FindUnique(s.players, id, k);
  }

  /** Leaving in the lobby or after the game deletes the record and keeps the rest. */
  lemma LeaveOutsidePlay<Mode>(s: RoomState<Mode>, id: string)
    requires DistinctSessions(s.players) && s.phase != Playing
    ensures var r := AfterLeave(s, id);
      && r == s.(players := Remove(s.players, id))
      && Find(r.players, id).None?
      && (forall p :: p in s.players && p.sessionId != id <==> p in r.players)
  {
    RemoveFacts(s.players, id);
  }

  // ---------------------------------------------------------------------
  // Ball resets

  /** `Math.floor(Math.random() * n)` for a draw in [0, 1): an index below `n`. */
  function PickIndex(random: real, n: nat): (k: nat)
    requires 0.0 <= random < 1.0 && n > 0
    ensures k < n
  {
    MulStrictMono(n as real, random, 1.0);
    (random * n as real).Floor
  }

  /** The velocity `BALL_SPEED` towards `target` from the centre, dividing by 1 when the target is the centre. */
  function AimAt(target: Vec2, m: Env): Vec2 {
    var d := Hypot(m, target.x, target.y);
    var dist := if d == 0.0 then 1.0 else d;
    Vec2(target.x / dist * BALL_SPEED, target.y / dist * BALL_SPEED)
  }

  /** Aimed at any point but the centre, the ball moves at `BALL_SPEED` straight towards it. */
  lemma AimAtFacts(target: Vec2, m: Env)
    requires SqrtSound(m) && target != Vec2(0.0, 0.0)
    ensures var v := AimAt(target, m);
      var d := Hypot(m, target.x, target.y);
      && NormSq(v.x, v.y) == Sq(BALL_SPEED)
      && d > 0.0 && v.x * d == target.x * BALL_SPEED && v.y * d == target.y * BALL_SPEED
  {
    var d := Hypot(m, target.x, target.y);
    HypotFacts(m, target.x, target.y);
    UnitAfterScaling(target.x, target.y, d);
    DivByPositive(target.x, d);
    DivByPositive(target.y, d);
    ScaleNormSq(target.x / d, target.y / d, BALL_SPEED);
  }

  /** `launchBallRandom`: speed `BALL_SPEED` at the angle `random * 2π`. */
  function RandomLaunch(random: real, m: Env): Vec2 {
    var angle := random * m.pi * 2.0;
    Vec2(m.cos(angle) * BALL_SPEED, m.sin(angle) * BALL_SPEED)
  }

  /** A random launch always has speed `BALL_SPEED`. */
  lemma RandomLaunchSpeed(random: real, m: Env)
    requires TrigSound(m)
    ensures var v := RandomLaunch(random, m); NormSq(v.x, v.y) == Sq(BALL_SPEED)
  {
    var angle := random * m.pi * 2.0;
    var c := m.cos(angle);
    var s := m.sin(angle);
    assert Sq(c) + Sq(s) == 1.0;
    ScaleNormSq(c, s, BALL_SPEED);
  }

  // ---------------------------------------------------------------------
  // The room

  class BaseGameRoom<Mode> {
    const roomId: string
    var players: seq<RoomPlayer<Mode>>
    var phase: RoomPhase
    var winnerId: string
    var winnerName: string
    /** `state.ball.x`, `state.ball.y`, `ballVx`, `ballVy`. */
    var ball: BallState
    var sent: seq<Broadcast>
    var audioSessionIds: set<string>
    var maxPlayers: nat

    ghost predicate Valid()
      reads this
    {
      DistinctSessions(players)
    }

    function State(): RoomState<Mode>
      reads this
    {
      RoomState(players, phase, winnerId, winnerName, ball, sent)
    }

    /** The schema's defaults, then `onCreate`. */
    constructor(roomId: string)
      ensures Valid() && this.roomId == roomId
      ensures State() == RoomState([], Waiting, "", "", BallState(0.0, 0.0, 0.0, 0.0), [])
      ensures audioSessionIds == {} && maxPlayers == MAX_PLAYERS
    {
      this.roomId := roomId;
      players := [];
      phase := Waiting;
      winnerId := "";
      winnerName := "";
      ball := BallState(0.0, 0.0, 0.0, 0.0);
      sent := [];
      audioSessionIds := {};
      maxPlayers := MAX_PLAYERS;
    }

    /**
     * The guard of `paddle_input`: the index of the sender's record when the
     * sender is a player still in the game and the game is on.
     */
    method PaddleInputTarget(sessionId: string) returns (target: Option<nat>)
      requires Valid()
      ensures target.Some? <==>
        exists k :: 0 <= k < |players| && players[k].sessionId == sessionId
                    && !players[k].eliminated && phase == Playing
      ensures target.Some? ==> target == Find(players, sessionId)
    {
      var k := Find(players, sessionId);
      if k.Some? && !players[k.value].eliminated && phase == Playing {
        target := k;
      } else {
        target := None;
        if k.Some? {
          forall j | 0 <= j < |players| && players[j].sessionId == sessionId
            ensures j == k.value
          {
          }
        }
      }
    }

    /**
     * `player_ready`: in the lobby a known player's flag flips and the ready
     * check runs; `start` says it passed, upon which the mode starts the game.
     */
    method PlayerReady(sessionId: string) returns (start: bool)
      requires Valid()
      modifies this
      ensures Valid()
      ensures State() == old(State()).(players := players) && audioSessionIds == old(audioSessionIds)
      ensures var k := Find(old(players), sessionId);
        if k.Some? && old(phase) == Waiting then
          var p := old(players)[k.value];
          players == old(players)[k.value := p.(ready := !p.ready)] && start == ShouldStart(players)
        else players == old(players) && !start
    {
      var k := Find(players, sessionId);
      start := false;
      if k.Some? && phase == Waiting {
        var p := players[k.value];
        UpdateKeepsDistinct(players, k.value, p.(ready := !p.ready));
        players := players[k.value := p.(ready := !p.ready)];
        start := CheckAllReady();
      }
    }

    /** `set_name`: in the lobby a known player takes the sanitised name unless it is empty. */
    method SetName(sessionId: string, data: Option<string>)
      requires Valid()
      modifies this
      ensures Valid()
      ensures State() == old(State()).(players := players) && audioSessionIds == old(audioSessionIds)
      ensures var k := Find(old(players), sessionId);
        var name := SanitizedName(data);
        players == if k.Some? && old(phase) == Waiting && name != "" then old(players)[k.value := old(players)[k.value].(name := name)]
                   else old(players)
    {
      var k := Find(players, sessionId);
      if k.None? || phase != Waiting {
        return;
      }
      var name := SanitizedName(data);
      if name != "" {
        UpdateKeepsDistinct(players, k.value, players[k.value].(name := name));
        players := players[k.value := players[k.value].(name := name)];
      }
    }

    /** `audio_uploaded`: remember the sender's clip and tell the others. */
    method AudioUploaded(sessionId: string)
      modifies this
      ensures players == old(players) && phase == old(phase) && ball == old(ball)
      ensures winnerId == old(winnerId) && winnerName == old(winnerName)
      ensures audioSessionIds == old(audioSessionIds) + {sessionId}
      ensures sent == old(sent) + [AudioReady(sessionId)]
    {
      audioSessionIds := audioSessionIds + {sessionId};
      sent := sent + [AudioReady(sessionId)];
    }

    /**
     * `onJoin`: the mode's `create` builds the record from the join index
     * (the current number of players) and the name; the record is stored
     * under the session id, and the sessions whose clips the newcomer is
     * sent are returned.
     */
    method OnJoin(sessionId: string, requested: Option<string>, create: (string, string, nat) -> RoomPlayer<Mode>)
      returns (replayed: set<string>)
      requires Valid()
      requires create(sessionId, JoinName(requested, |players|), |players|).sessionId == sessionId
      modifies this
      ensures Valid()
      ensures var idx := |old(players)|;
        players == Put(old(players), create(sessionId, JoinName(requested, idx), idx))
      ensures State() == old(State()).(players := players) && audioSessionIds == old(audioSessionIds)
      ensures replayed == audioSessionIds
    {
      var idx := |players|;
      var player := create(sessionId, JoinName(requested, idx), idx);
      PutFacts(players, player);
      players := Put(players, player);
      replayed := audioSessionIds;
    }

    /** `onLeave`. */
    method OnLeave(sessionId: string)
      requires Valid()
      modifies this
      ensures Valid()
      ensures State() == AfterLeave(old(State()), sessionId) && audioSessionIds == old(audioSessionIds)
    {
      var k := Find(players, sessionId);
      if k.None? {
        return;
      }
      if phase == Playing {
        UpdateKeepsDistinct(players, k.value, players[k.value].(eliminated := true, lives := 0));
        players := players[k.value := players[k.value].(eliminated := true, lives := 0)];
        CheckWinCondition();
      } else {
        RemoveFacts(players, sessionId);
        players := Remove(players, sessionId);
      }
    }

    /** `onDispose`: every clip stored under this room's id is dropped. */
    method OnDispose(store: AudioStore.AudioStore)
      modifies store
      ensures store.clips == AudioStore.WithoutRoom(old(store.clips), roomId)
    {
      store.ClearRoom(roomId);
    }

    /** `checkAllReady`: whether the game should start. */
    method CheckAllReady() returns (start: bool)
      ensures start == ShouldStart(players)
    {
      if |players| < MIN_PLAYERS {
        return false;
      }
      start := AllReady(players);
    }

    /** `checkWinCondition`. */
    method CheckWinCondition()
      requires Valid()
      modifies this
      ensures Valid()
      ensures State() == WinCheck(old(State())) && audioSessionIds == old(audioSessionIds)
    {
      var alive := CollectAlive(players);
      if |alive| <= 1 {
        var lastAlive: Option<RoomPlayer<Mode>> := if |alive| > 0 then Some(alive[0]) else None;
        phase := Ended;
        winnerId := if lastAlive.Some? then lastAlive.value.sessionId else "";
        winnerName := if lastAlive.Some? then lastAlive.value.name else "Nobody";
        sent := sent + [GameOver(winnerId, winnerName)];
      }
    }

    /** `resetBallToCenter`: the ball goes back to the centre, keeping its velocity. */
    method ResetBallToCenter()
      modifies this
      ensures State() == old(State()).(ball := old(ball).(x := 0.0, y := 0.0))
      ensures audioSessionIds == old(audioSessionIds)
    {
      ball := ball.(x := 0.0, y := 0.0);
    }

    /** `launchBallRandom`. */
    method LaunchBallRandom(random: real, m: Env)
      modifies this
      ensures var v := RandomLaunch(random, m);
        State() == old(State()).(ball := old(ball).(vx := v.x, vy := v.y))
      ensures audioSessionIds == old(audioSessionIds)
    {
      var v := RandomLaunch(random, m);
      ball := ball.(vx := v.x, vy := v.y);
    }
  }
}
