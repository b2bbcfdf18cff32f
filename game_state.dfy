/**
 * The goal-ring server's lobby and match bookkeeping
 * (server/src/game/GameState.ts): the `GameStateManager` class.
 *
 * The players are a JavaScript object keyed by socket id; `Object.values`
 * walks it in insertion order, and assigning to an existing key keeps the
 * key where it was.  The model keeps the records in that order in a `seq`
 * with distinct ids.  `getSlotAngles(MAX_PLAYERS)` is computed once with
 * `Math.PI`, which the constructor receives as `pi`.
 */
module ServerGameState {
  import opened Wrappers
  import opened Types
  import opened Strings
  import opened Mmorpong
  import GoalsPhysics

  // ---------------------------------------------------------------------
  // The player list

  /** `!!p.name?.trim()`: the player has set a name that is not blank. */
  predicate HasName(p: PlayerState) {
    p.name.Some? && !IsBlank(p.name.value)
  }

  predicate DistinctIds(ps: seq<PlayerState>) {
    forall i, j :: 0 <= i < j < |ps| ==> ps[i].id != ps[j].id
  }

  predicate DistinctGoals(ps: seq<PlayerState>) {
    forall i, j :: 0 <= i < j < |ps| ==> ps[i].goalAngle != ps[j].goalAngle
  }

  /** The goal angles in use: `new Set(Object.values(players).map(p => p.goalAngle))`. */
  function GoalAngles(ps: seq<PlayerState>): (used: set<real>)
    ensures forall i :: 0 <= i < |ps| ==> ps[i].goalAngle in used
    ensures forall a :: a in used ==> exists i :: 0 <= i < |ps| && ps[i].goalAngle == a
  {
    set i | 0 <= i < |ps| :: ps[i].goalAngle
  }

  /** Where the record with key `id` sits, if there is one. */
  function IndexOf(ps: seq<PlayerState>, id: string): (r: Option<nat>)
    ensures r.Some? ==> r.value < |ps| && ps[r.value].id == id
    ensures r.Some? ==> forall j :: 0 <= j < r.value ==> ps[j].id != id
    ensures r.None? <==> forall j :: 0 <= j < |ps| ==> ps[j].id != id
  {
    if ps == [] then None
    else if ps[0].id == id then Some(0)
    else
      var rest := IndexOf(ps[1..], id);
      if rest.Some? then Some(rest.value + 1) else None
  }

  /**
   * `players[rec.id] = rec`: an existing record with that key is replaced
   * where it stands, otherwise the record is added at the end.
   */
  function Put(ps: seq<PlayerState>, rec: PlayerState): (r: seq<PlayerState>)
    ensures IndexOf(ps, rec.id).Some? ==> |r| == |ps|
    ensures IndexOf(ps, rec.id).None? ==> |r| == |ps| + 1 && r[|ps|] == rec
    ensures forall i :: 0 <= i < |ps| && ps[i].id != rec.id ==> r[i] == ps[i]
    ensures IndexOf(ps, rec.id).Some? ==> r[IndexOf(ps, rec.id).value] == rec
    ensures exists i :: 0 <= i < |r| && r[i] == rec
  {
    var k := IndexOf(ps, rec.id);
    if k.Some? then ps[k.value := rec] else ps + [rec]
  }

  /** `delete players[id]`: the records with other keys, in their order. */
  function Without(ps: seq<PlayerState>, id: string): (r: seq<PlayerState>)
    ensures forall i :: 0 <= i < |r| ==> r[i].id != id
    ensures forall p :: p in r ==> p in ps
    ensures forall p :: p in ps && p.id != id ==> p in r
  {
    if ps == [] then []
    else (if ps[0].id == id then [] else [ps[0]]) + Without(ps[1..], id)
  }

  /** The first slot angle no player's goal uses: `slots.find(a => !used.has(a))`. */
  function FirstFree(slots: seq<real>, used: set<real>): (r: Option<real>)
    ensures r.Some? ==> r.value in slots && r.value !in used
    ensures r.Some? ==> exists k :: 0 <= k < |slots| && slots[k] == r.value
                                  && forall j :: 0 <= j < k ==> slots[j] in used
    ensures r.None? <==> forall a :: a in slots ==> a in used
  {
    if slots == [] then None
    else if slots[0] !in used then Some(slots[0])
    else
      var rest := FirstFree(slots[1..], used);
      assert forall a :: a in slots[1..] ==> a in slots;
      assert rest.Some? ==> exists k :: 0 <= k < |slots| && slots[k] == rest.value
                                      && forall j :: 0 <= j < k ==> slots[j] in used by {
        if rest.Some? {
          var k :| 0 <= k < |slots| - 1 && slots[1..][k] == rest.value
                   && forall j :: 0 <= j < k ==> slots[1..][j] in used;
          assert slots[k + 1] == rest.value;
          assert forall j :: 0 <= j < k + 1 ==> slots[j] in used by {
            forall j | 0 <= j < k + 1 ensures slots[j] in used {
              if j > 0 {
                assert slots[j] == slots[1..][j - 1];
              }
            }
          }
        }
      }
      rest
  }

  /** The record `addPlayer` creates for a new socket in slot `slot`. */
  function NewPlayer(id: string, slot: real): PlayerState {
    PlayerState(id, Some(""), slot, slot, PADDLE_ARC, STARTING_LIVES, 0, true)
  }

  /** The players `keep` accepts, in order: `filter(keep)`. */
  function Kept(ps: seq<PlayerState>, keep: PlayerState -> bool): (r: seq<PlayerState>)
    ensures |r| <= |ps|
  {
    if ps == [] then []
    else (if keep(ps[0]) then [ps[0]] else []) + Kept(ps[1..], keep)
  }

  /** The players whose names count, in order: `filter(p => !!p.name?.trim())`. */
  function Named(ps: seq<PlayerState>): seq<PlayerState> {
    Kept(ps, HasName)
  }

  /** `getHostId` on a player list: the first named player, if any. */
  function HostOf(ps: seq<PlayerState>): Option<string> {
    var named := Named(ps);
    if |named| > 0 then Some(named[0].id) else None
  }

  /** `applyInputs` for one player: the angle moves towards `angle ± ORBIT_SPEED`. */
  function Turn(input: PlayerInput): real {
    ((if input.left then -ORBIT_SPEED else 0.0) + (if input.right then ORBIT_SPEED else 0.0)) * ORBIT_ACCEL
  }

  /** The player after `applyInputs`, given the buffered inputs. */
  function Steer(p: PlayerState, inputs: map<string, PlayerInput>): PlayerState {
    if p.id in inputs then p.(angle := p.angle + Turn(inputs[p.id])) else p
  }

  /** One entry of `getLobbyState().players`. */
  function LobbyEntryOf(p: PlayerState): LobbyEntry {
    LobbyEntry(p.id, if HasName(p) then Trim(p.name.value) else Prefix(p.id, 6), HasName(p))
  }

  /** What `getState` hands out: a copy of the players with the ball, tick and phase. */
  datatype GameSnapshot = GameSnapshot(players: seq<PlayerState>, ball: BallState, tick: int, phase: Phase)

  // ---------------------------------------------------------------------
  // GameStateManager

  class GameStateManager {
    var players: seq<PlayerState>
    const slots: seq<real>
    var inputs: map<string, PlayerInput>
    var phase: Phase

    /**
     * The keys of `players` are the records' ids, every goal angle is a
     * slot angle, and no two players share a goal.
     */
    ghost predicate Valid()
      reads this
    {
      && DistinctIds(players)
      && DistinctGoals(players)
      && (forall i :: 0 <= i < |players| ==> players[i].goalAngle in slots)
    }

    /** `new GameStateManager()` */
    constructor (pi: real)
      ensures Valid()
      ensures players == [] && inputs == map[] && phase == Lobby
      ensures slots == GoalsPhysics.GetGoalsSlotAngles(MAX_PLAYERS, pi)
    {
      players := [];
      slots := GoalsPhysics.GetGoalsSlotAngles(MAX_PLAYERS, pi);
      inputs := map[];
      phase := Lobby;
    }

    /** `addPlayer(socketId)` */
    method AddPlayer(socketId: string)
      requires Valid()
      modifies this
      ensures Valid()
      ensures var free := FirstFree(slots, GoalAngles(old(players)));
        && (free.None? ==> players == old(players))
        && (free.Some? ==> players == Put(old(players), NewPlayer(socketId, free.value)))
      ensures inputs == old(inputs) && phase == old(phase)
    {
      var used := GoalAngles(players);
      var freeSlot := FirstFree(slots, used);
      if freeSlot.None? {
        return;  // server full
      }
      PutKeepsValid(players, slots, NewPlayer(socketId, freeSlot.value));
      players := Put(players, NewPlayer(socketId, freeSlot.value));
    }

    /** `removePlayer(socketId)` */
    method RemovePlayer(socketId: string)
      requires Valid()
      modifies this
      ensures Valid()
      ensures players == Without(old(players), socketId)
      ensures inputs == old(inputs) - {socketId} && phase == old(phase)
    {
      WithoutKeepsValid(players, slots, socketId);
      players := Without(players, socketId);
      inputs := inputs - {socketId};
    }

    /** `setInput(socketId, input)`: the latest input wins. */
    method SetInput(socketId: string, input: PlayerInput)
      modifies this
      ensures inputs == old(inputs)[socketId := input]
      ensures players == old(players) && phase == old(phase)
    {
      inputs := inputs[socketId := input];
    }

    /**
     * `setPlayerName(socketId, name)`; `name` is absent when the client
     * sent `null` or nothing.  Only a known player with a name that is not
     * blank is renamed, to the trimmed name cut to 24 characters.
     */
    method SetPlayerName(socketId: string, name: Option<string>) returns (ok: bool)
      requires Valid()
      modifies this
      ensures Valid()
      ensures var k := IndexOf(old(players), socketId);
        var trimmed := Trim(name.GetOr(""));
        && (ok <==> k.Some? && !IsBlank(name.GetOr("")))
        && (!ok ==> players == old(players))
        && (ok ==> players == old(players)[k.value := old(players)[k.value].(name := Some(Prefix(trimmed, 24)))])
      ensures inputs == old(inputs) && phase == old(phase)
    {
      var k := IndexOf(players, socketId);
      if k.None? {
        return false;
      }
      var trimmed := Trim(name.GetOr(""));
      if trimmed == [] {
        return false;
      }
      players := players[k.value := players[k.value].(name := Some(Prefix(trimmed, 24)))];
      return true;
    }

    /** `setPhase(phase)` */
    method SetPhase(p: Phase)
      modifies this
      ensures phase == p
      ensures players == old(players) && inputs == old(inputs)
    {
      phase := p;
    }

    /** `getPhase()` */
    function GetPhase(): Phase
      reads this
    {
      phase
    }

    /** `canStartGame()`: at least two players have set a name. */
    function CanStartGame(): (r: bool)
      reads this
      ensures r <==> exists i, j :: 0 <= i < j < |players| && HasName(players[i]) && HasName(players[j])
    {
      TwoNamed(players);
      |Named(players)| >= 2
    }

    /** `getHostId()`: the first player in join order who has set a name. */
    function GetHostId(): (r: Option<string>)
      reads this
      ensures r.None? <==> forall i :: 0 <= i < |players| ==> !HasName(players[i])
      ensures r.Some? ==> exists i :: 0 <= i < |players| && players[i].id == r.value && HasName(players[i])
                                    && forall j :: 0 <= j < i ==> !HasName(players[j])
    {
      HostIsFirstNamed(players);
      HostOf(players)
    }

    /** `isHost(socketId)` */
    function IsHost(socketId: string): (r: bool)
      reads this
      ensures r ==> exists i :: 0 <= i < |players| && players[i].id == socketId && HasName(players[i])
      ensures r <== exists i :: 0 <= i < |players| && players[i].id == socketId && HasName(players[i])
                                && forall j :: 0 <= j < i ==> !HasName(players[j])
    {
      HostIsFirstNamed(players);
      HostOf(players) == Some(socketId)
    }

    /**
     * `getLobbyState()`: one entry per player in join order; a player
     * without a name is shown by the first six characters of the id.
     */
    function GetLobbyState(): (r: LobbyState)
      reads this
      ensures |r.players| == |players|
      ensures forall i :: 0 <= i < |players| ==>
        && r.players[i].id == players[i].id
        && (r.players[i].joined <==> HasName(players[i]))
        && (!HasName(players[i]) ==> r.players[i].name == Prefix(players[i].id, 6))
        && (HasName(players[i]) ==> r.players[i].name == Trim(players[i].name.value) && !IsBlank(r.players[i].name))
      ensures r.hostId == GetHostId()
      ensures r.hostId.Some? ==> exists i :: 0 <= i < |r.players| && r.players[i].id == r.hostId.value && r.players[i].joined
      ensures r.hostId.None? <==> forall i :: 0 <= i < |r.players| ==> !r.players[i].joined
    {
      HostIsFirstNamed(players);
      var entries := seq(|players|, i requires 0 <= i < |players| reads this => LobbyEntryOf(players[i]));
      forall i | 0 <= i < |players| && HasName(players[i])
        ensures !IsBlank(entries[i].name)
      {
        TrimIdempotent(players[i].name.value);
      }
      LobbyState(entries, HostOf(players))
    }

    /**
     * `applyInputs()`: every player with a buffered input turns by its
     * `Turn`; the others keep their angle.
     */
    method ApplyInputs()
      requires Valid()
      modifies this
      ensures Valid()
      ensures |players| == |old(players)|
      ensures forall i :: 0 <= i < |players| ==> players[i] == Steer(old(players)[i], inputs)
      ensures inputs == old(inputs) && phase == old(phase)
    {
      var i := 0;
      while i < |players|
        invariant 0 <= i <= |players| == |old(players)|
        invariant forall k :: 0 <= k < i ==> players[k] == Steer(old(players)[k], inputs)
        invariant forall k :: i <= k < |players| ==> players[k] == old(players)[k]
        invariant inputs == old(inputs) && phase == old(phase)
      {
        var player := players[i];
        if player.id in inputs {
          var input := inputs[player.id];
          var target := player.angle;
          if input.left {
            target := target - ORBIT_SPEED;
          }
          if input.right {
            target := target + ORBIT_SPEED;
          }
          players := players[i := player.(angle := player.angle + (target - player.angle) * ORBIT_ACCEL)];
        }
        i := i + 1;
      }
    }

    /** `getState(ball, tick)` */
    function GetState(ball: BallState, tick: int): (r: GameSnapshot)
      reads this
      ensures r.players == players && r.phase == phase
      ensures r.ball == ball && r.tick == tick
    {
      GameSnapshot(players, ball, tick, phase)
    }
  }

  // ---------------------------------------------------------------------
  // Invariants

  /** Adding a player in a free slot keeps ids and goals distinct and goals on slots. */
  lemma PutKeepsValid(ps: seq<PlayerState>, slots: seq<real>, rec: PlayerState)
    requires DistinctIds(ps) && DistinctGoals(ps)
    requires forall i :: 0 <= i < |ps| ==> ps[i].goalAngle in slots
    requires rec.goalAngle in slots && rec.goalAngle !in GoalAngles(ps)
    ensures var r := Put(ps, rec);
      && DistinctIds(r) && DistinctGoals(r)
      && (forall i :: 0 <= i < |r| ==> r[i].goalAngle in slots)
  {
    var r := Put(ps, rec);
    var k := IndexOf(ps, rec.id);
    forall i | 0 <= i < |r|
      ensures r[i] == rec || (i < |ps| && r[i] == ps[i] && ps[i].id != rec.id)
    {
    }
  }

  /** Removing a player keeps ids and goals distinct and goals on slots. */
  lemma WithoutKeepsValid(ps: seq<PlayerState>, slots: seq<real>, id: string)
    requires DistinctIds(ps) && DistinctGoals(ps)
    requires forall i :: 0 <= i < |ps| ==> ps[i].goalAngle in slots
    ensures var r := Without(ps, id);
      && DistinctIds(r) && DistinctGoals(r)
      && (forall i :: 0 <= i < |r| ==> r[i].goalAngle in slots)
  {
    WithoutKeepsIds(ps, id);
    WithoutKeepsGoals(ps, id);
    forall i | 0 <= i < |Without(ps, id)| ensures Without(ps, id)[i].goalAngle in slots {
      assert Without(ps, id)[i] in ps;
    }
  }

  lemma {:induction false} WithoutKeepsIds(ps: seq<PlayerState>, id: string)
    requires DistinctIds(ps)
    ensures DistinctIds(Without(ps, id))
  {
    if ps != [] {
      var tail := ps[1..];
      WithoutKeepsIds(tail, id);
      if ps[0].id != id {
        var rest := Without(tail, id);
        assert Without(ps, id) == [ps[0]] + rest;
        forall j | 0 <= j < |rest| ensures rest[j].id != ps[0].id {
          assert rest[j] in tail;
        }
      }
    }
  }

  lemma {:induction false} WithoutKeepsGoals(ps: seq<PlayerState>, id: string)
    requires DistinctGoals(ps)
    ensures DistinctGoals(Without(ps, id))
  {
    if ps != [] {
      var tail := ps[1..];
      WithoutKeepsGoals(tail, id);
      if ps[0].id != id {
        var rest := Without(tail, id);
        assert Without(ps, id) == [ps[0]] + rest;
        forall j | 0 <= j < |rest| ensures rest[j].goalAngle != ps[0].goalAngle {
          assert rest[j] in tail;
        }
      }
    }
  }

  /** Distinct goal angles on slot angles: never more players than slots. */
  lemma AtMostOnePerSlot(ps: seq<PlayerState>, slots: seq<real>)
    requires DistinctGoals(ps)
    requires forall i :: 0 <= i < |ps| ==> ps[i].goalAngle in slots
    ensures |ps| <= |slots|
  {
    DistinctGoalsCount(ps);
    var slotSet := set a | a in slots;
    assert GoalAngles(ps) <= slotSet;
    SubsetCard(GoalAngles(ps), slotSet);
    SeqSetCard(slots);
  }

  lemma {:induction false} DistinctGoalsCount(ps: seq<PlayerState>)
    requires DistinctGoals(ps)
    ensures |GoalAngles(ps)| == |ps|
  {
    if ps != [] {
      var tail := ps[1..];
      DistinctGoalsCount(tail);
      assert GoalAngles(ps) == {ps[0].goalAngle} + GoalAngles(tail) by {
        forall a | a in GoalAngles(ps) ensures a in {ps[0].goalAngle} + GoalAngles(tail) {
          var i :| 0 <= i < |ps| && ps[i].goalAngle == a;
          if i > 0 {
            assert tail[i - 1].goalAngle == a;
          }
        }
      }
      assert ps[0].goalAngle !in GoalAngles(tail);
    }
  }

  lemma {:induction false} SubsetCard<T>(a: set<T>, b: set<T>)
    requires a <= b
    ensures |a| <= |b|
    decreases |b|
  {
    if b != {} {
      var x :| x in b;
      SubsetCard(a - {x}, b - {x});
    }
  }

  lemma {:induction false} SeqSetCard<T>(s: seq<T>)
    ensures |set a | a in s| <= |s|
  {
    if s != [] {
      SeqSetCard(s[1..]);
      assert (set a | a in s) == {s[0]} + (set a | a in s[1..]);
    }
  }

  // ---------------------------------------------------------------------
  // Properties

  /**
   * `addPlayer` is a no-op exactly when every slot angle is some player's
   * goal; otherwise the player gets the first free slot as angle and goal,
   * an empty name, `STARTING_LIVES`, no score, and is connected.  A socket
   * already present keeps its place in the order.
   */
  lemma AddPlayerFacts(ps: seq<PlayerState>, slots: seq<real>, id: string)
    ensures var free := FirstFree(slots, GoalAngles(ps));
      && (free.None? <==> forall a :: a in slots ==> exists i :: 0 <= i < |ps| && ps[i].goalAngle == a)
      && (free.Some? ==>
            var r := Put(ps, NewPlayer(id, free.value));
            && (forall i :: 0 <= i < |ps| ==> r[i].goalAngle != free.value || r[i].id == id)
            && (exists i :: 0 <= i < |r| && r[i].id == id && r[i].name == Some("") && !HasName(r[i])
                  && r[i].angle == free.value && r[i].goalAngle == free.value
                  && r[i].lives == STARTING_LIVES && r[i].score == 0 && r[i].connected)
            && (IndexOf(ps, id).Some? ==> r[IndexOf(ps, id).value].id == id && |r| == |ps|))
  {
    var free := FirstFree(slots, GoalAngles(ps));
    if free.Some? {
      var rec := NewPlayer(id, free.value);
      assert !HasName(rec) by {
        assert Trim("") == "";
      }
    }
  }

  /** Only the first `MAX_PLAYERS` players find a slot. */
  lemma ServerHoldsAtMostMaxPlayers(g: GameStateManager, pi: real)
    requires g.Valid() && g.slots == GoalsPhysics.GetGoalsSlotAngles(MAX_PLAYERS, pi)
    ensures |g.players| <= MAX_PLAYERS
  {
    AtMostOnePerSlot(g.players, g.slots);
  }

  /** `removePlayer` leaves every other player and input as it was and forgets the socket. */
  lemma RemoveFacts(ps: seq<PlayerState>, inputs: map<string, PlayerInput>, id: string)
    ensures forall p :: p in Without(ps, id) <==> p in ps && p.id != id
    ensures id !in inputs - {id}
    ensures forall k :: k in inputs && k != id ==> k in inputs - {id} && (inputs - {id})[k] == inputs[k]
  {
  }

  /**
   * A successful `setPlayerName` makes the player count as named, with a
   * name of at most 24 characters that is the start of the trimmed name.
   */
  lemma NameSetJoins(p: PlayerState, name: string)
    requires !IsBlank(name)
    ensures var q := p.(name := Some(Prefix(Trim(name), 24)));
      && HasName(q) && |q.name.value| <= 24 && q.name.value <= Trim(name)
  {
    var t := Trim(name);
    var _ := TrimFacts(name);
    NonWhitespaceStartNotBlank(Prefix(t, 24));
  }

  /** A string that starts with a visible character is not blank. */
  lemma NonWhitespaceStartNotBlank(s: string)
    requires s != [] && !IsWhitespace(s[0])
    ensures !IsBlank(s)
  {
    assert TrimStart(s) == s;
  }

  /** `canStartGame` is true exactly when two different players are named. */
  lemma TwoNamed(ps: seq<PlayerState>)
    ensures |Named(ps)| >= 2 <==> exists i, j :: 0 <= i < j < |ps| && HasName(ps[i]) && HasName(ps[j])
  {
    TwoKept(ps, HasName);
  }

  lemma {:induction false} TwoKept(ps: seq<PlayerState>, keep: PlayerState -> bool)
    ensures |Kept(ps, keep)| >= 2 <==> exists i, j :: 0 <= i < j < |ps| && keep(ps[i]) && keep(ps[j])
  {
    if ps != [] {
      var tail := ps[1..];
      TwoKept(tail, keep);
      OneKept(tail, keep);
      if exists i, j :: 0 <= i < j < |ps| && keep(ps[i]) && keep(ps[j]) {
        var i, j :| 0 <= i < j < |ps| && keep(ps[i]) && keep(ps[j]);
        assert keep(tail[j - 1]);
        if i > 0 {
          assert keep(tail[i - 1]);
        }
      }
      if |Kept(ps, keep)| >= 2 {
        if keep(ps[0]) {
          var j :| 0 <= j < |tail| && keep(tail[j]);
          assert keep(ps[j + 1]);
        } else {
          var i, j :| 0 <= i < j < |tail| && keep(tail[i]) && keep(tail[j]);
          assert keep(ps[i + 1]) && keep(ps[j + 1]);
        }
      }
    }
  }

  lemma {:induction false} OneKept(ps: seq<PlayerState>, keep: PlayerState -> bool)
    ensures |Kept(ps, keep)| >= 1 <==> exists i :: 0 <= i < |ps| && keep(ps[i])
  {
    if ps != [] {
      var tail := ps[1..];
      OneKept(tail, keep);
      if !keep(ps[0]) {
        assert Kept(ps, keep) == Kept(tail, keep);
        if exists i :: 0 <= i < |ps| && keep(ps[i]) {
          var i :| 0 <= i < |ps| && keep(ps[i]);
          assert keep(tail[i - 1]);
        }
        if exists i :: 0 <= i < |tail| && keep(tail[i]) {
          var i :| 0 <= i < |tail| && keep(tail[i]);
          assert keep(ps[i + 1]);
        }
      }
    }
  }

  /** The host is the first player, in join order, with a name. */
  lemma HostIsFirstNamed(ps: seq<PlayerState>)
    ensures HostOf(ps).None? <==> forall i :: 0 <= i < |ps| ==> !HasName(ps[i])
    ensures HostOf(ps).Some? ==> exists i :: 0 <= i < |ps| && ps[i].id == HostOf(ps).value && HasName(ps[i])
                                           && forall j :: 0 <= j < i ==> !HasName(ps[j])
  {
    OneKept(ps, HasName);
    if |Named(ps)| > 0 {
      var i := FirstKept(ps, HasName);
    }
  }

  /** The head of `Kept(ps, keep)` is the first player `keep` accepts. */
  lemma {:induction false} FirstKept(ps: seq<PlayerState>, keep: PlayerState -> bool) returns (i: nat)
    requires |Kept(ps, keep)| > 0
    ensures i < |ps| && ps[i] == Kept(ps, keep)[0] && keep(ps[i])
    ensures forall j :: 0 <= j < i ==> !keep(ps[j])
  {
    if keep(ps[0]) {
      i := 0;
    } else {
      var tail := ps[1..];
      assert Kept(ps, keep) == Kept(tail, keep);
      var k := FirstKept(tail, keep);
      i := k + 1;
      forall j | 0 <= j < i ensures !keep(ps[j]) {
        if j > 0 {
          assert ps[j] == tail[j - 1];
        }
      }
    }
  }

  /**
   * Host migration: once the host leaves, the host is the next named
   * player in join order, or nobody.
   */
  lemma HostMigratesOnRemoval(ps: seq<PlayerState>, host: string)
    requires DistinctIds(ps) && HostOf(ps) == Some(host)
    ensures var named := Named(ps);
      HostOf(Without(ps, host)) == if |named| >= 2 then Some(named[1].id) else None
  {
    NamedWithoutFirst(ps, host);
  }

  /** Removing the first kept player drops exactly the head of the kept list. */
  lemma {:induction false} NamedWithoutFirst(ps: seq<PlayerState>, host: string)
    requires DistinctIds(ps) && |Named(ps)| > 0 && Named(ps)[0].id == host
    ensures Named(Without(ps, host)) == Named(ps)[1..]
  {
    KeptWithoutFirst(ps, HasName, host);
  }

  lemma {:induction false} KeptWithoutFirst(ps: seq<PlayerState>, keep: PlayerState -> bool, host: string)
    requires DistinctIds(ps) && |Kept(ps, keep)| > 0 && Kept(ps, keep)[0].id == host
    ensures Kept(Without(ps, host), keep) == Kept(ps, keep)[1..]
  {
    var tail := ps[1..];
    assert DistinctIds(tail);
    var first := FirstKept(ps, keep);
    if ps[0].id == host {
      assert first == 0;
      assert Kept(ps, keep) == [ps[0]] + Kept(tail, keep);
      WithoutAbsent(tail, host);
      assert Without(ps, host) == Without(tail, host);
    } else {
      assert first > 0;
      assert Kept(ps, keep) == Kept(tail, keep);
      KeptWithoutFirst(tail, keep, host);
      assert Without(ps, host) == [ps[0]] + Without(tail, host);
      assert ([ps[0]] + Without(tail, host))[1..] == Without(tail, host);
    }
  }

  /** Removing a key no record has changes nothing. */
  lemma {:induction false} WithoutAbsent(ps: seq<PlayerState>, id: string)
    requires forall i :: 0 <= i < |ps| ==> ps[i].id != id
    ensures Without(ps, id) == ps
  {
    if ps != [] {
      WithoutAbsent(ps[1..], id);
      assert [ps[0]] + ps[1..] == ps;
    }
  }

  /**
   * `applyInputs` changes only the angle; with no input, or with left and
   * right both held, the angle stays; left alone turns it by
   * `-ORBIT_SPEED * ORBIT_ACCEL` and right alone by `+ORBIT_SPEED * ORBIT_ACCEL`.
   */
  lemma SteerFacts(p: PlayerState, inputs: map<string, PlayerInput>)
    ensures var q := Steer(p, inputs);
      && q == p.(angle := q.angle)
      && (p.id !in inputs ==> q.angle == p.angle)
      && (p.id in inputs && inputs[p.id].left == inputs[p.id].right ==> q.angle == p.angle)
      && (p.id in inputs && inputs[p.id].left && !inputs[p.id].right ==> q.angle == p.angle - ORBIT_SPEED * ORBIT_ACCEL)
      && (p.id in inputs && !inputs[p.id].left && inputs[p.id].right ==> q.angle == p.angle + ORBIT_SPEED * ORBIT_ACCEL)
  {
  }

  /** The lobby shows an unnamed socket `socket_abcdef1234` as `socket`. */
  lemma LobbyFallbackName()
    ensures LobbyEntryOf(NewPlayer("socket_abcdef1234", 0.0)) == LobbyEntry("socket_abcdef1234", "socket", false)
  {
    assert !HasName(NewPlayer("socket_abcdef1234", 0.0)) by {
      assert Trim("") == "";
    }
    assert "socket_abcdef1234"[..6] == "socket";
  }
}
