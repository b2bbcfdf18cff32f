/**
 * The server's in-memory store of uploaded audio clips, keyed by
 * `"<roomId>:<sessionId>"`, and `clearRoom`, which drops every clip of a
 * room when the room is disposed.
 */
module AudioStore {
  import opened Strings

  /** The key under which the upload handler files a player's clip. */
  function ClipKey(roomId: string, sessionId: string): (k: string)
    ensures StartsWith(k, roomId + ":")
    ensures |k| == |roomId| + 1 + |sessionId| && k[|roomId| + 1..] == sessionId
  {
    roomId + ":" + sessionId
  }

  /** `key.startsWith(`${roomId}:`)`: the key belongs to that room. */
  predicate InRoom(key: string, roomId: string) {
    StartsWith(key, roomId + ":")
  }

  /** The store once every key of `roomId` is gone. */
  function WithoutRoom(m: map<string, string>, roomId: string): map<string, string> {
    map k | k in m && !InRoom(k, roomId) :: m[k]
  }

  /** The store once the keys of `roomId` among `visited` are gone. */
  function WithoutRoomAmong(m: map<string, string>, visited: set<string>, roomId: string): map<string, string> {
    map k | k in m && !(k in visited && InRoom(k, roomId)) :: m[k]
  }

  class AudioStore {
    /** The clips, one per key. */
    var clips: map<string, string>

    constructor()
      ensures clips == map[]
    {
      clips := map[];
    }

    /** The upload handler: files (or replaces) a player's clip. */
    method Store(roomId: string, sessionId: string, audio: string)
      modifies this
      ensures clips == old(clips)[ClipKey(roomId, sessionId) := audio]
    {
      clips := clips[ClipKey(roomId, sessionId) := audio];
    }

    /** Walks the keys and deletes each one that begins with `roomId:`. */
    method ClearRoom(roomId: string)
      modifies this
      ensures clips == WithoutRoom(old(clips), roomId)
    {
      var pending := clips.Keys;
      while pending != {}
        invariant pending <= old(clips).Keys
        invariant clips == WithoutRoomAmong(old(clips), old(clips).Keys - pending, roomId)
        decreases |pending|
      {
        var key :| key in pending;
        if InRoom(key, roomId) {
          clips := map k | k in clips && k != key :: clips[k];
        }
        pending := pending - {key};
      }
      assert old(clips).Keys - pending == old(clips).Keys;
    }
  }

  /** After `clearRoom(roomId)` no key of that room is left. */
  lemma ClearedRoomHasNoClips(m: map<string, string>, roomId: string, sessionId: string)
    ensures ClipKey(roomId, sessionId) !in WithoutRoom(m, roomId)
  {
  }

  /** Every other key keeps its clip. */
  lemma ClearRoomKeepsOtherClips(m: map<string, string>, roomId: string, key: string)
    requires key in m && !InRoom(key, roomId)
    ensures key in WithoutRoom(m, roomId) && WithoutRoom(m, roomId)[key] == m[key]
  {
  }

  /** Clearing a room twice is clearing it once. */
  lemma ClearRoomIdempotent(m: map<string, string>, roomId: string)
    ensures WithoutRoom(WithoutRoom(m, roomId), roomId) == WithoutRoom(m, roomId)
  {
  }

  /**
   * The `:` separator keeps rooms apart: when no room id contains `:`, a
   * clip of one room is never a clip of another (for instance clearing room
   * "ab" leaves "abc:x" alone, which a bare prefix test would not).
   */
  lemma RoomsDoNotShareClips(key: string, roomId: string, other: string)
    requires ':' !in roomId && ':' !in other && roomId != other
    requires InRoom(key, other)
    ensures !InRoom(key, roomId)
  {
    assert key[..|other| + 1] == other + ":";
    if |roomId| < |other| {
      // the key continues with a character of `other` where room `roomId` would need its `:`
      assert key[|roomId|] == other[|roomId|] != ':';
    } else if |other| < |roomId| {
      // the key has `:` where room `roomId` has one of its own characters
      assert key[|other|] == ':' != roomId[|other|];
    } else {
      assert key[..|roomId|] == other != roomId;
    }
  }

  /**
   * Disposing a room keeps every clip of every other room, even one whose
   * id extends the disposed one (clearing room "ab" keeps the clips of room
   * "abc"), as long as no room id contains `:`.
   */
  lemma ClearRoomKeepsOtherRooms(m: map<string, string>, roomId: string, other: string, sessionId: string)
    requires ':' !in roomId && ':' !in other && roomId != other
    requires ClipKey(other, sessionId) in m
    ensures ClipKey(other, sessionId) in WithoutRoom(m, roomId)
    ensures WithoutRoom(m, roomId)[ClipKey(other, sessionId)] == m[ClipKey(other, sessionId)]
  {
    RoomsDoNotShareClips(ClipKey(other, sessionId), roomId, other);
  }
}
