/** The process-wide room registry and the room constructor used by the HTTP
    room-creation routes. The registry is an explicit object handed to every
    command handler instead of ambient global state. */
module Store {
  import opened Types

  /** JavaScript's `s.substring(start, end)`: both bounds are clamped to
      `[0, |s|]` and swapped when the first is the larger. */
  function JsSubstring(s: string, start: int, end: int): (r: string)
    ensures |r| <= |s|
    ensures var a := Clamp(start, |s|); var b := Clamp(end, |s|);
      |r| == (if a <= b then b - a else a - b) &&
      forall i :: 0 <= i < |r| ==> r[i] == s[Min(a, b) + i]
  {
    var a := Clamp(start, |s|);
    var b := Clamp(end, |s|);
    if a <= b then s[a..b] else s[b..a]
  }

  function Clamp(x: int, n: nat): (r: nat)
  {
    if x < 0 then 0 else if x > n then n else x
  }

  function Min(a: int, b: int): (m: int)
  {
    if a <= b then a else b
  }

  predicate IsLower(c: char)
  {
    'a' <= c <= 'z'
  }

  /** `toUpperCase` on one character of a base-36 rendering. */
  function UpperChar(c: char): (r: char)
    ensures !IsLower(r)
    ensures IsLower(c) ==> r as int == c as int - 32
    ensures !IsLower(c) ==> r == c
  {
    if IsLower(c) then (c as int - 32) as char else c
  }

  /** `toUpperCase` on a base-36 rendering: same length, every lower-case
      letter replaced by its upper-case form, every other character kept. */
  function ToUpper(s: string): (r: string)
    ensures |r| == |s|
    ensures forall i :: 0 <= i < |r| ==> !IsLower(r[i])
    ensures forall i :: 0 <= i < |r| && IsLower(s[i]) ==> r[i] as int == s[i] as int - 32
    ensures forall i :: 0 <= i < |r| && !IsLower(s[i]) ==> r[i] == s[i]
  {
    seq(|s|, i requires 0 <= i < |s| => UpperChar(s[i]))
  }

  /** `token.substring(2, 8).toUpperCase()`, where `token` is the base-36
      rendering of a random number ("0." followed by digits). */
  function RoomIdOf(token: string): (r: string)
    ensures |r| <= 6
    ensures |r| == if |token| <= 2 then 0 else Min(|token|, 8) - 2
    ensures forall i :: 0 <= i < |r| ==> !IsLower(r[i]) && r[i] == UpperChar(token[2 + i])
  {
    ToUpper(JsSubstring(token, 2, 8))
  }

  /** The registry of rooms, keyed by room id, and the two blacklist stores
      that are declared next to it. Nothing in the server ever writes the
      blacklists, so they stay empty. */
  class Registry {
    var rooms: map<string, Room>
    const blacklistedVideos: set<string>
    const blacklistedAuthors: map<string, set<string>>

    constructor ()
      ensures rooms == map[] && Valid()
      ensures blacklistedVideos == {} && blacklistedAuthors == map[]
    {
      rooms := map[];
      blacklistedVideos := {};
      blacklistedAuthors := map[];
    }

    /** Every room is stored under its own id, and every room keeps the
        room invariant. Storing under the id also makes distinct keys hold
        distinct room objects. */
    ghost predicate Valid()
      reads this, rooms.Values
    {
      forall k :: k in rooms ==> rooms[k].id == k && rooms[k].Valid()
    }

    /** The objects a command naming `roomId` may change: the room stored
        under that key, if any. */
    function RoomFrame(roomId: string): set<Room>
      reads this
    {
      if roomId in rooms then {rooms[roomId]} else {}
    }

    /** `createRoomInStore(roomName, hostId)`: derive the id from the random
        token, build an empty room whose `isPerforming` is false, and store it
        under its id, replacing any room already stored there. `roomName`
        plays no part in the result. */
    method CreateRoomInStore(roomName: string, hostId: string, token: string, now: int)
      returns (room: Room)
      requires Valid()
      modifies this
      ensures Valid() && fresh(room)
      ensures room.id == RoomIdOf(token)
      ensures room.queue == [] && room.currentSong == None
      ensures room.isPerforming == Some(false)
      ensures room.hostId == hostId && room.createdAt == now
      ensures rooms == old(rooms)[room.id := room]
    {
      var roomId := RoomIdOf(token);
      room := new Room(roomId, hostId, now, Some(false));
      rooms := rooms[roomId := room];
    }
  }

  /** With `Math.random` mocked so that its base-36 rendering starts
      "0.4fzzzx", the room id is "4FZZZX", whatever digits follow. */
  lemma RoomIdOfMockedRandom(tail: string)
    ensures RoomIdOf("0.4fzzzx" + tail) == "4FZZZX"
  {
  }

  /** The room-store test: on an empty registry and with the mocked random
      token, the new room has id "4FZZZX", an empty queue, no current song,
      the given host, `isPerforming` false, and is stored under its id. */
  method CreateRoomMockedRandom(tail: string, now: int)
    returns (id: string, queue: seq<Song>, current: Option<Song>, hostId: string,
             isPerforming: Option<bool>, stored: bool)
    ensures id == "4FZZZX" && queue == [] && current == None
    ensures hostId == "host-1" && isPerforming == Some(false) && stored
  {
    var reg := new Registry();
    var room := reg.CreateRoomInStore("Karaoke Night", "host-1", "0.4fzzzx" + tail, now);
    RoomIdOfMockedRandom(tail);
    id, queue, current, hostId, isPerforming := room.id, room.queue, room.currentSong, room.hostId, room.isPerforming;
    stored := id in reg.rooms && reg.rooms[id] == room;
  }
}
