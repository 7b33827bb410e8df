/** The real-time command handlers of the socket server. Each handler looks
    the room up in the registry, changes the room's `queue` and `currentSong`
    in place, and returns the events it broadcasts to the room, in emission
    order, together with the acknowledgement it sends back when the command
    has one. Random tokens, uuids and clock readings are parameters. */
module Socket {
  import opened Types
  import opened QueueOps
  import opened Store

  datatype PlaybackCommand = Play | Pause

  /** The room-scoped broadcasts: `singer_announcement`, `queue_updated`,
      `now_playing` and `playback_action`. */
  datatype Event =
    | SingerAnnouncement(song: Song)
    | QueueUpdated(queue: seq<Song>)
    | NowPlaying(current: Option<Song>)
    | PlaybackAction(action: PlaybackCommand)

  /** An acknowledgement: `{success: true, ...}` or `{success: false, error}`. */
  datatype Reply<T> = Success(value: T) | Failure(error: string)

  const RoomNotFound: string := "Room not found"

  /** The song fields a client sends with `add_to_queue`; the server adds
      `uuid` and `addedAt`. */
  datatype SongRequest = SongRequest(id: string, title: string, thumbnail: string, addedBy: string)

  /** The queue entry `{...song, uuid, addedAt}`: the request's fields are
      kept as sent, and the server adds the uuid and the time. */
  function NewSong(req: SongRequest, uuid: string, now: int): (s: Song)
    ensures SongRequest(s.id, s.title, s.thumbnail, s.addedBy) == req
    ensures s.uuid == uuid && s.addedAt == now
  {
    Song(req.id, req.title, req.thumbnail, req.addedBy, now, uuid)
  }

  /** Every uuid the room holds, in its queue and as its current song. */
  ghost function Bag(room: Room): multiset<string>
    reads room
  {
    UuidBag(room.queue, room.currentSong)
  }

  /** No uuid occurs twice across the room's queue and current song. */
  ghost predicate UniqueUuids(room: Room)
    reads room
  {
    NoRepeats(Bag(room))
  }

  /** `create_room`: store a new empty room under the id derived from the
      random token, replacing any room already stored there. Unlike the
      store's constructor, the record it builds has no `isPerforming`. */
  method CreateRoom(reg: Registry, roomName: string, token: string, socketId: string, now: int)
    returns (roomId: string)
    requires reg.Valid()
    modifies reg
    ensures reg.Valid()
    ensures roomId == RoomIdOf(token)
    ensures roomId in reg.rooms && fresh(reg.rooms[roomId])
    ensures reg.rooms == old(reg.rooms)[roomId := reg.rooms[roomId]]
    ensures var room := reg.rooms[roomId];
      room.queue == [] && room.currentSong == None && room.isPerforming == None &&
      room.hostId == socketId && room.createdAt == now
  {
    roomId := RoomIdOf(token);
    var room := new Room(roomId, socketId, now, None);
    reg.rooms := reg.rooms[roomId := room];
  }

  /** `join_room`: acknowledge with the whole room, or with the not-found
      error. Nothing is changed. */
  method JoinRoom(reg: Registry, roomId: string) returns (reply: Reply<RoomState>)
    requires reg.Valid()
    ensures reply.Failure? <==> roomId !in reg.rooms
    ensures reply.Failure? ==> reply.error == RoomNotFound
    ensures reply.Success? ==>
      var room := reg.rooms[roomId];
      reply.value.id == roomId && reply.value.queue == room.queue &&
      reply.value.currentSong == room.currentSong && reply.value.hostId == room.hostId &&
      reply.value.createdAt == room.createdAt && reply.value.isPerforming == room.isPerforming
  {
    if roomId in reg.rooms {
      reply := Success(reg.rooms[roomId].Snapshot());
    } else {
      reply := Failure(RoomNotFound);
    }
  }

  /** `add_to_queue`: when no song is current the new song becomes current
      and is announced; otherwise it goes to the tail of the queue and the
      whole queue is broadcast. */
  method AddToQueue(reg: Registry, roomId: string, req: SongRequest, uuid: string, now: int)
    returns (reply: Reply<()>, events: seq<Event>)
    requires reg.Valid()
    modifies reg.RoomFrame(roomId)
    ensures reg.Valid()
    ensures roomId !in reg.rooms ==> reply == Failure(RoomNotFound) && events == []
    ensures roomId in reg.rooms ==>
      var room, song := reg.rooms[roomId], NewSong(req, uuid, now);
      reply == Success(()) &&
      (old(room.currentSong) == None ==>
        room.currentSong == Some(song) && room.queue == old(room.queue) == [] &&
        events == [SingerAnnouncement(song)]) &&
      (old(room.currentSong) != None ==>
        room.currentSong == old(room.currentSong) && room.queue == old(room.queue) + [song] &&
        events == [QueueUpdated(room.queue)])
    ensures roomId in reg.rooms ==>
      var room := reg.rooms[roomId];
      Bag(room) == old(Bag(room)) + multiset{uuid} &&
      (old(UniqueUuids(room)) && uuid !in old(Bag(room)) ==> UniqueUuids(room))
  {
    if roomId in reg.rooms {
      var room := reg.rooms[roomId];
      var song := NewSong(req, uuid, now);
      if room.currentSong == None {
        room.currentSong := Some(song);
        events := [SingerAnnouncement(song)];
      } else {
        UuidsAppend(room.queue, [song]);
        room.queue := room.queue + [song];
        events := [QueueUpdated(room.queue)];
      }
      reply := Success(());
    } else {
      reply, events := Failure(RoomNotFound), [];
    }
  }

  /** `remove_from_queue`: keep the entries whose uuid differs, and
      broadcast the queue whether or not anything was removed. */
  method RemoveFromQueue(reg: Registry, roomId: string, songUuid: string)
    returns (events: seq<Event>)
    requires reg.Valid()
    modifies reg.RoomFrame(roomId)
    ensures reg.Valid()
    ensures roomId !in reg.rooms ==> events == []
    ensures roomId in reg.rooms ==>
      var room := reg.rooms[roomId];
      room.queue == RemoveByUuid(old(room.queue), songUuid) &&
      room.currentSong == old(room.currentSong) &&
      events == [QueueUpdated(room.queue)]
    ensures roomId in reg.rooms ==>
      var room := reg.rooms[roomId];
      Bag(room) <= old(Bag(room)) && (old(UniqueUuids(room)) ==> UniqueUuids(room))
  {
    if roomId in reg.rooms {
      var room := reg.rooms[roomId];
      RemoveByUuidUuids(room.queue, songUuid);
      room.queue := RemoveByUuid(room.queue, songUuid);
      events := [QueueUpdated(room.queue)];
    } else {
      events := [];
    }
  }

  /** `move_in_queue`: with both indices inside the queue, take the entry at
      `oldIndex` out and insert it at `newIndex`; otherwise do nothing. */
  method MoveInQueue(reg: Registry, roomId: string, oldIndex: int, newIndex: int)
    returns (events: seq<Event>)
    requires reg.Valid()
    modifies reg.RoomFrame(roomId)
    ensures reg.Valid()
    ensures roomId !in reg.rooms ==> events == []
    ensures roomId in reg.rooms ==>
      var room := reg.rooms[roomId];
      var n := |old(room.queue)|;
      room.currentSong == old(room.currentSong) &&
      (0 <= oldIndex < n && 0 <= newIndex < n ==>
        room.queue == MoveIndex(old(room.queue), oldIndex, newIndex) &&
        events == [QueueUpdated(room.queue)]) &&
      (!(0 <= oldIndex < n && 0 <= newIndex < n) ==>
        room.queue == old(room.queue) && events == [])
    ensures roomId in reg.rooms ==>
      var room := reg.rooms[roomId];
      Bag(room) == old(Bag(room)) && (old(UniqueUuids(room)) ==> UniqueUuids(room))
  {
    events := [];
    if roomId in reg.rooms {
      var room := reg.rooms[roomId];
      if 0 <= oldIndex < |room.queue| && 0 <= newIndex < |room.queue| {
        MoveIndexUuids(room.queue, oldIndex, newIndex);
        room.queue := MoveIndex(room.queue, oldIndex, newIndex);
        events := [QueueUpdated(room.queue)];
      }
    }
  }

  /** `play_now`: take the first entry with the given uuid out of the queue
      and make it current, discarding the previous current song; announce it
      and broadcast the queue. An unknown uuid does nothing. */
  method PlayNow(reg: Registry, roomId: string, songUuid: string)
    returns (events: seq<Event>)
    requires reg.Valid()
    modifies reg.RoomFrame(roomId)
    ensures reg.Valid()
    ensures roomId !in reg.rooms ==> events == []
    ensures roomId in reg.rooms ==>
      var room := reg.rooms[roomId];
      var i := FindIndex(old(room.queue), songUuid);
      (i == -1 ==>
        room.queue == old(room.queue) && room.currentSong == old(room.currentSong) && events == []) &&
      (i != -1 ==>
        var song := old(room.queue)[i];
        room.queue == RemoveAt(old(room.queue), i) && room.currentSong == Some(song) &&
        events == [SingerAnnouncement(song), QueueUpdated(room.queue)])
    ensures roomId in reg.rooms ==>
      var room := reg.rooms[roomId];
      Bag(room) <= old(Bag(room)) && (old(UniqueUuids(room)) ==> UniqueUuids(room))
  {
    events := [];
    if roomId in reg.rooms {
      var room := reg.rooms[roomId];
      var i := FindIndex(room.queue, songUuid);
      if i != -1 {
        var song := room.queue[i];
        RemoveAtUuids(room.queue, i);
        room.queue := RemoveAt(room.queue, i);
        room.currentSong := Some(song);
        events := [SingerAnnouncement(song), QueueUpdated(room.queue)];
      }
    }
  }

  /** `play_next`: shift the head of the queue into the current slot and
      announce it; on an empty queue clear the current song and broadcast
      `now_playing(null)`. Either way the queue is broadcast afterwards. */
  method PlayNext(reg: Registry, roomId: string) returns (events: seq<Event>)
    requires reg.Valid()
    modifies reg.RoomFrame(roomId)
    ensures reg.Valid()
    ensures roomId !in reg.rooms ==> events == []
    ensures roomId in reg.rooms ==>
      var room := reg.rooms[roomId];
      (old(room.queue) != [] ==>
        var next := old(room.queue)[0];
        room.currentSong == Some(next) && room.queue == old(room.queue)[1..] &&
        events == [SingerAnnouncement(next), QueueUpdated(room.queue)]) &&
      (old(room.queue) == [] ==>
        room.currentSong == None && room.queue == [] &&
        events == [NowPlaying(None), QueueUpdated([])])
    ensures roomId in reg.rooms ==>
      var room := reg.rooms[roomId];
      Bag(room) <= old(Bag(room)) && (old(UniqueUuids(room)) ==> UniqueUuids(room))
  {
    events := [];
    if roomId in reg.rooms {
      var room := reg.rooms[roomId];
      if |room.queue| > 0 {
        var (next, rest) := Shift(room.queue);
        RemoveAtUuids(room.queue, 0);
        assert RemoveAt(room.queue, 0) == rest;
        room.queue := rest;
        room.currentSong := next;
        events := [SingerAnnouncement(next.value), QueueUpdated(room.queue)];
      } else {
        room.currentSong := None;
        events := [NowPlaying(None), QueueUpdated(room.queue)];
      }
    }
  }

  /** `start_performance`: re-broadcast the current song as now playing when
      the room exists and has one. Nothing is changed. */
  method StartPerformance(reg: Registry, roomId: string) returns (events: seq<Event>)
    ensures |events| <= 1
    ensures events != [] <==> roomId in reg.rooms && reg.rooms[roomId].currentSong != None
    ensures events != [] ==> events[0] == NowPlaying(reg.rooms[roomId].currentSong)
  {
    events := [];
    if roomId in reg.rooms && reg.rooms[roomId].currentSong != None {
      events := [NowPlaying(reg.rooms[roomId].currentSong)];
    }
  }

  /** `control_playback`: relay the action to the room. The handler does not
      consult the registry, so it broadcasts even for a room id that names
      no room, and it changes nothing. */
  method ControlPlayback(roomId: string, action: PlaybackCommand) returns (events: seq<Event>)
    ensures events == [PlaybackAction(action)]
  {
    events := [PlaybackAction(action)];
  }

  // ---------------------------------------------------------------------
  // Client scenarios: what a sequence of commands on a fresh room yields,
  // derived from the handlers' contracts alone.

  /** Enqueueing A then B on an idle room: A is announced and becomes the
      current song, B is then the only queued entry. */
  method EnqueueTwice(a: SongRequest, b: SongRequest, ua: string, ub: string, t1: int, t2: int,
                      token: string, socketId: string, now: int)
    returns (current: Option<Song>, queue: seq<Song>, first: seq<Event>, second: seq<Event>)
    ensures current == Some(NewSong(a, ua, t1)) && queue == [NewSong(b, ub, t2)]
    ensures first == [SingerAnnouncement(NewSong(a, ua, t1))]
    ensures second == [QueueUpdated([NewSong(b, ub, t2)])]
  {
    var reg := new Registry();
    var roomId := CreateRoom(reg, "Party", token, socketId, now);
    var reply;
    reply, first := AddToQueue(reg, roomId, a, ua, t1);
    reply, second := AddToQueue(reg, roomId, b, ub, t2);
    current, queue := reg.rooms[roomId].currentSong, reg.rooms[roomId].queue;
  }

  /** A registry holding one room, stored under its id, whose current song
      and queue are given: the state a test seeds before sending commands. */
  method Fixture(id: string, current: Song, queue: seq<Song>) returns (reg: Registry)
    ensures fresh(reg) && reg.Valid() && reg.rooms.Keys == {id}
    ensures fresh(reg.rooms[id])
    ensures reg.rooms[id].currentSong == Some(current) && reg.rooms[id].queue == queue
  {
    var room := new Room(id, "host", 0, None);
    room.currentSong := Some(current);
    room.queue := queue;
    reg := new Registry();
    reg.rooms := map[id := room];
  }

  /** A room whose queue is [A, B, C]: moving index 0 to index 2 gives
      [B, C, A] and one queue broadcast. */
  method MoveFirstToLast(id: string, cur: Song, a: Song, b: Song, c: Song)
    returns (queue: seq<Song>, events: seq<Event>)
    ensures queue == [b, c, a] && events == [QueueUpdated([b, c, a])]
  {
    var reg := Fixture(id, cur, [a, b, c]);
    assert MoveIndex([a, b, c], 0, 2) == [b, c, a];
    events := MoveInQueue(reg, id, 0, 2);
    queue := reg.rooms[id].queue;
  }

  /** A room with a current song and queue [X, Y]: advancing announces X
      and leaves [Y]; advancing twice more ends with no current song, a
      `now_playing(null)` and an empty queue broadcast. */
  method AdvanceThroughQueue(id: string, cur: Song, x: Song, y: Song)
    returns (afterFirst: Option<Song>, queueAfterFirst: seq<Song>, first: seq<Event>,
             afterLast: Option<Song>, last: seq<Event>)
    ensures afterFirst == Some(x) && queueAfterFirst == [y]
    ensures first == [SingerAnnouncement(x), QueueUpdated([y])]
    ensures afterLast == None && last == [NowPlaying(None), QueueUpdated([])]
  {
    var reg := Fixture(id, cur, [x, y]);
    first := PlayNext(reg, id);
    afterFirst, queueAfterFirst := reg.rooms[id].currentSong, reg.rooms[id].queue;
    var ev := PlayNext(reg, id);
    last := PlayNext(reg, id);
    afterLast := reg.rooms[id].currentSong;
  }
}
