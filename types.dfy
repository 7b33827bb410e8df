/** Shared data types of the room session engine: songs, the optional
    "current song" slot, and the mutable room record held by the registry. */
module Types {

  datatype Option<T> = None | Some(value: T)

  /** One queued request to perform a video. `id` is the external video
      identifier; `uuid` is the queue-entry identifier that every targeted
      command (remove, play now) uses. */
  datatype Song = Song(
    id: string,
    title: string,
    thumbnail: string,
    addedBy: string,
    addedAt: int,
    uuid: string)

  /** The value a joining client receives as `roomState`: every field of the
      room at the moment of the join. */
  datatype RoomState = RoomState(
    id: string,
    queue: seq<Song>,
    currentSong: Option<Song>,
    hostId: string,
    createdAt: int,
    isPerforming: Option<bool>)

  /** A room of the registry. The command handlers update `queue` and
      `currentSong` in place; nothing ever writes the other fields after
      creation, so they are constants. `isPerforming` is an optional field:
      rooms made by the socket's own `create_room` do not carry it. */
  class Room {
    const id: string
    var queue: seq<Song>
    var currentSong: Option<Song>
    const hostId: string
    const createdAt: int
    const isPerforming: Option<bool>

    constructor (id: string, hostId: string, createdAt: int, isPerforming: Option<bool>)
      ensures this.id == id && this.hostId == hostId && this.createdAt == createdAt
      ensures this.isPerforming == isPerforming
      ensures queue == [] && currentSong == None
      ensures Valid()
    {
      this.id := id;
      this.hostId := hostId;
      this.createdAt := createdAt;
      this.isPerforming := isPerforming;
      queue := [];
      currentSong := None;
    }

    /** The room invariant every handler keeps: a waiting queue only exists
        while some song is current. */
    ghost predicate Valid()
      reads this
    {
      currentSong.None? ==> queue == []
    }

    /** The room as it is serialised into a join acknowledgement. */
    function Snapshot(): (s: RoomState)
      reads this
      ensures s.id == id && s.queue == queue && s.currentSong == currentSong
      ensures s.hostId == hostId && s.createdAt == createdAt && s.isPerforming == isPerforming
    {
      RoomState(id, queue, currentSong, hostId, createdAt, isPerforming)
    }
  }
}
