# Room session engine of melody-mix, in Dafny

This project models the server side of a karaoke party room. A process-wide
registry maps room ids to rooms. Each room holds a queue of songs and an
optional current song. Socket commands change a room and broadcast events to
everyone in it:

- `create_room`, `join_room`, `add_to_queue`, `remove_from_queue`,
  `move_in_queue`, `play_now`, `play_next`, `start_performance`,
  `control_playback`;
- `singer_announcement`, `queue_updated`, `now_playing`, `playback_action`.

The HTTP routes create rooms through `createRoomInStore`, which the project
models as well.

Layout:

- `types.dfy` (module `Types`): `Song`, `Option`, the join snapshot
  `RoomState`, and the `Room` class. `queue` and `currentSong` are mutable
  fields. `id`, `hostId`, `createdAt` and `isPerforming` are constants,
  because nothing writes them after creation. `Room.Valid()` is the room
  invariant: with no current song, the queue is empty.
- `queue.dfy` (module `QueueOps`): the list operations the handlers use,
  stated on values: `filter` by uuid, `findIndex`, `splice` (remove one,
  insert one), the two-splice move and `shift`. It also has the lemmas that
  give them meaning, and the uuid multiset used for the uniqueness
  invariant.
- `store.dfy` (module `Store`): the room-id derivation, the `Registry`
  class (`rooms` and the two blacklist stores), and `createRoomInStore`.
- `socket.dfy` (module `Socket`): one method per command handler. Each one
  except `create_room` changes only the room named by the command, which is
  `Registry.RoomFrame`. `create_room` changes the registry itself: it
  rewrites the `rooms` map with the new room.
  It returns the room broadcasts in emission order, plus the
  acknowledgement when the command has one. Three client scenarios follow.

Inputs that the source takes from the environment are parameters:

- the base-36 rendering of `Math.random()` used for room ids (`token`);
- the uuid of a new queue entry;
- `Date.now()` (`now`);
- the connection id (`socketId`).

Properties proved:

- Every mutating handler keeps `Registry.Valid()`. Each room is stored under
  its own id, so distinct keys hold distinct rooms. Each room keeps the
  "no current song implies an empty queue" invariant.
- No handler except `add_to_queue` adds a uuid to a room; `move_in_queue`
  keeps the room's uuids exactly. When `add_to_queue` gets a uuid that is not
  already in the room, the "no uuid twice across queue and current song"
  invariant still holds.
- `join_room`, `start_performance` and `control_playback` have no `modifies`
  clause, so they change nothing.
- Every command except `control_playback` changes nothing and emits nothing
  when it names a missing room. Where the command has an acknowledgement, it
  is `Room not found`. `control_playback` never looks the room up, so it
  still broadcasts its `playback_action`.
- The filter, find and move operations have full characterisations: what the
  result contains, in what order, and that the move can be undone.

Behaviour worth noting:

- No handler reads or writes `isPerforming`. `start_performance` only
  re-broadcasts `now_playing` with the current song. Only `createRoomInStore`
  sets `isPerforming` to false; rooms made by `create_room` have no such field
  (`None`).
- The join acknowledgement carries the room record as stored. It has no
  restriction mode.
- `add_to_queue` decides whether to announce by looking only at
  `currentSong`, not at the queue.
- `control_playback` does not look the room up. It broadcasts even for a
  room id that names no room.
- There is no blacklist command. The blacklist stores are declared and never
  written, so the model keeps them as constant empty values. No restriction
  mode exists on the server.
- Room ids have no collision check. Creating a room whose id is already
  taken replaces the stored room.

## Model

| member | source | states |
|---|---|---|
| `Types.Room.constructor` | src/types/index.ts:10-17 | a new room has an empty queue, no current song, the given id, host, creation time and optional `isPerforming`, and satisfies the room invariant |
| `Types.Room.Snapshot` | src/pages/api/socket.ts:92 | the `roomState` sent to a joining client carries every field of the room as stored |
| `Socket.NewSong` | src/pages/api/socket.ts:106-110 | the new queue entry keeps the request's id, title, thumbnail and requester as sent, and carries the server's uuid and time |
| `QueueOps.FindIndex` | src/pages/api/socket.ts:160 | the result is -1 exactly when no entry has the uuid; otherwise it is the first position holding it |
| `QueueOps.RemoveByUuid` | src/pages/api/socket.ts:139 | the `filter` itself: the result has no entry with the uuid and keeps every other entry with its multiplicity |
| `QueueOps.RemoveByUuidOrder` | src/pages/api/socket.ts:139 | the filtered queue is a subsequence of the old queue, so the surviving entries keep their relative order |
| `QueueOps.RemoveByUuidIdempotent` | src/pages/api/socket.ts:139 | filtering twice by the same uuid equals filtering once |
| `QueueOps.RemoveByUuidUnchanged` | src/pages/api/socket.ts:139-140 | the filter leaves the queue unchanged if and only if no entry has the uuid |
| `QueueOps.Shift` | src/pages/api/socket.ts:181-182 | `shift()`: no head (`undefined`, stored as `null`) exactly for an empty queue, which stays empty; otherwise the head followed by the rest is the old queue |
| `QueueOps.RemoveAt` | src/pages/api/socket.ts:163 | `splice(i, 1)`: one shorter, the entries before `i` in place, the entries after `i` shifted down by one |
| `QueueOps.InsertAt` | src/pages/api/socket.ts:150 | `splice(i, 0, x)`: one longer, `x` at `i`, the entries before in place and the entries from `i` on shifted up by one |
| `QueueOps.MoveIndex` | src/pages/api/socket.ts:149-150 | the move itself (the two splices): same length, the moved entry at the new index |
| `QueueOps.MoveIndexSameIndex` | src/pages/api/socket.ts:149-150 | moving an entry onto its own index leaves the queue unchanged |
| `QueueOps.MoveIndexAt` | src/pages/api/socket.ts:148-150 | the move keeps the length, puts the moved entry at the new index, shifts the entries between the two indices by one, and leaves every other entry in place |
| `QueueOps.MoveIndexPermutation` | src/pages/api/socket.ts:149-150 | the moved queue is a permutation of the old queue |
| `QueueOps.MoveIndexInverse` | src/pages/api/socket.ts:149-150 | moving back from the new index to the old one restores the original queue |
| `QueueOps.RemoveAtMultiset` | src/pages/api/socket.ts:163 | removing the entry at `i` removes exactly that entry from the multiset of the queue |
| `QueueOps.InsertAtMultiset` | src/pages/api/socket.ts:150 | inserting `x` adds exactly `x` to the multiset of the queue |
| `QueueOps.RemoveByUuidUuids` | src/pages/api/socket.ts:139 | filtering by uuid adds no uuid to the queue |
| `QueueOps.RemoveAtUuids` | src/pages/api/socket.ts:163 | taking the entry at `i` out removes exactly its uuid from the queue's uuids |
| `QueueOps.MoveIndexUuids` | src/pages/api/socket.ts:149-150 | the move keeps the queue's uuids, with their multiplicities |
| `QueueOps.CurrentNotQueued` | src/pages/api/socket.ts:112-120 | when no uuid is repeated across the queue and the current song, the current song's uuid is in no queue entry |
| `Store.JsSubstring` | src/lib/store.ts:17 | `substring(start, end)`: both bounds clamped to the string, swapped if reversed; the result is the characters between them |
| `Store.UpperChar` | src/lib/store.ts:17 | upper-casing leaves no lower-case letter, shifts `a`-`z` to `A`-`Z` and keeps every other character |
| `Store.ToUpper` | src/lib/store.ts:17 | `toUpperCase`: same length, no lower-case letter left, every lower-case letter replaced by the letter 32 code points below it (`a`-`z` to `A`-`Z`), every character that is not a lower-case letter kept |
| `Store.RoomIdOf` | src/lib/store.ts:17 | the room id has at most 6 characters, exactly `min(len, 8) - 2` for tokens longer than 2, no lower-case letter, and is the upper-cased characters 2..7 of the token |
| `Store.RoomIdOfMockedRandom` | src/lib/store.test.ts:7-17 | with the random rendering starting `0.4fzzzx`, the room id is `4FZZZX` whatever follows |
| `Store.Registry.constructor` | src/lib/store.ts:11-13 | the registry starts with no rooms and with empty blacklist stores |
| `Store.Registry.CreateRoomInStore` | src/lib/store.ts:16-28 | the new room has the derived id, an empty queue, no current song, `isPerforming` false, the given host and the given time; the registry afterwards is the old one with that id mapped to the new room, every other key unchanged and any previous room under that id replaced; the room name plays no part |
| `Store.CreateRoomMockedRandom` | src/lib/store.test.ts:14-23 | the room-creation test: id `4FZZZX`, empty queue, no current song, host `host-1`, and the room is stored under its id |
| `Socket.CreateRoom` | src/pages/api/socket.ts:63-81 | `create_room` stores a fresh empty room without `isPerforming` under the derived id, replacing any room there, keeps every other entry, keeps the registry invariant, and returns the id |
| `Socket.JoinRoom` | src/pages/api/socket.ts:88-97 | the acknowledgement fails with `Room not found` exactly when the room is missing; otherwise it carries every field of the stored room |
| `Socket.AddToQueue` | src/pages/api/socket.ts:100-133 | with no current song, the new song becomes current, the queue stays empty and one `singer_announcement` is emitted; otherwise the song is appended at the tail, the current song is unchanged and one `queue_updated` with the full new queue is emitted; a missing room gives `Room not found` and no event; the room's uuids gain exactly the new uuid, and a uuid not already in the room keeps all uuids distinct |
| `Socket.RemoveFromQueue` | src/pages/api/socket.ts:136-142 | the queue becomes the uuid filter of the old one, the current song is unchanged, and `queue_updated` is emitted even when nothing matched; a missing room emits nothing; no uuid is added and uniqueness is kept |
| `Socket.MoveInQueue` | src/pages/api/socket.ts:145-154 | with both indices in bounds, the queue becomes the move of the old queue and one `queue_updated` is emitted; otherwise the queue is unchanged and nothing is emitted; the current song and the room's uuids are unchanged |
| `Socket.PlayNow` | src/pages/api/socket.ts:157-174 | with the uuid in the queue, the first matching entry leaves the queue and becomes current (the previous current song is dropped), and `singer_announcement` then `queue_updated` are emitted; with the uuid absent nothing changes and nothing is emitted; no uuid is added |
| `Socket.PlayNext` | src/pages/api/socket.ts:177-193 | a non-empty queue loses its head, which becomes current and is announced before `queue_updated`; an empty queue clears the current song and emits `now_playing(null)` then `queue_updated([])`; no uuid is added |
| `Socket.StartPerformance` | src/pages/api/socket.ts:196-201 | at most one event, emitted exactly when the room exists and has a current song: `now_playing` with that song; nothing changes |
| `Socket.ControlPlayback` | src/pages/api/socket.ts:204-206 | exactly one `playback_action` carrying the action, whether or not the room exists; nothing changes |
| `Socket.EnqueueTwice` | src/pages/api/socket.ts:112-120 | on an idle room, adding A then B makes A current (announced) and B the only queued entry |
| `Socket.MoveFirstToLast` | src/pages/api/socket.ts:148-151 | a queue [A, B, C] moved from 0 to 2 becomes [B, C, A], with one `queue_updated` |
| `Socket.AdvanceThroughQueue` | src/pages/api/socket.ts:180-190 | with queue [X, Y], `play_next` makes X current and leaves [Y]; two more calls end with no current song, `now_playing(null)` and an empty `queue_updated` |

## Left out

- Transport plumbing is not modelled: the socket.io server set-up, `socket.join`, the `onAny` debug logging, `disconnect`, `res.end()` and console output. Broadcasts are the returned event lists; who receives them is not modelled.
- `room_created` is not modelled. `create_room` also sends this event, with the same `{roomId}` as its acknowledgement, to the creating connection only. The model returns the room id once.
- Optional callbacks are not modelled. The source sends an acknowledgement only when the client passed a callback function; the model always returns it. `join_room` calls its callback without checking, so a `join_room` sent without a callback throws a `TypeError` in the handler (src/pages/api/socket.ts:92 and :95); the model does not represent that failure. No room state and no broadcast depends on it.
- Random and clock inputs are parameters. The model does not convert `Math.random()` to base 36, and takes the uuid directly rather than deriving it with `substring(7)`.
- Inherited keys are not modelled. `rooms` is a plain JavaScript object, so a room id such as `constructor` finds an inherited value that the source treats as a room. The model treats only stored keys as rooms.
- Payload validation is not modelled. Indices are integers; a fractional or NaN index, which JavaScript would truncate or reject by comparison, is not. Actions are `play` or `pause`, as the source's type declares. Malformed payloads from clients are not.
- Broadcast payloads are values. `queue_updated` passes the live array; the model records the queue as it is at emission.
- `Store.UpperChar`: only ASCII letters are upper-cased. Full Unicode case mapping is not modelled, because a base-36 rendering holds only digits, `a`-`z` and `.`.
- `Socket.AddToQueue`: uuid uniqueness is proved only when the supplied uuid is new to the room. The source draws it at random and never checks it.
- Uniqueness of uuids across different rooms is not stated. The handlers only ever touch one room.
- Blacklist filtering, the restriction mode and the search route are not modelled. No server code applies the blacklists or has a restriction mode, and the search route is an external HTTP call.
- The HTTP room-creation wrappers and all client code are not part of this model. They are glue around `createRoomInStore` and rendering.
