/**
  The relay's shared state and the two collaborators that hold it: the socket
  server (rooms of live sockets, the connected sockets, and everything emitted to
  them) and the key-value store that keeps each presence channel's member list.
 */
module Relay {
  import opened Values

  type SocketId = string

  /**
    One presence record as the store holds it: the member's `user_id` and
    `user_info`, and the `socketId` that `join` writes into it.
   */
  datatype Member = Member(userId: Value, userInfo: Value, socketId: SocketId)

  /** Who an emit is addressed to: `io.to(room)`, or `socket.broadcast.to(room)` (the room without the sender). */
  datatype Target = Room(name: string) | Others(room: string, sender: SocketId)

  /** The arguments after the event name. */
  datatype Args =
    | MemberList(channel: string, members: seq<Member>)                // presence:subscribed
    | MemberArg(channel: string, member: Member)                       // presence:joining
    | DepartedArg(channel: string, userId: Value, userInfo: Value)     // presence:leaving, the record without its socketId
    | StatusArg(channel: string, status: int)                          // subscription_error
    | DataArg(channel: string, data: Value)                            // relayed application and client events

  /** One call of `emit(event, ...args)` on a target. */
  datatype Emission = Emission(target: Target, event: string, args: Args)

  const SubscribedEvent := "presence:subscribed"
  const JoiningEvent := "presence:joining"
  const LeavingEvent := "presence:leaving"
  const SubscriptionErrorEvent := "subscription_error"

  /** A message as the ingestion sources hand it to the dispatcher; `socket` is "" when no origin was given. */
  datatype Message = Message(event: string, data: Value, socket: string)

  /**
    Everything the core reads and writes, as one value: the store, the room
    membership, the connected sockets, and the log of emits so far.
   */
  datatype World = World(
    store: map<string, seq<Member>>,
    rooms: map<string, set<SocketId>>,
    connected: set<SocketId>,
    log: seq<Emission>)

  /** The sockets in a room; a room that does not exist has none. */
  function Occupants(rooms: map<string, set<SocketId>>, room: string): set<SocketId> {
    if room in rooms then rooms[room] else {}
  }

  /** `socket.join(room)`: the room is created if needed and gains the socket. */
  function RoomJoin(rooms: map<string, set<SocketId>>, socket: SocketId, room: string): map<string, set<SocketId>> {
    rooms[room := Occupants(rooms, room) + {socket}]
  }

  /** `socket.leave(room)`: the room loses the socket and disappears once empty; leaving a room not joined changes nothing. */
  function RoomLeave(rooms: map<string, set<SocketId>>, socket: SocketId, room: string): map<string, set<SocketId>> {
    if room !in rooms then rooms
    else if rooms[room] - {socket} == {} then rooms - {room}
    else rooms[room := rooms[room] - {socket}]
  }

  /** The sockets an emit reaches, with the rooms as they are when it is sent. */
  function Recipients(rooms: map<string, set<SocketId>>, target: Target): set<SocketId> {
    match target
    case Room(name) => Occupants(rooms, name)
    case Others(room, sender) => Occupants(rooms, room) - {sender}
  }

  /** No room is kept once its last socket is gone. */
  ghost predicate NoEmptyRoom(rooms: map<string, set<SocketId>>) {
    forall room :: room in rooms ==> rooms[room] != {}
  }

  /** Joining and leaving keep every room non-empty; joining adds exactly the joiner, leaving removes exactly the leaver. */
  lemma RoomUpdates(rooms: map<string, set<SocketId>>, socket: SocketId, room: string)
    requires NoEmptyRoom(rooms)
    ensures NoEmptyRoom(RoomJoin(rooms, socket, room)) && NoEmptyRoom(RoomLeave(rooms, socket, room))
    ensures Occupants(RoomJoin(rooms, socket, room), room) == Occupants(rooms, room) + {socket}
    ensures Occupants(RoomLeave(rooms, socket, room), room) == Occupants(rooms, room) - {socket}
    ensures forall other :: other != room ==>
      Occupants(RoomJoin(rooms, socket, room), other) == Occupants(rooms, other) &&
      Occupants(RoomLeave(rooms, socket, room), other) == Occupants(rooms, other)
  {
  }

  /** The HTTP response bodies of the edge endpoints. */
  datatype ChannelStats = ChannelStats(subscriptionCount: nat, occupied: bool, userCount: Option<nat>)
  datatype UserEntry = UserEntry(id: Value, userInfo: Value)
  datatype Body =
    | OkMessage(message: string)
    | ErrorMessage(error: string)
    | ChannelMap(channels: map<string, ChannelStats>)
    | ChannelInfo(stats: ChannelStats)
    | UserList(users: seq<UserEntry>)
  datatype Response = Response(status: int, body: Body)

  /**
    The socket server as the core uses it: room membership (`adapter.rooms`), the
    connected sockets (`io.sockets.connected`) and the emits sent so far.
   */
  class Io {
    var rooms: map<string, set<SocketId>>
    var connected: set<SocketId>
    var log: seq<Emission>

    constructor (rooms: map<string, set<SocketId>>, connected: set<SocketId>)
      ensures this.rooms == rooms && this.connected == connected && log == []
    {
      this.rooms := rooms;
      this.connected := connected;
      log := [];
    }

    /** `io.of('/').in(room).clients(...)`: the live sockets in the room. */
    function Clients(room: string): set<SocketId>
      reads this
    {
      Occupants(rooms, room)
    }

    method Join(socket: SocketId, room: string)
      modifies this
      ensures rooms == RoomJoin(old(rooms), socket, room)
      ensures connected == old(connected) && log == old(log)
    {
      rooms := RoomJoin(rooms, socket, room);
    }

    method Leave(socket: SocketId, room: string)
      modifies this
      ensures rooms == RoomLeave(old(rooms), socket, room)
      ensures connected == old(connected) && log == old(log)
    {
      rooms := RoomLeave(rooms, socket, room);
    }

    method Emit(e: Emission)
      modifies this
      ensures log == old(log) + [e]
      ensures rooms == old(rooms) && connected == old(connected)
    {
      log := log + [e];
    }
  }

  /** The key-value store; `Get` answers `None` (null) for a key never written. */
  class Database {
    var data: map<string, seq<Member>>

    constructor (data: map<string, seq<Member>>)
      ensures this.data == data
    {
      this.data := data;
    }

    method Get(key: string) returns (value: Option<seq<Member>>)
      ensures value == if key in data then Some(data[key]) else None
    {
      value := if key in data then Some(data[key]) else None;
    }

    method Set(key: string, value: seq<Member>)
      modifies this
      ensures data == old(data)[key := value]
    {
      data := data[key := value];
    }
  }
}
