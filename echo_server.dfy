/**
  The dispatcher: messages from the ingestion sources are emitted to a channel's
  room, without their originating socket when that socket is still connected,
  and the socket events of each connection (subscribe, unsubscribe,
  disconnecting, client event) are routed to the channel layer.
 */
module Echo {
  import opened Values
  import opened Relay
  import opened Presence
  import opened Channels

  /** `broadcast`'s choice: to the room without the origin when the origin is given and connected, else to the whole room. */
  function DispatchTarget(connected: set<SocketId>, channel: string, message: Message): Target {
    if message.socket != "" && message.socket in connected then Others(channel, message.socket)
    else Room(channel)
  }

  /** `broadcast(channel, message)`: one emit of the message's event with the channel and its data. */
  function AfterBroadcast(w: World, channel: string, message: Message): World {
    var target := DispatchTarget(w.connected, channel, message);
    w.(log := w.log + [Emission(target, message.event, DataArg(channel, message.data))])
  }

  /**
    A dispatched message reaches every socket of the channel's room except its
    origin, and the origin only when it is not connected (or not given); it is
    emitted once with the event name, the channel and the data, and nothing else
    changes.
   */
  lemma BroadcastReach(w: World, channel: string, message: Message)
    ensures var w' := AfterBroadcast(w, channel, message);
      w'.rooms == w.rooms && w'.store == w.store && w'.connected == w.connected &&
      |w'.log| == |w.log| + 1 && w'.log[..|w.log|] == w.log &&
      w'.log[|w.log|].event == message.event &&
      w'.log[|w.log|].args == DataArg(channel, message.data) &&
      Recipients(w.rooms, w'.log[|w.log|].target) ==
        (if message.socket != "" && message.socket in w.connected then Occupants(w.rooms, channel) - {message.socket}
         else Occupants(w.rooms, channel))
  {
  }

  /** The room name a socket event's `channel` field gives; a field that is not a string reads as no channel. */
  function ChannelField(data: Value): string {
    var channel := Get(data, "channel");
    if channel.Str? then channel.s else ""
  }

  /**
    The `disconnecting` handler: each room key of the socket, in key order, is left
    through the channel layer, except the socket's own room.
   */
  function LeaveRooms(w: World, socket: SocketId, keys: seq<string>): World
    decreases |keys|
  {
    if |keys| == 0 then w
    else
      var next := if keys[0] == socket then w else AfterChannelLeave(w, socket, keys[0]);
      LeaveRooms(next, socket, keys[1..])
  }

  /** One channel-layer leave: only the left room loses the socket, and only that channel's member list changes. */
  lemma ChannelLeaveFrame(w: World, socket: SocketId, channel: string, other: string)
    requires channel != ""
    ensures var w' := AfterChannelLeave(w, socket, channel);
      Occupants(w'.rooms, channel) == Occupants(w.rooms, channel) - {socket} &&
      (other != channel ==> Occupants(w'.rooms, other) == Occupants(w.rooms, other)) &&
      (other != channel ==> StoredList(w'.store, other) == StoredList(w.store, other)) &&
      (IsPresenceName(channel) ==> forall m :: m in StoredList(w'.store, channel) ==> m.socketId != socket)
  {
    var left := w.(rooms := RoomLeave(w.rooms, socket, channel));
    if IsPresenceName(channel) {
      LeaveFrame(left, socket, channel, other);
    }
  }

  /**
    After the `disconnecting` handler, the socket has left every room among the
    keys other than its own and the empty name, every other room is as before,
    and a channel not among the keys keeps its member list.
   */
  lemma {:induction false} LeaveRoomsRooms(w: World, socket: SocketId, keys: seq<string>, room: string)
    ensures Occupants(LeaveRooms(w, socket, keys).rooms, room) ==
      if room in keys && room != socket && room != "" then Occupants(w.rooms, room) - {socket}
      else Occupants(w.rooms, room)
    ensures room !in keys ==> StoredList(LeaveRooms(w, socket, keys).store, room) == StoredList(w.store, room)
    decreases |keys|
  {
    if |keys| > 0 {
      var next := if keys[0] == socket then w else AfterChannelLeave(w, socket, keys[0]);
      LeaveRoomsRooms(next, socket, keys[1..], room);
      assert room in keys <==> room == keys[0] || room in keys[1..];
      if keys[0] != socket && keys[0] != "" {
        ChannelLeaveFrame(w, socket, keys[0], room);
      }
    }
  }

  /** After the `disconnecting` handler, no presence channel among the keys keeps a record of the socket. */
  lemma {:induction false} LeaveRoomsDropsRecords(w: World, socket: SocketId, keys: seq<string>, room: string)
    requires room in keys && room != socket && IsPresenceName(room)
    ensures forall m :: m in StoredList(LeaveRooms(w, socket, keys).store, room) ==> m.socketId != socket
    decreases |keys|
  {
    var next := if keys[0] == socket then w else AfterChannelLeave(w, socket, keys[0]);
    if room in keys[1..] {
      LeaveRoomsDropsRecords(next, socket, keys[1..], room);
    } else {
      assert room == keys[0];
      ChannelLeaveFrame(w, socket, room, room);
      LeaveRoomsRooms(next, socket, keys[1..], room);
    }
  }

  /**
    When the keys are all the rooms the socket is in, the handler leaves it in no
    room but its own (and a room named by the empty string, which no join makes).
   */
  lemma DisconnectLeavesNoRoom(w: World, socket: SocketId, keys: seq<string>)
    requires forall room :: socket in Occupants(w.rooms, room) ==> room in keys
    ensures forall room :: socket in Occupants(LeaveRooms(w, socket, keys).rooms, room) ==> room == socket || room == ""
  {
    forall room | socket in Occupants(LeaveRooms(w, socket, keys).rooms, room)
      ensures room == socket || room == ""
    {
      LeaveRoomsRooms(w, socket, keys, room);
    }
  }

  /** The relay's dispatcher over the channel layer. */
  class EchoServer {
    const channel: Channel

    constructor (io: Io, db: Database, decode: Decoder)
      ensures channel.io == io && channel.presence.db == db && channel.decode == decode
      ensures Valid()
    {
      channel := new Channel(io, db, decode);
    }

    predicate Valid() {
      channel.Valid()
    }

    /** The state the dispatcher reads and writes. */
    function State(): World
      reads channel.presence.io, channel.presence.db
    {
      channel.State()
    }

    /** `find(socket_id)`: the connected socket of that id, if any. */
    method Find(socketId: string) returns (socket: Option<SocketId>)
      ensures socket.Some? <==> socketId in channel.io.connected
      ensures socket.Some? ==> socket.value == socketId
    {
      socket := if socketId in channel.io.connected then Some(socketId) else None;
    }

    /** `broadcast(channel, message)`, the callback every subscriber is bound to; it always answers true. */
    method Broadcast(room: string, message: Message) returns (sent: bool)
      requires Valid()
      modifies channel.io
      ensures sent
      ensures State() == AfterBroadcast(old(State()), room, message)
    {
      var origin: Option<SocketId> := None;
      if message.socket != "" {
        origin := Find(message.socket);
      }
      if origin.Some? {
        sent := ToOthers(origin.value, room, message);
      } else {
        sent := ToAll(room, message);
      }
    }

    /** `toOthers`: the emit to the room without the given socket. */
    method ToOthers(socket: SocketId, room: string, message: Message) returns (sent: bool)
      modifies channel.io
      ensures sent
      ensures channel.io.log == old(channel.io.log) + [Emission(Others(room, socket), message.event, DataArg(room, message.data))]
      ensures channel.io.rooms == old(channel.io.rooms) && channel.io.connected == old(channel.io.connected)
    {
      channel.io.Emit(Emission(Others(room, socket), message.event, DataArg(room, message.data)));
      sent := true;
    }

    /** `toAll`: the emit to the whole room. */
    method ToAll(room: string, message: Message) returns (sent: bool)
      modifies channel.io
      ensures sent
      ensures channel.io.log == old(channel.io.log) + [Emission(Room(room), message.event, DataArg(room, message.data))]
      ensures channel.io.rooms == old(channel.io.rooms) && channel.io.connected == old(channel.io.connected)
    {
      channel.io.Emit(Emission(Room(room), message.event, DataArg(room, message.data)));
      sent := true;
    }

    /** The `subscribe` handler, with the answer the authorisation call would give. */
    method OnSubscribe(socket: SocketId, data: Value, auth: AuthAnswer)
      requires Valid()
      modifies channel.io, channel.presence.db
      ensures State() == AfterChannelJoin(old(State()), socket, ChannelField(data), auth, channel.decode)
    {
      channel.Join(socket, ChannelField(data), auth);
    }

    /** The `unsubscribe` handler. */
    method OnUnsubscribe(socket: SocketId, data: Value)
      requires Valid()
      modifies channel.io, channel.presence.db
      ensures State() == AfterChannelLeave(old(State()), socket, ChannelField(data))
    {
      channel.Leave(socket, ChannelField(data));
    }

    /** The `disconnecting` handler, given the socket's room keys in their key order. */
    method OnDisconnecting(socket: SocketId, keys: seq<string>)
      requires Valid()
      modifies channel.io, channel.presence.db
      ensures State() == LeaveRooms(old(State()), socket, keys)
    {
      var k := 0;
      while k < |keys|
        invariant 0 <= k <= |keys|
        invariant LeaveRooms(State(), socket, keys[k..]) == LeaveRooms(old(State()), socket, keys)
      {
        assert keys[k..][1..] == keys[k + 1..];
        if keys[k] != socket {
          channel.Leave(socket, keys[k]);
        }
        k := k + 1;
      }
    }

    /** The `client event` handler. */
    method OnClientEvent(socket: SocketId, data: Value)
      requires Valid()
      modifies channel.io
      ensures State() == AfterClientEvent(old(State()), socket, data, channel.decode)
    {
      channel.ClientEvent(socket, data);
    }
  }
}
