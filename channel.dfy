/**
  The channel layer: which channel names need authorisation, which events a
  client may relay, and the join, leave and client-event flows that tie the
  socket server's rooms to the presence registry.

  The outcome of the authorisation call a private join makes is an input
  (`AuthAnswer`); the call itself is not part of this model.
 */
module Channels {
  import opened Values
  import opened Seqs
  import opened Relay
  import opened Presence

  /** The patterns of channels that need authorisation. */
  const PrivateChannels: seq<string> := ["private-*", "presence-*"]

  /** The patterns of events a client may relay. */
  const ClientEvents: seq<string> := ["client-*"]

  /**
    A pattern of the form `text*` is turned into the regular expression `text.*`
    and tested without anchors, so it matches exactly the names in which `text`
    occurs somewhere. `Stem` is that `text`.
   */
  function Stem(pattern: string): string {
    if |pattern| > 0 && pattern[|pattern| - 1] == '*' then pattern[..|pattern| - 1] else pattern
  }

  /** `new RegExp(pattern.replace('*', '.*')).test(name)` for the patterns above. */
  predicate PatternMatches(pattern: string, name: string) {
    Contains(name, Stem(pattern))
  }

  /** Some pattern of the list matches the name. */
  predicate MatchesSome(patterns: seq<string>, name: string) {
    exists i :: 0 <= i < |patterns| && PatternMatches(patterns[i], name)
  }

  /** A channel needs authorisation when "private-" or "presence-" occurs in its name. */
  predicate IsPrivateName(name: string) {
    Contains(name, "private-") || Contains(name, "presence-")
  }

  /** A presence channel's name starts with "presence-". */
  predicate IsPresenceName(name: string) {
    StartsWith(name, "presence-")
  }

  /** A client may relay an event when "client-" occurs in its name. */
  predicate IsClientEventName(event: string) {
    Contains(event, "client-")
  }

  /** What the authorisation call answers: the channel data on success, the HTTP status on failure. */
  datatype AuthAnswer = Granted(channelData: Value) | Denied(status: int)

  /** Every presence channel is a private channel. */
  lemma PresenceIsPrivate(name: string)
    requires IsPresenceName(name)
    ensures IsPrivateName(name)
  {
    assert OccursAt(name, "presence-", 0);
    ContainsIff(name, "presence-");
  }

  /** The private test is a substring test, not a prefix test. */
  lemma PrivateNameIff(name: string)
    ensures IsPrivateName(name) <==> exists i :: OccursAt(name, "private-", i) || OccursAt(name, "presence-", i)
  {
    ContainsIff(name, "private-");
    ContainsIff(name, "presence-");
  }

  /** A plain name needs no authorisation and is not a presence channel. */
  lemma PublicNameExample()
    ensures !IsPrivateName("chat") && !IsPresenceName("chat")
  {
  }

  /** A `private-` channel is private and not a presence channel. */
  lemma PrivateNameExample()
    ensures IsPrivateName("private-chat") && !IsPresenceName("private-chat")
  {
    assert StartsWith("private-chat", "private-");
    assert "private-chat"[..9][2] != "presence-"[2];
  }

  /** A `presence-` channel is both a presence channel and private. */
  lemma PresenceNameExample()
    ensures IsPrivateName("presence-room") && IsPresenceName("presence-room")
  {
    assert "presence-room"[..9] == "presence-";
    PresenceIsPrivate("presence-room");
  }

  /** Because the test is unanchored, `private-` in the middle of a name makes it private; it is still not a presence channel. */
  lemma InfixPrivateNameExample()
    ensures IsPrivateName("my-private-room") && !IsPresenceName("my-private-room")
  {
    assert OccursAt("my-private-room", "private-", 3);
    ContainsIff("my-private-room", "private-");
    assert "my-private-room"[..9][0] != "presence-"[0];
  }

  /** `client-typing` is a client event and `typing` is not. */
  lemma ClientEventExample()
    ensures IsClientEventName("client-typing") && !IsClientEventName("typing")
  {
    assert StartsWith("client-typing", "client-");
  }

  /** The `forEach` over a pattern list: the flag ends up set exactly when some pattern matches. */
  method AnyPatternMatches(patterns: seq<string>, name: string) returns (matched: bool)
    ensures matched == MatchesSome(patterns, name)
  {
    matched := false;
    var k := 0;
    while k < |patterns|
      invariant 0 <= k <= |patterns|
      invariant matched == exists i :: 0 <= i < k && PatternMatches(patterns[i], name)
    {
      if PatternMatches(patterns[k], name) {
        matched := true;
      }
      k := k + 1;
    }
  }

  /**
    `join(socket, data)`. An empty channel name does nothing; a public channel is
    joined at once; a private channel goes through authorisation.
   */
  function AfterChannelJoin(w: World, socket: SocketId, channel: string, auth: AuthAnswer, decode: Decoder): World {
    if channel == "" then w
    else if !IsPrivateName(channel) then w.(rooms := RoomJoin(w.rooms, socket, channel))
    else AfterJoinPrivate(w, socket, channel, auth, decode)
  }

  /**
    `joinPrivate(socket, data)`. A refusal sends subscription_error with the status
    to the socket alone and joins nothing. On success the socket joins the room,
    and for a presence channel the channel data, decoded when it is a JSON string,
    is the member handed to the presence registry.
   */
  function AfterJoinPrivate(w: World, socket: SocketId, channel: string, auth: AuthAnswer, decode: Decoder): World {
    match auth
    case Denied(status) =>
      w.(log := w.log + [Emission(Room(socket), SubscriptionErrorEvent, StatusArg(channel, status))])
    case Granted(channelData) =>
      var joined := w.(rooms := RoomJoin(w.rooms, socket, channel));
      if IsPresenceName(channel) then AfterJoin(joined, socket, channel, Reparse(channelData, decode))
      else joined
  }

  /**
    `leave(socket, channel, reason)`. The room is left at once; the presence
    registry's leave, which waits for the store, then sees the room without the
    socket.
   */
  function AfterChannelLeave(w: World, socket: SocketId, channel: string): World {
    if channel == "" then w
    else
      var left := w.(rooms := RoomLeave(w.rooms, socket, channel));
      if IsPresenceName(channel) then AfterLeave(left, socket, channel) else left
  }

  /** The client-event payload, decoded when it is a JSON string. */
  function ClientPayload(payload: Value, decode: Decoder): Value {
    Reparse(payload, decode)
  }

  /**
    The sender of a client event may relay it: the event and channel are non-empty
    strings, the event is a client event, the channel is private, and the sender
    is connected and in the channel's room. A field that is not a string never
    passes, since its text form contains neither "client-" nor "private-"/"presence-".
   */
  predicate MayRelay(w: World, socket: SocketId, data: Value) {
    var event, channel := Get(data, "event"), Get(data, "channel");
    Truthy(event) && Truthy(channel) && event.Str? && channel.Str? &&
    IsClientEventName(event.s) && IsPrivateName(channel.s) &&
    socket in Occupants(w.rooms, channel.s) && socket in w.connected
  }

  /** `clientEvent(socket, data)`: a permitted event goes to the channel's room without the sender. */
  function AfterClientEvent(w: World, socket: SocketId, payload: Value, decode: Decoder): World {
    var data := ClientPayload(payload, decode);
    if MayRelay(w, socket, data) then
      var channel := Get(data, "channel").s;
      w.(log := w.log + [Emission(Others(channel, socket), Get(data, "event").s, DataArg(channel, Get(data, "data")))])
    else w
  }

  /**
    A client event is relayed, exactly when it may be, as one emit of the event
    name with the channel and the `data` field, reaching the other sockets of the
    channel's room and never the sender; nothing but the log changes.
   */
  lemma ClientEventRule(w: World, socket: SocketId, payload: Value, decode: Decoder)
    ensures var w', data := AfterClientEvent(w, socket, payload, decode), ClientPayload(payload, decode);
      w'.rooms == w.rooms && w'.store == w.store &&
      (MayRelay(w, socket, data) <==> |w'.log| == |w.log| + 1) &&
      (!MayRelay(w, socket, data) ==> w'.log == w.log) &&
      (MayRelay(w, socket, data) ==>
        w'.log[..|w.log|] == w.log &&
        w'.log[|w.log|].event == Get(data, "event").s &&
        w'.log[|w.log|].args == DataArg(Get(data, "channel").s, Get(data, "data")) &&
        Recipients(w.rooms, w'.log[|w.log|].target) == Occupants(w.rooms, Get(data, "channel").s) - {socket} &&
        socket !in Recipients(w.rooms, w'.log[|w.log|].target))
  {
  }

  /** A denied private join leaves rooms and store alone and tells only the socket, with the status. */
  lemma DeniedJoinRule(w: World, socket: SocketId, channel: string, status: int, decode: Decoder)
    requires channel != "" && IsPrivateName(channel)
    ensures var w' := AfterChannelJoin(w, socket, channel, Denied(status), decode);
      w'.rooms == w.rooms && w'.store == w.store &&
      w'.log == w.log + [Emission(Room(socket), SubscriptionErrorEvent, StatusArg(channel, status))]
  {
  }

  /** A presence join along the successful path: the room is joined and the registry admits the member. */
  lemma {:induction false} AdmitRule(w: World, socket: SocketId, channel: string, channelData: Value, decode: Decoder)
    requires IsPresenceName(channel)
    ensures AfterChannelJoin(w, socket, channel, Granted(channelData), decode) ==
      AfterJoin(w.(rooms := RoomJoin(w.rooms, socket, channel)), socket, channel, Reparse(channelData, decode))
  {
    PresenceIsPrivate(channel);
  }

  /**
    A second connection of the same user is not announced: after one socket of a
    user has joined a presence channel, another socket joining it for the same
    `user_id` gets presence:subscribed and nobody gets presence:joining.
   */
  lemma SecondConnectionNotAnnounced(w: World, first: SocketId, second: SocketId, channel: string,
                                     data1: Value, data2: Value, decode: Decoder)
    requires IsPresenceName(channel)
    requires Reparse(data1, decode).Obj? && Reparse(data2, decode).Obj?
    requires Get(Reparse(data1, decode), "user_id") == Get(Reparse(data2, decode), "user_id")
    ensures var w1 := AfterChannelJoin(w, first, channel, Granted(data1), decode);
      var w2 := AfterChannelJoin(w1, second, channel, Granted(data2), decode);
      |w2.log| == |w1.log| + 1 && w2.log[|w1.log|].event == SubscribedEvent
  {
    var m1, m2 := Reparse(data1, decode), Reparse(data2, decode);
    var j1 := w.(rooms := RoomJoin(w.rooms, first, channel));
    AdmitRule(w, first, channel, data1, decode);
    var w1 := AfterJoin(j1, first, channel, m1);
    AdmitRule(w1, second, channel, data2, decode);
    var j2 := w1.(rooms := RoomJoin(w1.rooms, second, channel));
    JoinStoresReconciledPlusOne(j1, first, channel, m1);
    var stored1 := StoredList(w1.store, channel);
    var record := stored1[|stored1| - 1];
    assert record in stored1;
    assert record.socketId in Occupants(j2.rooms, channel);
    assert StoredList(j2.store, channel) == stored1;
    IsMemberIff(j2, channel, Get(m2, "user_id"));
    JoiningIffFirstConnection(j2, second, channel, m2);
  }

  /** Leaving the room just joined restores the rooms, given no room is kept empty and the socket was not in it. */
  lemma JoinLeaveRooms(rooms: map<string, set<SocketId>>, socket: SocketId, room: string)
    requires NoEmptyRoom(rooms) && socket !in Occupants(rooms, room)
    ensures RoomLeave(RoomJoin(rooms, socket, room), socket, room) == rooms
  {
    var joined := RoomJoin(rooms, socket, room);
    if room in rooms {
      assert joined[room] - {socket} == rooms[room];
      assert joined[room := rooms[room]] == rooms;
    } else {
      assert joined[room] - {socket} == {};
      assert joined - {room} == rooms;
    }
  }

  /** Joining the room changes no record's liveness when the socket had no stored record. */
  lemma JoinedRoomSameLive(w: World, socket: SocketId, channel: string)
    requires forall m :: m in StoredList(w.store, channel) ==> m.socketId != socket
    ensures LiveList(w.(rooms := RoomJoin(w.rooms, socket, channel)), channel) == LiveList(w, channel)
  {
    var stored, clients := StoredList(w.store, channel), Occupants(w.rooms, channel);
    forall i | 0 <= i < |stored|
      ensures (stored[i].socketId in clients + {socket}) == (stored[i].socketId in clients)
    {
      assert stored[i] in stored;
    }
    FilterAgree(stored, (m: Member) => m.socketId in clients + {socket}, (m: Member) => m.socketId in clients);
  }

  /** After a presence join of a socket without a record, the list is the reconciled list and its record, every socket of it is in the room, and only the new record has the joiner's socket. */
  lemma JoinFacts(w: World, w1: World, socket: SocketId, channel: string, channelData: Value, decode: Decoder)
    requires IsPresenceName(channel) && Reparse(channelData, decode).Obj?
    requires forall m :: m in StoredList(w.store, channel) ==> m.socketId != socket
    requires w1 == AfterChannelJoin(w, socket, channel, Granted(channelData), decode)
    ensures var s1, live := StoredList(w1.store, channel), LiveList(w, channel);
      s1 == live + [JoinRecord(Reparse(channelData, decode), socket)] &&
      w1.rooms == RoomJoin(w.rooms, socket, channel) &&
      (forall i :: 0 <= i < |s1| ==> s1[i].socketId in Occupants(w1.rooms, channel)) &&
      (forall i :: 0 <= i < |s1| && i != |live| ==> s1[i].socketId != socket)
  {
    var live, record := LiveList(w, channel), JoinRecord(Reparse(channelData, decode), socket);
    LiveSockets(w, channel, socket);
    JoinAppends(w, socket, channel, channelData, decode);
    assert Occupants(w1.rooms, channel) == Occupants(w.rooms, channel) + {socket};
    forall i | 0 <= i < |live + [record]|
      ensures (live + [record])[i].socketId in Occupants(w1.rooms, channel)
      ensures i != |live| ==> (live + [record])[i].socketId != socket
    {
      if i < |live| { assert (live + [record])[i] == live[i]; }
    }
  }

  /**
    Joining a presence channel and leaving it again is a round trip: the rooms are
    as before, the stored list is the reconciled list from before the join, and
    presence:leaving is sent exactly when the user has no other live record, with
    the `user_id` and `user_info` the join stored.
   */
  lemma JoinThenLeave(w: World, socket: SocketId, channel: string, channelData: Value, decode: Decoder)
    requires IsPresenceName(channel) && Reparse(channelData, decode).Obj?
    requires NoEmptyRoom(w.rooms) && socket !in Occupants(w.rooms, channel)
    requires forall m :: m in StoredList(w.store, channel) ==> m.socketId != socket
    ensures var member := Reparse(channelData, decode);
      var w1 := AfterChannelJoin(w, socket, channel, Granted(channelData), decode);
      var w2 := AfterChannelLeave(w1, socket, channel);
      var u := Get(member, "user_id");
      w2.rooms == w.rooms &&
      StoredList(w2.store, channel) == LiveList(w, channel) &&
      w2.log == w1.log +
        (if HasUser(LiveList(w, channel), u) then []
         else [Emission(Room(channel), LeavingEvent, DepartedArg(channel, u, Get(member, "user_info")))])
  {
    var w1 := AfterChannelJoin(w, socket, channel, Granted(channelData), decode);
    var live, record := LiveList(w, channel), JoinRecord(Reparse(channelData, decode), socket);
    JoinFacts(w, w1, socket, channel, channelData, decode);
    LeaveLiveRecord(w1, socket, channel, |live|);
    CutAppended(live, record);
    JoinLeaveRooms(w.rooms, socket, channel);
  }

  /** Appending two records one after the other appends the pair (a step of `TwoConnectionsAnnounceOnce`). */
  lemma AppendPair(s: seq<Member>, x: Member, y: Member)
    ensures (s + [x]) + [y] == s + [x, y]
  {
  }

  /** Cutting out the appended record gives back the list (a step of `JoinThenLeave` and `TwoLeaves`). */
  lemma CutAppended(s: seq<Member>, x: Member)
    ensures (s + [x])[..|s|] + (s + [x])[|s| + 1..] == s
  {
    assert (s + [x])[..|s|] == s;
  }

  /** Cutting out the first of two appended records leaves the second (a step of `TwoLeaves`). */
  lemma CutBeforeLast(s: seq<Member>, x: Member, y: Member)
    ensures (s + [x, y])[..|s|] + (s + [x, y])[|s| + 1..] == s + [y]
  {
    assert (s + [x, y])[..|s|] == s;
    assert (s + [x, y])[|s| + 1..] == [y];
  }

  /** `leave` finds the record at the socket's first index. */
  lemma RecordFoundAt(s: seq<Member>, k: int, socket: SocketId)
    requires 0 <= k < |s| && s[k].socketId == socket
    requires forall j :: 0 <= j < k ==> s[j].socketId != socket
    ensures RecordOf(s, socket) == Some(s[k])
  {
    FindFirstIff(s, (m: Member) => m.socketId == socket);
    var i :| 0 <= i < |s| && s[i] == RecordOf(s, socket).value && s[i].socketId == socket &&
      forall j :: 0 <= j < i ==> s[j].socketId != socket;
    assert i == k;
  }

  /** A record whose socket is the only one at its index is removed alone. */
  lemma WithoutSocketAt(s: seq<Member>, k: int)
    requires 0 <= k < |s|
    requires forall i :: 0 <= i < |s| && i != k ==> s[i].socketId != s[k].socketId
    ensures WithoutSocket(s, s[k].socketId) == s[..k] + s[k + 1..]
  {
    var socket := s[k].socketId;
    assert s == s[..k] + [s[k]] + s[k + 1..];
    FilterDropsOne(s[..k], s[k], s[k + 1..], (m: Member) => m.socketId != socket);
  }

  /** Reconciling a list all of whose sockets are in the room keeps it whole. */
  lemma AllLive(w: World, channel: string)
    requires forall i :: 0 <= i < |StoredList(w.store, channel)| ==> StoredList(w.store, channel)[i].socketId in Occupants(w.rooms, channel)
    ensures LiveList(w, channel) == StoredList(w.store, channel)
  {
    FilterKeepsAll(StoredList(w.store, channel), (m: Member) => m.socketId in Occupants(w.rooms, channel));
  }

  /**
    Leaving a presence channel from a socket that has exactly one record, with every
    stored socket still in the room: the room loses the socket, the list loses just
    that record, and presence:leaving goes to the room exactly when no other record
    of the user is left.
   */
  lemma LeaveLiveRecord(w: World, socket: SocketId, channel: string, k: int)
    requires IsPresenceName(channel)
    requires 0 <= k < |StoredList(w.store, channel)| && StoredList(w.store, channel)[k].socketId == socket
    requires forall i :: 0 <= i < |StoredList(w.store, channel)| && i != k ==> StoredList(w.store, channel)[i].socketId != socket
    requires forall i :: 0 <= i < |StoredList(w.store, channel)| ==> StoredList(w.store, channel)[i].socketId in Occupants(w.rooms, channel)
    ensures var s, w' := StoredList(w.store, channel), AfterChannelLeave(w, socket, channel);
      var rest := s[..k] + s[k + 1..];
      w'.rooms == RoomLeave(w.rooms, socket, channel) &&
      Occupants(w'.rooms, channel) == Occupants(w.rooms, channel) - {socket} &&
      StoredList(w'.store, channel) == rest &&
      w'.log == w.log + (if HasUser(rest, s[k].userId) then []
                         else [Emission(Room(channel), LeavingEvent, DepartedArg(channel, s[k].userId, s[k].userInfo))])
  {
    var s := StoredList(w.store, channel);
    var rest := s[..k] + s[k + 1..];
    var left := w.(rooms := RoomLeave(w.rooms, socket, channel));
    assert Occupants(left.rooms, channel) == Occupants(w.rooms, channel) - {socket};
    RecordFoundAt(s, k, socket);
    WithoutSocketAt(s, k);
    var w1 := left.(store := left.store[MembersKey(channel) := rest]);
    forall i | 0 <= i < |rest| ensures rest[i].socketId in Occupants(w1.rooms, channel) {
      if i < k { assert rest[i] == s[i]; } else { assert rest[i] == s[i + 1]; }
    }
    AllLive(w1, channel);
  }

  /** A presence join of a socket with no stored record appends its record to the reconciled list and joins the room. */
  lemma JoinAppends(w: World, socket: SocketId, channel: string, channelData: Value, decode: Decoder)
    requires IsPresenceName(channel) && Reparse(channelData, decode).Obj?
    requires forall m :: m in StoredList(w.store, channel) ==> m.socketId != socket
    ensures var w' := AfterChannelJoin(w, socket, channel, Granted(channelData), decode);
      StoredList(w'.store, channel) == LiveList(w, channel) + [JoinRecord(Reparse(channelData, decode), socket)] &&
      w'.rooms == RoomJoin(w.rooms, socket, channel)
  {
    AdmitRule(w, socket, channel, channelData, decode);
    JoinedRoomSameLive(w, socket, channel);
  }

  /** The length and the second new entry of a log that gains one emit and then some more (a step of `FirstJoinAnnounced`). */
  lemma LogAppend(log: seq<Emission>, e: Emission, rest: seq<Emission>)
    ensures |log + [e] + rest| == |log| + 1 + |rest|
    ensures |rest| > 0 ==> (log + [e] + rest)[|log| + 1] == rest[0]
  {
  }

  /** The first connection of a user is announced, to the room without the joiner, unless the joiner is no longer connected. */
  lemma FirstJoinAnnounced(w: World, socket: SocketId, channel: string, channelData: Value, decode: Decoder)
    requires IsPresenceName(channel) && Reparse(channelData, decode).Obj?
    requires forall m :: m in StoredList(w.store, channel) ==> m.socketId != socket
    requires !HasUser(LiveList(w, channel), Get(Reparse(channelData, decode), "user_id"))
    ensures var w' := AfterChannelJoin(w, socket, channel, Granted(channelData), decode);
      |w'.log| == |w.log| + (if socket in w.connected then 2 else 1) &&
      (socket in w.connected ==>
        w'.log[|w.log| + 1] == Emission(Others(channel, socket), JoiningEvent, MemberArg(channel, JoinRecord(Reparse(channelData, decode), socket))))
  {
    var member := Reparse(channelData, decode);
    var record := JoinRecord(member, socket);
    var live := LiveList(w, channel);
    AdmitRule(w, socket, channel, channelData, decode);
    JoinedRoomSameLive(w, socket, channel);
    var subscribed := Emission(Room(socket), SubscribedEvent, MemberList(channel, Roster(live + [record])));
    var joining := if socket in w.connected then [Emission(Others(channel, socket), JoiningEvent, MemberArg(channel, record))] else [];
    assert AfterChannelJoin(w, socket, channel, Granted(channelData), decode).log == w.log + [subscribed] + joining;
    LogAppend(w.log, subscribed, joining);
  }

  /** A presence join onto a list that is all live and has no record of the joiner appends the joiner's record, and the list stays all live. */
  lemma JoinAppendsLive(w: World, socket: SocketId, channel: string, channelData: Value, decode: Decoder)
    requires IsPresenceName(channel) && Reparse(channelData, decode).Obj?
    requires forall i :: 0 <= i < |StoredList(w.store, channel)| ==>
      (StoredList(w.store, channel)[i].socketId in Occupants(w.rooms, channel) && StoredList(w.store, channel)[i].socketId != socket)
    ensures var w' := AfterChannelJoin(w, socket, channel, Granted(channelData), decode);
      StoredList(w'.store, channel) == StoredList(w.store, channel) + [JoinRecord(Reparse(channelData, decode), socket)] &&
      Occupants(w'.rooms, channel) == Occupants(w.rooms, channel) + {socket}
  {
    var stored := StoredList(w.store, channel);
    forall m | m in stored ensures m.socketId != socket {
      var i :| 0 <= i < |stored| && stored[i] == m;
    }
    JoinAppends(w, socket, channel, channelData, decode);
    AllLive(w, channel);
  }

  /** Every reconciled record has a socket in the room, and none has a socket that had no stored record. */
  lemma LiveSockets(w: World, channel: string, absent: SocketId)
    requires forall m :: m in StoredList(w.store, channel) ==> m.socketId != absent
    ensures forall i :: 0 <= i < |LiveList(w, channel)| ==>
      (LiveList(w, channel)[i].socketId in Occupants(w.rooms, channel) && LiveList(w, channel)[i].socketId != absent)
  {
    var live := LiveList(w, channel);
    FilterMembers(StoredList(w.store, channel), (m: Member) => m.socketId in Occupants(w.rooms, channel));
    forall i | 0 <= i < |live| ensures live[i].socketId in Occupants(w.rooms, channel) && live[i].socketId != absent {
      assert live[i] in live;
    }
  }

  /** Appending a record of a new socket to records of the room's sockets gives records of the room and that socket. */
  lemma AppendedSockets(live: seq<Member>, record: Member, clients: set<SocketId>, absent: SocketId)
    requires record.socketId != absent
    requires forall i :: 0 <= i < |live| ==> (live[i].socketId in clients && live[i].socketId != absent)
    ensures forall i :: 0 <= i < |live + [record]| ==>
      ((live + [record])[i].socketId in clients + {record.socketId} && (live + [record])[i].socketId != absent)
  {
    forall i | 0 <= i < |live + [record]|
      ensures (live + [record])[i].socketId in clients + {record.socketId} && (live + [record])[i].socketId != absent
    {
      if i < |live| { assert (live + [record])[i] == live[i]; }
    }
  }

  /** After a first join, the list is the reconciled list and the joiner's record, all live and without a record of a second socket. */
  lemma FirstJoinFacts(w: World, w1: World, a: SocketId, b: SocketId, channel: string, dataA: Value, decode: Decoder)
    requires IsPresenceName(channel) && a != b && Reparse(dataA, decode).Obj?
    requires forall m :: m in StoredList(w.store, channel) ==> m.socketId != a && m.socketId != b
    requires w1 == AfterChannelJoin(w, a, channel, Granted(dataA), decode)
    ensures StoredList(w1.store, channel) == LiveList(w, channel) + [JoinRecord(Reparse(dataA, decode), a)]
    ensures Occupants(w1.rooms, channel) == Occupants(w.rooms, channel) + {a}
    ensures forall i :: 0 <= i < |StoredList(w1.store, channel)| ==>
      (StoredList(w1.store, channel)[i].socketId in Occupants(w1.rooms, channel) && StoredList(w1.store, channel)[i].socketId != b)
  {
    LiveSockets(w, channel, b);
    JoinAppends(w, a, channel, dataA, decode);
    AppendedSockets(LiveList(w, channel), JoinRecord(Reparse(dataA, decode), a), Occupants(w.rooms, channel), b);
  }

  /**
    From a list whose last two records are two sockets of one user, the first of
    them leaving announces nothing and the second then announces the user's
    departure with its record, when no earlier record is of that user.
   */
  lemma TwoLeaves(w: World, live: seq<Member>, first: Member, second: Member, channel: string)
    requires IsPresenceName(channel) && first.socketId != second.socketId && first.userId == second.userId
    requires StoredList(w.store, channel) == live + [first, second]
    requires first.socketId in Occupants(w.rooms, channel) && second.socketId in Occupants(w.rooms, channel)
    requires forall i :: 0 <= i < |live| ==>
      (live[i].socketId in Occupants(w.rooms, channel) && live[i].socketId != first.socketId && live[i].socketId != second.socketId)
    requires !HasUser(live, first.userId)
    ensures var w3 := AfterChannelLeave(w, first.socketId, channel);
      var w4 := AfterChannelLeave(w3, second.socketId, channel);
      w3.log == w.log &&
      w4.log == w3.log + [Emission(Room(channel), LeavingEvent, DepartedArg(channel, second.userId, second.userInfo))]
  {
    var s2 := live + [first, second];
    LeaveLiveRecord(w, first.socketId, channel, |live|);
    var w3 := AfterChannelLeave(w, first.socketId, channel);
    CutBeforeLast(live, first, second);
    assert (live + [second])[|live|] == second;
    LeaveLiveRecord(w3, second.socketId, channel, |live|);
    CutAppended(live, second);
  }

  /**
    Two connections of one user, from a channel where the user has no live record:
    the first join announces the user (when its socket is connected), the second
    does not; the first leave announces nothing, and the second leave sends
    presence:leaving with the user's id and the record of the remaining socket.
   */
  lemma TwoConnectionsAnnounceOnce(w: World, a: SocketId, b: SocketId, channel: string,
                                   dataA: Value, dataB: Value, decode: Decoder)
    requires IsPresenceName(channel) && a != b
    requires Reparse(dataA, decode).Obj? && Reparse(dataB, decode).Obj?
    requires Get(Reparse(dataA, decode), "user_id") == Get(Reparse(dataB, decode), "user_id")
    requires a !in Occupants(w.rooms, channel) && b !in Occupants(w.rooms, channel)
    requires forall m :: m in StoredList(w.store, channel) ==> m.socketId != a && m.socketId != b
    requires !HasUser(LiveList(w, channel), Get(Reparse(dataA, decode), "user_id"))
    ensures var w1 := AfterChannelJoin(w, a, channel, Granted(dataA), decode);
      var w2 := AfterChannelJoin(w1, b, channel, Granted(dataB), decode);
      var w3 := AfterChannelLeave(w2, a, channel);
      var w4 := AfterChannelLeave(w3, b, channel);
      var u := Get(Reparse(dataA, decode), "user_id");
      |w1.log| == |w.log| + (if a in w.connected then 2 else 1) &&
      |w2.log| == |w1.log| + 1 &&
      w3.log == w2.log &&
      w4.log == w3.log + [Emission(Room(channel), LeavingEvent, DepartedArg(channel, u, Get(Reparse(dataB, decode), "user_info")))]
  {
    var u := Get(Reparse(dataA, decode), "user_id");
    var w1 := AfterChannelJoin(w, a, channel, Granted(dataA), decode);
    var w2 := AfterChannelJoin(w1, b, channel, Granted(dataB), decode);
    var w3 := AfterChannelLeave(w2, a, channel);
    var w4 := AfterChannelLeave(w3, b, channel);
    assert |w1.log| == |w.log| + (if a in w.connected then 2 else 1) by {
      FirstJoinAnnounced(w, a, channel, dataA, decode);
    }
    assert |w2.log| == |w1.log| + 1 by {
      SecondConnectionNotAnnounced(w, a, b, channel, dataA, dataB, decode);
    }
    var live := LiveList(w, channel);
    LiveSockets(w, channel, a);
    LiveSockets(w, channel, b);
    var rA, rB := JoinRecord(Reparse(dataA, decode), a), JoinRecord(Reparse(dataB, decode), b);
    FirstJoinFacts(w, w1, a, b, channel, dataA, decode);
    JoinAppendsLive(w1, b, channel, dataB, decode);
    AppendPair(live, rA, rB);
    TwoLeaves(w2, live, rA, rB, channel);
  }

  /** The channel layer of one relay, over the socket server and the presence registry. */
  class Channel {
    const io: Io
    const presence: PresenceChannel
    const decode: Decoder

    constructor (io: Io, db: Database, decode: Decoder)
      ensures this.io == io && presence.db == db && this.decode == decode
      ensures Valid()
    {
      this.io := io;
      this.decode := decode;
      presence := new PresenceChannel(io, db);
    }

    /** The registry works on the same socket server. */
    predicate Valid() {
      presence.io == io
    }

    /** The state the channel layer reads and writes. */
    function State(): World
      reads presence.io, presence.db
    {
      presence.State()
    }

    /** `isPrivate`: true exactly when the name is a private channel's. */
    method IsPrivate(channel: string) returns (isPrivate: bool)
      ensures isPrivate == IsPrivateName(channel)
    {
      isPrivate := AnyPatternMatches(PrivateChannels, channel);
      assert Stem(PrivateChannels[0]) == "private-";
      assert Stem(PrivateChannels[1]) == "presence-";
    }

    /** `isClientEvent`: true exactly when the event is a client event. */
    method IsClientEvent(event: string) returns (isClientEvent: bool)
      ensures isClientEvent == IsClientEventName(event)
    {
      isClientEvent := AnyPatternMatches(ClientEvents, event);
      assert Stem(ClientEvents[0]) == "client-";
    }

    /** `isPresence`: `lastIndexOf('presence-', 0) === 0`, the occurrence at index 0. */
    method IsPresence(channel: string) returns (isPresence: bool)
      ensures isPresence <==> OccursAt(channel, "presence-", 0)
      ensures isPresence ==> IsPrivateName(channel)
    {
      isPresence := |channel| >= 9 && channel[..9] == "presence-";
      if isPresence {
        PresenceIsPrivate(channel);
      }
    }

    /** `isInChannel`: whether the socket is in the channel's room. */
    method IsInChannel(socket: SocketId, channel: string) returns (isIn: bool)
      ensures isIn <==> channel in io.rooms && socket in io.rooms[channel]
    {
      isIn := socket in io.Clients(channel);
    }

    /** `join`. */
    method Join(socket: SocketId, channel: string, auth: AuthAnswer)
      requires Valid()
      modifies io, presence.db
      ensures State() == AfterChannelJoin(old(State()), socket, channel, auth, decode)
    {
      if channel == "" {
        return;
      }
      var isPrivate := IsPrivate(channel);
      if isPrivate {
        JoinPrivate(socket, channel, auth);
      } else {
        io.Join(socket, channel);
      }
    }

    /** `joinPrivate`. */
    method JoinPrivate(socket: SocketId, channel: string, auth: AuthAnswer)
      requires Valid()
      modifies io, presence.db
      ensures State() == AfterJoinPrivate(old(State()), socket, channel, auth, decode)
    {
      match auth
      case Denied(status) =>
        io.Emit(Emission(Room(socket), SubscriptionErrorEvent, StatusArg(channel, status)));
      case Granted(channelData) =>
        io.Join(socket, channel);
        var isPresence := IsPresence(channel);
        if isPresence {
          var member := Reparse(channelData, decode);
          presence.Join(socket, channel, member);
        }
    }

    /** `leave`: the room is left first, then the registry drops the socket's records. */
    method Leave(socket: SocketId, channel: string)
      requires Valid()
      modifies io, presence.db
      ensures State() == AfterChannelLeave(old(State()), socket, channel)
    {
      if channel == "" {
        return;
      }
      io.Leave(socket, channel);
      var isPresence := IsPresence(channel);
      if isPresence {
        presence.Leave(socket, channel);
      }
    }

    /** `clientEvent`. */
    method ClientEvent(socket: SocketId, payload: Value)
      requires Valid()
      modifies io
      ensures State() == AfterClientEvent(old(State()), socket, payload, decode)
    {
      var data := ClientPayload(payload, decode);
      var event, channel := Get(data, "event"), Get(data, "channel");
      if !(Truthy(event) && Truthy(channel)) {
        return;
      }
      if !(event.Str? && channel.Str?) {
        return;
      }
      var isClientEvent := IsClientEvent(event.s);
      var isPrivate := IsPrivate(channel.s);
      var isIn := IsInChannel(socket, channel.s);
      if isClientEvent && isPrivate && isIn && socket in io.connected {
        io.Emit(Emission(Others(channel.s, socket), event.s, DataArg(channel.s, Get(data, "data"))));
      }
    }
  }
}
