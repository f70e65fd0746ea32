/**
  The read-only HTTP query API: the channels with sockets in them, one channel's
  subscription and user counts, and a presence channel's users, computed over
  the socket server's rooms and the stored member lists.
 */
module HttpQueries {
  import opened Values
  import opened Relay
  import opened Presence
  import opened Channels

  const PresenceOnly := "User list is only possible for Presence Channels"

  /** A room is listed unless it is a socket's own room (its name is among its sockets) or the prefix does not fit. */
  predicate Listed(rooms: map<string, set<SocketId>>, name: string, prefix: string) {
    name in rooms && name !in rooms[name] && (prefix == "" || StartsWith(name, prefix))
  }

  /** The stats `getChannels` gives a listed room. */
  function ListedStats(rooms: map<string, set<SocketId>>, name: string): ChannelStats
    requires name in rooms
  {
    ChannelStats(|rooms[name]|, true, None)
  }

  /** `getChannel`'s stats: the room's size (0 when absent), occupied when positive, and for a presence channel the number of users in the stored list. */
  function ChannelReport(w: World, name: string): ChannelStats {
    var count := |Occupants(w.rooms, name)|;
    ChannelStats(count, count > 0, if IsPresenceName(name) then Some(|UniqByUser(StoredList(w.store, name))|) else None)
  }

  /** The `{id, user_info}` entries of some records, in order. */
  function Entries(members: seq<Member>): seq<UserEntry>
    decreases |members|
  {
    if |members| == 0 then [] else [UserEntry(members[0].userId, members[0].userInfo)] + Entries(members[1..])
  }

  /** `getChannelUsers`'s answer: 400 for a channel that is not a presence channel, else one entry per user. */
  function UsersReport(w: World, name: string): Response {
    if !IsPresenceName(name) then Response(400, ErrorMessage(PresenceOnly))
    else Response(200, UserList(Entries(UniqByUser(StoredList(w.store, name)))))
  }

  /**
    `getChannel`: the count is the room's size and 0 for a missing room, the
    channel is occupied exactly when the count is positive, and a presence
    channel's `user_count` is the number of distinct `user_id`s among its stored
    records, which are not reconciled first.
   */
  lemma ChannelReportRule(w: World, name: string)
    ensures ChannelReport(w, name).subscriptionCount == (if name in w.rooms then |w.rooms[name]| else 0)
    ensures ChannelReport(w, name).occupied <==> name in w.rooms && w.rooms[name] != {}
    ensures IsPresenceName(name) ==> ChannelReport(w, name).userCount == Some(|Users(StoredList(w.store, name))|)
    ensures !IsPresenceName(name) ==> ChannelReport(w, name).userCount.None?
  {
    UniqByUserRule(StoredList(w.store, name));
  }

  /** The entries are the records' `user_id` and `user_info`, position by position. */
  lemma {:induction false} EntriesAt(members: seq<Member>)
    ensures |Entries(members)| == |members|
    ensures forall i :: 0 <= i < |members| ==> Entries(members)[i] == UserEntry(members[i].userId, members[i].userInfo)
    decreases |members|
  {
    if |members| > 0 {
      EntriesAt(members[1..]);
      forall i | 0 < i < |members| ensures Entries(members)[i] == UserEntry(members[i].userId, members[i].userInfo) {
        assert Entries(members)[i] == Entries(members[1..])[i - 1];
      }
    }
  }

  /**
    `getChannelUsers` on a presence channel lists one entry per distinct user of
    the stored list, no user twice, each taken from that user's first record in
    stored order.
   */
  lemma UsersReportRule(w: World, name: string)
    requires IsPresenceName(name)
    ensures var users, stored := UsersReport(w, name).body.users, StoredList(w.store, name);
      UsersReport(w, name).status == 200 &&
      |users| == |Users(stored)| &&
      (forall i, j :: 0 <= i < j < |users| ==> users[i].id != users[j].id) &&
      (forall k :: FirstOfUser(stored, k) ==> UserEntry(stored[k].userId, stored[k].userInfo) in users) &&
      (forall e :: e in users ==> exists k :: FirstOfUser(stored, k) && e == UserEntry(stored[k].userId, stored[k].userInfo))
  {
    var stored := StoredList(w.store, name);
    var uniq := UniqByUser(stored);
    UniqByUserRule(stored);
    EntriesAt(uniq);
    var users := Entries(uniq);
    forall k | FirstOfUser(stored, k) ensures UserEntry(stored[k].userId, stored[k].userInfo) in users {
      var p :| 0 <= p < |uniq| && uniq[p] == stored[k];
      assert users[p] == UserEntry(stored[k].userId, stored[k].userInfo);
    }
    forall e | e in users ensures exists k :: FirstOfUser(stored, k) && e == UserEntry(stored[k].userId, stored[k].userInfo) {
      var p :| 0 <= p < |users| && users[p] == e;
      assert uniq[p] in uniq;
      var k :| FirstOfUser(stored, k) && stored[k] == uniq[p];
    }
  }

  /** The query API over the socket server and the presence registry. */
  class HttpApi {
    const channel: Channel

    constructor (channel: Channel)
      ensures this.channel == channel
    {
      this.channel := channel;
    }

    function State(): World
      reads channel.presence.io, channel.presence.db
    {
      channel.State()
    }

    /**
      `getChannels` with the `filter_by_prefix` query value ("" when absent): every
      listed room, and only those, with its size and `occupied: true`.
     */
    method GetChannels(prefix: string) returns (response: Response)
      ensures response.status == 200 && response.body.ChannelMap?
      ensures forall name :: name in response.body.channels <==> Listed(State().rooms, name, prefix)
      ensures forall name :: name in response.body.channels ==>
        name in State().rooms && response.body.channels[name] == ListedStats(State().rooms, name)
    {
      var rooms := channel.presence.io.rooms;
      var pending := rooms.Keys;
      var channels: map<string, ChannelStats> := map[];
      while pending != {}
        invariant pending <= rooms.Keys
        invariant forall name :: name in channels <==> Listed(rooms, name, prefix) && name !in pending
        invariant forall name :: name in channels ==> name in rooms && channels[name] == ListedStats(rooms, name)
        decreases |pending|
      {
        var name :| name in pending;
        pending := pending - {name};
        if name in rooms[name] {
          continue;
        }
        if prefix != "" && !StartsWith(name, prefix) {
          continue;
        }
        channels := channels[name := ChannelStats(|rooms[name]|, true, None)];
      }
      response := Response(200, ChannelMap(channels));
    }

    /** `getChannel`. */
    method GetChannel(name: string) returns (response: Response)
      ensures response == Response(200, ChannelInfo(ChannelReport(State(), name)))
    {
      var room := channel.presence.io.Clients(name);
      var count := |room|;
      var isPresence := channel.IsPresence(name);
      var userCount: Option<nat> := None;
      if isPresence {
        var members := channel.presence.GetMembers(name);
        userCount := Some(|UniqByUser(members.GetOr([]))|);
      }
      response := Response(200, ChannelInfo(ChannelStats(count, count > 0, userCount)));
    }

    /** `getChannelUsers`: the entries are pushed one record at a time over the deduplicated list. */
    method GetChannelUsers(name: string) returns (response: Response)
      ensures response == UsersReport(State(), name)
    {
      var isPresence := channel.IsPresence(name);
      if !isPresence {
        response := BadResponse(PresenceOnly);
        return;
      }
      var members := channel.presence.GetMembers(name);
      var uniq := UniqByUser(members.GetOr([]));
      EntriesAt(uniq);
      var users: seq<UserEntry> := [];
      var k := 0;
      while k < |uniq|
        invariant 0 <= k <= |uniq|
        invariant users == Entries(uniq)[..k]
      {
        users := users + [UserEntry(uniq[k].userId, uniq[k].userInfo)];
        k := k + 1;
      }
      assert users == Entries(uniq);
      response := Response(200, UserList(users));
    }

    /** `badResponse(req, res, message)`: status 400 with the message as `error`. */
    method BadResponse(message: string) returns (response: Response)
      ensures response.status == 400 && response.body == ErrorMessage(message)
    {
      response := Response(400, ErrorMessage(message));
    }
  }
}
