/**
  The presence registry of one relay: for each presence channel a member list kept
  in the store under "<channel>:members", reconciled against the sockets still
  live in the channel's room whenever membership is asked about, and the
  presence:subscribed / presence:joining / presence:leaving notifications.

  Each asynchronous chain of the registry (store read, room query, store write,
  emit) runs here as one sequential step on a `World`.
 */
module Presence {
  import opened Values
  import opened Seqs
  import opened Relay

  /** The store key of a channel's member list. */
  function MembersKey(channel: string): string {
    channel + ":members"
  }

  /** `getMembers(channel)` read with `members || []`: a key never written reads as the empty list. */
  function StoredList(store: map<string, seq<Member>>, channel: string): seq<Member> {
    var key := MembersKey(channel);
    if key in store then store[key] else []
  }

  /** The records whose socket is among `clients`. */
  function Live(members: seq<Member>, clients: set<SocketId>): seq<Member> {
    Filter(members, (m: Member) => m.socketId in clients)
  }

  /** The records of one user. */
  function WithUser(members: seq<Member>, userId: Value): seq<Member> {
    Filter(members, (m: Member) => m.userId == userId)
  }

  /** The records of every socket but one. */
  function WithoutSocket(members: seq<Member>, socket: SocketId): seq<Member> {
    Filter(members, (m: Member) => m.socketId != socket)
  }

  /** The first record of a socket, if there is one. */
  function RecordOf(members: seq<Member>, socket: SocketId): Option<Member> {
    FindFirst(members, (m: Member) => m.socketId == socket)
  }

  /** Some record belongs to the user. */
  predicate HasUser(members: seq<Member>, userId: Value) {
    exists i :: 0 <= i < |members| && members[i].userId == userId
  }

  /** The channel's stored records whose socket is still in the channel's room. */
  function LiveList(w: World, channel: string): seq<Member> {
    Live(StoredList(w.store, channel), Occupants(w.rooms, channel))
  }

  /** `removeInactive`: the stored list, cut down to its live records, is written back. */
  function AfterReconcile(w: World, channel: string): World {
    w.(store := w.store[MembersKey(channel) := LiveList(w, channel)])
  }

  /** `_.uniqBy(list, 'user_id')` started with the users in `seen` already taken. */
  function UniqFrom(s: seq<Member>, seen: set<Value>): seq<Member>
    decreases |s|
  {
    if |s| == 0 then []
    else if s[0].userId in seen then UniqFrom(s[1..], seen)
    else [s[0]] + UniqFrom(s[1..], seen + {s[0].userId})
  }

  /** `_.uniqBy(list, 'user_id')`: the first record of each user, in list order. */
  function UniqByUser(s: seq<Member>): seq<Member> {
    UniqFrom(s, {})
  }

  /** The list sent with presence:subscribed: the stored list reversed, then deduplicated by user. */
  function Roster(stored: seq<Member>): seq<Member> {
    UniqByUser(Reverse(stored))
  }

  /** The record `join` stores: the member object with `socketId` set to the joining socket. */
  function JoinRecord(member: Value, socket: SocketId): Member {
    Member(Get(member, "user_id"), Get(member, "user_info"), socket)
  }

  /**
    `join(socket, channel, member)`. A falsy member abandons the join. Otherwise
    `isMember` reconciles the list; a member that is not an object then makes the
    assignment of `socketId` throw (the file is strict mode), so only that
    reconciliation happens. An object member is appended to the reconciled list
    and stored; the joiner gets presence:subscribed with the roster, and the other
    sockets of the room get presence:joining when the user had no live record
    (looking the joiner up among the connected sockets throws when it is gone).
   */
  function AfterJoin(w: World, socket: SocketId, channel: string, member: Value): World {
    if !Truthy(member) then w
    else if !member.Obj? then AfterReconcile(w, channel)
    else
      var live := LiveList(w, channel);
      var record := JoinRecord(member, socket);
      var stored := live + [record];
      var subscribed := Emission(Room(socket), SubscribedEvent, MemberList(channel, Roster(stored)));
      var joining :=
        if HasUser(live, record.userId) || socket !in w.connected then []
        else [Emission(Others(channel, socket), JoiningEvent, MemberArg(channel, record))];
      w.(store := w.store[MembersKey(channel) := stored], log := w.log + [subscribed] + joining)
  }

  /**
    `leave(socket, channel)`. Without a record of the socket, reading its
    `socketId` throws: in the filter callback, before anything is written, when
    the list has records; after the empty list has been written back (and
    reconciled) when it has none. Otherwise every record of the
    socket is removed and the rest stored; `isMember` then reconciles, and
    presence:leaving goes to the room, with the record less its socket, when no
    live record of that user is left.
   */
  function AfterLeave(w: World, socket: SocketId, channel: string): World {
    var members := StoredList(w.store, channel);
    match RecordOf(members, socket)
    case None =>
      if |members| == 0 then w.(store := w.store[MembersKey(channel) := []]) else w
    case Some(member) =>
      var w1 := w.(store := w.store[MembersKey(channel) := WithoutSocket(members, member.socketId)]);
      var w2 := AfterReconcile(w1, channel);
      if HasUser(LiveList(w1, channel), member.userId) then w2
      else w2.(log := w2.log + [Emission(Room(channel), LeavingEvent, DepartedArg(channel, member.userId, member.userInfo))])
  }

  // ---------------------------------------------------------------------------
  // Reconciliation and membership

  /**
    Reconciliation keeps exactly the stored records (an absent list read as empty)
    whose socket is live in the room, in their stored order, and writes them back;
    nothing else changes.
   */
  lemma ReconcileRule(w: World, channel: string, other: string)
    ensures StoredList(AfterReconcile(w, channel).store, channel) == LiveList(w, channel)
    ensures forall m :: m in LiveList(w, channel) ==>
      m in StoredList(w.store, channel) && m.socketId in Occupants(w.rooms, channel)
    ensures forall m :: m in StoredList(w.store, channel) && m.socketId in Occupants(w.rooms, channel) ==>
      m in LiveList(w, channel)
    ensures other != MembersKey(channel) && other in w.store ==> AfterReconcile(w, channel).store[other] == w.store[other]
    ensures AfterReconcile(w, channel).rooms == w.rooms && AfterReconcile(w, channel).log == w.log
  {
    FilterMembers(StoredList(w.store, channel), (m: Member) => m.socketId in Occupants(w.rooms, channel));
  }

  /** On stored lists `a + b`, reconciliation filters each part, so survivors keep their stored order. */
  lemma LiveKeepsOrder(a: seq<Member>, b: seq<Member>, clients: set<SocketId>)
    ensures Live(a + b, clients) == Live(a, clients) + Live(b, clients)
  {
    FilterAppend(a, b, (m: Member) => m.socketId in clients);
  }

  /** The write-back is idempotent: reconciling a reconciled channel changes nothing more. */
  lemma ReconcileIdempotent(w: World, channel: string)
    ensures AfterReconcile(AfterReconcile(w, channel), channel) == AfterReconcile(w, channel)
  {
    FilterTwice(StoredList(w.store, channel), (m: Member) => m.socketId in Occupants(w.rooms, channel));
  }

  /** `isMember`'s search (the records with the candidate's `user_id` are not none) answers whether the user has a record. */
  lemma WithUserNonEmpty(members: seq<Member>, userId: Value)
    ensures WithUser(members, userId) != [] <==> HasUser(members, userId)
  {
    FilterMembers(members, (m: Member) => m.userId == userId);
    if HasUser(members, userId) {
      var i :| 0 <= i < |members| && members[i].userId == userId;
      assert members[i] in WithUser(members, userId);
    }
    if WithUser(members, userId) != [] {
      assert WithUser(members, userId)[0] in WithUser(members, userId);
    }
  }

  /** `isMember` is true exactly when some stored record of the user has a socket still in the room. */
  lemma IsMemberIff(w: World, channel: string, userId: Value)
    ensures HasUser(LiveList(w, channel), userId) <==>
      exists m :: m in StoredList(w.store, channel) && m.userId == userId && m.socketId in Occupants(w.rooms, channel)
  {
    var stored, clients := StoredList(w.store, channel), Occupants(w.rooms, channel);
    FilterMembers(stored, (m: Member) => m.socketId in clients);
    if HasUser(LiveList(w, channel), userId) {
      var i :| 0 <= i < |LiveList(w, channel)| && LiveList(w, channel)[i].userId == userId;
      assert LiveList(w, channel)[i] in LiveList(w, channel);
    }
    if exists m :: m in stored && m.userId == userId && m.socketId in clients {
      var m :| m in stored && m.userId == userId && m.socketId in clients;
      assert m in LiveList(w, channel);
      var i :| 0 <= i < |LiveList(w, channel)| && LiveList(w, channel)[i] == m;
    }
  }

  // ---------------------------------------------------------------------------
  // Deduplication by user

  /** No two records name the same user. */
  ghost predicate DistinctUsers(s: seq<Member>) {
    forall i, j :: 0 <= i < j < |s| ==> s[i].userId != s[j].userId
  }

  /** Record `i` is its user's first in `s`. */
  ghost predicate FirstOfUser(s: seq<Member>, i: int) {
    0 <= i < |s| && forall j :: 0 <= j < i ==> s[j].userId != s[i].userId
  }

  /** Record `i` is its user's last in `s`. */
  ghost predicate LastOfUser(s: seq<Member>, i: int) {
    0 <= i < |s| && forall j :: i < j < |s| ==> s[j].userId != s[i].userId
  }

  /** The users that have a record in `s`. */
  ghost function Users(s: seq<Member>): set<Value> {
    set m | m in s :: m.userId
  }

  /** `Users` of a non-empty list: the first record's user and the users of the rest. */
  lemma UsersCons(s: seq<Member>)
    requires |s| > 0
    ensures Users(s) == {s[0].userId} + Users(s[1..])
  {
    forall m | m in s ensures m in s[1..] || m == s[0] {
      var k :| 0 <= k < |s| && s[k] == m;
      if k > 0 { assert s[1..][k - 1] == m; }
    }
    assert s == [s[0]] + s[1..];
  }

  /** Deduplication from `seen` keeps records of `s` only, none of them of a user in `seen`. */
  lemma {:induction false} UniqFromFresh(s: seq<Member>, seen: set<Value>)
    ensures forall m :: m in UniqFrom(s, seen) ==> m in s && m.userId !in seen
    decreases |s|
  {
    if |s| > 0 {
      UniqFromFresh(s[1..], seen + {s[0].userId});
      UniqFromFresh(s[1..], seen);
    }
  }

  /** Deduplication names each user at most once. */
  lemma {:induction false} UniqFromDistinct(s: seq<Member>, seen: set<Value>)
    ensures DistinctUsers(UniqFrom(s, seen))
    decreases |s|
  {
    if |s| > 0 {
      var tail, seen' := s[1..], seen + {s[0].userId};
      if s[0].userId in seen {
        UniqFromDistinct(tail, seen);
      } else {
        UniqFromDistinct(tail, seen');
        UniqFromFresh(tail, seen');
        var r := UniqFrom(s, seen);
        assert r == [s[0]] + UniqFrom(tail, seen');
        forall i, j | 0 <= i < j < |r| ensures r[i].userId != r[j].userId {
          assert r[j] == UniqFrom(tail, seen')[j - 1];
          assert r[j] in UniqFrom(tail, seen');
          if i > 0 { assert r[i] == UniqFrom(tail, seen')[i - 1]; }
        }
      }
    }
  }

  /** Deduplication from `seen` holds exactly the first record of each user not in `seen`. */
  lemma {:induction false} UniqFromMembers(s: seq<Member>, seen: set<Value>)
    ensures forall m :: m in UniqFrom(s, seen) ==>
      exists i :: FirstOfUser(s, i) && s[i] == m && s[i].userId !in seen
    ensures forall i :: FirstOfUser(s, i) && s[i].userId !in seen ==> s[i] in UniqFrom(s, seen)
    decreases |s|
  {
    if |s| > 0 {
      var tail, u := s[1..], s[0].userId;
      var seen' := if u in seen then seen else seen + {u};
      UniqFromMembers(tail, seen');
      var r := UniqFrom(s, seen);
      assert u !in seen ==> r == [s[0]] + UniqFrom(tail, seen');
      assert u in seen ==> r == UniqFrom(tail, seen');
      forall m | m in r ensures exists i :: FirstOfUser(s, i) && s[i] == m && s[i].userId !in seen {
        if u !in seen && m == s[0] {
          assert FirstOfUser(s, 0);
        } else {
          assert m in UniqFrom(tail, seen');
          var i :| FirstOfUser(tail, i) && tail[i] == m && tail[i].userId !in seen';
          assert FirstOfUser(s, i + 1) && s[i + 1] == m;
        }
      }
      forall i | FirstOfUser(s, i) && s[i].userId !in seen ensures s[i] in r {
        if i > 0 {
          assert s[0].userId != s[i].userId;
          assert FirstOfUser(tail, i - 1) && tail[i - 1] == s[i];
        }
      }
    }
  }

  /** Deduplication from `seen` has one record per user of `s` not in `seen`. */
  lemma {:induction false} UniqFromCount(s: seq<Member>, seen: set<Value>)
    ensures |UniqFrom(s, seen)| == |Users(s) - seen|
    decreases |s|
  {
    if |s| == 0 {
      assert Users(s) == {};
    } else {
      var tail, u := s[1..], s[0].userId;
      UsersCons(s);
      if u in seen {
        UniqFromCount(tail, seen);
        assert Users(s) - seen == Users(tail) - seen;
      } else {
        var seen' := seen + {u};
        UniqFromCount(tail, seen');
        assert Users(s) - seen == {u} + (Users(tail) - seen');
        assert u !in Users(tail) - seen';
      }
    }
  }

  /** `_.uniqBy(list, 'user_id')` names each user once and keeps exactly the first record of every user in the list. */
  lemma UniqByUserRule(s: seq<Member>)
    ensures DistinctUsers(UniqByUser(s))
    ensures forall m :: m in UniqByUser(s) ==> exists i :: FirstOfUser(s, i) && s[i] == m
    ensures forall i :: FirstOfUser(s, i) ==> s[i] in UniqByUser(s)
    ensures |UniqByUser(s)| == |Users(s)|
  {
    UniqFromDistinct(s, {});
    UniqFromMembers(s, {});
    UniqFromCount(s, {});
    assert Users(s) - {} == Users(s);
  }

  /** Reversal turns a user's first record into its last. */
  lemma ReverseFirstIsLast(s: seq<Member>, i: int)
    requires 0 <= i < |s|
    ensures FirstOfUser(Reverse(s), i) <==> LastOfUser(s, |s| - 1 - i)
  {
    ReverseAt(s);
    var r := Reverse(s);
    if FirstOfUser(r, i) {
      forall j | |s| - 1 - i < j < |s| ensures s[j].userId != s[|s| - 1 - i].userId {
        assert r[|s| - 1 - j] == s[j];
      }
    }
    if LastOfUser(s, |s| - 1 - i) {
      forall j | 0 <= j < i ensures r[j].userId != r[i].userId {
        assert r[j] == s[|s| - 1 - j];
      }
    }
  }

  /**
    The presence:subscribed roster of a stored list that ends with the joiner's
    record: the joiner comes first, no user appears twice, and it holds exactly the
    most recent record (the last in stored order) of every user.
   */
  lemma RosterRule(stored: seq<Member>, record: Member)
    ensures Roster(stored + [record])[0] == record
    ensures DistinctUsers(Roster(stored + [record]))
    ensures forall m :: m in Roster(stored + [record]) ==>
      exists j :: LastOfUser(stored + [record], j) && (stored + [record])[j] == m
    ensures forall j :: LastOfUser(stored + [record], j) ==> (stored + [record])[j] in Roster(stored + [record])
  {
    var s := stored + [record];
    assert s[..|s| - 1] == stored;
    assert Reverse(s) == [record] + Reverse(stored);
    UniqByUserRule(Reverse(s));
    ReverseAt(s);
    forall m | m in Roster(s) ensures exists j :: LastOfUser(s, j) && s[j] == m {
      var i :| FirstOfUser(Reverse(s), i) && Reverse(s)[i] == m;
      ReverseFirstIsLast(s, i);
      assert LastOfUser(s, |s| - 1 - i) && s[|s| - 1 - i] == m;
    }
    forall j | LastOfUser(s, j) ensures s[j] in Roster(s) {
      var i := |s| - 1 - j;
      ReverseFirstIsLast(s, i);
      assert Reverse(s)[i] == s[j];
    }
  }

  // ---------------------------------------------------------------------------
  // Join

  /** A falsy member leaves store and log untouched; a member that is not an object only gets the list reconciled. */
  lemma JoinWithoutObject(w: World, socket: SocketId, channel: string, member: Value)
    requires !member.Obj?
    ensures !Truthy(member) ==> AfterJoin(w, socket, channel, member) == w
    ensures Truthy(member) ==>
      AfterJoin(w, socket, channel, member).log == w.log &&
      StoredList(AfterJoin(w, socket, channel, member).store, channel) == LiveList(w, channel)
  {
  }

  /**
    After a join with a member object the stored list is the reconciled list,
    every record of which has a live socket, followed by exactly one new record,
    the joiner's, carrying the member's `user_id` and `user_info`.
   */
  lemma JoinStoresReconciledPlusOne(w: World, socket: SocketId, channel: string, member: Value)
    requires member.Obj?
    ensures var stored := StoredList(AfterJoin(w, socket, channel, member).store, channel);
      |stored| == |LiveList(w, channel)| + 1 &&
      stored[..|stored| - 1] == LiveList(w, channel) &&
      stored[|stored| - 1].socketId == socket &&
      stored[|stored| - 1].userId == Get(member, "user_id") &&
      stored[|stored| - 1].userInfo == Get(member, "user_info") &&
      (forall i :: 0 <= i < |stored| - 1 ==> stored[i].socketId in Occupants(w.rooms, channel))
    ensures AfterJoin(w, socket, channel, member).rooms == w.rooms
  {
    var live := LiveList(w, channel);
    FilterMembers(StoredList(w.store, channel), (m: Member) => m.socketId in Occupants(w.rooms, channel));
    forall i | 0 <= i < |live| ensures live[i].socketId in Occupants(w.rooms, channel) {
      assert live[i] in live;
    }
  }

  /**
    The joiner always gets presence:subscribed, addressed to its own room only,
    with a roster in which it comes first, no user appears twice, and each user is
    shown by its most recent record.
   */
  lemma JoinSubscribesJoiner(w: World, socket: SocketId, channel: string, member: Value)
    requires member.Obj?
    ensures var w' := AfterJoin(w, socket, channel, member);
      var stored := LiveList(w, channel) + [JoinRecord(member, socket)];
      |w'.log| > |w.log| && w'.log[..|w.log|] == w.log &&
      w'.log[|w.log|] == Emission(Room(socket), SubscribedEvent, MemberList(channel, Roster(stored))) &&
      Roster(stored)[0] == JoinRecord(member, socket) &&
      DistinctUsers(Roster(stored)) &&
      (forall j :: LastOfUser(stored, j) ==> stored[j] in Roster(stored)) &&
      (forall m :: m in Roster(stored) ==> exists j :: LastOfUser(stored, j) && stored[j] == m)
  {
    RosterRule(LiveList(w, channel), JoinRecord(member, socket));
  }

  /**
    presence:joining goes out, to the room without the joiner and carrying the new
    record, exactly when the user had no stored record with a socket still in the
    room and the joiner is still connected; it is the only emit besides
    presence:subscribed.
   */
  lemma JoiningIffFirstConnection(w: World, socket: SocketId, channel: string, member: Value)
    requires member.Obj?
    ensures var w' := AfterJoin(w, socket, channel, member);
      var firstConnection := !(exists m :: m in StoredList(w.store, channel) && m.userId == Get(member, "user_id") && m.socketId in Occupants(w.rooms, channel));
      |w'.log| == |w.log| + (if firstConnection && socket in w.connected then 2 else 1) &&
      (firstConnection && socket in w.connected ==>
        w'.log[|w.log| + 1] == Emission(Others(channel, socket), JoiningEvent, MemberArg(channel, JoinRecord(member, socket))))
  {
    IsMemberIff(w, channel, Get(member, "user_id"));
  }

  // ---------------------------------------------------------------------------
  // Leave

  /**
    Without a record of the leaving socket the list, the rooms and the log are as
    before, and when the list has records nothing at all changes.
   */
  lemma LeaveWithoutRecord(w: World, socket: SocketId, channel: string)
    requires forall i :: 0 <= i < |StoredList(w.store, channel)| ==> StoredList(w.store, channel)[i].socketId != socket
    ensures StoredList(AfterLeave(w, socket, channel).store, channel) == StoredList(w.store, channel)
    ensures AfterLeave(w, socket, channel).rooms == w.rooms && AfterLeave(w, socket, channel).log == w.log
    ensures StoredList(w.store, channel) != [] ==> AfterLeave(w, socket, channel) == w
  {
    FindFirstIff(StoredList(w.store, channel), (m: Member) => m.socketId == socket);
  }

  /**
    With a record of the leaving socket, every record of that socket is gone and
    the rest is kept, reconciled: the stored list is exactly the records of other
    sockets that are live in the room, in stored order.
   */
  lemma LeaveRemovesSocket(w: World, socket: SocketId, channel: string)
    requires exists i :: 0 <= i < |StoredList(w.store, channel)| && StoredList(w.store, channel)[i].socketId == socket
    ensures var stored := StoredList(w.store, channel);
      var after := StoredList(AfterLeave(w, socket, channel).store, channel);
      after == Live(WithoutSocket(stored, socket), Occupants(w.rooms, channel)) &&
      (forall m :: m in after ==> m in stored && m.socketId != socket && m.socketId in Occupants(w.rooms, channel)) &&
      (forall m :: m in stored && m.socketId != socket && m.socketId in Occupants(w.rooms, channel) ==> m in after)
    ensures AfterLeave(w, socket, channel).rooms == w.rooms
  {
    var stored := StoredList(w.store, channel);
    FindFirstIff(stored, (m: Member) => m.socketId == socket);
    LeaveStore(w, socket, channel);
    LiveWithoutMembers(stored, socket, Occupants(w.rooms, channel));
  }

  /** With a record of the socket, a leave stores the live records of the other sockets and keeps the rooms. */
  lemma LeaveStore(w: World, socket: SocketId, channel: string)
    requires RecordOf(StoredList(w.store, channel), socket).Some?
    requires RecordOf(StoredList(w.store, channel), socket).value.socketId == socket
    ensures StoredList(AfterLeave(w, socket, channel).store, channel) ==
      Live(WithoutSocket(StoredList(w.store, channel), socket), Occupants(w.rooms, channel))
    ensures AfterLeave(w, socket, channel).rooms == w.rooms
  {
    var rest := WithoutSocket(StoredList(w.store, channel), socket);
    var w1 := w.(store := w.store[MembersKey(channel) := rest]);
    assert StoredList(w1.store, channel) == rest;
    assert StoredList(AfterReconcile(w1, channel).store, channel) == LiveList(w1, channel);
  }

  /** The live records of the other sockets are the stored ones with another socket that is among the clients. */
  lemma LiveWithoutMembers(stored: seq<Member>, socket: SocketId, clients: set<SocketId>)
    ensures forall m :: m in Live(WithoutSocket(stored, socket), clients) ==> m in stored && m.socketId != socket && m.socketId in clients
    ensures forall m :: m in stored && m.socketId != socket && m.socketId in clients ==> m in Live(WithoutSocket(stored, socket), clients)
  {
    FilterMembers(stored, (m: Member) => m.socketId != socket);
    FilterMembers(WithoutSocket(stored, socket), (m: Member) => m.socketId in clients);
  }

  /**
    presence:leaving goes to the whole room, carrying the leaving socket's first
    record without its socket, exactly when no stored record of that user on
    another socket is live in the room; otherwise the log is unchanged.
   */
  lemma LeavingIffLastConnection(w: World, socket: SocketId, channel: string)
    requires RecordOf(StoredList(w.store, channel), socket).Some?
    ensures var stored := StoredList(w.store, channel);
      var member := RecordOf(stored, socket).value;
      var lastConnection := !(exists m :: m in stored && m.userId == member.userId && m.socketId != socket && m.socketId in Occupants(w.rooms, channel));
      var w' := AfterLeave(w, socket, channel);
      member in stored && member.socketId == socket &&
      w'.log == w.log + (if lastConnection then [Emission(Room(channel), LeavingEvent, DepartedArg(channel, member.userId, member.userInfo))] else [])
  {
    var stored := StoredList(w.store, channel);
    var clients := Occupants(w.rooms, channel);
    FindFirstIff(stored, (m: Member) => m.socketId == socket);
    var member := RecordOf(stored, socket).value;
    var rest := WithoutSocket(stored, socket);
    var w1 := w.(store := w.store[MembersKey(channel) := rest]);
    assert StoredList(w1.store, channel) == rest;
    IsMemberIff(w1, channel, member.userId);
    FilterMembers(stored, (m: Member) => m.socketId != socket);
  }

  /** Distinct channels have distinct member-list keys. */
  lemma MembersKeyInjective(channel: string, other: string)
    requires channel != other
    ensures MembersKey(channel) != MembersKey(other)
  {
    if |channel| == |other| {
      assert MembersKey(channel)[..|channel|] == channel;
      assert MembersKey(other)[..|other|] == other;
    } else {
      assert |MembersKey(channel)| != |MembersKey(other)|;
    }
  }

  /**
    After a leave, whether or not the socket had a record, no record of the socket
    is left in the channel's list; the rooms, the connected sockets and every
    other channel's list are as before.
   */
  lemma LeaveFrame(w: World, socket: SocketId, channel: string, other: string)
    ensures forall m :: m in StoredList(AfterLeave(w, socket, channel).store, channel) ==> m.socketId != socket
    ensures AfterLeave(w, socket, channel).rooms == w.rooms && AfterLeave(w, socket, channel).connected == w.connected
    ensures other != channel ==> StoredList(AfterLeave(w, socket, channel).store, other) == StoredList(w.store, other)
  {
    var stored := StoredList(w.store, channel);
    FindFirstIff(stored, (m: Member) => m.socketId == socket);
    if RecordOf(stored, socket).Some? {
      LeaveStore(w, socket, channel);
      LiveWithoutMembers(stored, socket, Occupants(w.rooms, channel));
    } else {
      forall m | m in stored ensures m.socketId != socket {
        var i :| 0 <= i < |stored| && stored[i] == m;
      }
    }
    if other != channel {
      MembersKeyInjective(channel, other);
      LeaveOtherList(w, socket, channel, other);
    }
  }

  /** A leave writes only its own channel's key of the store. */
  lemma LeaveOtherList(w: World, socket: SocketId, channel: string, other: string)
    requires MembersKey(channel) != MembersKey(other)
    ensures StoredList(AfterLeave(w, socket, channel).store, other) == StoredList(w.store, other)
  {
    var stored := StoredList(w.store, channel);
    match RecordOf(stored, socket)
    case None =>
    case Some(member) =>
      var w1 := w.(store := w.store[MembersKey(channel) := WithoutSocket(stored, member.socketId)]);
      assert StoredList(w1.store, other) == StoredList(w.store, other);
      assert StoredList(AfterReconcile(w1, channel).store, other) == StoredList(w.store, other);
  }

  // ---------------------------------------------------------------------------
  // The registry object

  /** A presence registry over one socket server and one store. */
  class PresenceChannel {
    const io: Io
    const db: Database

    constructor (io: Io, db: Database)
      ensures this.io == io && this.db == db
    {
      this.io := io;
      this.db := db;
    }

    /** The state the registry reads and writes. */
    function State(): World
      reads io, db
    {
      World(db.data, io.rooms, io.connected, io.log)
    }

    /** `getMembers`: the stored list, `None` (null) when the key was never written. */
    method GetMembers(channel: string) returns (members: Option<seq<Member>>)
      ensures members.GetOr([]) == StoredList(db.data, channel)
      ensures members.None? <==> MembersKey(channel) !in db.data
    {
      members := db.Get(MembersKey(channel));
    }

    /** `removeInactive`: keeps the records whose socket is in the room, stores them and returns them. */
    method RemoveInactive(channel: string, members: Option<seq<Member>>) returns (live: seq<Member>)
      modifies db
      ensures live == Live(members.GetOr([]), io.Clients(channel))
      ensures db.data == old(db.data)[MembersKey(channel) := live]
    {
      var clients := io.Clients(channel);
      var list := members.GetOr([]);
      live := Live(list, clients);
      db.Set(MembersKey(channel), live);
    }

    /** `isMember`: reconciles the channel, then looks for a record with the candidate's `user_id`. */
    method IsMember(channel: string, userId: Value) returns (isMember: bool)
      modifies db
      ensures State() == AfterReconcile(old(State()), channel)
      ensures isMember == HasUser(LiveList(old(State()), channel), userId)
    {
      var members := GetMembers(channel);
      var live := RemoveInactive(channel, members);
      var search := WithUser(live, userId);
      WithUserNonEmpty(live, userId);
      isMember := |search| > 0;
    }

    /** `join`, with the receipt of presence:subscribed and, on a first connection, presence:joining. */
    method Join(socket: SocketId, channel: string, member: Value)
      modifies db, io
      ensures State() == AfterJoin(old(State()), socket, channel, member)
    {
      ghost var w0 := State();
      if !Truthy(member) {
        return;
      }
      var isMember := IsMember(channel, Get(member, "user_id"));
      ghost var live := LiveList(w0, channel);
      assert State() == AfterReconcile(w0, channel);
      var stored := GetMembers(channel);
      var members := stored.GetOr([]);
      assert members == live;
      if !member.Obj? {
        // `member.socketId = socket.id` throws on a primitive
        return;
      }
      var record := JoinRecord(member, socket);
      members := members + [record];
      db.Set(MembersKey(channel), members);
      assert db.data == w0.store[MembersKey(channel) := live + [record]];
      var roster := UniqByUser(Reverse(members));
      OnSubscribed(socket, channel, roster);
      if !isMember {
        OnJoin(socket, channel, record);
      }
    }

    /** `leave`, with presence:leaving once the user's last live record is gone. */
    method Leave(socket: SocketId, channel: string)
      modifies db, io
      ensures State() == AfterLeave(old(State()), socket, channel)
    {
      var stored := GetMembers(channel);
      var members := stored.GetOr([]);
      var found := RecordOf(members, socket);
      if found.None? {
        if |members| == 0 {
          // the filter never calls back on an empty list: it is written back and reconciled
          db.Set(MembersKey(channel), []);
          var _ := IsMember(channel, Null);
        }
        // `member.socketId` on undefined throws
        return;
      }
      var member := found.value;
      members := WithoutSocket(members, member.socketId);
      db.Set(MembersKey(channel), members);
      var isMember := IsMember(channel, member.userId);
      if !isMember {
        OnLeave(channel, member.userId, member.userInfo);
      }
    }

    /** `onJoin`: presence:joining to the room without the joiner, sent through the joiner's connected socket. */
    method OnJoin(socket: SocketId, channel: string, member: Member)
      modifies io
      ensures io.log == old(io.log) +
        (if socket in io.connected then [Emission(Others(channel, socket), JoiningEvent, MemberArg(channel, member))] else [])
      ensures io.rooms == old(io.rooms) && io.connected == old(io.connected)
    {
      if socket in io.connected {
        io.Emit(Emission(Others(channel, socket), JoiningEvent, MemberArg(channel, member)));
      }
    }

    /** `onLeave`: presence:leaving to the whole room. */
    method OnLeave(channel: string, userId: Value, userInfo: Value)
      modifies io
      ensures io.log == old(io.log) + [Emission(Room(channel), LeavingEvent, DepartedArg(channel, userId, userInfo))]
      ensures io.rooms == old(io.rooms) && io.connected == old(io.connected)
    {
      io.Emit(Emission(Room(channel), LeavingEvent, DepartedArg(channel, userId, userInfo)));
    }

    /** `onSubscribed`: presence:subscribed to the joiner's own room. */
    method OnSubscribed(socket: SocketId, channel: string, members: seq<Member>)
      modifies io
      ensures io.log == old(io.log) + [Emission(Room(socket), SubscribedEvent, MemberList(channel, members))]
      ensures io.rooms == old(io.rooms) && io.connected == old(io.connected)
    {
      io.Emit(Emission(Room(socket), SubscribedEvent, MemberList(channel, members)));
    }
  }
}
