# Laravel Echo Server: channels, presence and dispatch

A Dafny model of the core of laravel10-echo-server, a socket.io relay for
Laravel broadcasting. Clients subscribe to channels. Public channels are joined at
once. Private and presence channels go through an authorisation answer first. A
presence channel keeps a per-channel member list in a key-value store under
`"<channel>:members"`, and announces users on their first connection
(`presence:joining`) and on their last disconnection (`presence:leaving`).
Messages from the HTTP event endpoint are fanned out to channel rooms, leaving
out the originating socket when it is still connected. Beside that core, the
model covers the HTTP query API (channel list, channel stats, presence users)
and the API-key guard and port clean-up of the HTTP server.

The model is organised as follows:

- `values.dfy` (`Values`): the JSON-like values the relay handles, JavaScript
  truthiness, `String(v)`, and the substring and prefix tests.
- `seqs.dfy` (`Seqs`): `filter`, `find` and `reverse` on sequences, with their
  laws.
- `relay.dfy` (`Relay`): one `World` value holding:
  - the store (`map<string, seq<Member>>`);
  - the socket.io rooms (`map<string, set<SocketId>>`);
  - the connected sockets;
  - an append-only log of emits `(target, event, args)`.

  It also has the `Io` and `Database` classes whose fields the methods update.
- `presence_channel.dfy` (`Presence`): reconciliation, `isMember`, `join` and
  `leave` as functions on `World`; the `PresenceChannel` class, whose methods are
  proved to produce exactly those states.
- `channel.dfy` (`Channels`): the name tests, the `join`/`leave`/`clientEvent`
  routing, the `Channel` class, and the multi-step presence scenarios.
- `echo_server.dfy` (`Echo`): `broadcast`/`toOthers`/`toAll`, the socket event
  handlers and the `disconnecting` loop.
- `http_subscriber.dfy` (`HttpEvents`): `handleData`: body check, message
  construction, fan-out.
- `http_api.dfy` (`HttpQueries`): `getChannels`, `getChannel`,
  `getChannelUsers`.
- `server.dfy` (`Access`): `canAccess`, `getAppId`, `getAuthKey`,
  `unauthorizedResponse`, the `appId` guard and `getPort`.

Each asynchronous chain (store read, reconciliation, store write, emit) is one
sequential step. Inputs the relay gets from outside are parameters of the model:
- the authoriser's answer (`AuthAnswer`);
- the JSON decoder (`Decoder`, `BodyDecoder`);
- the order of the socket's room keys on disconnect.

Points where the model follows the code rather than the written description:

- `isPrivate` builds unanchored regular expressions from `private-*` and
  `presence-*`. So it is a substring test ("my-private-room" is private), not a
  prefix test. `isPresence` is a true prefix test.
- `leave` of a socket without a record throws when reading `member.socketId`.
  With a non-empty list it throws inside the filter callback, before any write,
  and nothing changes. With an absent or empty list the filter never calls back:
  the empty list is written, reconciled, and the throw comes later, at
  `delete member.socketId`. The model writes `[]` in that case.
- `channel.leave` issues the presence leave before `socket.leave`, but the
  presence leave waits for the store. Its reconciliation therefore sees the room
  without the socket. The model applies the room leave first.
- `onJoin` looks the joiner up among the connected sockets. When the joiner is
  gone, that throws and `presence:joining` is not sent. The record stays stored.
- A truthy member that is not an object (a number, a string that does not parse)
  throws when `socketId` is assigned in strict mode. This happens after
  `isMember` has already reconciled the list.

## Model

| member | source | states |
|---|---|---|
| Presence.MembersKey | src/channels/presence-channel.js:20 | Definition: the store key `<channel>:members`. `MembersKeyInjective` is its property. |
| Presence.StoredList | src/channels/presence-channel.js:19-21 | Definition: the list stored under the channel's key, an absent key read as empty (the source's fallback to `[]`). |
| Presence.LiveList | src/channels/presence-channel.js:47-51 | Definition: the stored records whose socket is in the channel's room, in stored order. `ReconcileRule` states its contents. |
| Presence.AfterReconcile | src/channels/presence-channel.js:42-56 | Definition of `removeInactive` on the state: the live list written back under the channel's key. `ReconcileRule` and `ReconcileIdempotent` state its properties. |
| Presence.RecordOf | src/channels/presence-channel.js:93 | Definition: `members.find` by `socketId`, built on `Seqs.FindFirst`. |
| Presence.WithoutSocket | src/channels/presence-channel.js:94 | Definition: `members.filter` by `socketId !=`, built on `Seqs.Filter`. |
| Presence.UniqByUser | src/channels/presence-channel.js:75 | Definition of `_.uniqBy(list, "user_id")`. `UniqByUserRule` states its properties. |
| Presence.Roster | src/channels/presence-channel.js:75 | Definition: the stored list reversed, then deduplicated by user. `RosterRule` states its properties. |
| Presence.JoinRecord | src/channels/presence-channel.js:72-73 | Definition: the member with `socketId` set to the joining socket. |
| Presence.AfterJoin | src/channels/presence-channel.js:61-84 | Definition of `join` on the state. `JoinWithoutObject`, `JoinStoresReconciledPlusOne`, `JoinSubscribesJoiner` and `JoiningIffFirstConnection` state its properties. |
| Presence.AfterLeave | src/channels/presence-channel.js:89-103 | Definition of `leave` on the state. `LeaveWithoutRecord`, `LeaveRemovesSocket`, `LeavingIffLastConnection` and `LeaveFrame` state its properties. |
| Presence.ReconcileRule | src/channels/presence-channel.js:42-56 | Reconciliation stores exactly the records whose socket is in the room, in stored order (absent list read as empty). Rooms, log and every other key are unchanged. |
| Presence.LiveKeepsOrder | src/channels/presence-channel.js:49-51 | Reconciliation distributes over concatenation, so relative order is kept. |
| Presence.ReconcileIdempotent | src/channels/presence-channel.js:42-56 | Reconciling twice is the same as reconciling once. |
| Presence.WithUserNonEmpty | src/channels/presence-channel.js:30-34 | The search by `user_id` is non-empty iff some record has that `user_id`. |
| Presence.IsMemberIff | src/channels/presence-channel.js:25-38 | `isMember` is true iff some stored record with the candidate's `user_id` has a socket still in the room. |
| Presence.UniqByUserRule | src/channels/presence-channel.js:75 | `uniqBy(user_id)` has no user twice. It keeps exactly the first record of each user and has one entry per distinct user. |
| Presence.RosterRule | src/channels/presence-channel.js:75-76 | The subscribed roster (reversed, then deduplicated) starts with the new record, has no user twice, and shows each user by its most recent record. |
| Presence.JoinWithoutObject | src/channels/presence-channel.js:61-72 | A falsy member changes nothing at all. A truthy non-object member only reconciles the list and emits nothing. |
| Presence.JoinStoresReconciledPlusOne | src/channels/presence-channel.js:69-74 | After `join`, the stored list is the reconciled list plus one record with the joiner's socket, `user_id` and `user_info`. Rooms are unchanged. |
| Presence.JoinSubscribesJoiner | src/channels/presence-channel.js:70-76 | The joiner alone gets presence:subscribed, with a roster that starts with it, has no duplicate user and shows each user's latest record. |
| Presence.JoiningIffFirstConnection | src/channels/presence-channel.js:77-79 | presence:joining goes to the room without the joiner iff the user had no live record and the joiner is connected. It is the only other emit. |
| Presence.LeaveWithoutRecord | src/channels/presence-channel.js:91-96 | Without a record of the socket, the list, rooms and log are unchanged. A non-empty list leaves the whole state unchanged. |
| Presence.LeaveRemovesSocket | src/channels/presence-channel.js:91-96 | With a record of the socket, the stored list is exactly the other sockets' records still live in the room, in order. |
| Presence.LeavingIffLastConnection | src/channels/presence-channel.js:96-101 | presence:leaving, carrying `user_id` and `user_info`, goes to the whole room iff no live record of that user is left. |
| Presence.MembersKeyInjective | src/channels/presence-channel.js:20 | Different channels use different store keys. |
| Presence.LeaveFrame | src/channels/presence-channel.js:89-103 | After `leave`, no record of the socket is stored on that channel. Rooms, connections and other channels' lists are unchanged. |
| Presence.PresenceChannel.GetMembers | src/channels/presence-channel.js:19-21 | Returns the stored list, null exactly when the key was never written. |
| Presence.PresenceChannel.RemoveInactive | src/channels/presence-channel.js:42-56 | Returns the live records of the given list, and writes them under the channel's key only. |
| Presence.PresenceChannel.IsMember | src/channels/presence-channel.js:25-38 | Reconciles the channel; answers whether the reconciled list has the `user_id`. |
| Presence.PresenceChannel.Join | src/channels/presence-channel.js:61-84 | The new state is the join transition of the old one. |
| Presence.PresenceChannel.Leave | src/channels/presence-channel.js:89-103 | The new state is the leave transition of the old one. |
| Presence.PresenceChannel.OnJoin | src/channels/presence-channel.js:107-111 | Appends presence:joining to the room without the joiner. Nothing else changes. |
| Presence.PresenceChannel.OnLeave | src/channels/presence-channel.js:115-117 | Appends presence:leaving to the whole room. Nothing else changes. |
| Presence.PresenceChannel.OnSubscribed | src/channels/presence-channel.js:121-123 | Appends presence:subscribed to the joiner's own room. Nothing else changes. |
| Channels.IsPrivateName | src/channels/channel.js:79-87 | Definition: `private-` or `presence-` occurs in the name. `PrivateNameIff` ties it to the pattern loop. |
| Channels.IsPresenceName | src/channels/channel.js:115-117 | Definition: the name starts with `presence-`. `PresenceIsPrivate` is its property. |
| Channels.IsClientEventName | src/channels/channel.js:129-137 | Definition: `client-` occurs in the event name. `ClientEventExample` shows it. |
| Channels.AfterChannelJoin | src/channels/channel.js:31-41 | Definition of `join` on the state. `AdmitRule`, `DeniedJoinRule` and `JoinAppends` state its properties. |
| Channels.AfterJoinPrivate | src/channels/channel.js:91-111 | Definition of `joinPrivate` on the state, given the authoriser's answer. `AdmitRule` and `DeniedJoinRule` state its properties. |
| Channels.AfterChannelLeave | src/channels/channel.js:65-75 | Definition of `leave` on the state. `Echo.ChannelLeaveFrame` and `LeaveLiveRecord` state its properties. |
| Channels.MayRelay | src/channels/channel.js:52-55 | Definition: the guard of `clientEvent`. `ClientEventRule` states its effect. |
| Channels.AfterClientEvent | src/channels/channel.js:45-61 | Definition of `clientEvent` on the state. `ClientEventRule` states its properties. |
| Channels.PresenceIsPrivate | src/channels/channel.js:115-117 | Every presence channel is private. |
| Channels.PrivateNameIff | src/channels/channel.js:79-87 | A name is private iff `private-` or `presence-` occurs somewhere in it. |
| Channels.PublicNameExample | src/channels/channel.js:79-87 | `chat` is neither private nor a presence channel. |
| Channels.PrivateNameExample | src/channels/channel.js:79-87 | `private-chat` is private but not a presence channel. |
| Channels.PresenceNameExample | src/channels/channel.js:115-117 | `presence-room` is a presence channel, and so private. |
| Channels.InfixPrivateNameExample | src/channels/channel.js:79-87 | `my-private-room` is private, because the pattern is not anchored, but it is not a presence channel. |
| Channels.ClientEventExample | src/channels/channel.js:129-137 | `client-typing` is a client event and `typing` is not. |
| Channels.AnyPatternMatches | src/channels/channel.js:81-85 | The flag loop answers whether any pattern matches the name. |
| Channels.ClientEventRule | src/channels/channel.js:45-61 | A client event is relayed, once and to the room without the sender, iff the event and channel are given, the event is a client event, the channel is private and the sender is in the room and connected. Otherwise nothing changes. |
| Channels.DeniedJoinRule | src/channels/channel.js:104-110 | A refused private join sends subscription_error with the status to the requester only and joins nothing. |
| Channels.AdmitRule | src/channels/channel.js:93-103 | A granted presence join joins the room first, then hands the decoded channel data to the registry. |
| Channels.Channel.IsPrivate | src/channels/channel.js:79-87 | The answer is the private-name test. |
| Channels.Channel.IsClientEvent | src/channels/channel.js:129-137 | The answer is the client-event test (`client-` occurs in the name). |
| Channels.Channel.IsPresence | src/channels/channel.js:115-117 | True iff the name starts with `presence-`; a presence name is private. |
| Channels.Channel.IsInChannel | src/channels/channel.js:141-143 | True iff the socket is in the channel's room. |
| Channels.Channel.Join | src/channels/channel.js:31-41 | An empty name does nothing. A public channel is joined at once. A private one goes through authorisation. |
| Channels.Channel.JoinPrivate | src/channels/channel.js:91-111 | The state after the authorisation answer: an error emit, or the room join and the presence join. |
| Channels.Channel.Leave | src/channels/channel.js:65-75 | An empty name does nothing. Otherwise the room is left and, for presence channels, the registry's leave runs. |
| Channels.Channel.ClientEvent | src/channels/channel.js:45-61 | The new state is the guarded relay of the old one. |
| Channels.SecondConnectionNotAnnounced | src/channels/presence-channel.js:69-79 | After one socket of a user joins, a second socket of the same user gets presence:subscribed only. |
| Channels.JoinThenLeave | src/channels/presence-channel.js:61-103 | Join then leave is a round trip: rooms restored, the list back to the reconciled list, and presence:leaving with the joined `user_id`/`user_info` iff the user had no other live record. |
| Channels.FirstJoinAnnounced | src/channels/presence-channel.js:69-79 | The first live connection of a user is announced with its record, unless the joiner is no longer connected. |
| Channels.LeaveLiveRecord | src/channels/presence-channel.js:89-103 | Leaving from a socket's only record, with all sockets live, removes just that record and announces the user iff no other record of theirs is left. |
| Channels.JoinAppends | src/channels/channel.js:91-103 | A presence join of a socket without a record joins the room and appends its record to the reconciled list. |
| Channels.JoinAppendsLive | src/channels/presence-channel.js:69-74 | A presence join onto an all-live list with no record of the joiner appends exactly the joiner's record, and the joiner enters the room. |
| Channels.TwoLeaves | src/channels/presence-channel.js:91-101 | Of two sockets of one user, the first to leave announces nothing and the second announces the user's departure. |
| Channels.TwoConnectionsAnnounceOnce | src/channels/presence-channel.js:61-103 | Two connections of one user joining and leaving: joining goes out once (first join), leaving goes out once (last leave), with the remaining record's `user_info`. |
| Echo.DispatchTarget | src/echo-server.js:199-204 | Definition: the target `broadcast` picks. `BroadcastReach` states whom it reaches. |
| Echo.AfterBroadcast | src/echo-server.js:198-221 | Definition of `broadcast` on the state. `BroadcastReach` states its properties. |
| Echo.LeaveRooms | src/echo-server.js:255-264 | Definition of the `disconnecting` handler on the state. `LeaveRoomsRooms`, `LeaveRoomsDropsRecords` and `DisconnectLeavesNoRoom` state its properties. |
| Echo.BroadcastReach | src/echo-server.js:198-221 | One emit with the event, channel and data. It reaches the room without the origin iff the origin is given and connected, otherwise the whole room. Nothing else changes. |
| Echo.ChannelLeaveFrame | src/channels/channel.js:65-75 | A channel leave removes the socket from that room only, and changes only that channel's member list, leaving no record of the socket there. |
| Echo.LeaveRoomsRooms | src/echo-server.js:255-264 | After `disconnecting`, the socket is out of every listed room except its own. Other rooms and unlisted channels' lists are unchanged. |
| Echo.LeaveRoomsDropsRecords | src/echo-server.js:255-264 | After `disconnecting`, no listed presence channel keeps a record of the socket. |
| Echo.DisconnectLeavesNoRoom | src/echo-server.js:255-264 | When the keys are all of the socket's rooms, it is left only in its own room. |
| Echo.EchoServer.Find | src/echo-server.js:192-194 | Finds the socket exactly when that id is connected. |
| Echo.EchoServer.Broadcast | src/echo-server.js:198-205 | Returns true. The new state is the dispatch of the message to the channel. |
| Echo.EchoServer.ToOthers | src/echo-server.js:209-213 | Appends the emit to the room without the socket and returns true. |
| Echo.EchoServer.ToAll | src/echo-server.js:217-221 | Appends the emit to the whole room and returns true. |
| Echo.EchoServer.OnSubscribe | src/echo-server.js:237-242 | The channel join with the event's channel field. |
| Echo.EchoServer.OnUnsubscribe | src/echo-server.js:246-251 | The channel leave with the event's channel field. |
| Echo.EchoServer.OnDisconnecting | src/echo-server.js:255-264 | The loop leaves each room key in order, skipping the socket's own room. It reaches the fold whose properties are proved above. |
| Echo.EchoServer.OnClientEvent | src/echo-server.js:268-273 | The channel layer's client-event relay. |
| HttpEvents.BadResponse | src/subscribers/http-subscriber.js:100-104 | Definition: status 400 with the message as `error`. |
| HttpEvents.Complete | src/subscribers/http-subscriber.js:69 | Definition: `channels` or `channel` is truthy, and so are `name` and `data`. |
| HttpEvents.MessageOf | src/subscribers/http-subscriber.js:70-79 | Definition: the message of a complete body, its data decoded when it is a JSON string. |
| HttpEvents.Targets | src/subscribers/http-subscriber.js:80 | Definition: `body.channels` when truthy, else `[body.channel]`, as room names. |
| HttpEvents.BroadcastAll | src/subscribers/http-subscriber.js:85 | Definition: the `forEach` of `broadcast` over the targets. `BroadcastAllLog` states its properties. |
| HttpEvents.AfterEvent | src/subscribers/http-subscriber.js:67-91 | Definition of `handleData` on the state. `EventRule` states its properties. |
| HttpEvents.BroadcastAllLog | src/subscribers/http-subscriber.js:85 | One dispatch per target, in target order, with the dispatcher's recipients. The rest of the state is unchanged. |
| HttpEvents.EventRule | src/subscribers/http-subscriber.js:67-104 | A body that does not decode gets no reply and changes nothing. An incomplete body gets 400 with the fixed message, and only it does; nothing is then dispatched. A `channels` value that is not a list throws before any dispatch. Otherwise every target (`channels` first, else `[channel]`) gets one emit, in order, with its dispatch target, the event and the data. The earlier log, rooms, store and connections are kept, and the reply is 200 `ok`. |
| HttpEvents.HttpSubscriber.HandleData | src/subscribers/http-subscriber.js:67-91 | The state and reply are those of the event transition; the loop reaches the fan-out fold. |
| HttpQueries.Listed | src/api/http-api.js:76-93 | Definition: the rooms `getChannels` lists. |
| HttpQueries.ChannelReport | src/api/http-api.js:100-117 | Definition of `getChannel`'s answer. `ChannelReportRule` states its properties. |
| HttpQueries.UsersReport | src/api/http-api.js:125-137 | Definition of `getChannelUsers`'s answer. `UsersReportRule` states its properties. |
| HttpQueries.ChannelReportRule | src/api/http-api.js:100-117 | The count is the room size (0 when absent) and `occupied` is true iff the room is non-empty. `user_count` is the number of distinct `user_id`s in the unreconciled list, only for presence channels. |
| HttpQueries.UsersReportRule | src/api/http-api.js:125-137 | One `{id, user_info}` per distinct user, no user twice, each from that user's first stored record. |
| HttpQueries.HttpApi.GetChannels | src/api/http-api.js:76-93 | Lists exactly the rooms that are not a socket's own room and that fit the prefix, each with its size and `occupied: true`. |
| HttpQueries.HttpApi.GetChannel | src/api/http-api.js:100-117 | Answers 200 with the channel report. |
| HttpQueries.HttpApi.GetChannelUsers | src/api/http-api.js:125-137 | Answers the user report: 400 with the fixed message for a non-presence channel. |
| HttpQueries.HttpApi.BadResponse | src/api/http-api.js:146-150 | Status 400 with the message as `error`. |
| Access.RemoveFirst | src/server.js:156 | Definition of `replace(t, "")` with a string pattern. `RemoveFirstAbsent` and `RemoveFirstLeftmost` state its properties. |
| Access.GetAppId | src/server.js:142-147 | Definition: the route's `appId`, none (`false`) when it is empty. |
| Access.GetAuthKey | src/server.js:154-162 | Definition: the header less its first `Bearer `, else the `auth_key` query value, else none. `AuthKeyExamples` shows it. |
| Access.CanAccess | src/server.js:123-135 | Definition of `canAccess`. `CanAccessIff` states it in words. |
| Access.UnauthorizedResponse | src/server.js:170-174 | Definition: status 403 with `error: "Unauthorized"`. |
| Access.Guard | src/server.js:110-115 | Definition of the `appId` parameter handler. `GuardRule` states its properties. |
| Access.GetPort | src/server.js:38-42 | Definition of `getPort` on the port's text. `GetPortIsLeftmostMatch` ties it to the regular expression. |
| Access.NumericPortKept | src/server.js:40-41 | A numeric port of two to five digits, turned into text by `String`, comes back unchanged. |
| Access.RemoveFirstAbsent | src/server.js:156 | `replace` with no occurrence leaves the header unchanged. |
| Access.RemoveFirstLeftmost | src/server.js:156 | `replace` removes the leftmost occurrence of `Bearer ` and keeps everything around it. |
| Access.AuthKeyExamples | src/server.js:154-162 | Concrete cases: a bearer header, a query key, and neither. |
| Access.CanAccessIff | src/server.js:123-135 | Access is granted iff the app id and key are truthy, some client has that app id, and the first such client's key equals the key. |
| Access.GuardRule | src/server.js:110-115 | The request is stopped with 403 `Unauthorized` iff it cannot access. |
| Access.GetPortIsLeftmostMatch | src/server.js:38-42 | `getPort` succeeds iff the regular expression matches. It returns the value of the leftmost match's digits: the last (up to five) digits of the trailing run, before an optional `/`. |
| Access.PortExamples | src/server.js:38-42 | `6001/` gives 6001; `7` and `80//` have no match. |
| Access.LongPortExample | src/server.js:38-42 | A seven-digit port keeps its last five digits. |
| Seqs.Filter | src/channels/presence-channel.js:49-51 | Definition of `Array.prototype.filter`. `FilterMembers`, `FilterAppend` and `FilterKeepsAll` state its properties. |
| Seqs.FilterMembers | src/channels/presence-channel.js:49-51 | The filtered list holds exactly the elements that pass the test, and is no longer than the list. |
| Seqs.FilterAppend | src/channels/presence-channel.js:49-51 | Filtering distributes over concatenation, so the survivors keep their order. |
| Seqs.FindFirst | src/channels/presence-channel.js:93 | Definition of `Array.prototype.find`. `FindFirstIff` states its properties. |
| Seqs.FindFirstIff | src/channels/presence-channel.js:93 | `find` answers undefined iff no element passes. Otherwise it answers the element at the first index that passes. |
| Seqs.Reverse | src/channels/presence-channel.js:75 | Definition of `Array.prototype.reverse`. `ReverseAt` states its properties. |
| Seqs.ReverseAt | src/channels/presence-channel.js:75 | Position `k` of the reversed list holds the element `k` places from the end. |
| Values.Truthy | src/channels/presence-channel.js:63 | Definition of JavaScript truthiness. |
| Values.Reparse | src/channels/channel.js:96-100 | Definition of `try { x = JSON.parse(x) } catch (e) { }`. |
| Values.Text | src/server.js:40 | Definition of `String(v)`. |
| Values.NatText | src/server.js:40 | Definition: the decimal digits of a natural number. |
| Values.NatTextRoundTrip | src/server.js:40-41 | The text of a natural number is all digits and reads back, by `Number`, as the number. |
| Relay.RoomJoin | src/channels/channel.js:37 | Definition of `socket.join`. `RoomUpdates` states its properties. |
| Relay.RoomLeave | src/channels/channel.js:70 | Definition of `socket.leave`. `RoomUpdates` states its properties. |
| Relay.RoomUpdates | src/channels/channel.js:65-75 | Joining adds exactly the joiner and leaving removes exactly the leaver. Both keep every room non-empty and leave the other rooms alone. |

## Left out

- Promise and generator plumbing: each asynchronous chain is one sequential step.
- Interleavings of concurrent store reads and writes between requests are not modelled.
- Transport and startup are not modelled:
  - TLS and the HTTP listener;
  - socket.io start-up, `init`/`run`/`stop`;
  - the Redis adapter.

  The wiring in `listen` only binds each subscriber's callback to `Broadcast`; the HTTP subscriber calls `Broadcast` directly.
- The Redis subscriber is pattern-subscribe I/O with a prefix strip.
- The storage backends (sqlite, Redis) and their `PresenceChannelUpdated` publish: the store is an in-memory map.
- The authoriser: `private-channel.js` is not part of this model, and its answer is the `AuthAnswer` parameter.
- Logging and devMode output: this includes `Channel.onJoin`, which only logs, and the `reason` argument of `leave`, which is only logged.
- `getStatus` (uptime, memory), CORS and response-header middleware.
- JSON grammar: parsing is a `Decoder` or `BodyDecoder` parameter.
- Values:
  - floating-point numbers are not modelled;
  - arrays appear only as the body's `channels` list;
  - a member record keeps only `user_id`, `user_info` and `socketId`.
- `user_id` is compared with one equality. JavaScript's loose `==` in `isMember` and the strict comparison in `uniqBy` are not distinguished.
- Key order:
  - the order of `Object.keys(socket.rooms)` on disconnect is an input;
  - the key order of the JSON map that `getChannels` answers is not modelled (it is a map).
- `filter_by_prefix` given as an array is not modelled: the prefix is a string, "" when absent.
- Handler exceptions: `getPort`'s fault on a string without a match is `None`. An uncaught throw in a handler is `NoReply`, and the model stops at the throw with the state as it was then. What happens to the process is not modelled:
  - `JSON.parse` of the request body runs in the stream's `end` listener, outside Express's error handling;
  - the throws described above inside `leave`, `onJoin` and `join` run in promise callbacks and become unhandled rejections;
  - no `uncaughtException` or `unhandledRejection` handler is installed, so under Node's default handling such a throw may end the whole relay process, with every connection.
- Channel fields in socket events: a `channel` field that is not a string reads as no channel. A non-string `channels` entry or event name is used through its text form.
- Request bodies: body chunk assembly is not modelled; `HandleData` takes the assembled text.
- Other socket.io behaviour: the cross-instance adapter is not modelled. Only the version 2 interface (`sockets.connected`, `adapter.rooms`) is modelled.
