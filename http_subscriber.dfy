/**
  The HTTP ingestion source: a POST to /apps/:appId/events carries an event body
  that is checked, turned into a message, and dispatched to every channel it
  names, in order, before the reply.
 */
module HttpEvents {
  import opened Values
  import opened Relay
  import opened Echo

  /**
    The `channels` field of an event body: falsy, a JSON array of entries, or
    some other truthy value (on which `forEach` does not exist).
   */
  datatype ChannelsField = NoList | List(items: seq<Value>) | NotAList

  /** The fields of a decoded event body; an absent field is `Null`, and a body that is not an object has none. */
  datatype EventBody = EventBody(channels: ChannelsField, channel: Value, name: Value, data: Value, socketId: Value)

  /** The body decoder: `None` where `JSON.parse` throws, and for a `null` body, whose fields cannot be read. */
  type BodyDecoder = string -> Option<EventBody>

  /** What the request gets: no reply when the handler throws, or a response. */
  datatype Outcome = NoReply | Reply(response: Response)

  const EventRequired := "Event must include channel, event name and data"

  /** `badResponse(req, res, message)`: status 400 with the message as `error`. */
  function BadResponse(message: string): Response {
    Response(400, ErrorMessage(message))
  }

  /** `(body.channels || body.channel) && body.name && body.data`. */
  predicate Complete(body: EventBody) {
    (!body.channels.NoList? || Truthy(body.channel)) && Truthy(body.name) && Truthy(body.data)
  }

  /** The message built from a complete body: its name, its data decoded when it is a JSON string, and its origin socket. */
  function MessageOf(body: EventBody, decode: Decoder): Message {
    Message(Text(body.name), Reparse(body.data, decode), if Truthy(body.socketId) then Text(body.socketId) else "")
  }

  /** The room names of the entries, in order. */
  function RoomNames(items: seq<Value>): seq<string>
    decreases |items|
  {
    if |items| == 0 then [] else [Text(items[0])] + RoomNames(items[1..])
  }

  /** `body.channels || [body.channel]`, as room names; `None` when `channels` is truthy but not a list. */
  function Targets(body: EventBody): Option<seq<string>> {
    match body.channels
    case NoList => Some([Text(body.channel)])
    case List(items) => Some(RoomNames(items))
    case NotAList => None
  }

  /** The `forEach` of `broadcast(channel, message)` calls over the targets. */
  function BroadcastAll(w: World, rooms: seq<string>, message: Message): World
    decreases |rooms|
  {
    if |rooms| == 0 then w else BroadcastAll(AfterBroadcast(w, rooms[0], message), rooms[1..], message)
  }

  /** `handleData(req, res, body, broadcast)`: the state after the request and what the request gets. */
  function AfterEvent(w: World, text: string, parseBody: BodyDecoder, decode: Decoder): (World, Outcome) {
    match parseBody(text)
    case None => (w, NoReply)
    case Some(body) =>
      if !Complete(body) then (w, Reply(BadResponse(EventRequired)))
      else
        match Targets(body)
        case None => (w, NoReply)
        case Some(rooms) => (BroadcastAll(w, rooms, MessageOf(body, decode)), Reply(Response(200, OkMessage("ok"))))
  }

  /** The room names have one entry per item, each the item's text. */
  lemma {:induction false} RoomNamesAt(items: seq<Value>)
    ensures |RoomNames(items)| == |items|
    ensures forall i :: 0 <= i < |items| ==> RoomNames(items)[i] == Text(items[i])
    decreases |items|
  {
    if |items| > 0 {
      RoomNamesAt(items[1..]);
      forall i | 0 < i < |items| ensures RoomNames(items)[i] == Text(items[i]) {
        assert RoomNames(items)[i] == RoomNames(items[1..])[i - 1];
      }
    }
  }

  /**
    Fan-out: the message is dispatched once per target, in target order, each
    with the dispatcher's choice of recipients; rooms, store and connected sockets
    are untouched.
   */
  lemma {:induction false} BroadcastAllLog(w: World, rooms: seq<string>, message: Message)
    ensures var w' := BroadcastAll(w, rooms, message);
      w'.rooms == w.rooms && w'.store == w.store && w'.connected == w.connected &&
      |w'.log| == |w.log| + |rooms| && w'.log[..|w.log|] == w.log &&
      forall i :: 0 <= i < |rooms| ==>
        w'.log[|w.log| + i] == Emission(DispatchTarget(w.connected, rooms[i], message), message.event, DataArg(rooms[i], message.data))
    decreases |rooms|
  {
    if |rooms| > 0 {
      var w1 := AfterBroadcast(w, rooms[0], message);
      BroadcastAllLog(w1, rooms[1..], message);
      var w' := BroadcastAll(w, rooms, message);
      assert w'.log[..|w1.log|] == w1.log;
      assert w'.log[..|w.log|] == w1.log[..|w.log|];
      forall i | 0 <= i < |rooms|
        ensures w'.log[|w.log| + i] == Emission(DispatchTarget(w.connected, rooms[i], message), message.event, DataArg(rooms[i], message.data))
      {
        if i == 0 {
          assert w'.log[|w.log|] == w'.log[..|w1.log|][|w.log|];
        } else {
          assert w'.log[|w.log| + i] == w'.log[|w1.log| + (i - 1)];
        }
      }
    }
  }

  /**
    A body that does not decode gets no reply and changes nothing. An incomplete
    body gets the 400 answer, and only it does, with nothing dispatched. A
    complete body whose `channels` is truthy but not a list throws in `forEach`
    before any dispatch. Otherwise every target (`channels` first, else the
    single `channel`) is dispatched in order, each emit carrying the target, the
    event and the message data, the earlier log and the rest of the state are
    kept, and the reply is 200 "ok".
   */
  lemma EventRule(w: World, text: string, parseBody: BodyDecoder, decode: Decoder)
    ensures parseBody(text).None? ==> AfterEvent(w, text, parseBody, decode) == (w, NoReply)
    ensures parseBody(text).Some? ==>
      var body, (w', outcome) := parseBody(text).value, AfterEvent(w, text, parseBody, decode);
      (!Complete(body) <==> outcome == Reply(Response(400, ErrorMessage(EventRequired)))) &&
      (!Complete(body) ==> w' == w) &&
      (Complete(body) && body.channels.NotAList? ==> w' == w && outcome == NoReply)
    ensures parseBody(text).Some? ==>
      var body, (w', outcome) := parseBody(text).value, AfterEvent(w, text, parseBody, decode);
      var message := MessageOf(body, decode);
      Complete(body) && body.channels.List? ==>
        outcome == Reply(Response(200, OkMessage("ok"))) &&
        w'.rooms == w.rooms && w'.store == w.store && w'.connected == w.connected &&
        |w'.log| == |w.log| + |body.channels.items| && w'.log[..|w.log|] == w.log &&
        forall i :: 0 <= i < |body.channels.items| ==>
          w'.log[|w.log| + i] == Emission(DispatchTarget(w.connected, Text(body.channels.items[i]), message),
                                          Text(body.name), DataArg(Text(body.channels.items[i]), message.data))
    ensures parseBody(text).Some? ==>
      var body, (w', outcome) := parseBody(text).value, AfterEvent(w, text, parseBody, decode);
      var message := MessageOf(body, decode);
      Complete(body) && body.channels.NoList? ==>
        outcome == Reply(Response(200, OkMessage("ok"))) &&
        w'.rooms == w.rooms && w'.store == w.store && w'.connected == w.connected &&
        w'.log == w.log + [Emission(DispatchTarget(w.connected, Text(body.channel), message),
                                    Text(body.name), DataArg(Text(body.channel), message.data))]
  {
    if parseBody(text).Some? {
      var body := parseBody(text).value;
      var message := MessageOf(body, decode);
      if Complete(body) && body.channels.List? {
        var items := body.channels.items;
        RoomNamesAt(items);
        BroadcastAllLog(w, RoomNames(items), message);
        var w' := AfterEvent(w, text, parseBody, decode).0;
        assert w' == BroadcastAll(w, RoomNames(items), message);
        forall i | 0 <= i < |items|
          ensures w'.log[|w.log| + i] == Emission(DispatchTarget(w.connected, Text(items[i]), message),
                                                  Text(body.name), DataArg(Text(items[i]), message.data))
        {
          assert RoomNames(items)[i] == Text(items[i]);
        }
      }
      if Complete(body) && body.channels.NoList? {
        BroadcastAllLog(w, [Text(body.channel)], message);
        var w' := AfterEvent(w, text, parseBody, decode).0;
        assert w'.log == w'.log[..|w.log|] + [w'.log[|w.log|]];
      }
    }
  }

  /** The HTTP subscriber over the dispatcher. */
  class HttpSubscriber {
    const server: EchoServer
    const parseBody: BodyDecoder

    constructor (server: EchoServer, parseBody: BodyDecoder)
      ensures this.server == server && this.parseBody == parseBody
    {
      this.server := server;
      this.parseBody := parseBody;
    }

    /** `handleData` on the assembled request text. */
    method HandleData(text: string) returns (outcome: Outcome)
      requires server.Valid()
      modifies server.channel.io
      ensures (server.State(), outcome) == AfterEvent(old(server.State()), text, parseBody, server.channel.decode)
    {
      var parsed := parseBody(text);
      if parsed.None? {
        return NoReply;
      }
      var body := parsed.value;
      if !Complete(body) {
        return Reply(BadResponse(EventRequired));
      }
      var message := MessageOf(body, server.channel.decode);
      var targets := Targets(body);
      if targets.None? {
        // `channels.forEach` is not a function
        return NoReply;
      }
      var rooms := targets.value;
      var k := 0;
      while k < |rooms|
        invariant 0 <= k <= |rooms|
        invariant BroadcastAll(server.State(), rooms[k..], message) ==
          BroadcastAll(old(server.State()), rooms, message)
      {
        assert rooms[k..][1..] == rooms[k + 1..];
        var _ := server.Broadcast(rooms[k], message);
        k := k + 1;
      }
      outcome := Reply(Response(200, OkMessage("ok")));
    }
  }
}
