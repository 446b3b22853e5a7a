/**
 * The socket handlers of the server: a presence registry (rooms named after user
 * ids, each holding the connections that joined it) and a relay that forwards
 * each client event to one room under a fixed event name, with a fixed
 * projection of the payload.
 */
module Relay {
  import opened Values

  /** A transport-level connection id (`socket.id`). */
  type ConnId = string

  /** One event handed to one connection. */
  datatype Delivery = Delivery(conn: ConnId, event: string, payload: Payload)

  /** What one connection receives, without the connection id. */
  datatype Message = Message(event: string, payload: Payload)

  /** Where a handler sends: the room, the outgoing event name and the payload. */
  datatype Route = Route(room: Json, event: string, payload: Payload)

  /** The events a connection received, in the order it received them. */
  function Inbox(out: seq<Delivery>, c: ConnId): (r: seq<Message>)
    ensures |r| <= |out|
  {
    if out == [] then []
    else
      var d := out[|out| - 1];
      Inbox(out[..|out| - 1], c) + (if d.conn == c then [Message(d.event, d.payload)] else [])
  }

  lemma InboxSnoc(out: seq<Delivery>, d: Delivery, c: ConnId)
    ensures Inbox(out + [d], c) ==
            Inbox(out, c) + (if d.conn == c then [Message(d.event, d.payload)] else [])
  {
    assert (out + [d])[..|out|] == out;
  }

  /** One delivery of `(event, payload)` to each connection of `order`, in that order. */
  function FanOut(order: seq<ConnId>, event: string, payload: Payload): (r: seq<Delivery>)
    ensures |r| == |order|
  {
    if order == [] then []
    else FanOut(order[..|order| - 1], event, payload) + [Delivery(order[|order| - 1], event, payload)]
  }

  predicate Distinct(order: seq<ConnId>)
  {
    forall i, j :: 0 <= i < j < |order| ==> order[i] != order[j]
  }

  /** A fan-out to distinct connections hands each of them the event once, and nobody else anything. */
  lemma {:induction false} InboxOfFanOut(base: seq<Delivery>, order: seq<ConnId>, event: string, payload: Payload, k: ConnId)
    requires Distinct(order)
    ensures Inbox(base + FanOut(order, event, payload), k) ==
            Inbox(base, k) + (if k in order then [Message(event, payload)] else [])
    decreases |order|
  {
    if order == [] {
      assert base + FanOut(order, event, payload) == base;
    } else {
      var front := order[..|order| - 1];
      var d := Delivery(order[|order| - 1], event, payload);
      assert base + FanOut(order, event, payload) == (base + FanOut(front, event, payload)) + [d];
      InboxSnoc(base + FanOut(front, event, payload), d, k);
      InboxOfFanOut(base, front, event, payload, k);
      assert k in order <==> k in front || k == order[|order| - 1];
      assert k in front ==> k != order[|order| - 1];
    }
  }

  /** Delivery never reorders: what a connection received before is a prefix of what it has after. */
  lemma {:induction false} InboxAppend(a: seq<Delivery>, b: seq<Delivery>, c: ConnId)
    ensures Inbox(a + b, c) == Inbox(a, c) + Inbox(b, c)
    decreases |b|
  {
    if b == [] {
      assert a + b == a;
    } else {
      var d := b[|b| - 1];
      var b' := b[..|b| - 1];
      assert a + b == (a + b') + [d];
      InboxSnoc(a + b', d, c);
      InboxSnoc(b', d, c);
      assert b' + [d] == b;
      InboxAppend(a, b', c);
    }
  }

  // ---------- registry ----------

  /** The connections in a room; a room nobody joined is empty. */
  function MembersOf(rooms: map<Json, set<ConnId>>, room: Json): set<ConnId>
  {
    if room in rooms then rooms[room] else {}
  }

  /** `socket.join(room)`. */
  function Joined(rooms: map<Json, set<ConnId>>, room: Json, c: ConnId): (r: map<Json, set<ConnId>>)
    ensures MembersOf(r, room) == MembersOf(rooms, room) + {c}
    ensures forall q :: q != room ==> MembersOf(r, q) == MembersOf(rooms, q)
  {
    rooms[room := MembersOf(rooms, room) + {c}]
  }

  /** Joining a room twice leaves membership as it was after the first join. */
  lemma JoinIdempotent(rooms: map<Json, set<ConnId>>, room: Json, c: ConnId)
    ensures Joined(Joined(rooms, room, c), room, c) == Joined(rooms, room, c)
  {
  }

  /** What the transport does on disconnect: the connection leaves every room; empty rooms go away. */
  function Left(rooms: map<Json, set<ConnId>>, c: ConnId): (r: map<Json, set<ConnId>>)
    ensures forall q :: MembersOf(r, q) == MembersOf(rooms, q) - {c}
    ensures forall q :: q in r ==> r[q] != {}
  {
    map q | q in rooms && rooms[q] - {c} != {} :: rooms[q] - {c}
  }

  /** What a route hands to connection `k`. */
  function Delivered(rooms: map<Json, set<ConnId>>, route: Option<Route>, k: ConnId): seq<Message>
  {
    if route.Some? && k in MembersOf(rooms, route.value.room)
    then [Message(route.value.event, route.value.payload)]
    else []
  }

  // ---------- handler table ----------

  const MessageSeenFields: set<string> := {"messageId", "seenBy"}
  const CallUserFields: set<string> := {"from", "to", "callType", "offer"}
  const AnswerCallFields: set<string> := {"from", "to", "answer", "answerSDP"}
  const IceCandidateFields: set<string> := {"candidate"}
  const CancelCallFields: set<string> := {"from"}

  /** The incoming events that have a relay handler. */
  const RelayedEvents: set<string> :=
    {"sendMessage", "messageSeen", "callUser", "answerCall", "iceCandidate", "callEnded", "cancelCall"}

  /** The handlers that copy a fixed set of fields from their input. */
  const ProjectingEvents: set<string> := {"messageSeen", "callUser", "answerCall", "iceCandidate", "cancelCall"}

  /** The event name each relay handler emits under. */
  function OutgoingEvent(event: string): string
  {
    match event
    case "sendMessage" => "receiveMessage"
    case "messageSeen" => "messageSeenUpdate"
    case "callUser" => "incomingCall"
    case "answerCall" => "callAnswered"
    case "iceCandidate" => "iceCandidate"
    case "callEnded" => "callEnded"
    case _ => "callCancelled"
  }

  /** The fields a projecting handler copies, when the input has them. */
  function ForwardedFields(event: string): set<string>
  {
    match event
    case "messageSeen" => MessageSeenFields
    case "callUser" => CallUserFields
    case "answerCall" => AnswerCallFields
    case "iceCandidate" => IceCandidateFields
    case "cancelCall" => CancelCallFields
    case _ => {}
  }

  /** The payload field that names the target room of each handler. */
  function TargetField(event: string): string
  {
    match event
    case "sendMessage" => "receiverId"
    case "messageSeen" => "senderId"
    case _ => "to"
  }

  /**
   * The relay handlers. `socketId` is the sending connection's id, used by
   * `callEnded` when the payload carries no truthy `from`. An absent target
   * field (`io.to(undefined)`) names a room nobody is in: no route.
   */
  function RouteOf(event: string, data: Payload, socketId: ConnId): (r: Option<Route>)
    ensures r.Some? <==> event in RelayedEvents && TargetField(event) in data
    ensures r.Some? ==> r.value.room == data[TargetField(event)]
    ensures r.Some? ==> r.value.event == OutgoingEvent(event)
    // which keys go out: all of them, a fixed projection, or `from` alone
    ensures r.Some? && event == "sendMessage" ==> r.value.payload == data
    ensures r.Some? && event in ProjectingEvents ==> r.value.payload.Keys == data.Keys * ForwardedFields(event)
    ensures r.Some? && event == "callEnded" ==> r.value.payload.Keys == {"from"}
    // the relay never alters a value it forwards; the only value it adds is the `callEnded` fallback
    ensures r.Some? ==> forall k :: k in r.value.payload ==>
      (k in data && r.value.payload[k] == data[k]) ||
      (event == "callEnded" && k == "from" && r.value.payload[k] == Str(socketId))
  {
    if event !in RelayedEvents || TargetField(event) !in data then None
    else
      var room := data[TargetField(event)];
      match event
      case "sendMessage" => Some(Route(room, "receiveMessage", data))
      case "messageSeen" => Some(Route(room, "messageSeenUpdate", Project(data, MessageSeenFields)))
      case "callUser" => Some(Route(room, "incomingCall", Project(data, CallUserFields)))
      case "answerCall" => Some(Route(room, "callAnswered", Project(data, AnswerCallFields)))
      case "iceCandidate" => Some(Route(room, "iceCandidate", Project(data, IceCandidateFields)))
      case "callEnded" =>
        var from := if TruthyOpt(Field(data, "from")) then data["from"] else Str(socketId);
        Some(Route(room, "callEnded", map["from" := from]))
      case _ => Some(Route(room, "callCancelled", Project(data, CancelCallFields)))
  }

  /** `sendMessage` forwards the payload unchanged, as `receiveMessage`, to room `receiverId`. */
  lemma SendMessageVerbatim(data: Payload, socketId: ConnId)
    requires "receiverId" in data
    ensures RouteOf("sendMessage", data, socketId) == Some(Route(data["receiverId"], "receiveMessage", data))
  {
  }

  /** `callUser` forwards exactly `{from, to, callType, offer}` of the input, as `incomingCall`, to room `to`. */
  lemma CallUserProjection(data: Payload, socketId: ConnId)
    requires CallUserFields <= data.Keys
    ensures var r := RouteOf("callUser", data, socketId);
      r.Some? && r.value.room == data["to"] && r.value.event == "incomingCall" &&
      r.value.payload == map["from" := data["from"], "to" := data["to"],
                             "callType" := data["callType"], "offer" := data["offer"]]
  {
    var p := RouteOf("callUser", data, socketId).value.payload;
    assert p.Keys == CallUserFields;
  }

  /**
   * `answerCall` forwards, as `callAnswered` to room `to`, those of `{from, to, answer, answerSDP}`
   * that the input has, unchanged.
   */
  lemma AnswerCallProjection(data: Payload, socketId: ConnId)
    requires "to" in data
    ensures var r := RouteOf("answerCall", data, socketId);
      r.Some? && r.value.room == data["to"] && r.value.event == "callAnswered" &&
      r.value.payload.Keys == data.Keys * AnswerCallFields &&
      forall k :: k in r.value.payload ==> r.value.payload[k] == data[k]
  {
  }

  /** An accepted answer carries all four fields, and all four reach the caller. */
  lemma AnswerCallAccepted(data: Payload, socketId: ConnId)
    requires AnswerCallFields <= data.Keys
    ensures var r := RouteOf("answerCall", data, socketId);
      r.Some? && r.value.room == data["to"] && r.value.event == "callAnswered" &&
      r.value.payload == map["from" := data["from"], "to" := data["to"],
                             "answer" := data["answer"], "answerSDP" := data["answerSDP"]]
  {
    var p := RouteOf("answerCall", data, socketId).value.payload;
    assert p.Keys == AnswerCallFields;
  }

  /** A rejection carries no SDP, and the caller receives `{from, to, answer}` and no `answerSDP` key. */
  lemma AnswerCallRejected(to: Json, from: Json, socketId: ConnId)
    ensures var r := RouteOf("answerCall", map["to" := to, "from" := from, "answer" := Str("rejected")], socketId);
      r.Some? && r.value.room == to && r.value.event == "callAnswered" &&
      r.value.payload == map["from" := from, "to" := to, "answer" := Str("rejected")]
  {
    var data := map["to" := to, "from" := from, "answer" := Str("rejected")];
    var p := RouteOf("answerCall", data, socketId).value.payload;
    assert p.Keys == {"from", "to", "answer"};
  }

  /**
   * `messageSeen` goes to room `senderId` as `messageSeenUpdate`, with only the message id
   * and the reader; the sender's id itself is not forwarded.
   */
  lemma MessageSeenProjection(data: Payload, socketId: ConnId)
    requires "senderId" in data
    ensures var r := RouteOf("messageSeen", data, socketId);
      r.Some? && r.value.room == data["senderId"] && r.value.event == "messageSeenUpdate" &&
      r.value.payload.Keys == data.Keys * {"messageId", "seenBy"} && "senderId" !in r.value.payload &&
      forall k :: k in r.value.payload ==> r.value.payload[k] == data[k]
  {
  }

  /** `cancelCall` goes to room `to` as `callCancelled`, with the caller's `from` alone. */
  lemma CancelCallProjection(data: Payload, socketId: ConnId)
    requires "to" in data
    ensures var r := RouteOf("cancelCall", data, socketId);
      r.Some? && r.value.room == data["to"] && r.value.event == "callCancelled" &&
      r.value.payload.Keys == data.Keys * {"from"} &&
      ("from" in data ==> r.value.payload["from"] == data["from"])
  {
  }

  /** `iceCandidate` forwards only the candidate; the sender's other fields stay behind. */
  lemma IceCandidateOnlyCandidate(data: Payload, socketId: ConnId)
    requires "to" in data
    ensures var r := RouteOf("iceCandidate", data, socketId);
      r.Some? && r.value.event == "iceCandidate" && r.value.payload.Keys == data.Keys * {"candidate"}
  {
  }

  /** `callEnded` reports `from` when the caller gave a truthy one and the sending socket's id otherwise. */
  lemma CallEndedFrom(data: Payload, socketId: ConnId)
    requires "to" in data
    ensures var r := RouteOf("callEnded", data, socketId);
      r.Some? && r.value.event == "callEnded" && r.value.payload.Keys == {"from"} &&
      r.value.payload["from"] == (if "from" in data && Truthy(data["from"]) then data["from"] else Str(socketId))
  {
  }

  /** The transport walks the room's members one at a time, each exactly once. */
  method Enumerate(members: set<ConnId>) returns (order: seq<ConnId>)
    ensures Distinct(order) && |order| == |members|
    ensures forall c :: c in order <==> c in members
  {
    var rest := members;
    order := [];
    while rest != {}
      invariant rest !! set c | c in order
      invariant rest + (set c | c in order) == members
      invariant Distinct(order) && |order| + |rest| == |members|
      decreases |rest|
    {
      var c :| c in rest;
      order := order + [c];
      rest := rest - {c};
    }
  }

  // ---------- the server's connection state ----------

  class Server {
    /** Room membership, as the transport keeps it. */
    var rooms: map<Json, set<ConnId>>
    /** Every event handed to a connection so far, in order. */
    var outbox: seq<Delivery>

    constructor ()
      ensures rooms == map[] && outbox == []
    {
      rooms := map[];
      outbox := [];
    }

    function Members(room: Json): set<ConnId>
      reads this
    {
      MembersOf(rooms, room)
    }

    /** A new connection; the transport puts it in a room named after its own id. */
    method Connect(c: ConnId)
      modifies this
      ensures rooms == Joined(old(rooms), Str(c), c)
      ensures outbox == old(outbox)
    {
      rooms := Joined(rooms, Str(c), c);
    }

    /** The `joinRoom` handler. */
    method JoinRoom(c: ConnId, userId: Json)
      modifies this
      ensures rooms == Joined(old(rooms), userId, c)
      ensures outbox == old(outbox)
    {
      rooms := Joined(rooms, userId, c);
    }

    /** The `disconnect` event: the handler only logs; the transport drops the connection from its rooms. */
    method Disconnect(c: ConnId)
      modifies this
      ensures rooms == Left(old(rooms), c)
      ensures outbox == old(outbox)
    {
      rooms := Left(rooms, c);
    }

    /** `io.to(room).emit(event, payload)`: one delivery to every connection in the room, and to no other. */
    method Emit(room: Json, event: string, payload: Payload)
      modifies this
      ensures rooms == old(rooms)
      ensures |outbox| == |old(outbox)| + |old(Members(room))|
      ensures old(outbox) <= outbox
      ensures forall k :: Inbox(outbox, k) ==
                          Inbox(old(outbox), k) + (if k in old(Members(room)) then [Message(event, payload)] else [])
    {
      var members := Members(room);
      var order := Enumerate(members);
      var added := FanOut(order, event, payload);
      forall k
        ensures Inbox(outbox + added, k) ==
                Inbox(outbox, k) + (if k in members then [Message(event, payload)] else [])
      {
        InboxOfFanOut(outbox, order, event, payload, k);
      }
      outbox := outbox + added;
    }

    /** One relay handler run for an event that connection `c` sent. */
    method Handle(c: ConnId, event: string, data: Payload)
      modifies this
      ensures rooms == old(rooms)
      ensures forall k :: Inbox(outbox, k) == Inbox(old(outbox), k) + Delivered(old(rooms), RouteOf(event, data, c), k)
    {
      var route := RouteOf(event, data, c);
      if route.Some? {
        Emit(route.value.room, route.value.event, route.value.payload);
      }
    }
  }

  /** A room nobody is in receives nothing, and the handler reports no error. */
  lemma EmptyRoomNoDelivery(rooms: map<Json, set<ConnId>>, event: string, data: Payload, socketId: ConnId, k: ConnId)
    requires TargetField(event) in data && MembersOf(rooms, data[TargetField(event)]) == {}
    ensures Delivered(rooms, RouteOf(event, data, socketId), k) == []
  {
  }

  /** After a connection has left, no route reaches it. */
  lemma LeftConnectionUnreachable(rooms: map<Json, set<ConnId>>, c: ConnId, route: Option<Route>)
    ensures Delivered(Left(rooms, c), route, c) == []
  {
  }

  /** Two connections of one user both receive what is sent to that user's room. */
  lemma FanOutToEveryTab(rooms: map<Json, set<ConnId>>, user: Json, c1: ConnId, c2: ConnId, route: Route)
    requires route.room == user
    ensures var r := Joined(Joined(rooms, user, c1), user, c2);
      Delivered(r, Some(route), c1) == [Message(route.event, route.payload)] &&
      Delivered(r, Some(route), c2) == [Message(route.event, route.payload)]
  {
  }

  /** The rooms of the call set-up scenario: "A" alone in "doctor1", "B" alone in "patient5". */
  lemma ScenarioRooms(rooms: map<Json, set<ConnId>>)
    requires rooms == Joined(Joined(Joined(Joined(map[], Str("A"), "A"), Str("B"), "B"), Str("doctor1"), "A"), Str("patient5"), "B")
    ensures MembersOf(rooms, Str("doctor1")) == {"A"} && MembersOf(rooms, Str("patient5")) == {"B"}
  {
    var r2 := Joined(Joined(map[], Str("A"), "A"), Str("B"), "B");
    assert MembersOf(r2, Str("doctor1")) == {} && MembersOf(r2, Str("patient5")) == {};
  }

  /** The patient's call reaches the doctor's connection alone, and the doctor's answer the patient's alone. */
  lemma ScenarioDeliveries(rooms: map<Json, set<ConnId>>, call: Payload, reply: Payload, offer: Json, answer: Json)
    requires MembersOf(rooms, Str("doctor1")) == {"A"} && MembersOf(rooms, Str("patient5")) == {"B"}
    requires call == map["to" := Str("doctor1"), "from" := Str("patient5"), "callType" := Str("audio"), "offer" := offer]
    requires reply == map["to" := Str("patient5"), "from" := Str("doctor1"), "answer" := Str("accepted"), "answerSDP" := answer]
    ensures Delivered(rooms, RouteOf("callUser", call, "B"), "A") ==
      [Message("incomingCall", map["from" := Str("patient5"), "to" := Str("doctor1"), "callType" := Str("audio"), "offer" := offer])]
    ensures Delivered(rooms, RouteOf("callUser", call, "B"), "B") == []
    ensures Delivered(rooms, RouteOf("answerCall", reply, "A"), "A") == []
    ensures Delivered(rooms, RouteOf("answerCall", reply, "A"), "B") ==
      [Message("callAnswered", map["from" := Str("doctor1"), "to" := Str("patient5"), "answer" := Str("accepted"), "answerSDP" := answer])]
  {
    ScenarioCall(rooms, call, offer);
    ScenarioAnswer(rooms, reply, answer);
  }

  lemma ScenarioCall(rooms: map<Json, set<ConnId>>, call: Payload, offer: Json)
    requires MembersOf(rooms, Str("doctor1")) == {"A"}
    requires call == map["to" := Str("doctor1"), "from" := Str("patient5"), "callType" := Str("audio"), "offer" := offer]
    ensures Delivered(rooms, RouteOf("callUser", call, "B"), "A") ==
      [Message("incomingCall", map["from" := Str("patient5"), "to" := Str("doctor1"), "callType" := Str("audio"), "offer" := offer])]
    ensures Delivered(rooms, RouteOf("callUser", call, "B"), "B") == []
  {
    CallUserProjection(call, "B");
    assert RouteOf("callUser", call, "B").value.room == Str("doctor1");
  }

  lemma ScenarioAnswer(rooms: map<Json, set<ConnId>>, reply: Payload, answer: Json)
    requires MembersOf(rooms, Str("patient5")) == {"B"}
    requires reply == map["to" := Str("patient5"), "from" := Str("doctor1"), "answer" := Str("accepted"), "answerSDP" := answer]
    ensures Delivered(rooms, RouteOf("answerCall", reply, "A"), "A") == []
    ensures Delivered(rooms, RouteOf("answerCall", reply, "A"), "B") ==
      [Message("callAnswered", map["from" := Str("doctor1"), "to" := Str("patient5"), "answer" := Str("accepted"), "answerSDP" := answer])]
  {
    AnswerCallAccepted(reply, "A");
    assert RouteOf("answerCall", reply, "A").value.room == Str("patient5");
  }

  /** The scenario's server: both connections made and both users' rooms joined, nothing delivered yet. */
  method ScenarioServer() returns (s: Server)
    ensures fresh(s) && s.outbox == []
    ensures MembersOf(s.rooms, Str("doctor1")) == {"A"} && MembersOf(s.rooms, Str("patient5")) == {"B"}
  {
    s := new Server();
    s.Connect("A");
    s.Connect("B");
    s.JoinRoom("A", Str("doctor1"));
    s.JoinRoom("B", Str("patient5"));
    ScenarioRooms(s.rooms);
  }

  /**
   * The call set-up scenario: a doctor's connection "A" joins room "doctor1" and a
   * patient's connection "B" joins room "patient5"; the patient calls and the
   * doctor accepts. Each side receives exactly one event, with the opaque offer
   * and answer untouched.
   */
  method CallSetupScenario(offer: Json, answer: Json) returns (atDoctor: seq<Message>, atPatient: seq<Message>)
    ensures atDoctor == [Message("incomingCall", map["from" := Str("patient5"), "to" := Str("doctor1"),
                                                     "callType" := Str("audio"), "offer" := offer])]
    ensures atPatient == [Message("callAnswered", map["from" := Str("doctor1"), "to" := Str("patient5"),
                                                      "answer" := Str("accepted"), "answerSDP" := answer])]
  {
    var s := ScenarioServer();
    var call := map["to" := Str("doctor1"), "from" := Str("patient5"), "callType" := Str("audio"), "offer" := offer];
    var reply := map["to" := Str("patient5"), "from" := Str("doctor1"), "answer" := Str("accepted"), "answerSDP" := answer];
    ScenarioDeliveries(s.rooms, call, reply, offer, answer);
    s.Handle("B", "callUser", call);
    s.Handle("A", "answerCall", reply);
    atDoctor := Inbox(s.outbox, "A");
    atPatient := Inbox(s.outbox, "B");
  }
}
