/** The real-time gateway (server/src/test-gateway/test.gateway.ts): socket
    handlers that validate a generation request, call the content generator,
    join and leave per-test rooms and relay answers and progress to a room.
    Room membership is a map from room name to the set of member clients;
    what the handlers send, including the reply the socket.io adapter sends
    back for a handler's returned `{ event, data }`, is appended to an event
    log, in order. */
module Gateway {
  import opened Common
  import GeminiFlash

  type ClientId = string

  /** Where an event goes: the calling socket only, or every member of a room. */
  datatype Target = ToClient(client: ClientId) | ToRoom(room: string)

  datatype Emitted = Emitted(target: Target, event: string, data: JsValue)

  /** The `{ event, data }` value a handler returns. The socket.io adapter
      sends it back to the calling socket as event `event` carrying `data`,
      once the handler has finished. */
  datatype Reply = Reply(event: string, data: JsValue)

  /** The event the adapter sends to `client` for a returned reply. */
  function ReplyTo(client: ClientId, r: Reply): Emitted {
    Emitted(ToClient(client), r.event, r.data)
  }

  /** The `{ testId }` data the book, join and leave replies carry. */
  function TestIdData(payload: Payload): JsValue {
    JsObject(map["testId" := Get(payload, "testId")])
  }

  /** A payload is a plain object: its own properties and their values. */
  type Payload = map<string, JsValue>

  // Event names shared with the client.
  const TestCreated: string := "test:created"
  const ErrorEvent: string := "error"

  /** The fields a form request must carry. */
  const FormFields: seq<string> :=
    ["subject", "topic", "difficulty_level", "test_format", "number_of_questions", "user_prompt"]

  /** `payload[key]`: a missing property reads as `undefined`. */
  function Get(payload: Payload, key: string): JsValue {
    if key in payload then payload[key] else JsUndefined
  }

  /** `requiredFields.every(field => payload.hasOwnProperty(field))`. */
  function IsValidPayload(payload: Payload, requiredFields: seq<string>): (ok: bool)
    ensures ok <==> forall i :: 0 <= i < |requiredFields| ==> requiredFields[i] in payload
  {
    |requiredFields| == 0 || (requiredFields[0] in payload && IsValidPayload(payload, requiredFields[1..]))
  }

  /** `{ message }`, the body of an error event. */
  function ErrorData(message: string): JsValue {
    JsObject(map["message" := JsStr(message)])
  }

  /** The name of the room of a test: `` `test:${testId}` ``. */
  function RoomName(testId: JsValue): string {
    "test:" + ToJsString(testId)
  }

  /** The generator's arguments, in the order the form handler passes them:
      `user_prompt` goes into the generator's language slot. */
  function FormRequest(payload: Payload): (r: GeminiFlash.TestRequest)
    ensures r.subject == Get(payload, "subject") && r.topic == Get(payload, "topic")
    ensures r.difficultyLevel == Get(payload, "difficulty_level") && r.testFormat == Get(payload, "test_format")
    ensures r.numberOfQuestions == Get(payload, "number_of_questions")
    ensures r.language == Get(payload, "user_prompt")
  {
    GeminiFlash.TestRequest(
      Get(payload, "subject"), Get(payload, "topic"), Get(payload, "difficulty_level"),
      Get(payload, "test_format"), Get(payload, "number_of_questions"), Get(payload, "user_prompt"))
  }

  /** What the generator's result looks like on the wire. */
  function GeneratedValue(g: GeminiFlash.Generated): JsValue {
    match g
    case Raw(text) => JsStr(text)
    case Parsed(v) => v
  }

  /** The single event the form handler sends back to its caller. */
  function FormReply(client: ClientId, payload: Payload,
                     ai: string -> GeminiFlash.Outcome<GeminiFlash.Response>,
                     parse: string -> GeminiFlash.Outcome<JsValue>): (e: Emitted)
    ensures e.target == ToClient(client)
    ensures e.event == TestCreated <==>
      IsValidPayload(payload, FormFields) && GeminiFlash.GenerateTest(FormRequest(payload), ai, parse).Resolved?
    ensures e.event != TestCreated ==> e.event == ErrorEvent
  {
    if !IsValidPayload(payload, FormFields) then
      Emitted(ToClient(client), ErrorEvent, ErrorData("Invalid payload structure"))
    else
      match GeminiFlash.GenerateTest(FormRequest(payload), ai, parse)
      case Resolved(g) => Emitted(ToClient(client), TestCreated, GeneratedValue(g))
      case Rejected(m) => Emitted(ToClient(client), ErrorEvent, ErrorData(m))
  }

  /** `client` is a member of `room`. */
  predicate Member(rooms: map<string, set<ClientId>>, room: string, client: ClientId) {
    room in rooms && client in rooms[room]
  }

  /** `client.join(room)`. */
  function AddMember(rooms: map<string, set<ClientId>>, room: string, client: ClientId): (r: map<string, set<ClientId>>)
    ensures forall x, c :: Member(r, x, c) <==> Member(rooms, x, c) || (x == room && c == client)
  {
    rooms[room := (if room in rooms then rooms[room] else {}) + {client}]
  }

  /** `client.leave(room)`; leaving a room one is not in changes nothing. */
  function RemoveMember(rooms: map<string, set<ClientId>>, room: string, client: ClientId): (r: map<string, set<ClientId>>)
    ensures forall x, c :: Member(r, x, c) <==> Member(rooms, x, c) && !(x == room && c == client)
  {
    if room in rooms then rooms[room := rooms[room] - {client}] else rooms
  }

  /** Joining and then leaving the same room leaves the client outside it
      and every other membership, the client's own in other rooms included,
      as it was. */
  lemma JoinThenLeave(rooms: map<string, set<ClientId>>, room: string, client: ClientId)
    ensures !Member(RemoveMember(AddMember(rooms, room, client), room, client), room, client)
    ensures forall x, c :: (x, c) != (room, client) ==>
      (Member(RemoveMember(AddMember(rooms, room, client), room, client), x, c) <==> Member(rooms, x, c))
  {
  }

  /** The form handler's answer in each of its three cases. */
  lemma FormReplyCases(client: ClientId, payload: Payload,
                       ai: string -> GeminiFlash.Outcome<GeminiFlash.Response>,
                       parse: string -> GeminiFlash.Outcome<JsValue>)
    ensures !IsValidPayload(payload, FormFields) ==>
      FormReply(client, payload, ai, parse) == Emitted(ToClient(client), ErrorEvent, ErrorData("Invalid payload structure"))
    ensures IsValidPayload(payload, FormFields) ==>
      match GeminiFlash.GenerateTest(FormRequest(payload), ai, parse)
      case Resolved(g) => FormReply(client, payload, ai, parse) == Emitted(ToClient(client), TestCreated, GeneratedValue(g))
      case Rejected(m) => FormReply(client, payload, ai, parse) == Emitted(ToClient(client), ErrorEvent, ErrorData(m))
  {
  }

  /** A payload missing any one of the six form fields is invalid. */
  lemma MissingFieldInvalid(payload: Payload, i: nat)
    requires i < |FormFields| && FormFields[i] !in payload
    ensures !IsValidPayload(payload, FormFields)
  {
  }

  /** The gateway: room membership, the events sent so far, and the requests
      handed to the generator so far. */
  class TestGateway {
    var rooms: map<string, set<ClientId>>
    var events: seq<Emitted>
    var generatorCalls: seq<GeminiFlash.TestRequest>

    constructor ()
      ensures rooms == map[] && events == [] && generatorCalls == []
    {
      rooms := map[];
      events := [];
      generatorCalls := [];
    }

    /** `handleCreateTestByForm`: an invalid payload is answered with an error
        before the generator is consulted; a valid one calls the generator
        once and answers with its result or its error message. */
    method HandleCreateTestByForm(client: ClientId, payload: Payload,
                                  ai: string -> GeminiFlash.Outcome<GeminiFlash.Response>,
                                  parse: string -> GeminiFlash.Outcome<JsValue>)
      modifies this
      ensures rooms == old(rooms)
      ensures events == old(events) + [FormReply(client, payload, ai, parse)]
      ensures generatorCalls ==
        if IsValidPayload(payload, FormFields) then old(generatorCalls) + [FormRequest(payload)] else old(generatorCalls)
    {
      if !IsValidPayload(payload, FormFields) {
        events := events + [Emitted(ToClient(client), ErrorEvent, ErrorData("Invalid payload structure"))];
        return;
      }
      var request := FormRequest(payload);
      generatorCalls := generatorCalls + [request];
      var result := GeminiFlash.GenerateTest(request, ai, parse);
      match result {
        case Resolved(g) =>
          events := events + [Emitted(ToClient(client), TestCreated, GeneratedValue(g))];
        case Rejected(m) =>
          events := events + [Emitted(ToClient(client), ErrorEvent, ErrorData(m))];
      }
    }

    /** `handleCreateTestByBook`: without a truthy `testId` the caller gets an
        error and nothing else happens; with one the caller joins the test's
        room and is sent `test:created` with the id. */
    method HandleCreateTestByBook(client: ClientId, payload: Payload) returns (reply: Option<Reply>)
      modifies this
      ensures generatorCalls == old(generatorCalls)
      ensures !Truthy(Get(payload, "testId")) ==>
        reply == None && rooms == old(rooms) &&
        events == old(events) + [Emitted(ToClient(client), ErrorEvent, ErrorData("testId is required"))]
      ensures Truthy(Get(payload, "testId")) ==>
        reply == Some(Reply(TestCreated, TestIdData(payload))) &&
        rooms == AddMember(old(rooms), RoomName(Get(payload, "testId")), client) &&
        events == old(events) + [Emitted(ToClient(client), TestCreated, TestIdData(payload))]
    {
      var testId := Get(payload, "testId");
      if !Truthy(testId) {
        events := events + [Emitted(ToClient(client), ErrorEvent, ErrorData("testId is required"))];
        return None;
      }
      rooms := AddMember(rooms, RoomName(testId), client);
      var r := Reply(TestCreated, TestIdData(payload));
      events := events + [ReplyTo(client, r)];
      reply := Some(r);
    }

    /** `handleJoinTest`: the caller joins the test's room and is sent
        `joinTest` with the id; the room hears nothing. */
    method HandleJoinTest(client: ClientId, payload: Payload) returns (reply: Reply)
      modifies this
      ensures rooms == AddMember(old(rooms), RoomName(Get(payload, "testId")), client)
      ensures generatorCalls == old(generatorCalls)
      ensures reply == Reply("joinTest", TestIdData(payload))
      ensures events == old(events) + [Emitted(ToClient(client), "joinTest", TestIdData(payload))]
    {
      rooms := AddMember(rooms, RoomName(Get(payload, "testId")), client);
      reply := Reply("joinTest", TestIdData(payload));
      events := events + [ReplyTo(client, reply)];
    }

    /** `handleLeaveTest`: the caller leaves the test's room and is sent
        `leaveTest` with the id; the room hears nothing. */
    method HandleLeaveTest(client: ClientId, payload: Payload) returns (reply: Reply)
      modifies this
      ensures rooms == RemoveMember(old(rooms), RoomName(Get(payload, "testId")), client)
      ensures generatorCalls == old(generatorCalls)
      ensures reply == Reply("leaveTest", TestIdData(payload))
      ensures events == old(events) + [Emitted(ToClient(client), "leaveTest", TestIdData(payload))]
    {
      rooms := RemoveMember(rooms, RoomName(Get(payload, "testId")), client);
      reply := Reply("leaveTest", TestIdData(payload));
      events := events + [ReplyTo(client, reply)];
    }

    /** `handleSubmitAnswer`: relays the answer, tagged with the sender, to the
        test's room, then the caller is sent `submitAnswer` with the id. */
    method HandleSubmitAnswer(client: ClientId, payload: Payload) returns (reply: Reply)
      modifies this
      ensures rooms == old(rooms) && generatorCalls == old(generatorCalls)
      ensures reply == Reply("submitAnswer", TestIdData(payload))
      ensures events == old(events) + [Emitted(ToRoom(RoomName(Get(payload, "testId"))), "answerSubmitted",
        JsObject(map["clientId" := JsStr(client), "answer" := Get(payload, "answer")])),
        Emitted(ToClient(client), "submitAnswer", TestIdData(payload))]
    {
      var data := JsObject(map["clientId" := JsStr(client), "answer" := Get(payload, "answer")]);
      events := events + [Emitted(ToRoom(RoomName(Get(payload, "testId"))), "answerSubmitted", data)];
      reply := Reply("submitAnswer", TestIdData(payload));
      events := events + [ReplyTo(client, reply)];
    }

    /** `handleTestProgress`: relays the progress, tagged with the sender, to
        the test's room, then the caller is sent `testProgress` with the id and
        the progress. */
    method HandleTestProgress(client: ClientId, payload: Payload) returns (reply: Reply)
      modifies this
      ensures rooms == old(rooms) && generatorCalls == old(generatorCalls)
      ensures reply == Reply("testProgress",
        JsObject(map["testId" := Get(payload, "testId"), "progress" := Get(payload, "progress")]))
      ensures events == old(events) + [Emitted(ToRoom(RoomName(Get(payload, "testId"))), "progressUpdated",
        JsObject(map["clientId" := JsStr(client), "progress" := Get(payload, "progress")])),
        Emitted(ToClient(client), "testProgress",
          JsObject(map["testId" := Get(payload, "testId"), "progress" := Get(payload, "progress")]))]
    {
      var data := JsObject(map["clientId" := JsStr(client), "progress" := Get(payload, "progress")]);
      events := events + [Emitted(ToRoom(RoomName(Get(payload, "testId"))), "progressUpdated", data)];
      reply := Reply("testProgress", JsObject(map["testId" := Get(payload, "testId"), "progress" := Get(payload, "progress")]));
      events := events + [ReplyTo(client, reply)];
    }
  }

  /** A join followed by a leave for the same test, on a live gateway: the
      client ends outside the room, every other membership is restored, and
      the only events are the two replies to the client, each echoing the
      test id; no room hears anything. */
  method JoinThenLeaveScenario(g: TestGateway, client: ClientId, payload: Payload) returns (joined: Reply, left: Reply)
    modifies g
    ensures !Member(g.rooms, RoomName(Get(payload, "testId")), client)
    ensures forall x, c :: (x, c) != (RoomName(Get(payload, "testId")), client) ==>
      (Member(g.rooms, x, c) <==> Member(old(g.rooms), x, c))
    ensures g.events == old(g.events) +
      [Emitted(ToClient(client), "joinTest", TestIdData(payload)), Emitted(ToClient(client), "leaveTest", TestIdData(payload))]
    ensures joined.data == left.data == JsObject(map["testId" := Get(payload, "testId")])
  {
    joined := g.HandleJoinTest(client, payload);
    left := g.HandleLeaveTest(client, payload);
    JoinThenLeave(old(g.rooms), RoomName(Get(payload, "testId")), client);
  }
}
