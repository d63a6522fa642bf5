/**
 * The five operations of the room gateway's HTTP client. Each builds its
 * request, takes the transport's reply as an input, and reports through its
 * callback exactly once; the sequence `calls` records the callback
 * invocations in order.
 */
module HttpRequest {
  import opened Wrappers
  import opened Json
  import opened Interpreter
  import opened Requests

  datatype AuthData = AuthData(sdkAppID: Int32, accountType: string, userID: string, userSig: string)

  /** `AuthData()`: every field at its zero value. */
  const DefaultAuthData := AuthData(0, "", "", "")

  datatype RoomData = RoomData(roomID: string, roomInfo: string, roomType: string)

  /** One invocation of a callback: the status and the operation's payload. */
  datatype Call<P> = Call(status: Status, payload: P)

  /** An optional string member: its value when present, "" otherwise. */
  function OptString(root: Json, key: string): string
  {
    if IsMember(root, key) then AsString(Member(root, key)) else ""
  }

  /** An optional integer member: its value when present, 0 otherwise. */
  function OptInt(root: Json, key: string): Int32
  {
    if IsMember(root, key) then AsInt(Member(root, key)) else 0
  }

  /** The login payload, field by field from the members that are present. */
  function AuthFrom(root: Json): AuthData
  {
    AuthData(OptInt(root, "sdkAppID"), OptString(root, "accountType"),
             OptString(root, "userID"), OptString(root, "userSig"))
  }

  /** One element of the room list, read from `rooms[i]`. */
  function RoomFrom(roomObj: Json): RoomData
  {
    RoomData(AsString(Member(roomObj, "roomID")), AsString(Member(roomObj, "roomInfo")),
             AsString(Member(roomObj, "roomType")))
  }

  function RoomsOf(rooms: seq<Json>): seq<RoomData>
  {
    seq(|rooms|, i requires 0 <= i < |rooms| => RoomFrom(rooms[i]))
  }

  // ---------------------------------------------------------------------------
  // What each callback receives, as a function of the reply
  // ---------------------------------------------------------------------------

  /** getLoginInfo: threshold 0; on success the message is always "". */
  function LoginOutcome(reply: Reply, parse: string -> Option<Json>, adapt: int -> int): (c: Call<AuthData>)
    ensures c.status.code == RoomSuccess <==> Meets(reply, parse, 0)
    ensures !Meets(reply, parse, 0) ==>
              c == Call(Interpret(reply, parse, adapt, 0, JsonParseFailed).status, DefaultAuthData)
    ensures Meets(reply, parse, 0) ==>
              c == Call(Status(RoomSuccess, ""), AuthFrom(parse(reply.respData).value))
  {
    match Interpret(reply, parse, adapt, 0, JsonParseFailed)
    case Rejected(status) => Call(status, DefaultAuthData)
    case Accepted(root, _) => Call(Status(RoomSuccess, ""), AuthFrom(root))
  }

  /** createRoom: threshold 0; on success the payload is `roomID` ("" when absent). */
  function CreateRoomOutcome(reply: Reply, parse: string -> Option<Json>, adapt: int -> int): (c: Call<string>)
    ensures c.status.code == RoomSuccess <==> Meets(reply, parse, 0)
    ensures !Meets(reply, parse, 0) ==>
              c == Call(Interpret(reply, parse, adapt, 0, JsonParseFailed).status, "")
    ensures Meets(reply, parse, 0) ==>
              var root := parse(reply.respData).value;
              c == Call(Status(RoomSuccess, MessageOf(root)), OptString(root, "roomID"))
  {
    match Interpret(reply, parse, adapt, 0, JsonParseFailed)
    case Rejected(status) => Call(status, "")
    case Accepted(root, message) => Call(Status(RoomSuccess, message), OptString(root, "roomID"))
  }

  /** destroyRoom and heartbeat: threshold 200; the service message is passed through. */
  function AckOutcome(reply: Reply, parse: string -> Option<Json>, adapt: int -> int): (c: Call<()>)
    ensures c.status.code == RoomSuccess <==> Meets(reply, parse, 200)
    ensures !Meets(reply, parse, 200) ==>
              c == Call(Interpret(reply, parse, adapt, 200, JsonParseFailed).status, ())
    ensures Meets(reply, parse, 200) ==>
              c == Call(Status(RoomSuccess, MessageOf(parse(reply.respData).value)), ())
  {
    match Interpret(reply, parse, adapt, 200, JsonParseFailed)
    case Rejected(status) => Call(status, ())
    case Accepted(_, message) => Call(Status(RoomSuccess, message), ())
  }

  /**
   * getRoomList: threshold 0, parse-failure message "Json parse failed"; then
   * `rooms` must be an array, and the list has one element per array element.
   */
  function RoomListOutcome(reply: Reply, parse: string -> Option<Json>, adapt: int -> int,
                           nullIsArray: bool): (c: Call<seq<RoomData>>)
    ensures c.status.code == RoomSuccess <==>
              Meets(reply, parse, 0) && IsArray(Member(parse(reply.respData).value, "rooms"), nullIsArray)
    ensures c.status.code != RoomSuccess ==> c.payload == []
    ensures !Meets(reply, parse, 0) ==>
              c.status == Interpret(reply, parse, adapt, 0, JsonParseFailedRoomList).status
    ensures Meets(reply, parse, 0) && !IsArray(Member(parse(reply.respData).value, "rooms"), nullIsArray) ==>
              c.status == Status(RoomErrWrongJson, JsonParseFailedRoomList)
    ensures c.status.code == RoomSuccess ==>
              var root := parse(reply.respData).value;
              var rooms := Items(Member(root, "rooms"));
              && c.status.message == MessageOf(root)
              && |c.payload| == |rooms|
              && forall i :: 0 <= i < |rooms| ==> c.payload[i] == RoomFrom(rooms[i])
  {
    match Interpret(reply, parse, adapt, 0, JsonParseFailedRoomList)
    case Rejected(status) => Call(status, [])
    case Accepted(root, message) =>
      var rooms := Member(root, "rooms");
      if !IsArray(rooms, nullIsArray) then Call(Status(RoomErrWrongJson, JsonParseFailedRoomList), [])
      else Call(Status(RoomSuccess, message), RoomsOf(Items(rooms)))
  }

  // ---------------------------------------------------------------------------
  // The operations
  // ---------------------------------------------------------------------------

  /** The room-list loop: one `push_back` per element of `rooms`, in array order. */
  method CollectRooms(rooms: seq<Json>) returns (roomList: seq<RoomData>)
    ensures |roomList| == |rooms|
    ensures forall i :: 0 <= i < |rooms| ==> roomList[i] == RoomFrom(rooms[i])
  {
    roomList := [];
    var i := 0;
    while i < |rooms|
      invariant 0 <= i <= |rooms|
      invariant |roomList| == i
      invariant forall k :: 0 <= k < i ==> roomList[k] == RoomFrom(rooms[k])
    {
      var roomObj := rooms[i];
      var newRoom := RoomData("", "", "");
      newRoom := newRoom.(roomID := AsString(Member(roomObj, "roomID")));
      newRoom := newRoom.(roomInfo := AsString(Member(roomObj, "roomInfo")));
      newRoom := newRoom.(roomType := AsString(Member(roomObj, "roomType")));
      roomList := roomList + [newRoom];
      i := i + 1;
    }
  }

  /** getLoginInfo: a GET on the caller's thread, success when `code` is 0. */
  method GetLoginInfo(domain: string, userID: string, codec: Codec, adapt: int -> int, reply: Reply)
    returns (req: Request, calls: seq<Call<AuthData>>)
    ensures req == LoginRequest(domain, userID)
    ensures calls == [LoginOutcome(reply, codec.parse, adapt)]
  {
    req := BuildLoginRequest(domain, userID);
    calls := [];
    if reply.ret != 0 || reply.respData == [] {
      calls := calls + [Call(Status(RoomErrSystemError, HttpRequestFailed), DefaultAuthData)];
      return;
    }
    var parsed := codec.parse(reply.respData);
    if parsed.None? {
      calls := calls + [Call(Status(RoomErrWrongJson, JsonParseFailed), DefaultAuthData)];
      return;
    }
    var root := parsed.value;
    var code: int := -1;
    if IsMember(root, "code") {
      code := AsInt(Member(root, "code"));
    }
    var message := "";
    if IsMember(root, "message") {
      message := AsString(Member(root, "message"));
    }
    if code != 0 {
      calls := calls + [Call(Status(Adapted(adapt(code)), message), DefaultAuthData)];
      return;
    }
    var authData := DefaultAuthData;
    if IsMember(root, "sdkAppID") {
      authData := authData.(sdkAppID := AsInt(Member(root, "sdkAppID")));
    }
    if IsMember(root, "accountType") {
      authData := authData.(accountType := AsString(Member(root, "accountType")));
    }
    if IsMember(root, "userID") {
      authData := authData.(userID := AsString(Member(root, "userID")));
    }
    if IsMember(root, "userSig") {
      authData := authData.(userSig := AsString(Member(root, "userSig")));
    }
    calls := calls + [Call(Status(RoomSuccess, ""), authData)];
  }

  /** createRoom: a POST to `create_room`, success when `code` is 0. */
  method CreateRoom(domain: string, roomID: string, userID: string, roomInfo: string, roomType: string,
                    codec: Codec, adapt: int -> int, reply: Reply)
    returns (req: Request, calls: seq<Call<string>>)
    ensures req == PostRequest(domain, CreateRoomPath, CreateRoomDoc(roomID, roomInfo, roomType, userID), codec.write)
    ensures calls == [CreateRoomOutcome(reply, codec.parse, adapt)]
  {
    var jsonObj := BuildCreateRoomDoc(roomID, roomInfo, roomType, userID);
    req := BuildPost(domain, CreateRoomPath, jsonObj, codec.write);
    calls := [];
    if reply.ret != 0 || reply.respData == [] {
      calls := calls + [Call(Status(RoomErrSystemError, HttpRequestFailed), "")];
      return;
    }
    var parsed := codec.parse(reply.respData);
    if parsed.None? {
      calls := calls + [Call(Status(RoomErrWrongJson, JsonParseFailed), "")];
      return;
    }
    var root := parsed.value;
    var code: int := -1;
    if IsMember(root, "code") {
      code := AsInt(Member(root, "code"));
    }
    var message := "";
    if IsMember(root, "message") {
      message := AsString(Member(root, "message"));
    }
    if code != 0 {
      calls := calls + [Call(Status(Adapted(adapt(code)), message), "")];
      return;
    }
    var createdID := "";
    if IsMember(root, "roomID") {
      createdID := AsString(Member(root, "roomID"));
    }
    calls := calls + [Call(Status(RoomSuccess, message), createdID)];
  }

  /** destroyRoom: a POST to `delete_room`, success when `code` is 200. */
  method DestroyRoom(domain: string, roomID: string, roomType: string,
                     codec: Codec, adapt: int -> int, reply: Reply)
    returns (req: Request, calls: seq<Call<()>>)
    ensures req == PostRequest(domain, DestroyRoomPath, RoomRefDoc(roomID, roomType), codec.write)
    ensures calls == [AckOutcome(reply, codec.parse, adapt)]
  {
    var jsonObj := BuildRoomRefDoc(roomID, roomType);
    req := BuildPost(domain, DestroyRoomPath, jsonObj, codec.write);
    calls := Acknowledge(codec.parse, adapt, reply);
  }

  /** heartbeat: a POST to `room_heartbeat`, success when `code` is 200. */
  method Heartbeat(domain: string, roomID: string, roomType: string,
                   codec: Codec, adapt: int -> int, reply: Reply)
    returns (req: Request, calls: seq<Call<()>>)
    ensures req == PostRequest(domain, HeartbeatPath, RoomRefDoc(roomID, roomType), codec.write)
    ensures calls == [AckOutcome(reply, codec.parse, adapt)]
  {
    var jsonObj := BuildRoomRefDoc(roomID, roomType);
    req := BuildPost(domain, HeartbeatPath, jsonObj, codec.write);
    calls := Acknowledge(codec.parse, adapt, reply);
  }

  /** The reply handling destroyRoom and heartbeat share, step by step. */
  method Acknowledge(parse: string -> Option<Json>, adapt: int -> int, reply: Reply)
    returns (calls: seq<Call<()>>)
    ensures calls == [AckOutcome(reply, parse, adapt)]
  {
    calls := [];
    if reply.ret != 0 || reply.respData == [] {
      calls := calls + [Call(Status(RoomErrSystemError, HttpRequestFailed), ())];
      return;
    }
    var parsed := parse(reply.respData);
    if parsed.None? {
      calls := calls + [Call(Status(RoomErrWrongJson, JsonParseFailed), ())];
      return;
    }
    var root := parsed.value;
    var code: int := -1;
    if IsMember(root, "code") {
      code := AsInt(Member(root, "code"));
    }
    var message := "";
    if IsMember(root, "message") {
      message := AsString(Member(root, "message"));
    }
    if code != 200 {
      calls := calls + [Call(Status(Adapted(adapt(code)), message), ())];
      return;
    }
    calls := calls + [Call(Status(RoomSuccess, message), ())];
  }

  /** getRoomList: a POST to `get_room_list`, success when `code` is 0 and `rooms` is an array. */
  method GetRoomList(domain: string, index: Int32, cnt: Int32, roomType: string,
                     codec: Codec, adapt: int -> int, nullIsArray: bool, reply: Reply)
    returns (req: Request, calls: seq<Call<seq<RoomData>>>)
    ensures req == PostRequest(domain, RoomListPath, RoomListDoc(index, cnt, roomType), codec.write)
    ensures calls == [RoomListOutcome(reply, codec.parse, adapt, nullIsArray)]
  {
    var jsonObj := BuildRoomListDoc(index, cnt, roomType);
    req := BuildPost(domain, RoomListPath, jsonObj, codec.write);
    calls := [];
    if reply.ret != 0 || reply.respData == [] {
      calls := calls + [Call(Status(RoomErrSystemError, HttpRequestFailed), [])];
      return;
    }
    var parsed := codec.parse(reply.respData);
    if parsed.None? {
      calls := calls + [Call(Status(RoomErrWrongJson, JsonParseFailedRoomList), [])];
      return;
    }
    var root := parsed.value;
    var code: int := -1;
    if IsMember(root, "code") {
      code := AsInt(Member(root, "code"));
    }
    var message := "";
    if IsMember(root, "message") {
      message := AsString(Member(root, "message"));
    }
    if code != 0 {
      calls := calls + [Call(Status(Adapted(adapt(code)), message), [])];
      return;
    }
    var rooms := Null;
    if IsMember(root, "rooms") {
      rooms := Member(root, "rooms");
    }
    if !IsArray(rooms, nullIsArray) {
      calls := calls + [Call(Status(RoomErrWrongJson, JsonParseFailedRoomList), [])];
      return;
    }
    var roomList := CollectRooms(Items(rooms));
    assert roomList == RoomsOf(Items(rooms));
    calls := calls + [Call(Status(RoomSuccess, message), roomList)];
  }
}
