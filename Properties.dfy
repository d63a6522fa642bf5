/**
 * Properties that relate several operations, and worked response examples
 * on concrete documents.
 */
module Properties {
  import opened Wrappers
  import opened Json
  import opened Interpreter
  import opened HttpRequest

  /**
   * The two thresholds disagree: a document with code 0 is a success for
   * login, createRoom and getRoomList but an adapted error for destroyRoom
   * and heartbeat, and a document with code 200 the other way round.
   */
  lemma ThresholdAsymmetry(reply: Reply, parse: string -> Option<Json>, adapt: int -> int, nullIsArray: bool)
    requires Delivered(reply) && parse(reply.respData).Some?
    requires CodeOf(parse(reply.respData).value) == 0 || CodeOf(parse(reply.respData).value) == 200
    ensures var root := parse(reply.respData).value;
            CodeOf(root) == 0 ==>
              && LoginOutcome(reply, parse, adapt).status.code == RoomSuccess
              && CreateRoomOutcome(reply, parse, adapt).status.code == RoomSuccess
              && AckOutcome(reply, parse, adapt) == Call(Status(Adapted(adapt(0)), MessageOf(root)), ())
    ensures var root := parse(reply.respData).value;
            CodeOf(root) == 200 ==>
              && LoginOutcome(reply, parse, adapt) == Call(Status(Adapted(adapt(200)), MessageOf(root)), DefaultAuthData)
              && CreateRoomOutcome(reply, parse, adapt) == Call(Status(Adapted(adapt(200)), MessageOf(root)), "")
              && RoomListOutcome(reply, parse, adapt, nullIsArray) == Call(Status(Adapted(adapt(200)), MessageOf(root)), [])
              && AckOutcome(reply, parse, adapt).status.code == RoomSuccess
  {
  }

  /** A document without `code` makes every operation report the adapted code of -1. */
  lemma AbsentCodeFailsEverywhere(reply: Reply, parse: string -> Option<Json>, adapt: int -> int, nullIsArray: bool)
    requires Delivered(reply) && parse(reply.respData).Some?
    requires !IsMember(parse(reply.respData).value, "code")
    ensures var failed := Status(Adapted(adapt(-1)), MessageOf(parse(reply.respData).value));
            && LoginOutcome(reply, parse, adapt) == Call(failed, DefaultAuthData)
            && CreateRoomOutcome(reply, parse, adapt) == Call(failed, "")
            && AckOutcome(reply, parse, adapt) == Call(failed, ())
            && RoomListOutcome(reply, parse, adapt, nullIsArray) == Call(failed, [])
  {
  }

  /**
   * The messages on the two early exits: the same transport message for every
   * operation, and a parse message that only getRoomList capitalises.
   */
  lemma EarlyExitMessages(reply: Reply, parse: string -> Option<Json>, adapt: int -> int, nullIsArray: bool)
    ensures !Delivered(reply) ==>
              var failed := Status(RoomErrSystemError, "Http request failed");
              && LoginOutcome(reply, parse, adapt) == Call(failed, DefaultAuthData)
              && CreateRoomOutcome(reply, parse, adapt) == Call(failed, "")
              && AckOutcome(reply, parse, adapt) == Call(failed, ())
              && RoomListOutcome(reply, parse, adapt, nullIsArray) == Call(failed, [])
    ensures Delivered(reply) && parse(reply.respData).None? ==>
              && LoginOutcome(reply, parse, adapt) == Call(Status(RoomErrWrongJson, "json parse failed"), DefaultAuthData)
              && CreateRoomOutcome(reply, parse, adapt) == Call(Status(RoomErrWrongJson, "json parse failed"), "")
              && AckOutcome(reply, parse, adapt) == Call(Status(RoomErrWrongJson, "json parse failed"), ())
              && RoomListOutcome(reply, parse, adapt, nullIsArray)
                 == Call(Status(RoomErrWrongJson, "Json parse failed"), [])
  {
  }

  /**
   * On a successful login each AuthData field is taken from its member when
   * that member is present, and keeps the default's value when it is absent.
   */
  lemma LoginFieldsFromPresentMembers(reply: Reply, parse: string -> Option<Json>, adapt: int -> int)
    requires Meets(reply, parse, 0)
    ensures var root := parse(reply.respData).value;
            var auth := LoginOutcome(reply, parse, adapt).payload;
            && auth.sdkAppID == (if IsMember(root, "sdkAppID") then AsInt(Member(root, "sdkAppID"))
                                 else DefaultAuthData.sdkAppID)
            && auth.accountType == (if IsMember(root, "accountType") then AsString(Member(root, "accountType"))
                                    else DefaultAuthData.accountType)
            && auth.userID == (if IsMember(root, "userID") then AsString(Member(root, "userID"))
                               else DefaultAuthData.userID)
            && auth.userSig == (if IsMember(root, "userSig") then AsString(Member(root, "userSig"))
                                else DefaultAuthData.userSig)
  {
  }

  /** Two documents that agree on whether `key` is present and on its value. */
  predicate AgreeOn(root1: Json, root2: Json, key: string)
  {
    IsMember(root1, key) == IsMember(root2, key) && Member(root1, key) == Member(root2, key)
  }

  /**
   * The login payload depends on nothing but the four AuthData members: two
   * successful replies that agree on them give the same payload, whatever
   * else their documents hold (the service message included).
   */
  lemma LoginPayloadOnlyFromAuthMembers(reply1: Reply, reply2: Reply, parse: string -> Option<Json>,
                                        adapt: int -> int)
    requires Meets(reply1, parse, 0) && Meets(reply2, parse, 0)
    requires var root1 := parse(reply1.respData).value;
             var root2 := parse(reply2.respData).value;
             && AgreeOn(root1, root2, "sdkAppID") && AgreeOn(root1, root2, "accountType")
             && AgreeOn(root1, root2, "userID") && AgreeOn(root1, root2, "userSig")
    ensures LoginOutcome(reply1, parse, adapt) == LoginOutcome(reply2, parse, adapt)
  {
  }

  /** A list response with one room yields a one-element list holding that room. */
  lemma OneRoomScenario(reply: Reply, parse: string -> Option<Json>, adapt: int -> int, nullIsArray: bool)
    requires Delivered(reply)
    requires parse(reply.respData) == Some(Obj(map[
               "code" := Int(0),
               "rooms" := Arr([Obj(map["roomID" := Str("r1"), "roomInfo" := Str("i1"), "roomType" := Str("t1")])])]))
    ensures RoomListOutcome(reply, parse, adapt, nullIsArray)
         == Call(Status(RoomSuccess, ""), [RoomData("r1", "i1", "t1")])
  {
    var root := parse(reply.respData).value;
    var room := Items(Member(root, "rooms"))[0];
    assert RoomFrom(room) == RoomData("r1", "i1", "t1");
    var c := RoomListOutcome(reply, parse, adapt, nullIsArray);
    assert c.payload == [RoomFrom(room)];
  }

  /** A `rooms` member that is a string is reported as malformed JSON with an empty list. */
  lemma RoomsNotArrayScenario(reply: Reply, parse: string -> Option<Json>, adapt: int -> int, nullIsArray: bool)
    requires Delivered(reply)
    requires parse(reply.respData) == Some(Obj(map["code" := Int(0), "rooms" := Str("not-an-array")]))
    ensures RoomListOutcome(reply, parse, adapt, nullIsArray)
         == Call(Status(RoomErrWrongJson, "Json parse failed"), [])
  {
  }

  /** A service error passes its message through with the adapted code, e.g. code 7 with "bad". */
  lemma ServiceErrorScenario(reply: Reply, parse: string -> Option<Json>, adapt: int -> int)
    requires Delivered(reply)
    requires parse(reply.respData) == Some(Obj(map["code" := Int(7), "message" := Str("bad")]))
    ensures CreateRoomOutcome(reply, parse, adapt) == Call(Status(Adapted(adapt(7)), "bad"), "")
    ensures LoginOutcome(reply, parse, adapt) == Call(Status(Adapted(adapt(7)), "bad"), DefaultAuthData)
  {
  }
}
