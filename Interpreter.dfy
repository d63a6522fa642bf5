/**
 * The decision ladder every operation of the room gateway applies to what the
 * transport hands back: transport failure, parse failure, the service's
 * `code` against the operation's success threshold, and only then success.
 */
module Interpreter {
  import opened Wrappers
  import opened Json

  /** The Windows `DWORD` the HTTP client returns (0 means the exchange went through). */
  type DWord = x: int | 0 <= x < 0x1_0000_0000

  /**
   * The client-facing error code of a callback. `Adapted(c)` is the value
   * `adaptRTCErrorCode` gave for a service code that missed the threshold.
   */
  datatype ErrorCode = RoomSuccess | RoomErrSystemError | RoomErrWrongJson | Adapted(code: int)

  /** The `{ errorCode, message }` pair every callback receives first. */
  datatype Status = Status(code: ErrorCode, message: string)

  /** What `http_get` / `http_post` produce: the return code and the response body. */
  datatype Reply = Reply(ret: DWord, respData: string)

  /** The ladder's outcome: a final error status, or the parsed document and its message. */
  datatype Verdict = Rejected(status: Status) | Accepted(root: Json, message: string)

  const HttpRequestFailed := "Http request failed"
  /** The parse-failure message of getLoginInfo, createRoom, destroyRoom and heartbeat. */
  const JsonParseFailed := "json parse failed"
  /** The parse-failure message of getRoomList, also used when `rooms` is not an array. */
  const JsonParseFailedRoomList := "Json parse failed"

  /** The transport succeeded and returned a non-empty body. */
  predicate Delivered(reply: Reply)
  {
    reply.ret == 0 && reply.respData != []
  }

  /** The service code: -1 when the document has no `code` member. */
  function CodeOf(root: Json): int
  {
    if IsMember(root, "code") then AsInt(Member(root, "code")) else -1
  }

  /** The service message: "" when the document has no `message` member. */
  function MessageOf(root: Json): string
  {
    if IsMember(root, "message") then AsString(Member(root, "message")) else ""
  }

  /** The reply was delivered, parses, and carries the operation's success code. */
  predicate Meets(reply: Reply, parse: string -> Option<Json>, successCode: int)
  {
    && Delivered(reply)
    && parse(reply.respData).Some?
    && CodeOf(parse(reply.respData).value) == successCode
  }

  /**
   * The shared classification of a reply. `successCode` is the operation's
   * threshold (0 or 200) and `parseFailed` its parse-failure message.
   */
  function Interpret(reply: Reply, parse: string -> Option<Json>, adapt: int -> int,
                     successCode: int, parseFailed: string): (v: Verdict)
    ensures v.Accepted? <==> Meets(reply, parse, successCode)
    ensures !Delivered(reply) ==> v == Rejected(Status(RoomErrSystemError, HttpRequestFailed))
    ensures Delivered(reply) && parse(reply.respData).None? ==>
              v == Rejected(Status(RoomErrWrongJson, parseFailed))
    ensures Delivered(reply) && parse(reply.respData).Some? && !Meets(reply, parse, successCode) ==>
              var root := parse(reply.respData).value;
              v == Rejected(Status(Adapted(adapt(CodeOf(root))), MessageOf(root)))
    ensures v.Accepted? ==> parse(reply.respData) == Some(v.root) && v.message == MessageOf(v.root)
    ensures v.Rejected? ==> v.status.code != RoomSuccess
  {
    if reply.ret != 0 || reply.respData == [] then
      Rejected(Status(RoomErrSystemError, HttpRequestFailed))
    else
      match parse(reply.respData)
      case None => Rejected(Status(RoomErrWrongJson, parseFailed))
      case Some(root) =>
        var code := CodeOf(root);
        var message := MessageOf(root);
        if code != successCode then Rejected(Status(Adapted(adapt(code)), message))
        else Accepted(root, message)
  }

  /** A failed transport decides the verdict alone: the parser is never consulted. */
  lemma TransportFailureIgnoresParser(reply: Reply, parse1: string -> Option<Json>,
                                      parse2: string -> Option<Json>, adapt: int -> int,
                                      successCode: int, parseFailed: string)
    requires !Delivered(reply)
    ensures Interpret(reply, parse1, adapt, successCode, parseFailed)
         == Interpret(reply, parse2, adapt, successCode, parseFailed)
  {
  }

  /**
   * A document without `code` is read as code -1, so under either threshold
   * of the gateway it is rejected with the adapted code of -1.
   */
  lemma AbsentCodeNeverSucceeds(reply: Reply, parse: string -> Option<Json>, adapt: int -> int,
                                successCode: int, parseFailed: string)
    requires Delivered(reply) && parse(reply.respData).Some?
    requires !IsMember(parse(reply.respData).value, "code")
    requires successCode == 0 || successCode == 200
    ensures Interpret(reply, parse, adapt, successCode, parseFailed)
         == Rejected(Status(Adapted(adapt(-1)), MessageOf(parse(reply.respData).value)))
  {
  }
}
