# Room gateway HTTP client: request building and response interpretation

This project models the five operations of the TXCloudPortal room gateway's
`HttpRequest` client — `getLoginInfo`, `createRoom`, `destroyRoom`,
`getRoomList` and `heartbeat` — and proves what each reports to its callback.

Every operation does two things. First it builds a request: a JSON object
filled in field by field, an endpoint URL (the injected domain followed by a
path) and a header list. Then it classifies the transport result
`(ret, respData)` through one fixed ladder:

1. the transport failed or the body is empty;
2. the body does not parse;
3. `code` (absent: -1) and `message` (absent: "") are read, and `code` is
   compared with the operation's success threshold (0 for login, create and
   list; 200 for destroy and heartbeat);
4. only then the payload is read from optional members.

`Interpreter.Interpret` is that ladder written once. Each operation's outcome
function (`LoginOutcome`, `CreateRoomOutcome`, `AckOutcome`,
`RoomListOutcome`) is `Interpret` with the operation's threshold and
parse-failure message, plus its own payload extractor. Each operation is also
an imperative method. It mirrors the source's early returns and field
assignments, and it records the callback invocations it makes in `calls`. Its
contract says that it sends the request the request functions describe, and
that `calls` is exactly one invocation, equal to the outcome function.

Modules:
- `Json`: an abstract document (`Null | Int | Str | Arr | Obj`) and the
  JsonCpp accessors used (`isMember`, `operator[]`, `asInt`, `asString`,
  `isArray`, `size`). `Codec` holds the parser oracle `parse: string ->
  Option<Json>` and the serialiser `write: Json -> string`.
- `Decimal`: the `%lu` rendering of the Content-Length value and its
  read-back.
- `Interpreter`: status codes, the reply, and the shared ladder.
- `Requests`: request bodies, URLs and headers, as functions and as the
  step-by-step builder methods.
- `HttpRequest`: the payload types, the outcome functions and the five
  operations.
- `Properties`: facts relating several operations, and worked response
  examples on concrete documents.

Inputs the program gets from code it cannot see are parameters here:
- the transport reply `reply: Reply(ret, respData)`;
- the JSON codec `codec`;
- `adaptRTCErrorCode` as `adapt: int -> int`;
- `m_domain` as `domain`;
- for `getRoomList`, `nullIsArray`: whether the JsonCpp release in use reports
  a null value as an array.

`getRoomList` says "Json parse failed", with a capital J, on both of its
WRONG_JSON paths: a body that does not parse, and a `rooms` that is not an
array. The other four operations say "json parse failed". When a null value
does not count as an array (`nullIsArray` false), a successful list reply
without `rooms` also takes the second path, because `rooms` then keeps its
null default.
`getLoginInfo` also builds and serialises a `{userID}` object, then sends a
GET that carries no body, so that object plays no part in the model.

## Model

| member | source | states |
|---|---|---|
| Decimal.Render | TXCloudPortal/Common/HttpRequest.cpp:117 | the `%lu` rendering of a size is a non-empty string of digits with no leading zero |
| Decimal.ParseRender | TXCloudPortal/Common/HttpRequest.cpp:117 | reading the rendered digits back gives the size that was rendered |
| Decimal.RenderInjective | TXCloudPortal/Common/HttpRequest.cpp:117 | two different sizes never render to the same digits |
| Requests.ContentLengthRoundTrip | TXCloudPortal/Common/HttpRequest.cpp:117 | the Content-Length header written for a size `n` reads back as `n` |
| Requests.LoginRequest | TXCloudPortal/Common/HttpRequest.cpp:37-46 | login is a GET whose URL is the domain, then `get_login_info?userID=`, then the user ID; its only header is Content-Type |
| Requests.PostRequest | TXCloudPortal/Common/HttpRequest.cpp:114-129 | a POST goes to domain + path; its body is the serialised document; it has two headers, Content-Type then a Content-Length that reads back as the body's size |
| Requests.CreateRoomDoc | TXCloudPortal/Common/HttpRequest.cpp:108-113 | the create-room body has exactly the keys roomID, roomInfo, roomType, userID, needHeartBeat; the first four hold the arguments, needHeartBeat holds 0 |
| Requests.RoomRefDoc | TXCloudPortal/Common/HttpRequest.cpp:176-178 | the destroy and heartbeat body has exactly the keys roomID and roomType, holding the arguments |
| Requests.RoomListDoc | TXCloudPortal/Common/HttpRequest.cpp:236-239 | the room-list body has exactly the keys count, index and roomType, holding the arguments |
| Requests.BuildCreateRoomDoc | TXCloudPortal/Common/HttpRequest.cpp:108-113 | the five field assignments produce the create-room body |
| Requests.BuildRoomRefDoc | TXCloudPortal/Common/HttpRequest.cpp:322-324 | the two field assignments of destroy and heartbeat produce the room-reference body |
| Requests.BuildRoomListDoc | TXCloudPortal/Common/HttpRequest.cpp:236-239 | the three field assignments produce the room-list body |
| Requests.BuildLoginRequest | TXCloudPortal/Common/HttpRequest.cpp:37-43 | the URL assembly and the single header push produce the login GET |
| Requests.BuildPost | TXCloudPortal/Common/HttpRequest.cpp:114-126 | serialising, formatting the length, assembling the URL and the two header pushes produce the POST request |
| Interpreter.Interpret | TXCloudPortal/Common/HttpRequest.cpp:48-78 | accepted iff the transport delivered a non-empty body that parses and whose code equals the threshold; transport failure gives SYSTEM_ERROR "Http request failed"; a parse failure gives WRONG_JSON with the operation's message; otherwise a miss gives the adapted code and the service message; a rejection is never ROOM_SUCCESS |
| Interpreter.TransportFailureIgnoresParser | TXCloudPortal/Common/HttpRequest.cpp:48-52 | after a transport failure the verdict is the same whatever the parser would say |
| Interpreter.AbsentCodeNeverSucceeds | TXCloudPortal/Common/HttpRequest.cpp:62-78 | a document without `code` is rejected under threshold 0 or 200, with the adapted code of -1 and the service message |
| HttpRequest.LoginOutcome | TXCloudPortal/Common/HttpRequest.cpp:48-101 | success iff the reply meets threshold 0; a failure carries the ladder's status and a default AuthData; a success carries message "" and the AuthData read from the optional members |
| HttpRequest.CreateRoomOutcome | TXCloudPortal/Common/HttpRequest.cpp:131-169 | success iff the reply meets threshold 0; a failure carries the ladder's status and ""; a success carries the service message and `roomID`, or "" when it is absent |
| HttpRequest.AckOutcome | TXCloudPortal/Common/HttpRequest.cpp:197-229 | for destroy and heartbeat: success iff the reply meets threshold 200; a failure carries the ladder's status; a success passes the service message through |
| HttpRequest.RoomListOutcome | TXCloudPortal/Common/HttpRequest.cpp:258-315 | success iff the reply meets threshold 0 and `rooms` is an array; any failure carries an empty list; a `rooms` that is not an array gives WRONG_JSON "Json parse failed"; a success has one room per array element, in order, each read from that element, and the service message |
| HttpRequest.CollectRooms | TXCloudPortal/Common/HttpRequest.cpp:302-313 | the loop yields exactly as many rooms as there are elements, and room i is read from element i |
| HttpRequest.GetLoginInfo | TXCloudPortal/Common/HttpRequest.cpp:28-103 | sends the login GET and invokes the callback exactly once, with LoginOutcome's status and payload |
| HttpRequest.CreateRoom | TXCloudPortal/Common/HttpRequest.cpp:105-171 | sends the create-room POST and invokes the callback exactly once, with CreateRoomOutcome's status and payload |
| HttpRequest.DestroyRoom | TXCloudPortal/Common/HttpRequest.cpp:173-231 | sends the room-reference POST to `delete_room` and invokes the callback exactly once, with AckOutcome's status |
| HttpRequest.Heartbeat | TXCloudPortal/Common/HttpRequest.cpp:319-377 | sends the room-reference POST to `room_heartbeat` and invokes the callback exactly once, with AckOutcome's status |
| HttpRequest.Acknowledge | TXCloudPortal/Common/HttpRequest.cpp:343-375 | the early-return ladder of destroy and heartbeat makes exactly one callback invocation, with AckOutcome's status |
| HttpRequest.GetRoomList | TXCloudPortal/Common/HttpRequest.cpp:233-317 | sends the room-list POST and invokes the callback exactly once, with RoomListOutcome's status and list |
| Properties.ThresholdAsymmetry | TXCloudPortal/Common/HttpRequest.cpp:74-78 | code 0 succeeds for login and create but is an adapted error for destroy and heartbeat; code 200 is the reverse, for all five |
| Properties.AbsentCodeFailsEverywhere | TXCloudPortal/Common/HttpRequest.cpp:62-66 | without `code`, every operation reports the adapted code of -1, the service message and a default payload |
| Properties.EarlyExitMessages | TXCloudPortal/Common/HttpRequest.cpp:258-270 | transport failure gives every operation "Http request failed" and a default payload; a parse failure gives "json parse failed", except "Json parse failed" for the room list |
| Properties.LoginFieldsFromPresentMembers | TXCloudPortal/Common/HttpRequest.cpp:80-101 | on a successful login, each field of the payload the callback receives is its member's value when present and the default AuthData's value when absent |
| Properties.LoginPayloadOnlyFromAuthMembers | TXCloudPortal/Common/HttpRequest.cpp:80-101 | two successful login replies that agree on the presence and value of sdkAppID, accountType, userID and userSig give the same callback invocation |
| Properties.OneRoomScenario | TXCloudPortal/Common/HttpRequest.cpp:290-315 | a list reply with one room object yields success with exactly that room |
| Properties.RoomsNotArrayScenario | TXCloudPortal/Common/HttpRequest.cpp:296-300 | a `rooms` member that is a string yields WRONG_JSON "Json parse failed" and an empty list |
| Properties.ServiceErrorScenario | TXCloudPortal/Common/HttpRequest.cpp:157-161 | code 7 with message "bad" yields the adapted code of 7, message "bad" and a default payload |

## Left out

- The task queue (`m_taskQueue.post`, the urgent `post(true, …)`, `quit`, `wait`): it only schedules work across threads. Each queued lambda body is modelled as a plain method. The model therefore says nothing about ordering, urgency, that login runs on the caller's thread, or callbacks dropped at shutdown.
- The constructor, destructor and `close`: they only start and stop the queue and the HTTP client.
- The transport (`http_get`, `http_post`, `http_close`): a foreign network client. Its result is the input `reply`, which the model does not relate to the request that was built.
- JSON text: `Json::Reader::parse` and `Json::FastWriter::write` are the oracles `codec.parse` and `codec.write`. The model reasons only about document structure and body length.
- Json.AsInt: a member of the wrong type reads as 0, which might not match JsonCpp's coercion or exception. Numbers outside the 32-bit range, reals and booleans have no constructor in the model.
- Json.AsString: a member of the wrong type reads as "", which might not match JsonCpp's coercion or exception. A room element that is neither an object nor null reads as empty fields, where JsonCpp's `operator[]` asserts. A null element reads as empty fields in both.
- Json.IsArray: whether a null value counts as an array is the parameter `nullIsArray`, because it depends on the JsonCpp release.
- `adaptRTCErrorCode`: its table is not part of this model, so it is the parameter `adapt`. The numeric values of `ROOM_SUCCESS`, `ROOM_ERR_SYSTEM_ERROR` and `ROOM_ERR_WRONG_JSON` come from a header that is not part of this model either. The tag `Adapted` keeps an adapted code apart from them, even where the numbers might coincide.
- Interpreter.Interpret: "success iff the reply meets the threshold" and "a rejection is never ROOM_SUCCESS" are stated about the `RoomSuccess` tag. The same goes for the four outcome functions. Numerically they hold only if `adaptRTCErrorCode` never maps a service code to the value of `ROOM_SUCCESS`, and that table is not part of this model.
- Json.IsMember: a root that parses to neither an object nor null (`[0]`, `5`, `"x"`) is read as having no members. Every operation then reports the adapted code of -1 with message "". In JsonCpp, `isMember` asserts on such a value, so the operation throws instead of calling back. The model does not capture that exception path.
- Decimal.Render: the size is an unbounded `nat`. On a 64-bit Windows build `%lu` takes a 32-bit `unsigned long`, so a body of 2^32 bytes or more would be rendered wrongly. The model does not capture that truncation.
- The default `AuthData`: its header is not part of this model, so every field is taken to start at 0 or "".
- `Ansi2Wide`, `UTF82Wide` and `LINFO`: encoding conversion and logging. Strings are sequences of characters, with no distinction between wide and narrow.
- The `{userID}` object that `getLoginInfo` builds and serialises (lines 31-35): the GET never sends it.
