/**
 * Request construction: the JSON body object each operation fills in field by
 * field, the endpoint URL (the domain followed by a path) and the header list.
 */
module Requests {
  import opened Wrappers
  import opened Json
  import Decimal

  /** What is handed to the HTTP client: a GET without body, or a POST with one. */
  datatype Request =
    | HttpGet(url: string, headers: seq<string>)
    | HttpPost(url: string, headers: seq<string>, body: string)

  const ContentTypeHeader := "Content-Type: application/json; charset=utf-8"
  const ContentLengthPrefix := "Content-Length: "

  const LoginPath := "get_login_info?userID="
  const CreateRoomPath := "create_room"
  const DestroyRoomPath := "delete_room"
  const RoomListPath := "get_room_list"
  const HeartbeatPath := "room_heartbeat"

  /** `format(L"Content-Length: %lu", n)`. */
  function ContentLengthHeader(n: nat): string
  {
    ContentLengthPrefix + Decimal.Render(n)
  }

  /** How a receiver reads a Content-Length header: the prefix, then only digits. */
  function ContentLengthOf(header: string): Option<nat>
  {
    var k := |ContentLengthPrefix|;
    if |header| > k && header[..k] == ContentLengthPrefix && Decimal.AllDigits(header[k..])
    then Some(Decimal.Parse(header[k..]))
    else None
  }

  /** The header the gateway writes announces exactly the size it was given. */
  lemma ContentLengthRoundTrip(n: nat)
    ensures ContentLengthOf(ContentLengthHeader(n)) == Some(n)
  {
    var h := ContentLengthHeader(n);
    var k := |ContentLengthPrefix|;
    assert h[..k] == ContentLengthPrefix;
    assert h[k..] == Decimal.Render(n);
    Decimal.ParseRender(n);
  }

  /** The GET of getLoginInfo: the user ID goes in the query string, only Content-Type is sent. */
  function LoginRequest(domain: string, userID: string): (r: Request)
    ensures r.HttpGet? && r.headers == [ContentTypeHeader]
    ensures |r.url| == |domain| + |LoginPath| + |userID|
    ensures r.url[..|domain|] == domain
    ensures r.url[|domain|..|domain| + |LoginPath|] == LoginPath
    ensures r.url[|domain| + |LoginPath|..] == userID
  {
    HttpGet(domain + LoginPath + userID, [ContentTypeHeader])
  }

  /**
   * The POST of every other operation: the serialised document is the body,
   * and the Content-Length header announces the body's size.
   */
  function PostRequest(domain: string, path: string, doc: Json, write: Json -> string): (r: Request)
    ensures r.HttpPost? && r.url == domain + path && r.body == write(doc)
    ensures |r.headers| == 2 && r.headers[0] == ContentTypeHeader
    ensures ContentLengthOf(r.headers[1]) == Some(|r.body|)
  {
    var jsonStr := write(doc);
    ContentLengthRoundTrip(|jsonStr|);
    HttpPost(domain + path, [ContentTypeHeader, ContentLengthHeader(|jsonStr|)], jsonStr)
  }

  /** The createRoom body: exactly five keys, `needHeartBeat` always 0. */
  function CreateRoomDoc(roomID: string, roomInfo: string, roomType: string, userID: string): (d: Json)
    ensures d.Obj? && d.members.Keys == {"roomID", "roomInfo", "roomType", "userID", "needHeartBeat"}
    ensures Member(d, "roomID") == Str(roomID) && Member(d, "roomInfo") == Str(roomInfo)
    ensures Member(d, "roomType") == Str(roomType) && Member(d, "userID") == Str(userID)
    ensures Member(d, "needHeartBeat") == Int(0)
  {
    Obj(map["roomID" := Str(roomID), "roomInfo" := Str(roomInfo), "roomType" := Str(roomType),
            "userID" := Str(userID), "needHeartBeat" := Int(0)])
  }

  /** The destroyRoom and heartbeat body: exactly `roomID` and `roomType`. */
  function RoomRefDoc(roomID: string, roomType: string): (d: Json)
    ensures d.Obj? && d.members.Keys == {"roomID", "roomType"}
    ensures Member(d, "roomID") == Str(roomID) && Member(d, "roomType") == Str(roomType)
  {
    Obj(map["roomID" := Str(roomID), "roomType" := Str(roomType)])
  }

  /** The getRoomList body: exactly `count`, `index` and `roomType`. */
  function RoomListDoc(index: Int32, cnt: Int32, roomType: string): (d: Json)
    ensures d.Obj? && d.members.Keys == {"count", "index", "roomType"}
    ensures Member(d, "count") == Int(cnt) && Member(d, "index") == Int(index)
    ensures Member(d, "roomType") == Str(roomType)
  {
    Obj(map["count" := Int(cnt), "index" := Int(index), "roomType" := Str(roomType)])
  }

  /** createRoom's `jsonObj["k"] = ...` assignments, one field at a time. */
  method BuildCreateRoomDoc(roomID: string, roomInfo: string, roomType: string, userID: string)
    returns (jsonObj: Json)
    ensures jsonObj == CreateRoomDoc(roomID, roomInfo, roomType, userID)
  {
    var fields: map<string, Json> := map[];
    fields := fields["roomID" := Str(roomID)];
    fields := fields["roomInfo" := Str(roomInfo)];
    fields := fields["roomType" := Str(roomType)];
    fields := fields["userID" := Str(userID)];
    fields := fields["needHeartBeat" := Int(0)];
    jsonObj := Obj(fields);
  }

  /** destroyRoom's and heartbeat's field assignments. */
  method BuildRoomRefDoc(roomID: string, roomType: string) returns (jsonObj: Json)
    ensures jsonObj == RoomRefDoc(roomID, roomType)
  {
    var fields: map<string, Json> := map[];
    fields := fields["roomID" := Str(roomID)];
    fields := fields["roomType" := Str(roomType)];
    jsonObj := Obj(fields);
  }

  /** getRoomList's field assignments. */
  method BuildRoomListDoc(index: Int32, cnt: Int32, roomType: string) returns (jsonObj: Json)
    ensures jsonObj == RoomListDoc(index, cnt, roomType)
  {
    var fields: map<string, Json> := map[];
    fields := fields["count" := Int(cnt)];
    fields := fields["index" := Int(index)];
    fields := fields["roomType" := Str(roomType)];
    jsonObj := Obj(fields);
  }

  /** getLoginInfo's URL assembly and its single `headers.push_back`. */
  method BuildLoginRequest(domain: string, userID: string) returns (req: Request)
    ensures req == LoginRequest(domain, userID)
  {
    var url := domain + LoginPath + userID;
    var headers: seq<string> := [];
    headers := headers + [ContentTypeHeader];
    req := HttpGet(url, headers);
  }

  /** Serialising the body, then the URL and the two `headers.push_back` calls of a POST. */
  method BuildPost(domain: string, path: string, jsonObj: Json, write: Json -> string)
    returns (req: Request)
    ensures req == PostRequest(domain, path, jsonObj, write)
  {
    var jsonStr := write(jsonObj);
    var contentLength := ContentLengthHeader(|jsonStr|);
    var url := domain + path;
    var headers: seq<string> := [];
    headers := headers + [ContentTypeHeader];
    headers := headers + [contentLength];
    req := HttpPost(url, headers, jsonStr);
  }
}
